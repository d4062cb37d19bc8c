/** Exactly when decoding fails, and what a repeated member does, told from the
    JSON value and the table of fields alone. */
module CodecErrors {
  import opened Common
  import opened Codec

  // ----- when decoding fails -----

  /** A value that the decoder takes for a field of this type: of the right
      kind, integers in range, and objects complete at every level. */
  ghost predicate Acceptable(ty: Type, v: Json)
    decreases v, 0
  {
    match ty
    case TStr => v.JStr?
    case TInt => v.JNum? && -0x8000_0000_0000_0000 <= v.n < 0x8000_0000_0000_0000
    case TTime => v.JTime?
    case TOptStr => v.JStr?
    case TObj(fs) => v.JObj? && Complete(fs, v.members)
    case TArr(fs) => v.JArr? && forall i :: 0 <= i < |v.elems| ==> v.elems[i].JObj? && Complete(fs, v.elems[i].members)
  }

  /** Every member with a field's name is acceptable, repeats included; members
      with other names may hold anything. */
  ghost predicate GoodMembers(fs: seq<Field>, ms: seq<Member>)
    decreases ms, 1
  {
    forall i, k :: 0 <= i < |ms| && 0 <= k < |fs| && fs[k].name == ms[i].key ==> Acceptable(fs[k].ty, ms[i].val)
  }

  ghost predicate Complete(fs: seq<Field>, ms: seq<Member>)
    decreases ms, 2
  {
    && GoodMembers(fs, ms)
    && forall k :: 0 <= k < |fs| && fs[k].required ==> exists i :: 0 <= i < |ms| && ms[i].key == fs[k].name
  }

  lemma {:induction false} NameOccurs(ms: seq<Member>, name: string)
    ensures name in Names(ms) <==> exists i :: 0 <= i < |ms| && ms[i].key == name
  {
    if ms != [] {
      NameOccurs(ms[1..], name);
      if name in Names(ms[1..]) {
        var i :| 0 <= i < |ms| - 1 && ms[1..][i].key == name;
        assert ms[i + 1].key == name;
      } else if i :| 0 <= i < |ms| && ms[i].key == name {
        assert i > 0 ==> ms[1..][i - 1].key == name;
      }
    }
  }

  lemma RequiredOccur(fs: seq<Field>, ms: seq<Member>)
    ensures AllRequiredOccur(fs, Names(ms)) <==>
            forall k :: 0 <= k < |fs| && fs[k].required ==> exists i :: 0 <= i < |ms| && ms[i].key == fs[k].name
  {
    forall k | 0 <= k < |fs|
      ensures fs[k].name in Names(ms) <==> exists i :: 0 <= i < |ms| && ms[i].key == fs[k].name
    {
      NameOccurs(ms, fs[k].name);
    }
  }

  /** The first member splits off. */
  lemma GoodFirst(fs: seq<Field>, ms: seq<Member>)
    requires UniqueNames(fs) && ms != []
    ensures GoodMembers(fs, ms) <==>
            && GoodMembers(fs, ms[1..])
            && (FieldIndex(fs, ms[0].key).Some? ==> Acceptable(fs[FieldIndex(fs, ms[0].key).value].ty, ms[0].val))
  {
    if GoodMembers(fs, ms) {
      forall i, k | 0 <= i < |ms| - 1 && 0 <= k < |fs| && fs[k].name == ms[1..][i].key
        ensures Acceptable(fs[k].ty, ms[1..][i].val)
      {
        assert ms[1..][i] == ms[i + 1];
      }
    }
    if GoodMembers(fs, ms[1..]) {
      forall i, k | 0 < i < |ms| && 0 <= k < |fs| && fs[k].name == ms[i].key ensures Acceptable(fs[k].ty, ms[i].val) {
        assert ms[1..][i - 1] == ms[i];
      }
    }
    forall k | 0 <= k < |fs| && fs[k].name == ms[0].key ensures FieldIndex(fs, ms[0].key) == Some(k) {
      FieldIndexOf(fs, k);
    }
  }

  lemma {:induction false} MembersAcceptedIff(fs: seq<Field>, slots: seq<Slot>, ms: seq<Member>)
    requires WellFormed(fs) && Shaped(fs, slots)
    ensures DecodeMembers(fs, slots, ms).Some? <==> GoodMembers(fs, ms)
    decreases ms, 1
  {
    if ms != [] {
      GoodFirst(fs, ms);
      match FieldIndex(fs, ms[0].key)
      case None => MembersAcceptedIff(fs, slots, ms[1..]);
      case Some(i) =>
        assert WellFormedType(fs[i].ty) && ShapedSlot(fs[i].ty, slots[i]);
        AcceptedIff(fs[i].ty, slots[i], ms[0].val);
        var d := DecodeSlot(fs[i].ty, slots[i], ms[0].val);
        if d.Some? {
          MembersAcceptedIff(fs, slots[i := d.value], ms[1..]);
        }
    }
  }

  /** Whatever the struct held before: an object is decoded iff its members are
      good and every required name occurs; a bad member is reported as such
      whatever else is missing, and otherwise the report is of missing names. */
  lemma {:induction false} ObjectAcceptedIff(fs: seq<Field>, slots: seq<Slot>, ms: seq<Member>)
    requires WellFormed(fs) && Shaped(fs, slots)
    ensures DecodeObj(fs, slots, ms).Filled? <==> Complete(fs, ms)
    ensures DecodeObj(fs, slots, ms).BadMember? <==> !GoodMembers(fs, ms)
    decreases ms, 2
  {
    MembersAcceptedIff(fs, slots, ms);
    RequiredOccur(fs, ms);
    if GoodMembers(fs, ms) {
      RequiredFieldCheck(fs, slots, ms);
    }
  }

  lemma {:induction false} AcceptedIff(ty: Type, was: Slot, v: Json)
    requires WellFormedType(ty) && ShapedSlot(ty, was)
    ensures DecodeSlot(ty, was, v).Some? <==> Acceptable(ty, v)
    decreases v, 0
  {
    match ty
    case TObj(fs) => if v.JObj? { ObjectAcceptedIff(fs, was.slots, v.members); }
    case TArr(fs) => if v.JArr? { ElemsAcceptedIff(fs, v.elems); }
    case _ =>
  }

  ghost predicate GoodElems(fs: seq<Field>, vs: seq<Json>) {
    forall i :: 0 <= i < |vs| ==> vs[i].JObj? && Complete(fs, vs[i].members)
  }

  lemma {:induction false} ElemsAcceptedIff(fs: seq<Field>, vs: seq<Json>)
    requires WellFormed(fs)
    ensures DecodeElems(fs, vs).Some? <==> GoodElems(fs, vs)
    decreases vs, 0
  {
    if vs != [] {
      ElemsAcceptedIff(fs, vs[1..]);
      if vs[0].JObj? {
        ObjectAcceptedIff(fs, Zeros(fs), vs[0].members);
      }
      if GoodElems(fs, vs[1..]) {
        forall i | 0 < i < |vs| ensures vs[i].JObj? && Complete(fs, vs[i].members) {
          assert vs[1..][i - 1] == vs[i];
        }
      }
      if GoodElems(fs, vs) {
        forall i | 0 <= i < |vs| - 1 ensures vs[1..][i].JObj? && Complete(fs, vs[1..][i].members) {
          assert vs[1..][i] == vs[i + 1];
        }
      }
    }
  }

  // ----- repeated members -----

  /** The value of the last member with this name. */
  function Last(ms: seq<Member>, name: string): Option<Json> {
    if ms == [] then None
    else if ms[|ms| - 1].key == name then Some(ms[|ms| - 1].val)
    else Last(ms[..|ms| - 1], name)
  }

  lemma {:induction false} LastFromFront(ms: seq<Member>, name: string)
    requires ms != []
    ensures Last(ms, name) == match Last(ms[1..], name)
                              case Some(v) => Some(v)
                              case None => if ms[0].key == name then Some(ms[0].val) else None
  {
    if |ms| > 1 {
      var init := ms[..|ms| - 1];
      LastFromFront(init, name);
      assert init[1..] == ms[1..][..|ms| - 2] && ms[1..][|ms| - 2] == ms[|ms| - 1];
    }
  }

  predicate Plain(ty: Type) { !ty.TObj? && !ty.TArr? }

  /** What a field that is neither object nor array holds for a value. */
  function Held(ty: Type, v: Json): Slot
    requires Plain(ty) && Acceptable(ty, v)
  {
    match ty
    case TStr => SStr(v.s)
    case TInt => SInt(v.n)
    case TTime => STime(v.at)
    case TOptStr => SOpt(true, v.s)
  }

  /** The field ends with the value of its last member, or keeps what the struct
      held. */
  ghost predicate EndsWith(ty: Type, was: Slot, last: Option<Json>, now: Slot) {
    match last
    case None => now == was
    case Some(v) => Acceptable(ty, v) && (Plain(ty) ==> now == Held(ty, v))
  }

  /** A field that is neither object nor array takes its last member; a field
      without a member keeps what it had. */
  lemma {:induction false} LastMemberWins(fs: seq<Field>, slots: seq<Slot>, ms: seq<Member>, k: nat)
    requires WellFormed(fs) && Shaped(fs, slots) && k < |fs| && DecodeMembers(fs, slots, ms).Some?
    ensures EndsWith(fs[k].ty, slots[k], Last(ms, fs[k].name), DecodeMembers(fs, slots, ms).value[k])
    decreases ms
  {
    if ms != [] {
      LastFromFront(ms, fs[k].name);
      FieldIndexOf(fs, k);
      match FieldIndex(fs, ms[0].key)
      case None => LastMemberWins(fs, slots, ms[1..], k);
      case Some(i) =>
        assert WellFormedType(fs[i].ty) && ShapedSlot(fs[i].ty, slots[i]);
        AcceptedIff(fs[i].ty, slots[i], ms[0].val);
        LastMemberWins(fs, slots[i := DecodeSlot(fs[i].ty, slots[i], ms[0].val).value], ms[1..], k);
    }
  }

  /** A repeated object is decoded into the struct that the first one left: its
      fields without a member in the second one stay. */
  lemma RepeatedNested(fs: seq<Field>, was: seq<Slot>, ms: seq<Member>, k: nat)
    requires WellFormed(fs) && Shaped(fs, was) && k < |fs| && Complete(fs, ms)
    ensures var r := DecodeSlot(TObj(fs), SObj(was), JObj(ms));
            && r.Some? && r.value.SObj? && |r.value.slots| == |fs|
            && EndsWith(fs[k].ty, was[k], Last(ms, fs[k].name), r.value.slots[k])
  {
    ObjectAcceptedIff(fs, was, ms);
    MembersAcceptedIff(fs, was, ms);
    LastMemberWins(fs, was, ms, k);
  }
}
