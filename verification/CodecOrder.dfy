/** Member order does not matter to the decoder (section 4 of RFC 8259 calls an
    object an unordered collection). */
module CodecOrder {
  import opened Common
  import opened Codec

  function Lookup(ms: seq<Member>, key: string): (r: Option<Json>)
    ensures r.None? <==> key !in Names(ms)
  {
    if ms == [] then None
    else if ms[0].key == key then Some(ms[0].val)
    else Lookup(ms[1..], key)
  }

  ghost predicate UniqueKeys(ms: seq<Member>) {
    ms == [] || (ms[0].key !in Names(ms[1..]) && UniqueKeys(ms[1..]))
  }

  /** Equal up to the order of object members, at every nesting level. */
  ghost predicate Same(v: Json, w: Json)
    decreases v, 0
  {
    || v == w
    || (v.JObj? && w.JObj? && SameMembers(v.members, w.members))
    || (v.JArr? && w.JArr? && |v.elems| == |w.elems| && forall i :: 0 <= i < |v.elems| ==> Same(v.elems[i], w.elems[i]))
  }

  /** No repeated key, the same keys, and the same value under each. */
  ghost predicate SameMembers(a: seq<Member>, b: seq<Member>)
    decreases a, 1
  {
    && UniqueKeys(a) && UniqueKeys(b)
    && Names(a) == Names(b)
    && (forall i :: 0 <= i < |a| ==> a[i].key in Names(b) && Same(a[i].val, Lookup(b, a[i].key).value))
  }

  lemma {:induction false} KeyIsName(ms: seq<Member>, i: nat)
    requires i < |ms|
    ensures ms[i].key in Names(ms)
  {
    if i > 0 { KeyIsName(ms[1..], i - 1); }
  }

  lemma {:induction false} UniqueLookup(ms: seq<Member>, i: nat)
    requires UniqueKeys(ms) && i < |ms|
    ensures Lookup(ms, ms[i].key) == Some(ms[i].val)
  {
    if i > 0 {
      KeyIsName(ms[1..], i - 1);
      UniqueLookup(ms[1..], i - 1);
    }
  }

  lemma LookupIndex(ms: seq<Member>, key: string) returns (i: nat)
    requires key in Names(ms)
    ensures i < |ms| && ms[i].key == key && Lookup(ms, key) == Some(ms[i].val)
  {
    assert Lookup(ms, key).Some?;
    if ms[0].key == key {
      i := 0;
    } else {
      i := LookupIndex(ms[1..], key);
      i := i + 1;
    }
  }

  lemma BagMember(a: seq<Member>, b: seq<Member>, i: nat) returns (j: nat)
    requires multiset(a) == multiset(b) && i < |a|
    ensures j < |b| && b[j] == a[i]
  {
    assert a[i] in multiset(b);
    j :| 0 <= j < |b| && b[j] == a[i];
  }

  lemma BagNames(a: seq<Member>, b: seq<Member>)
    requires multiset(a) == multiset(b)
    ensures Names(a) <= Names(b)
  {
    forall key | key in Names(a) ensures key in Names(b) {
      var i := LookupIndex(a, key);
      var j := BagMember(a, b, i);
      KeyIsName(b, j);
    }
  }

  /** Any permutation of an object with distinct keys counts as the same. */
  lemma PermutationIsSame(a: seq<Member>, b: seq<Member>)
    requires multiset(a) == multiset(b) && UniqueKeys(a) && UniqueKeys(b)
    ensures Same(JObj(a), JObj(b))
  {
    BagNames(a, b);
    BagNames(b, a);
    forall i | 0 <= i < |a| ensures a[i].key in Names(b) && Same(a[i].val, Lookup(b, a[i].key).value) {
      var j := BagMember(a, b, i);
      KeyIsName(b, j);
      UniqueLookup(b, j);
    }
    assert SameMembers(a, b);
  }

  /** The slot of field `i` after decoding: its member's value, if it has one. */
  ghost predicate SlotIs(fs: seq<Field>, slots: seq<Slot>, ms: seq<Member>, i: nat, r: Slot)
    requires Shaped(fs, slots) && i < |fs|
  {
    match Lookup(ms, fs[i].name)
    case None => r == slots[i]
    case Some(v) => DecodeSlot(fs[i].ty, slots[i], v) == Some(r)
  }

  ghost predicate SlotReads(fs: seq<Field>, slots: seq<Slot>, ms: seq<Member>, i: nat)
    requires Shaped(fs, slots) && i < |fs|
  {
    match Lookup(ms, fs[i].name)
    case None => true
    case Some(v) => DecodeSlot(fs[i].ty, slots[i], v).Some?
  }

  /** What one member does to the slot-by-slot view. */
  lemma OneMember(fs: seq<Field>, slots: seq<Slot>, ms: seq<Member>, next: seq<Slot>, i: nat)
    requires WellFormed(fs) && Shaped(fs, slots) && Shaped(fs, next) && UniqueKeys(ms) && ms != [] && i < |fs|
    requires match FieldIndex(fs, ms[0].key)
             case None => next == slots
             case Some(at) => DecodeSlot(fs[at].ty, slots[at], ms[0].val).Some?
                              && next == slots[at := DecodeSlot(fs[at].ty, slots[at], ms[0].val).value]
    ensures SlotReads(fs, slots, ms, i) <==> SlotReads(fs, next, ms[1..], i)
    ensures forall r :: SlotIs(fs, slots, ms, i, r) <==> SlotIs(fs, next, ms[1..], i, r)
  {
    FieldIndexOf(fs, i);
    if ms[0].key == fs[i].name {
      assert Lookup(ms[1..], fs[i].name).None?;
    }
  }

  /** With unique keys, decoding is slot by slot. */
  lemma {:induction false} Pointwise(fs: seq<Field>, slots: seq<Slot>, ms: seq<Member>)
    requires WellFormed(fs) && Shaped(fs, slots) && UniqueKeys(ms)
    ensures DecodeMembers(fs, slots, ms).Some? <==> forall i :: 0 <= i < |fs| ==> SlotReads(fs, slots, ms, i)
    ensures DecodeMembers(fs, slots, ms).Some? ==>
              forall i :: 0 <= i < |fs| ==> SlotIs(fs, slots, ms, i, DecodeMembers(fs, slots, ms).value[i])
    decreases ms
  {
    if ms != [] {
      var next := slots;
      var at := FieldIndex(fs, ms[0].key);
      if at.Some? {
        var d := DecodeSlot(fs[at.value].ty, slots[at.value], ms[0].val);
        if d.None? {
          assert !SlotReads(fs, slots, ms, at.value);
          return;
        }
        next := slots[at.value := d.value];
      }
      Pointwise(fs, next, ms[1..]);
      forall i | 0 <= i < |fs|
        ensures SlotReads(fs, slots, ms, i) <==> SlotReads(fs, next, ms[1..], i)
        ensures forall r :: SlotIs(fs, slots, ms, i, r) <==> SlotIs(fs, next, ms[1..], i, r)
      {
        OneMember(fs, slots, ms, next, i);
      }
    }
  }

  /** Values that differ in member order only decode to the same slot, or both
      fail. */
  lemma {:induction false} SameDecodes(ty: Type, was: Slot, v: Json, w: Json)
    requires WellFormedType(ty) && Same(v, w) && ShapedSlot(ty, was)
    ensures DecodeSlot(ty, was, v) == DecodeSlot(ty, was, w)
    decreases v, 0
  {
    if v != w {
      match ty
      case TObj(fs) =>
        if v.JObj? { SameObjects(fs, was.slots, v.members, w.members); }
      case TArr(fs) =>
        if v.JArr? { SameElems(fs, v.elems, w.elems); }
      case _ =>
    }
  }

  lemma {:induction false} SameElems(fs: seq<Field>, vs: seq<Json>, ws: seq<Json>)
    requires WellFormed(fs) && |vs| == |ws| && forall i :: 0 <= i < |vs| ==> Same(vs[i], ws[i])
    ensures DecodeElems(fs, vs) == DecodeElems(fs, ws)
    decreases vs, 0
  {
    if vs != [] {
      assert Same(vs[0], ws[0]);
      SameDecodes(TObj(fs), SObj(Zeros(fs)), vs[0], ws[0]);
      SameElems(fs, vs[1..], ws[1..]);
      if vs[0] != ws[0] && vs[0].JObj? {
        SameObjects(fs, Zeros(fs), vs[0].members, ws[0].members);
      }
    }
  }

  /** A field sees the same member value in both objects. */
  lemma {:induction false} SameField(fs: seq<Field>, slots: seq<Slot>, a: seq<Member>, b: seq<Member>, i: nat, r: Slot)
    requires WellFormed(fs) && Shaped(fs, slots) && SameMembers(a, b) && i < |fs|
    ensures SlotReads(fs, slots, a, i) <==> SlotReads(fs, slots, b, i)
    ensures SlotIs(fs, slots, a, i, r) <==> SlotIs(fs, slots, b, i, r)
    decreases a, 0
  {
    var name := fs[i].name;
    if name in Names(a) {
      var j := LookupIndex(a, name);
      assert WellFormedType(fs[i].ty) && ShapedSlot(fs[i].ty, slots[i]);
      SameDecodes(fs[i].ty, slots[i], a[j].val, Lookup(b, name).value);
    }
  }

  /** Objects that differ in member order only decode identically, the report
      of missing fields included. */
  lemma {:induction false} SameObjects(fs: seq<Field>, slots: seq<Slot>, a: seq<Member>, b: seq<Member>)
    requires WellFormed(fs) && Shaped(fs, slots) && SameMembers(a, b)
    ensures DecodeObj(fs, slots, a) == DecodeObj(fs, slots, b)
    decreases a, 1
  {
    Pointwise(fs, slots, a);
    Pointwise(fs, slots, b);
    forall i | 0 <= i < |fs| ensures SlotReads(fs, slots, a, i) <==> SlotReads(fs, slots, b, i) {
      SameField(fs, slots, a, b, i, slots[i]);
    }
    var x, y := DecodeMembers(fs, slots, a), DecodeMembers(fs, slots, b);
    assert x.Some? <==> y.Some?;
    if x.Some? {
      forall i | 0 <= i < |fs| ensures x.value[i] == y.value[i] {
        assert SlotIs(fs, slots, a, i, x.value[i]) && SlotIs(fs, slots, b, i, y.value[i]);
        SameField(fs, slots, a, b, i, x.value[i]);
      }
      assert x.value == y.value;
    }
  }
}
