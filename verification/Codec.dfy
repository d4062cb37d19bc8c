/** The generated JSON codec (order_service/internal/api/oas_json_gen.go) over
    parsed JSON values instead of bytes. All four generated types follow one
    scheme: a switch over the member name, a bit per required field, and the
    check for missing fields at the end. The scheme is modelled once, over a
    table of fields, and the four tables are given below it. */
module Codec {
  import opened Common
  import opened Models

  datatype Json =
    | JStr(s: string)
    | JNum(n: int)         // an integer literal of any size
    | JTime(at: int)       // a string that is an RFC 3339 date-time
    | JObj(members: seq<Member>)
    | JArr(elems: seq<Json>)
    | JOther               // null, booleans, other numbers

  datatype Member = Member(key: string, val: Json)

  datatype Type = TStr | TInt | TTime | TOptStr | TObj(fields: seq<Field>) | TArr(fields: seq<Field>)

  /** `required` says whether the decoder has a bit for the field. */
  datatype Field = Field(name: string, ty: Type, required: bool)

  /** The value of one struct field; a struct is the sequence of its slots. */
  datatype Slot =
    | SStr(s: string)
    | SInt(n: Int64)
    | STime(at: int)
    | SOpt(isSet: bool, s: string)
    | SObj(slots: seq<Slot>)
    | SArr(elems: seq<seq<Slot>>)

  datatype Decoded = Filled(slots: seq<Slot>) | BadMember | Missing(names: seq<string>)

  // ----- schemas -----

  ghost predicate UniqueNames(fs: seq<Field>) {
    forall i, j :: 0 <= i < j < |fs| ==> fs[i].name != fs[j].name
  }

  ghost predicate WellFormed(fs: seq<Field>)
    decreases fs
  {
    && UniqueNames(fs)
    && (forall i :: 0 <= i < |fs| ==> WellFormedType(fs[i].ty) && (fs[i].required <==> !fs[i].ty.TOptStr?))
  }

  ghost predicate WellFormedType(ty: Type)
    decreases ty
  {
    ty.TObj? || ty.TArr? ==> WellFormed(ty.fields)
  }

  /** The slots have the shape of the schema. */
  predicate Shaped(fs: seq<Field>, slots: seq<Slot>)
    decreases fs
  {
    |slots| == |fs| && forall i :: 0 <= i < |fs| ==> ShapedSlot(fs[i].ty, slots[i])
  }

  predicate ShapedSlot(ty: Type, s: Slot)
    decreases ty
  {
    match ty
    case TStr => s.SStr?
    case TInt => s.SInt?
    case TTime => s.STime?
    case TOptStr => s.SOpt?
    case TObj(fs) => s.SObj? && Shaped(fs, s.slots)
    case TArr(fs) => s.SArr? && forall i :: 0 <= i < |s.elems| ==> Shaped(fs, s.elems[i])
  }

  /** A fresh struct. */
  function Zeros(fs: seq<Field>): (r: seq<Slot>)
    ensures Shaped(fs, r)
    decreases fs
  {
    seq(|fs|, i requires 0 <= i < |fs| => Zero(fs[i].ty))
  }

  function Zero(ty: Type): (r: Slot)
    ensures ShapedSlot(ty, r)
    decreases ty
  {
    match ty
    case TStr => SStr("")
    case TInt => SInt(0)
    case TTime => STime(0)
    case TOptStr => SOpt(false, "")
    case TObj(fs) => SObj(Zeros(fs))
    case TArr(_) => SArr([])
  }

  // ----- encoding -----

  function EncodeObj(fs: seq<Field>, slots: seq<Slot>): seq<Member>
    requires Shaped(fs, slots)
    decreases fs, 1, 0
  {
    EncodeFrom(fs, slots, 0)
  }

  /** The members for the fields from `i` on; an unset optional is skipped. */
  function EncodeFrom(fs: seq<Field>, slots: seq<Slot>, i: nat): seq<Member>
    requires Shaped(fs, slots) && i <= |fs|
    decreases fs, 0, |fs| - i
  {
    if i == |fs| then []
    else if slots[i].SOpt? && !slots[i].isSet then EncodeFrom(fs, slots, i + 1)
    else [Member(fs[i].name, EncodeSlot(fs[i].ty, slots[i]))] + EncodeFrom(fs, slots, i + 1)
  }

  function EncodeSlot(ty: Type, s: Slot): Json
    requires ShapedSlot(ty, s)
    decreases ty, 3, 0
  {
    match ty
    case TStr => JStr(s.s)
    case TInt => JNum(s.n)
    case TTime => JTime(s.at)
    case TOptStr => JStr(s.s)
    case TObj(fs) => JObj(EncodeObj(fs, s.slots))
    case TArr(fs) => JArr(EncodeElems(fs, s.elems))
  }

  function EncodeElems(fs: seq<Field>, elems: seq<seq<Slot>>): (r: seq<Json>)
    requires forall i :: 0 <= i < |elems| ==> Shaped(fs, elems[i])
    ensures |r| == |elems|
    decreases fs, 2, |elems|
  {
    if elems == [] then [] else [JObj(EncodeObj(fs, elems[0]))] + EncodeElems(fs, elems[1..])
  }

  // ----- decoding -----

  /** The case of the switch that a name selects. */
  function FieldIndex(fs: seq<Field>, name: string): (r: Option<nat>)
    ensures r.Some? ==> r.value < |fs| && fs[r.value].name == name
    ensures r.None? ==> forall i :: 0 <= i < |fs| ==> fs[i].name != name
  {
    if fs == [] then None
    else if fs[0].name == name then Some(0)
    else match FieldIndex(fs[1..], name) case None => None case Some(i) => Some(i + 1)
  }

  function Names(ms: seq<Member>): set<string> {
    if ms == [] then {} else {ms[0].key} + Names(ms[1..])
  }

  /** Decode into a struct that may already hold something: a repeated member
      overwrites, an unknown one is skipped, and the first bad one ends it. */
  function DecodeMembers(fs: seq<Field>, slots: seq<Slot>, ms: seq<Member>): (r: Option<seq<Slot>>)
    requires Shaped(fs, slots)
    ensures r.Some? ==> Shaped(fs, r.value)
    decreases ms, 0
  {
    if ms == [] then Some(slots)
    else
      match FieldIndex(fs, ms[0].key)
      case None => DecodeMembers(fs, slots, ms[1..])
      case Some(i) =>
        match DecodeSlot(fs[i].ty, slots[i], ms[0].val)
        case None => None
        case Some(s) => DecodeMembers(fs, slots[i := s], ms[1..])
  }

  function DecodeSlot(ty: Type, was: Slot, v: Json): (r: Option<Slot>)
    requires ShapedSlot(ty, was)
    ensures r.Some? ==> ShapedSlot(ty, r.value)
    decreases v, 0
  {
    match ty
    case TStr => if v.JStr? then Some(SStr(v.s)) else None
    case TInt => if v.JNum? && -0x8000_0000_0000_0000 <= v.n < 0x8000_0000_0000_0000 then Some(SInt(v.n)) else None
    case TTime => if v.JTime? then Some(STime(v.at)) else None
    case TOptStr => if v.JStr? then Some(SOpt(true, v.s)) else None
    case TObj(fs) =>
      if !v.JObj? then None
      else (match DecodeObj(fs, was.slots, v.members) case Filled(slots) => Some(SObj(slots)) case _ => None)
    case TArr(fs) =>
      if !v.JArr? then None
      else (match DecodeElems(fs, v.elems) case None => None case Some(elems) => Some(SArr(elems)))
  }

  function DecodeElems(fs: seq<Field>, vs: seq<Json>): (r: Option<seq<seq<Slot>>>)
    ensures r.Some? ==> forall i :: 0 <= i < |r.value| ==> Shaped(fs, r.value[i])
    decreases vs, 0
  {
    if vs == [] then Some([])
    else if !vs[0].JObj? then None
    else
      match DecodeObj(fs, Zeros(fs), vs[0].members)
      case Filled(slots) => (match DecodeElems(fs, vs[1..]) case None => None case Some(rest) => Some([slots] + rest))
      case _ => None
  }

  /** The names of the required fields among the first `n` that do not occur,
      in field order. */
  function MissingNames(fs: seq<Field>, seen: set<string>, n: nat): seq<string>
    requires n <= |fs|
  {
    if n == 0 then []
    else
      MissingNames(fs, seen, n - 1)
      + if fs[n - 1].required && fs[n - 1].name !in seen then [fs[n - 1].name] else []
  }

  function DecodeObj(fs: seq<Field>, slots: seq<Slot>, ms: seq<Member>): (r: Decoded)
    requires Shaped(fs, slots)
    ensures r.Filled? ==> Shaped(fs, r.slots)
    decreases ms, 1
  {
    match DecodeMembers(fs, slots, ms)
    case None => BadMember
    case Some(done) =>
      var missing := MissingNames(fs, Names(ms), |fs|);
      if missing == [] then Filled(done) else Missing(missing)
  }

  // ----- the required-field check -----

  ghost predicate AllRequiredOccur(fs: seq<Field>, seen: set<string>) {
    forall i :: 0 <= i < |fs| && fs[i].required ==> fs[i].name in seen
  }

  lemma {:induction false} MissingNamesAre(fs: seq<Field>, seen: set<string>, n: nat)
    requires n <= |fs|
    ensures forall x :: x in MissingNames(fs, seen, n) <==>
                        exists i :: 0 <= i < n && fs[i].required && fs[i].name == x && x !in seen
  {
    if n > 0 {
      MissingNamesAre(fs, seen, n - 1);
    }
  }

  /** With every member well typed, repeats, unknown names and any order
      allowed: decoding succeeds iff every required name occurs, and otherwise
      reports exactly the required names that do not. */
  lemma RequiredFieldCheck(fs: seq<Field>, slots: seq<Slot>, ms: seq<Member>)
    requires Shaped(fs, slots) && DecodeMembers(fs, slots, ms).Some?
    ensures DecodeObj(fs, slots, ms).Filled? <==> AllRequiredOccur(fs, Names(ms))
    ensures !DecodeObj(fs, slots, ms).Filled? ==>
              && DecodeObj(fs, slots, ms).Missing?
              && forall x :: x in DecodeObj(fs, slots, ms).names <==>
                             exists i :: 0 <= i < |fs| && fs[i].required && fs[i].name == x && x !in Names(ms)
  {
    var missing := MissingNames(fs, Names(ms), |fs|);
    MissingNamesAre(fs, Names(ms), |fs|);
    if missing != [] {
      assert missing[0] in missing;
    }
    forall i | 0 <= i < |fs| && fs[i].required && fs[i].name !in Names(ms) ensures fs[i].name in missing {}
  }

  lemma {:induction false} NotReportedYet(fs: seq<Field>, seen: set<string>, n: nat, k: nat)
    requires UniqueNames(fs) && n <= k < |fs|
    ensures fs[k].name !in MissingNames(fs, seen, n)
  {
    if n > 0 {
      NotReportedYet(fs, seen, n - 1, k);
      assert fs[n - 1].name != fs[k].name;
    }
  }

  /** In a schema with unique names no name is reported twice. */
  lemma {:induction false} MissingNamesDistinct(fs: seq<Field>, seen: set<string>, n: nat)
    requires UniqueNames(fs) && n <= |fs|
    ensures NoDup(MissingNames(fs, seen, n))
  {
    if n > 0 {
      MissingNamesDistinct(fs, seen, n - 1);
      var init, name := MissingNames(fs, seen, n - 1), fs[n - 1].name;
      if fs[n - 1].required && name !in seen {
        NotReportedYet(fs, seen, n - 1, n - 1);
        NoDupInserted(init, |init|, name);
        assert InsertedAt(init, |init|, name) == init + [name];
      } else {
        assert init + [] == init;
      }
    }
  }

  // ----- round trip -----

  /** An unset optional holds the empty string, as in a fresh struct. */
  predicate Canonical(fs: seq<Field>, slots: seq<Slot>)
    requires Shaped(fs, slots)
    decreases fs
  {
    forall i :: 0 <= i < |fs| ==> CanonicalSlot(fs[i].ty, slots[i])
  }

  predicate CanonicalSlot(ty: Type, s: Slot)
    requires ShapedSlot(ty, s)
    decreases ty
  {
    match ty
    case TOptStr => s.isSet || s.s == ""
    case TObj(fs) => Canonical(fs, s.slots)
    case TArr(fs) => forall i :: 0 <= i < |s.elems| ==> Canonical(fs, s.elems[i])
    case _ => true
  }

  lemma FieldIndexOf(fs: seq<Field>, i: nat)
    requires i < |fs| && UniqueNames(fs)
    ensures FieldIndex(fs, fs[i].name) == Some(i)
  {
    assert FieldIndex(fs, fs[i].name).Some?;
  }

  lemma {:induction false} RequiredAreEncoded(fs: seq<Field>, slots: seq<Slot>, i: nat, k: nat)
    requires WellFormed(fs) && Shaped(fs, slots) && i <= k < |fs| && fs[k].required
    ensures fs[k].name in Names(EncodeFrom(fs, slots, i))
    decreases k - i
  {
    var ms, rest := EncodeFrom(fs, slots, i), if i < k then EncodeFrom(fs, slots, i + 1) else [];
    assert ShapedSlot(fs[i].ty, slots[i]);
    if i == k {
      assert ms[0].key == fs[k].name;
    } else {
      RequiredAreEncoded(fs, slots, i + 1, k);
      assert ms == rest || ms[1..] == rest;
    }
  }

  /** A struct with the fields before `i` read and fresh from `i` on. */
  function Partial(fs: seq<Field>, slots: seq<Slot>, i: nat): (r: seq<Slot>)
    requires Shaped(fs, slots) && i <= |fs|
    ensures Shaped(fs, r)
  {
    seq(|fs|, j requires 0 <= j < |fs| => if j < i then slots[j] else Zero(fs[j].ty))
  }

  lemma PartialAdvances(fs: seq<Field>, slots: seq<Slot>, i: nat)
    requires Shaped(fs, slots) && i < |fs|
    ensures Partial(fs, slots, i)[i] == Zero(fs[i].ty)
    ensures Partial(fs, slots, i)[i := slots[i]] == Partial(fs, slots, i + 1)
    ensures slots[i] == Zero(fs[i].ty) ==> Partial(fs, slots, i + 1) == Partial(fs, slots, i)
  {
  }

  /** Reading back the members from field `i` on completes the struct. */
  lemma {:induction false} MembersRoundTrip(fs: seq<Field>, slots: seq<Slot>, i: nat)
    requires WellFormed(fs) && Shaped(fs, slots) && Canonical(fs, slots) && i <= |fs|
    ensures DecodeMembers(fs, Partial(fs, slots, i), EncodeFrom(fs, slots, i)) == Some(slots)
    decreases fs, 0, |fs| - i
  {
    if i == |fs| {
      assert Partial(fs, slots, i) == slots;
    } else {
      MembersRoundTrip(fs, slots, i + 1);
      PartialAdvances(fs, slots, i);
      assert ShapedSlot(fs[i].ty, slots[i]) && CanonicalSlot(fs[i].ty, slots[i]) && WellFormedType(fs[i].ty);
      if slots[i].SOpt? && !slots[i].isSet {
        assert slots[i] == Zero(fs[i].ty);
      } else {
        SlotRoundTrip(fs[i].ty, slots[i]);
        FieldIndexOf(fs, i);
        var ms := EncodeFrom(fs, slots, i);
        assert ms[0] == Member(fs[i].name, EncodeSlot(fs[i].ty, slots[i]));
        assert ms[1..] == EncodeFrom(fs, slots, i + 1);
      }
    }
  }

  /** Decoding what was encoded, into a fresh struct, gives the struct back. */
  lemma {:induction false} RoundTrip(fs: seq<Field>, slots: seq<Slot>)
    requires WellFormed(fs) && Shaped(fs, slots) && Canonical(fs, slots)
    ensures DecodeObj(fs, Zeros(fs), EncodeObj(fs, slots)) == Filled(slots)
    decreases fs, 1, 0
  {
    MembersRoundTrip(fs, slots, 0);
    assert Partial(fs, slots, 0) == Zeros(fs);
    var ms := EncodeObj(fs, slots);
    forall k | 0 <= k < |fs| && fs[k].required ensures fs[k].name in Names(ms) {
      RequiredAreEncoded(fs, slots, 0, k);
    }
    RequiredFieldCheck(fs, Zeros(fs), ms);
  }

  lemma {:induction false} SlotRoundTrip(ty: Type, s: Slot)
    requires WellFormedType(ty) && ShapedSlot(ty, s) && CanonicalSlot(ty, s) && (s.SOpt? ==> s.isSet)
    ensures DecodeSlot(ty, Zero(ty), EncodeSlot(ty, s)) == Some(s)
    decreases ty, 3, 0
  {
    match ty
    case TObj(fs) => RoundTrip(fs, s.slots);
    case TArr(fs) => ElemsRoundTrip(fs, s.elems);
    case _ =>
  }

  lemma {:induction false} ElemsRoundTrip(fs: seq<Field>, elems: seq<seq<Slot>>)
    requires WellFormed(fs)
    requires forall i :: 0 <= i < |elems| ==> Shaped(fs, elems[i]) && Canonical(fs, elems[i])
    ensures DecodeElems(fs, EncodeElems(fs, elems)) == Some(elems)
    decreases fs, 2, |elems|
  {
    if elems != [] {
      RoundTrip(fs, elems[0]);
      ElemsRoundTrip(fs, elems[1..]);
      var vs := EncodeElems(fs, elems);
      assert vs[0] == JObj(EncodeObj(fs, elems[0])) && vs[1..] == EncodeElems(fs, elems[1..]);
      assert elems == [elems[0]] + elems[1..];
    }
  }
}
