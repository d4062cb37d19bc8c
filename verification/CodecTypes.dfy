/** The decoder as the generated code writes it, with its bytes of required
    bits, and the four generated types. */
module CodecTypes {
  import opened Common
  import opened Bits
  import opened Handler
  import opened Codec
  import opened CodecOrder

  // ----- required bits -----

  /** `strconv.Itoa` of a natural number. */
  function Decimal(n: nat): string {
    (if n < 10 then [] else Decimal(n / 10)) + ['0' + (n % 10) as char]
  }

  /** The number that a string of digits denotes. */
  function Denotes(s: string): int {
    if s == [] then 0 else 10 * Denotes(s[..|s| - 1]) + (s[|s| - 1] as int - '0' as int)
  }

  /** Digits only, no leading zero, and the right number. */
  lemma {:induction false} DecimalDenotes(n: nat)
    ensures Decimal(n) != [] && Denotes(Decimal(n)) == n
    ensures forall i :: 0 <= i < |Decimal(n)| ==> '0' <= Decimal(n)[i] <= '9'
    ensures Decimal(n)[0] == '0' ==> n == 0
  {
    var s := Decimal(n);
    if n >= 10 {
      DecimalDenotes(n / 10);
      assert s[..|s| - 1] == Decimal(n / 10);
    } else {
      assert s[..|s| - 1] == [];
    }
  }

  /** The field's name, or its number when the table has no name for it. */
  function NameAt(names: seq<string>, k: nat): string {
    if k < |names| then names[k] else Decimal(k)
  }

  /** Bit `k` of a row of bytes. */
  predicate BitAt(bytes: seq<bv8>, k: nat)
    requires k < 8 * |bytes|
  {
    Bit(bytes[k / 8], k % 8)
  }

  /** The bits of `mask` that are not set in `b`, as the source computes them. */
  function Unset(b: bv8, mask: bv8): bv8 { (b & mask) ^ mask }

  /** The names of the bits below `n` that are set in byte number `i`. */
  function BitNames(names: seq<string>, byte: bv8, i: nat, n: nat): seq<string>
    requires n <= 8
  {
    if n == 0 then []
    else BitNames(names, byte, i, n - 1) + if Bit(byte, n - 1) then [NameAt(names, 8 * i + n - 1)] else []
  }

  /** What the check reports for the first `n` bytes. */
  function MissedNames(names: seq<string>, masks: seq<bv8>, bytes: seq<bv8>, n: nat): seq<string>
    requires n <= |bytes| == |masks|
  {
    if n == 0 then []
    else MissedNames(names, masks, bytes, n - 1) + BitNames(names, Unset(bytes[n - 1], masks[n - 1]), n - 1, 8)
  }

  lemma {:induction false} BitNamesSkip(names: seq<string>, byte: bv8, i: nat, lo: nat, hi: nat)
    requires lo <= hi <= 8 && forall j :: lo <= j < hi ==> !Bit(byte, j)
    ensures BitNames(names, byte, i, hi) == BitNames(names, byte, i, lo)
  {
    if lo < hi {
      assert !Bit(byte, hi - 1);
      BitNamesSkip(names, byte, i, lo, hi - 1);
    }
  }

  /** `result` is what is left of `byte` from bit `lo` on. */
  ghost predicate LeftOf(byte: bv8, result: bv8, lo: nat) {
    forall j :: 0 <= j < 8 ==> (Bit(result, j) <==> lo <= j && Bit(byte, j))
  }

  lemma ClearedLeft(byte: bv8, result: bv8, lo: nat)
    requires LeftOf(byte, result, lo) && result != 0
    ensures var t := TrailingZeros8(result);
            lo <= t < 8 && Bit(byte, t) && LeftOf(byte, result & !Single(t), t + 1)
    ensures forall j :: lo <= j < TrailingZeros8(result) ==> !Bit(byte, j)
  {
    LowestBit(result);
    var t := TrailingZeros8(result);
    forall j | 0 <= j < 8 ensures Bit(result & !Single(t), j) <==> t + 1 <= j && Bit(byte, j) {
      AfterClear(result, t, j);
    }
  }

  /** One turn of the inner loop: the lowest bit left is the next name. */
  lemma NextName(names: seq<string>, byte: bv8, i: nat, result: bv8, lo: nat)
    requires LeftOf(byte, result, lo) && result != 0
    ensures var t := TrailingZeros8(result);
            && lo <= t < 8
            && LeftOf(byte, result & !Single(t), t + 1)
            && OnesCount8(result & !Single(t)) == OnesCount8(result) - 1
            && BitNames(names, byte, i, t + 1) == BitNames(names, byte, i, lo) + [NameAt(names, 8 * i + t)]
  {
    ClearedLeft(byte, result, lo);
    LowestBit(result);
    ClearCountsDown(result, TrailingZeros8(result));
    BitNamesSkip(names, byte, i, lo, TrailingZeros8(result));
  }

  /** When no bit is left, the rest of the byte has nothing to report. */
  lemma NoNameLeft(names: seq<string>, byte: bv8, i: nat, result: bv8, lo: nat)
    requires LeftOf(byte, result, lo) && result == 0 && lo <= 8
    ensures BitNames(names, byte, i, 8) == BitNames(names, byte, i, lo)
  {
    ZeroHasNoBits(result);
    BitNamesSkip(names, byte, i, lo, 8);
  }

  /** The inner loop: popcount says how many names, the trailing zeros which
      one is next, and the bit is cleared. */
  method ReportByte(names: seq<string>, i: nat, byte: bv8, sofar: seq<string>) returns (failures: seq<string>)
    ensures failures == sofar + BitNames(names, byte, i, 8)
  {
    failures := sofar;
    var result := byte;
    ghost var lo: nat := 0;
    var missed := OnesCount8(result);
    for bitN := 0 to missed
      invariant lo <= 8 && LeftOf(byte, result, lo)
      invariant OnesCount8(result) == missed - bitN
      invariant failures == sofar + BitNames(names, byte, i, lo)
    {
      ZeroHasNoBits(result);
      NextName(names, byte, i, result, lo);
      var bitIdx := TrailingZeros8(result);
      var fieldIdx := i * 8 + bitIdx;
      var name := if fieldIdx < |names| then names[fieldIdx] else Decimal(fieldIdx);
      ghost var before := BitNames(names, byte, i, lo);
      assert (sofar + before) + [name] == sofar + (before + [name]);
      failures := failures + [name];
      result := result & !Single(bitIdx);
      lo := bitIdx + 1;
    }
    ZeroHasNoBits(result);
    NoNameLeft(names, byte, i, result, lo);
  }

  /** The loop over the bytes of required bits. */
  method CheckRequired(names: seq<string>, masks: seq<bv8>, requiredBitSet: array<bv8>) returns (failures: seq<string>)
    requires requiredBitSet.Length == |masks|
    ensures failures == MissedNames(names, masks, requiredBitSet[..], |masks|)
  {
    failures := [];
    for i := 0 to |masks|
      invariant failures == MissedNames(names, masks, requiredBitSet[..], i)
    {
      var mask := masks[i];
      var result := (requiredBitSet[i] & mask) ^ mask;
      assert result == Unset(requiredBitSet[..][i], masks[i]);
      if result != 0 {
        failures := ReportByte(names, i, result, failures);
      } else {
        ZeroHasNoBits(result);
        BitNamesSkip(names, result, i, 0, 8);
      }
    }
  }

  function FieldNames(fs: seq<Field>): (r: seq<string>)
    ensures |r| == |fs|
  {
    seq(|fs|, i requires 0 <= i < |fs| => fs[i].name)
  }

  /** The masks have a bit exactly for the required fields. */
  ghost predicate MasksFit(fs: seq<Field>, masks: seq<bv8>) {
    && |fs| <= 8 * |masks|
    && forall k {:trigger BitAt(masks, k)} :: 0 <= k < 8 * |masks| ==> (BitAt(masks, k) <==> k < |fs| && fs[k].required)
  }

  /** The bytes have a bit exactly for the required fields seen so far. */
  ghost predicate BitsSay(fs: seq<Field>, bytes: seq<bv8>, seen: set<string>)
    requires |fs| <= 8 * |bytes|
  {
    forall k {:trigger BitAt(bytes, k)} :: 0 <= k < |fs| && fs[k].required ==> (BitAt(bytes, k) <==> fs[k].name in seen)
  }

  lemma UnsetMeansMissing(fs: seq<Field>, masks: seq<bv8>, bytes: seq<bv8>, seen: set<string>, i: nat, j: nat)
    requires MasksFit(fs, masks) && |bytes| == |masks| && BitsSay(fs, bytes, seen) && i < |masks| && j < 8
    ensures var k := 8 * i + j;
            Bit(Unset(bytes[i], masks[i]), j) <==> k < |fs| && fs[k].required && fs[k].name !in seen
  {
    var k := 8 * i + j;
    assert k / 8 == i && k % 8 == j;
    MaskedComplement(bytes[i], masks[i], j);
    assert BitAt(masks, k) <==> k < |fs| && fs[k].required;
    assert BitAt(bytes, k) <==> Bit(bytes[i], j);
  }

  /** Bit `j` of byte number `i` stands for a required name not seen. */
  ghost predicate SaysMissing(fs: seq<Field>, byte: bv8, seen: set<string>, i: nat) {
    forall j :: 0 <= j < 8 ==>
      (Bit(byte, j) <==> 8 * i + j < |fs| && fs[8 * i + j].required && fs[8 * i + j].name !in seen)
  }

  lemma UnsetSaysMissing(fs: seq<Field>, masks: seq<bv8>, bytes: seq<bv8>, seen: set<string>, i: nat)
    requires MasksFit(fs, masks) && i < |bytes| == |masks| && BitsSay(fs, bytes, seen)
    ensures SaysMissing(fs, Unset(bytes[i], masks[i]), seen, i)
  {
    var byte := Unset(bytes[i], masks[i]);
    forall j | 0 <= j < 8
      ensures Bit(byte, j) <==> 8 * i + j < |fs| && fs[8 * i + j].required && fs[8 * i + j].name !in seen
    {
      UnsetMeansMissing(fs, masks, bytes, seen, i, j);
    }
  }

  lemma {:induction false} ByteReports(fs: seq<Field>, byte: bv8, seen: set<string>, i: nat, n: nat)
    requires SaysMissing(fs, byte, seen, i) && n <= 8
    ensures MissingNames(fs, seen, Min(8 * i, |fs|)) + BitNames(FieldNames(fs), byte, i, n)
            == MissingNames(fs, seen, Min(8 * i + n, |fs|))
  {
    var start := MissingNames(fs, seen, Min(8 * i, |fs|));
    if n == 0 {
      assert start + [] == start;
    } else {
      ByteReports(fs, byte, seen, i, n - 1);
      var k := 8 * i + n - 1;
      var init := BitNames(FieldNames(fs), byte, i, n - 1);
      assert Bit(byte, n - 1) <==> k < |fs| && fs[k].required && fs[k].name !in seen;
      var last := if Bit(byte, n - 1) then [NameAt(FieldNames(fs), k)] else [];
      assert start + (init + last) == (start + init) + last;
      assert last == [] ==> (start + init) + last == start + init;
    }
  }

  /** So the check reports the missing names of the schema, in field order, and
      never falls back to a number. */
  lemma {:induction false} ReportsMissingNames(
      fs: seq<Field>, masks: seq<bv8>, bytes: seq<bv8>, seen: set<string>, n: nat)
    requires MasksFit(fs, masks) && n <= |bytes| == |masks| && BitsSay(fs, bytes, seen)
    ensures MissedNames(FieldNames(fs), masks, bytes, n) == MissingNames(fs, seen, Min(8 * n, |fs|))
  {
    if n > 0 {
      var names, byte := FieldNames(fs), Unset(bytes[n - 1], masks[n - 1]);
      var lo, hi := Min(8 * (n - 1), |fs|), Min(8 * n, |fs|);
      assert Min(8 * (n - 1) + 8, |fs|) == hi;
      calc {
        MissedNames(names, masks, bytes, n);
        MissedNames(names, masks, bytes, n - 1) + BitNames(names, byte, n - 1, 8);
        { ReportsMissingNames(fs, masks, bytes, seen, n - 1); }
        MissingNames(fs, seen, lo) + BitNames(names, byte, n - 1, 8);
        { UnsetSaysMissing(fs, masks, bytes, seen, n - 1); ByteReports(fs, byte, seen, n - 1, 8); }
        MissingNames(fs, seen, hi);
      }
    }
  }

  // ----- the decoder -----

  lemma BitAtAfterSet(bytes: seq<bv8>, i: nat, k: nat)
    requires i < 8 * |bytes| && k < 8 * |bytes|
    ensures var b := i / 8;
            BitAt(bytes[b := bytes[b] | Single(i % 8)], k) <==> BitAt(bytes, k) || k == i
  {
    if k / 8 == i / 8 {
      AfterSet(bytes[i / 8], i % 8, k % 8);
      assert i == 8 * (i / 8) + i % 8 && k == 8 * (k / 8) + k % 8;
    }
  }

  lemma SetBitSays(fs: seq<Field>, bytes: seq<bv8>, seen: set<string>, i: nat)
    requires UniqueNames(fs) && |fs| <= 8 * |bytes| && BitsSay(fs, bytes, seen) && i < |fs|
    ensures var b := i / 8;
            BitsSay(fs, bytes[b := bytes[b] | Single(i % 8)], seen + {fs[i].name})
  {
    var b := i / 8;
    var after := bytes[b := bytes[b] | Single(i % 8)];
    forall k | 0 <= k < |fs| && fs[k].required
      ensures BitAt(after, k) <==> fs[k].name in seen + {fs[i].name}
    {
      BitAtAfterSet(bytes, i, k);
    }
  }

  lemma OtherNameSays(fs: seq<Field>, bytes: seq<bv8>, seen: set<string>, name: string)
    requires |fs| <= 8 * |bytes| && BitsSay(fs, bytes, seen)
    requires forall i :: 0 <= i < |fs| && fs[i].required ==> fs[i].name != name
    ensures BitsSay(fs, bytes, seen + {name})
  {
  }

  lemma {:induction false} NamesGrow(ms: seq<Member>, k: nat)
    requires k < |ms|
    ensures Names(ms[..k + 1]) == Names(ms[..k]) + {ms[k].key}
  {
    if k > 0 {
      NamesGrow(ms[1..], k - 1);
      assert ms[..k + 1][1..] == ms[1..][..k] && ms[..k][1..] == ms[1..][..k - 1];
    }
  }

  /** A generated `Decode`: one pass over the members, then the check. It is the
      function `DecodeObj`, for every starting struct and member sequence. */
  method Decode(fs: seq<Field>, masks: seq<bv8>, start: seq<Slot>, members: seq<Member>) returns (r: Decoded)
    requires WellFormed(fs) && MasksFit(fs, masks) && Shaped(fs, start)
    ensures r == DecodeObj(fs, start, members)
  {
    var requiredBitSet := new bv8[|masks|](_ => 0);
    var slots := start;
    for k := 0 to |members|
      invariant Shaped(fs, slots)
      invariant DecodeMembers(fs, start, members) == DecodeMembers(fs, slots, members[k..])
      invariant BitsSay(fs, requiredBitSet[..], Names(members[..k]))
    {
      var m := members[k];
      NamesGrow(members, k);
      assert members[k..][0] == m && members[k..][1..] == members[k + 1..];
      match FieldIndex(fs, m.key) {
        case None =>
          OtherNameSays(fs, requiredBitSet[..], Names(members[..k]), m.key);
        case Some(i) =>
          if fs[i].required {
            SetBitSays(fs, requiredBitSet[..], Names(members[..k]), i);
            requiredBitSet[i / 8] := requiredBitSet[i / 8] | Single(i % 8);
          } else {
            OtherNameSays(fs, requiredBitSet[..], Names(members[..k]), m.key);
          }
          var decoded := DecodeSlot(fs[i].ty, slots[i], m.val);
          if decoded.None? {
            return BadMember;
          }
          slots := slots[i := decoded.value];
      }
    }
    assert members[..|members|] == members;
    var failures := CheckRequired(FieldNames(fs), masks, requiredBitSet);
    ReportsMissingNames(fs, masks, requiredBitSet[..], Names(members), |masks|);
    r := if failures != [] then Missing(failures) else Filled(slots);
  }

  // ----- the generated types -----

  const DELIVERY: seq<Field> := [
    Field("name", TStr, true), Field("phone", TStr, true), Field("zip", TStr, true), Field("city", TStr, true),
    Field("address", TStr, true), Field("region", TStr, true), Field("email", TStr, true)]

  const PAYMENT: seq<Field> := [
    Field("transaction", TStr, true), Field("request_id", TOptStr, false), Field("currency", TStr, true),
    Field("provider", TStr, true), Field("amount", TInt, true), Field("payment_dt", TInt, true),
    Field("bank", TStr, true), Field("delivery_cost", TInt, true), Field("goods_total", TInt, true),
    Field("custom_fee", TInt, true)]

  const ORDER_ITEM: seq<Field> := [
    Field("chrt_id", TInt, true), Field("track_number", TStr, true), Field("price", TInt, true),
    Field("rid", TStr, true), Field("name", TStr, true), Field("sale", TInt, true), Field("size", TStr, true),
    Field("total_price", TInt, true), Field("nm_id", TInt, true), Field("brand", TStr, true),
    Field("status", TInt, true)]

  const ORDER_RESPONSE: seq<Field> := [
    Field("order_uid", TStr, true), Field("track_number", TStr, true), Field("entry", TStr, true),
    Field("delivery", TObj(DELIVERY), true), Field("payment", TObj(PAYMENT), true),
    Field("items", TArr(ORDER_ITEM), true), Field("locale", TStr, true),
    Field("internal_signature", TOptStr, false), Field("customer_id", TStr, true),
    Field("delivery_service", TStr, true), Field("shardkey", TStr, true), Field("sm_id", TInt, true),
    Field("date_created", TTime, true), Field("oof_shard", TStr, true)]

  const DELIVERY_MASKS: seq<bv8> := [0x7F]
  const PAYMENT_MASKS: seq<bv8> := [0xFD, 0x03]
  const ORDER_ITEM_MASKS: seq<bv8> := [0xFF, 0x07]
  const ORDER_RESPONSE_MASKS: seq<bv8> := [0x7F, 0x3F]

  lemma DeliveryMasksFit()
    ensures MasksFit(DELIVERY, DELIVERY_MASKS)
  {
  }

  lemma PaymentMasksFit()
    ensures MasksFit(PAYMENT, PAYMENT_MASKS)
  {
  }

  lemma OrderItemMasksFit()
    ensures MasksFit(ORDER_ITEM, ORDER_ITEM_MASKS)
  {
  }

  lemma OrderResponseMasksFit()
    ensures MasksFit(ORDER_RESPONSE, ORDER_RESPONSE_MASKS)
  {
  }

  lemma DeliveryWellFormed()
    ensures WellFormed(DELIVERY)
  {
  }

  lemma PaymentNames()
    ensures UniqueNames(PAYMENT)
  {
  }

  lemma PaymentWellFormed()
    ensures WellFormed(PAYMENT)
  {
    PaymentNames();
  }

  lemma OrderItemNames()
    ensures UniqueNames(ORDER_ITEM)
  {
  }

  lemma OrderItemWellFormed()
    ensures WellFormed(ORDER_ITEM)
  {
    OrderItemNames();
  }

  lemma OrderResponseNames()
    ensures UniqueNames(ORDER_RESPONSE)
  {
  }

  lemma OrderResponseWellFormed()
    ensures WellFormed(ORDER_RESPONSE)
  {
    OrderResponseNames();
    DeliveryWellFormed();
    PaymentWellFormed();
    OrderItemWellFormed();
    assert WellFormedType(TObj(DELIVERY)) && WellFormedType(TObj(PAYMENT)) && WellFormedType(TArr(ORDER_ITEM));
  }

  // ----- responses as slots -----

  function DeliverySlots(d: DeliveryInfo): (r: seq<Slot>)
    ensures Shaped(DELIVERY, r)
  {
    [SStr(d.name), SStr(d.phone), SStr(d.zip), SStr(d.city), SStr(d.address), SStr(d.region), SStr(d.email)]
  }

  function PaymentSlots(p: PaymentInfo): (r: seq<Slot>)
    ensures Shaped(PAYMENT, r)
  {
    [SStr(p.transaction), SOpt(p.requestID.isSet, p.requestID.value), SStr(p.currency), SStr(p.provider),
     SInt(p.amount), SInt(p.paymentDt), SStr(p.bank), SInt(p.deliveryCost), SInt(p.goodsTotal), SInt(p.customFee)]
  }

  function ItemSlots(i: ItemInfo): (r: seq<Slot>)
    ensures Shaped(ORDER_ITEM, r)
  {
    [SInt(i.chrtID), SStr(i.trackNumber), SInt(i.price), SStr(i.rid), SStr(i.name), SInt(i.sale), SStr(i.size),
     SInt(i.totalPrice), SInt(i.nmID), SStr(i.brand), SInt(i.status)]
  }

  function ItemsSlots(items: seq<ItemInfo>): (r: seq<seq<Slot>>)
    ensures |r| == |items|
  {
    seq(|items|, i requires 0 <= i < |items| => ItemSlots(items[i]))
  }

  function ResponseSlots(o: OrderResponse): (r: seq<Slot>)
    ensures Shaped(ORDER_RESPONSE, r)
  {
    [SStr(o.orderUID), SStr(o.trackNumber), SStr(o.entry), SObj(DeliverySlots(o.delivery)),
     SObj(PaymentSlots(o.payment)), SArr(ItemsSlots(o.items)), SStr(o.locale),
     SOpt(o.internalSignature.isSet, o.internalSignature.value), SStr(o.customerID), SStr(o.deliveryService),
     SStr(o.shardkey), SInt(o.smID), STime(o.dateCreated), SStr(o.oofShard)]
  }

  /** A generated `encodeFields`: one member after the other into the buffer. */
  method Encode(fs: seq<Field>, slots: seq<Slot>) returns (buffer: seq<Member>)
    requires Shaped(fs, slots)
    ensures buffer == EncodeObj(fs, slots)
  {
    buffer := [];
    for i := 0 to |fs|
      invariant buffer + EncodeFrom(fs, slots, i) == EncodeObj(fs, slots)
    {
      ghost var rest := EncodeFrom(fs, slots, i + 1);
      if !(slots[i].SOpt? && !slots[i].isSet) {
        var m := Member(fs[i].name, EncodeSlot(fs[i].ty, slots[i]));
        assert buffer + ([m] + rest) == (buffer + [m]) + rest;
        buffer := buffer + [m];
      }
    }
    assert buffer + [] == buffer;
  }

  /** Unset optionals hold the empty string, as in a fresh struct. */
  predicate Plain(o: OrderResponse) {
    && (o.internalSignature.isSet || o.internalSignature.value == "")
    && (o.payment.requestID.isSet || o.payment.requestID.value == "")
  }

  lemma PaymentIsCanonical(p: PaymentInfo)
    requires p.requestID.isSet || p.requestID.value == ""
    ensures Canonical(PAYMENT, PaymentSlots(p))
  {
  }

  lemma ItemsAreCanonical(items: seq<ItemInfo>)
    ensures forall i :: 0 <= i < |items| ==> Canonical(ORDER_ITEM, ItemsSlots(items)[i])
  {
    forall i | 0 <= i < |items| ensures Canonical(ORDER_ITEM, ItemsSlots(items)[i]) {
      assert ItemsSlots(items)[i] == ItemSlots(items[i]);
    }
  }

  lemma PlainIsCanonical(o: OrderResponse)
    requires Plain(o)
    ensures Canonical(ORDER_RESPONSE, ResponseSlots(o))
  {
    var slots := ResponseSlots(o);
    PaymentIsCanonical(o.payment);
    ItemsAreCanonical(o.items);
    forall i | 0 <= i < |ORDER_RESPONSE| ensures CanonicalSlot(ORDER_RESPONSE[i].ty, slots[i]) {
      if i == 3 {
        assert Canonical(DELIVERY, DeliverySlots(o.delivery));
      } else if i == 5 {
        assert slots[i].elems == ItemsSlots(o.items);
      }
    }
  }

  /** Every response the codec can hold survives the trip through JSON, in
      whatever order the members of the objects arrive. */
  lemma ResponseRoundTrip(o: OrderResponse, received: seq<Member>)
    requires Plain(o) && SameMembers(EncodeObj(ORDER_RESPONSE, ResponseSlots(o)), received)
    ensures DecodeObj(ORDER_RESPONSE, Zeros(ORDER_RESPONSE), received) == Filled(ResponseSlots(o))
  {
    OrderResponseWellFormed();
    PlainIsCanonical(o);
    RoundTrip(ORDER_RESPONSE, ResponseSlots(o));
    SameObjects(ORDER_RESPONSE, Zeros(ORDER_RESPONSE), EncodeObj(ORDER_RESPONSE, ResponseSlots(o)), received);
  }

  /** The slots determine the response, so nothing is lost in them. */
  lemma ResponseSlotsInjective(a: OrderResponse, b: OrderResponse)
    requires ResponseSlots(a) == ResponseSlots(b)
    ensures a == b
  {
    var x, y := ResponseSlots(a), ResponseSlots(b);
    assert x[3] == y[3] && x[4] == y[4] && x[5] == y[5];
    DeliverySlotsInjective(a.delivery, b.delivery);
    PaymentSlotsInjective(a.payment, b.payment);
    assert |ItemsSlots(a.items)| == |ItemsSlots(b.items)|;
    forall i | 0 <= i < |a.items| ensures a.items[i] == b.items[i] {
      assert ItemsSlots(a.items)[i] == ItemsSlots(b.items)[i];
      ItemSlotsInjective(a.items[i], b.items[i]);
    }
    assert a.items == b.items;
    assert x[0] == y[0] && x[1] == y[1] && x[2] == y[2] && x[6] == y[6] && x[7] == y[7] && x[8] == y[8];
    assert x[9] == y[9] && x[10] == y[10] && x[11] == y[11] && x[12] == y[12] && x[13] == y[13];
  }

  lemma DeliverySlotsInjective(a: DeliveryInfo, b: DeliveryInfo)
    requires DeliverySlots(a) == DeliverySlots(b)
    ensures a == b
  {
    var x, y := DeliverySlots(a), DeliverySlots(b);
    assert x[0] == y[0] && x[1] == y[1] && x[2] == y[2] && x[3] == y[3] && x[4] == y[4] && x[5] == y[5] && x[6] == y[6];
  }

  lemma PaymentSlotsInjective(a: PaymentInfo, b: PaymentInfo)
    requires PaymentSlots(a) == PaymentSlots(b)
    ensures a == b
  {
    var x, y := PaymentSlots(a), PaymentSlots(b);
    assert x[0] == y[0] && x[1] == y[1] && x[2] == y[2] && x[3] == y[3] && x[4] == y[4] && x[5] == y[5];
    assert x[6] == y[6] && x[7] == y[7] && x[8] == y[8] && x[9] == y[9];
  }

  lemma ItemSlotsInjective(a: ItemInfo, b: ItemInfo)
    requires ItemSlots(a) == ItemSlots(b)
    ensures a == b
  {
    var x, y := ItemSlots(a), ItemSlots(b);
    assert x[0] == y[0] && x[1] == y[1] && x[2] == y[2] && x[3] == y[3] && x[4] == y[4] && x[5] == y[5];
    assert x[6] == y[6] && x[7] == y[7] && x[8] == y[8] && x[9] == y[9] && x[10] == y[10];
  }
}
