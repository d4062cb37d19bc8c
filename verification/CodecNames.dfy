/** What the four generated types put under each JSON name, and what they read
    from it (order_service/internal/api/oas_json_gen.go). */
module CodecNames {
  import opened Common
  import opened Models
  import opened Handler
  import opened Codec
  import opened CodecOrder
  import opened CodecTypes

  // ----- an encoded object, by name -----

  /** The member for a slot; an unset optional has none. */
  function MemberOf(ty: Type, s: Slot): Option<Json>
    requires ShapedSlot(ty, s)
  {
    if s.SOpt? && !s.isSet then None else Some(EncodeSlot(ty, s))
  }

  lemma {:induction false} EncodedNames(fs: seq<Field>, slots: seq<Slot>, i: nat, name: string)
    requires Shaped(fs, slots) && i <= |fs| && name in Names(EncodeFrom(fs, slots, i))
    ensures exists k :: i <= k < |fs| && fs[k].name == name
    decreases |fs| - i
  {
    if i < |fs| && fs[i].name != name {
      var ms, rest := EncodeFrom(fs, slots, i), EncodeFrom(fs, slots, i + 1);
      assert ms == rest || (ms[0].key == fs[i].name && ms[1..] == rest);
      EncodedNames(fs, slots, i + 1, name);
    }
  }

  lemma {:induction false} EncodedFrom(fs: seq<Field>, slots: seq<Slot>, i: nat, k: nat)
    requires UniqueNames(fs) && Shaped(fs, slots) && i <= k < |fs|
    ensures Lookup(EncodeFrom(fs, slots, i), fs[k].name) == MemberOf(fs[k].ty, slots[k])
    decreases |fs| - i
  {
    var ms, rest := EncodeFrom(fs, slots, i), EncodeFrom(fs, slots, i + 1);
    assert ShapedSlot(fs[i].ty, slots[i]);
    if MemberOf(fs[i].ty, slots[i]).Some? {
      assert ms[0] == Member(fs[i].name, EncodeSlot(fs[i].ty, slots[i])) && ms[1..] == rest;
    } else {
      assert ms == rest;
    }
    if i < k {
      EncodedFrom(fs, slots, i + 1, k);
    } else if ms == rest {
      if fs[k].name in Names(rest) {
        EncodedNames(fs, slots, i + 1, fs[k].name);
        assert false;
      }
    }
  }

  lemma {:induction false} EncodedUnique(fs: seq<Field>, slots: seq<Slot>, i: nat)
    requires UniqueNames(fs) && Shaped(fs, slots) && i <= |fs|
    ensures UniqueKeys(EncodeFrom(fs, slots, i))
    decreases |fs| - i
  {
    if i < |fs| {
      var ms, rest := EncodeFrom(fs, slots, i), EncodeFrom(fs, slots, i + 1);
      EncodedUnique(fs, slots, i + 1);
      if ms != rest {
        assert ms[0].key == fs[i].name && ms[1..] == rest;
        if fs[i].name in Names(rest) {
          EncodedNames(fs, slots, i + 1, fs[i].name);
          assert false;
        }
      }
    }
  }

  ghost predicate AmongFields(fs: seq<Field>, name: string) { exists k :: 0 <= k < |fs| && fs[k].name == name }

  /** For every schema of the scheme: the encoded object has no repeated and no
      foreign name, and under each field's name the value of its slot, or nothing
      when that is an unset optional. */
  lemma EncodedByName(fs: seq<Field>, slots: seq<Slot>)
    requires UniqueNames(fs) && Shaped(fs, slots)
    ensures UniqueKeys(EncodeObj(fs, slots))
    ensures forall k :: 0 <= k < |fs| ==> Lookup(EncodeObj(fs, slots), fs[k].name) == MemberOf(fs[k].ty, slots[k])
    ensures forall name :: name in Names(EncodeObj(fs, slots)) ==> AmongFields(fs, name)
  {
    EncodedUnique(fs, slots, 0);
    forall k | 0 <= k < |fs| ensures Lookup(EncodeObj(fs, slots), fs[k].name) == MemberOf(fs[k].ty, slots[k]) {
      EncodedFrom(fs, slots, 0, k);
    }
    forall name | name in Names(EncodeObj(fs, slots)) ensures AmongFields(fs, name) {
      EncodedNames(fs, slots, 0, name);
    }
  }

  // ----- the four types, by name -----

  /** What stands under a name, if anything does. */
  datatype Entry = Entry(name: string, value: Option<Json>)

  ghost predicate Listed(table: seq<Entry>, name: string) { exists k :: 0 <= k < |table| && table[k].name == name }

  /** The object has no name twice, what the table says under the names of the
      table, and besides them only `others`. */
  ghost predicate Shows(ms: seq<Member>, table: seq<Entry>, others: set<string>) {
    && UniqueKeys(ms)
    && (forall k :: 0 <= k < |table| ==> Lookup(ms, table[k].name) == table[k].value)
    && (forall name :: name in Names(ms) ==> name in others || Listed(table, name))
  }

  function Text(name: string, s: string): Entry { Entry(name, Some(JStr(s))) }

  function Number(name: string, n: int): Entry { Entry(name, Some(JNum(n))) }

  function Optional(name: string, o: OptString): Entry {
    Entry(name, if o.isSet then Some(JStr(o.value)) else None)
  }

  function DeliveryTable(d: DeliveryInfo): seq<Entry> {
    [Text("name", d.name), Text("phone", d.phone), Text("zip", d.zip), Text("city", d.city),
     Text("address", d.address), Text("region", d.region), Text("email", d.email)]
  }

  function PaymentTable(p: PaymentInfo): seq<Entry> {
    [Text("transaction", p.transaction), Optional("request_id", p.requestID), Text("currency", p.currency),
     Text("provider", p.provider), Number("amount", p.amount), Number("payment_dt", p.paymentDt),
     Text("bank", p.bank), Number("delivery_cost", p.deliveryCost), Number("goods_total", p.goodsTotal),
     Number("custom_fee", p.customFee)]
  }

  function ItemTable(i: ItemInfo): seq<Entry> {
    [Number("chrt_id", i.chrtID), Text("track_number", i.trackNumber), Number("price", i.price), Text("rid", i.rid),
     Text("name", i.name), Number("sale", i.sale), Text("size", i.size), Number("total_price", i.totalPrice),
     Number("nm_id", i.nmID), Text("brand", i.brand), Number("status", i.status)]
  }

  /** The members of a response that are not objects or arrays. */
  function HeaderTable(o: OrderResponse): seq<Entry> {
    [Text("order_uid", o.orderUID), Text("track_number", o.trackNumber), Text("entry", o.entry),
     Text("locale", o.locale), Optional("internal_signature", o.internalSignature),
     Text("customer_id", o.customerID), Text("delivery_service", o.deliveryService), Text("shardkey", o.shardkey),
     Number("sm_id", o.smID), Entry("date_created", Some(JTime(o.dateCreated))), Text("oof_shard", o.oofShard)]
  }

  ghost predicate ShowsDelivery(d: DeliveryInfo, v: Option<Json>) {
    v.Some? && v.value.JObj? && Shows(v.value.members, DeliveryTable(d), {})
  }

  ghost predicate ShowsPayment(p: PaymentInfo, v: Option<Json>) {
    v.Some? && v.value.JObj? && Shows(v.value.members, PaymentTable(p), {})
  }

  ghost predicate ShowsItem(i: ItemInfo, v: Json) { v.JObj? && Shows(v.members, ItemTable(i), {}) }

  ghost predicate ShowsItems(items: seq<ItemInfo>, v: Option<Json>) {
    && v.Some? && v.value.JArr? && |v.value.elems| == |items|
    && forall i :: 0 <= i < |items| ==> ShowsItem(items[i], v.value.elems[i])
  }

  /** `ms` is the response `o`, by the names of the API, at every level and in
      any order. */
  ghost predicate ShowsResponse(o: OrderResponse, ms: seq<Member>) {
    && Shows(ms, HeaderTable(o), {"delivery", "payment", "items"})
    && ShowsDelivery(o.delivery, Lookup(ms, "delivery"))
    && ShowsPayment(o.payment, Lookup(ms, "payment"))
    && ShowsItems(o.items, Lookup(ms, "items"))
  }

  // ----- encoding shows the response -----

  /** Field `j` of the schema is entry `k` of the table. */
  ghost predicate Matches(fs: seq<Field>, slots: seq<Slot>, j: nat, e: Entry) {
    && j < |fs| == |slots| && ShapedSlot(fs[j].ty, slots[j])
    && fs[j].name == e.name && MemberOf(fs[j].ty, slots[j]) == e.value
  }

  lemma TableShown(fs: seq<Field>, slots: seq<Slot>, table: seq<Entry>, at: seq<nat>, others: set<string>)
    requires UniqueNames(fs) && Shaped(fs, slots) && |at| == |table|
    requires forall k :: 0 <= k < |table| ==> Matches(fs, slots, at[k], table[k])
    requires forall j :: 0 <= j < |fs| ==> j in at || fs[j].name in others
    ensures Shows(EncodeObj(fs, slots), table, others)
  {
    EncodedByName(fs, slots);
    var ms := EncodeObj(fs, slots);
    forall k | 0 <= k < |table| ensures Lookup(ms, table[k].name) == table[k].value {
      assert Matches(fs, slots, at[k], table[k]);
    }
    forall name | name in Names(ms) ensures name in others || Listed(table, name) {
      assert AmongFields(fs, name);
      var j :| 0 <= j < |fs| && fs[j].name == name;
      if j in at {
        var k :| 0 <= k < |at| && at[k] == j;
        assert Matches(fs, slots, at[k], table[k]);
      }
    }
  }

  lemma DeliveryMatches(d: DeliveryInfo, k: nat)
    requires k < 7
    ensures Matches(DELIVERY, DeliverySlots(d), k, DeliveryTable(d)[k])
  {
  }

  lemma PaymentMatches(p: PaymentInfo, k: nat)
    requires k < 10
    ensures Matches(PAYMENT, PaymentSlots(p), k, PaymentTable(p)[k])
  {
  }

  lemma ItemMatches(i: ItemInfo, k: nat)
    requires k < 11
    ensures Matches(ORDER_ITEM, ItemSlots(i), k, ItemTable(i)[k])
  {
  }

  /** The place of the `k`th plain member of a response among its fields. */
  function HeaderAt(k: nat): nat { if k < 3 then k else k + 3 }

  lemma HeaderMatches(o: OrderResponse, k: nat)
    requires k < 11
    ensures Matches(ORDER_RESPONSE, ResponseSlots(o), HeaderAt(k), HeaderTable(o)[k])
  {
  }

  function UpTo(n: nat): (r: seq<nat>)
    ensures |r| == n && forall k :: 0 <= k < n ==> r[k] == k
  {
    seq(n, k => k)
  }

  lemma InOrderShown(fs: seq<Field>, slots: seq<Slot>, table: seq<Entry>)
    requires UniqueNames(fs) && Shaped(fs, slots) && |table| == |fs|
    requires forall k :: 0 <= k < |table| ==> Matches(fs, slots, k, table[k])
    ensures Shows(EncodeObj(fs, slots), table, {})
  {
    var at := UpTo(|fs|);
    forall j | 0 <= j < |fs| ensures j in at {
      assert at[j] == j;
    }
    TableShown(fs, slots, table, at, {});
  }

  lemma DeliveryShown(d: DeliveryInfo)
    ensures Shows(EncodeObj(DELIVERY, DeliverySlots(d)), DeliveryTable(d), {})
  {
    DeliveryWellFormed();
    forall k | 0 <= k < 7 ensures Matches(DELIVERY, DeliverySlots(d), k, DeliveryTable(d)[k]) {
      DeliveryMatches(d, k);
    }
    InOrderShown(DELIVERY, DeliverySlots(d), DeliveryTable(d));
  }

  lemma PaymentShown(p: PaymentInfo)
    ensures Shows(EncodeObj(PAYMENT, PaymentSlots(p)), PaymentTable(p), {})
  {
    PaymentNames();
    forall k | 0 <= k < 10 ensures Matches(PAYMENT, PaymentSlots(p), k, PaymentTable(p)[k]) {
      PaymentMatches(p, k);
    }
    InOrderShown(PAYMENT, PaymentSlots(p), PaymentTable(p));
  }

  lemma ItemShown(i: ItemInfo)
    ensures Shows(EncodeObj(ORDER_ITEM, ItemSlots(i)), ItemTable(i), {})
  {
    OrderItemNames();
    forall k | 0 <= k < 11 ensures Matches(ORDER_ITEM, ItemSlots(i), k, ItemTable(i)[k]) {
      ItemMatches(i, k);
    }
    InOrderShown(ORDER_ITEM, ItemSlots(i), ItemTable(i));
  }

  lemma {:induction false} ElemsAre(fs: seq<Field>, elems: seq<seq<Slot>>, i: nat)
    requires (forall j :: 0 <= j < |elems| ==> Shaped(fs, elems[j])) && i < |elems|
    ensures EncodeElems(fs, elems)[i] == JObj(EncodeObj(fs, elems[i]))
  {
    if i > 0 {
      ElemsAre(fs, elems[1..], i - 1);
    }
  }

  lemma ItemsShown(items: seq<ItemInfo>)
    ensures ShowsItems(items, Some(JArr(EncodeElems(ORDER_ITEM, ItemsSlots(items)))))
  {
    var elems := EncodeElems(ORDER_ITEM, ItemsSlots(items));
    forall i | 0 <= i < |items| ensures ShowsItem(items[i], elems[i]) {
      ElemsAre(ORDER_ITEM, ItemsSlots(items), i);
      ItemShown(items[i]);
    }
  }

  lemma HeaderShown(o: OrderResponse)
    ensures Shows(EncodeObj(ORDER_RESPONSE, ResponseSlots(o)), HeaderTable(o), {"delivery", "payment", "items"})
  {
    var at: seq<nat> := [0, 1, 2, 6, 7, 8, 9, 10, 11, 12, 13];
    OrderResponseNames();
    forall k | 0 <= k < 11 ensures Matches(ORDER_RESPONSE, ResponseSlots(o), at[k], HeaderTable(o)[k]) {
      HeaderMatches(o, k);
    }
    forall j | 0 <= j < |ORDER_RESPONSE| ensures j in at || ORDER_RESPONSE[j].name in {"delivery", "payment", "items"} {
      NestedOrHeader(at, j);
    }
    TableShown(ORDER_RESPONSE, ResponseSlots(o), HeaderTable(o), at, {"delivery", "payment", "items"});
  }

  lemma NestedOrHeader(at: seq<nat>, j: nat)
    requires at == [0, 1, 2, 6, 7, 8, 9, 10, 11, 12, 13] && j < 14
    ensures j in at || ORDER_RESPONSE[j].name in {"delivery", "payment", "items"}
  {
    if j < 3 {
      assert at[j] == j;
    } else if j >= 6 {
      assert at[j - 3] == j;
    }
  }

  lemma ObjectField(fs: seq<Field>, slots: seq<Slot>, j: nat, inner: seq<Field>, x: seq<Slot>)
    requires UniqueNames(fs) && Shaped(fs, slots) && j < |fs| && fs[j].ty == TObj(inner) && slots[j] == SObj(x)
    ensures Shaped(inner, x) && Lookup(EncodeObj(fs, slots), fs[j].name) == Some(JObj(EncodeObj(inner, x)))
  {
    assert ShapedSlot(fs[j].ty, slots[j]);
    EncodedByName(fs, slots);
  }

  lemma ArrayField(fs: seq<Field>, slots: seq<Slot>, j: nat, inner: seq<Field>, xs: seq<seq<Slot>>)
    requires UniqueNames(fs) && Shaped(fs, slots) && j < |fs| && fs[j].ty == TArr(inner) && slots[j] == SArr(xs)
    requires forall i :: 0 <= i < |xs| ==> Shaped(inner, xs[i])
    ensures Lookup(EncodeObj(fs, slots), fs[j].name) == Some(JArr(EncodeElems(inner, xs)))
  {
    assert ShapedSlot(fs[j].ty, slots[j]);
    EncodedByName(fs, slots);
  }

  /** Every response is encoded with its own fields under their own names, at
      every level. */
  lemma EncodedShows(o: OrderResponse)
    ensures ShowsResponse(o, EncodeObj(ORDER_RESPONSE, ResponseSlots(o)))
  {
    var fs, s := ORDER_RESPONSE, ResponseSlots(o);
    OrderResponseNames();
    assert fs[3].name == "delivery" && fs[4].name == "payment" && fs[5].name == "items";
    ObjectField(fs, s, 3, DELIVERY, DeliverySlots(o.delivery));
    ObjectField(fs, s, 4, PAYMENT, PaymentSlots(o.payment));
    ArrayField(fs, s, 5, ORDER_ITEM, ItemsSlots(o.items));
    HeaderShown(o);
    DeliveryShown(o.delivery);
    PaymentShown(o.payment);
    ItemsShown(o.items);
  }

  // ----- decoding reads the response -----

  /** The same value under the name in both objects, or none in either. */
  ghost predicate SameUnder(a: seq<Member>, b: seq<Member>, name: string) {
    && (name in Names(a) <==> name in Names(b))
    && (name in Names(a) ==> Same(Lookup(a, name).value, Lookup(b, name).value))
  }

  lemma SameByLookup(a: seq<Member>, b: seq<Member>)
    requires UniqueKeys(a) && UniqueKeys(b) && forall name :: SameUnder(a, b, name)
    ensures SameMembers(a, b)
  {
    forall name ensures name in Names(a) <==> name in Names(b) {
      assert SameUnder(a, b, name);
    }
    forall i | 0 <= i < |a| ensures a[i].key in Names(b) && Same(a[i].val, Lookup(b, a[i].key).value) {
      KeyIsName(a, i);
      UniqueLookup(a, i);
      assert SameUnder(a, b, a[i].key);
    }
  }

  /** Two objects that show one table are the same up to order. */
  lemma TablesAgree(a: seq<Member>, b: seq<Member>, table: seq<Entry>, others: set<string>)
    requires Shows(a, table, others) && Shows(b, table, others)
    requires forall name :: name in others ==> SameUnder(a, b, name)
    ensures SameMembers(a, b)
  {
    forall name ensures SameUnder(a, b, name) {
      if name !in others && Listed(table, name) {
        var k :| 0 <= k < |table| && table[k].name == name;
        assert Lookup(a, name) == table[k].value && Lookup(b, name) == table[k].value;
      }
    }
    SameByLookup(a, b);
  }

  lemma ItemsAgree(items: seq<ItemInfo>, v: Option<Json>, w: Option<Json>)
    requires ShowsItems(items, v) && ShowsItems(items, w)
    ensures Same(v.value, w.value)
  {
    var xs, ys := v.value.elems, w.value.elems;
    forall i | 0 <= i < |items| ensures Same(xs[i], ys[i]) {
      assert ShowsItem(items[i], xs[i]) && ShowsItem(items[i], ys[i]);
      TablesAgree(xs[i].members, ys[i].members, ItemTable(items[i]), {});
    }
  }

  lemma ResponsesAgree(o: OrderResponse, a: seq<Member>, b: seq<Member>)
    requires ShowsResponse(o, a) && ShowsResponse(o, b)
    ensures SameMembers(a, b)
  {
    var d, e := Lookup(a, "delivery").value.members, Lookup(b, "delivery").value.members;
    var p, q := Lookup(a, "payment").value.members, Lookup(b, "payment").value.members;
    TablesAgree(d, e, DeliveryTable(o.delivery), {});
    TablesAgree(p, q, PaymentTable(o.payment), {});
    ItemsAgree(o.items, Lookup(a, "items"), Lookup(b, "items"));
    assert SameUnder(a, b, "delivery") && SameUnder(a, b, "payment") && SameUnder(a, b, "items");
    TablesAgree(a, b, HeaderTable(o), {"delivery", "payment", "items"});
  }

  // ----- the struct that decoded slots are -----

  function StrOf(s: Slot): string { if s.SStr? then s.s else "" }

  function IntOf(s: Slot): Int64 { if s.SInt? then s.n else 0 }

  function OptOf(s: Slot): OptString { if s.SOpt? then OptString(s.s, s.isSet) else OptString("", false) }

  function DeliveryOf(s: seq<Slot>): DeliveryInfo
    requires |s| == |DELIVERY|
  {
    DeliveryInfo(StrOf(s[0]), StrOf(s[1]), StrOf(s[2]), StrOf(s[3]), StrOf(s[4]), StrOf(s[5]), StrOf(s[6]))
  }

  function PaymentOf(s: seq<Slot>): PaymentInfo
    requires |s| == |PAYMENT|
  {
    PaymentInfo(StrOf(s[0]), OptOf(s[1]), StrOf(s[2]), StrOf(s[3]), IntOf(s[4]), IntOf(s[5]), StrOf(s[6]), IntOf(s[7]),
                IntOf(s[8]), IntOf(s[9]))
  }

  function ItemOf(s: seq<Slot>): ItemInfo
    requires |s| == |ORDER_ITEM|
  {
    ItemInfo(IntOf(s[0]), StrOf(s[1]), IntOf(s[2]), StrOf(s[3]), StrOf(s[4]), IntOf(s[5]), StrOf(s[6]), IntOf(s[7]),
             IntOf(s[8]), StrOf(s[9]), IntOf(s[10]))
  }

  function ItemsOf(elems: seq<seq<Slot>>): seq<ItemInfo>
    requires forall i :: 0 <= i < |elems| ==> |elems[i]| == |ORDER_ITEM|
  {
    seq(|elems|, i requires 0 <= i < |elems| => ItemOf(elems[i]))
  }

  lemma ResponseShape(s: seq<Slot>)
    requires Shaped(ORDER_RESPONSE, s)
    ensures |s| == 14 && s[3].SObj? && s[4].SObj? && s[5].SArr? && s[12].STime?
    ensures |s[3].slots| == |DELIVERY| && |s[4].slots| == |PAYMENT|
    ensures forall i :: 0 <= i < |s[5].elems| ==> |s[5].elems[i]| == |ORDER_ITEM|
  {
    assert ShapedSlot(ORDER_RESPONSE[3].ty, s[3]) && ShapedSlot(ORDER_RESPONSE[4].ty, s[4]);
    assert ShapedSlot(ORDER_RESPONSE[5].ty, s[5]) && ShapedSlot(ORDER_RESPONSE[12].ty, s[12]);
  }

  function ResponseOf(s: seq<Slot>): OrderResponse
    requires Shaped(ORDER_RESPONSE, s)
  {
    ResponseShape(s);
    OrderResponse(
      StrOf(s[0]), StrOf(s[1]), StrOf(s[2]), DeliveryOf(s[3].slots), PaymentOf(s[4].slots), ItemsOf(s[5].elems),
      StrOf(s[6]), OptOf(s[7]), StrOf(s[8]), StrOf(s[9]), StrOf(s[10]), IntOf(s[11]), s[12].at, StrOf(s[13]))
  }

  lemma ReadBack(o: OrderResponse)
    ensures ResponseOf(ResponseSlots(o)) == o
  {
    assert ItemsOf(ItemsSlots(o.items)) == o.items;
  }

  /** Every JSON object that shows a response by name, whatever the order of its
      members at each level, is decoded to that response. */
  lemma ShownIsDecoded(o: OrderResponse, received: seq<Member>)
    requires CodecTypes.Plain(o) && ShowsResponse(o, received)
    ensures var r := DecodeObj(ORDER_RESPONSE, Zeros(ORDER_RESPONSE), received);
            r.Filled? && ResponseOf(r.slots) == o
  {
    EncodedShows(o);
    ResponsesAgree(o, EncodeObj(ORDER_RESPONSE, ResponseSlots(o)), received);
    ResponseRoundTrip(o, received);
    ReadBack(o);
  }

  lemma ZerosAt(fs: seq<Field>, k: nat)
    requires k < |fs|
    ensures Zeros(fs)[k] == Zero(fs[k].ty)
    ensures fs[k].ty.TStr? ==> Zeros(fs)[k] == SStr("")
    ensures fs[k].ty.TInt? ==> Zeros(fs)[k] == SInt(0)
    ensures fs[k].ty.TTime? ==> Zeros(fs)[k] == STime(0)
    ensures fs[k].ty.TOptStr? ==> Zeros(fs)[k] == SOpt(false, "")
    ensures fs[k].ty.TObj? ==> Zeros(fs)[k] == SObj(Zeros(fs[k].ty.fields))
    ensures fs[k].ty.TArr? ==> Zeros(fs)[k] == SArr([])
  {
  }

  lemma FreshDelivery()
    ensures DeliveryOf(Zeros(DELIVERY)) == DeliveryInfo("", "", "", "", "", "", "")
  {
    forall k | 0 <= k < 7 ensures Zeros(DELIVERY)[k] == SStr("") {
      ZerosAt(DELIVERY, k);
    }
  }

  lemma FreshPayment()
    ensures PaymentOf(Zeros(PAYMENT)) == PaymentInfo("", OptString("", false), "", "", 0, 0, "", 0, 0, 0)
  {
    forall k | 0 <= k < 10 ensures PAYMENT[k].ty.TStr? ==> StrOf(Zeros(PAYMENT)[k]) == "" {
      ZerosAt(PAYMENT, k);
    }
    forall k | 0 <= k < 10 ensures PAYMENT[k].ty.TInt? ==> IntOf(Zeros(PAYMENT)[k]) == 0 {
      ZerosAt(PAYMENT, k);
    }
    ZerosAt(PAYMENT, 1);
  }

  lemma FreshHeader(k: nat)
    requires k < 14
    ensures var fs, s := ORDER_RESPONSE, Zeros(ORDER_RESPONSE);
            && (fs[k].ty.TStr? ==> s[k] == SStr("")) && (fs[k].ty.TInt? ==> s[k] == SInt(0))
            && (fs[k].ty.TOptStr? ==> s[k] == SOpt(false, "")) && (fs[k].ty.TTime? ==> s[k] == STime(0))
            && (fs[k].ty.TObj? ==> s[k] == SObj(Zeros(fs[k].ty.fields))) && (fs[k].ty.TArr? ==> s[k] == SArr([]))
  {
    ZerosAt(ORDER_RESPONSE, k);
  }

  function EmptySlots(d: seq<Slot>, p: seq<Slot>): seq<Slot> {
    [SStr(""), SStr(""), SStr(""), SObj(d), SObj(p), SArr([]), SStr(""), SOpt(false, ""), SStr(""), SStr(""), SStr(""),
     SInt(0), STime(0), SStr("")]
  }

  lemma FreshSlots()
    ensures Zeros(ORDER_RESPONSE) == EmptySlots(Zeros(DELIVERY), Zeros(PAYMENT))
  {
    var e := EmptySlots(Zeros(DELIVERY), Zeros(PAYMENT));
    forall k | 0 <= k < 14 ensures Zeros(ORDER_RESPONSE)[k] == e[k] {
      FreshHeader(k);
    }
  }

  /** The struct that decoding starts from is empty: no text, zero, unset. */
  lemma FreshIsEmpty()
    ensures var o := ResponseOf(Zeros(ORDER_RESPONSE));
            && o.delivery == DeliveryInfo("", "", "", "", "", "", "")
            && o.payment == PaymentInfo("", OptString("", false), "", "", 0, 0, "", 0, 0, 0)
            && o.items == [] && o.internalSignature == OptString("", false) && o.smID == 0 && o.dateCreated == 0
            && o.orderUID == o.trackNumber == o.entry == o.locale == o.customerID == ""
            && o.deliveryService == o.shardkey == o.oofShard == ""
  {
    FreshSlots();
    FreshDelivery();
    FreshPayment();
  }
}
