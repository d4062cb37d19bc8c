/** The Postgres storage (order_service/internal/ports/adapters/storage/postgres.go)
    over tables with the keys of order_service/db/migrations/000001_init.up.sql.
    A query sees one state of the tables, but its rows may stop arriving before
    the end, which the scanning loops do not notice. An insert fails on a value
    its column refuses, on a key or reference violation, or for a reason the
    environment chooses. */
module Storage {
  import opened Common
  import opened Models

  datatype OrderRow = OrderRow(
    trackNumber: string, entry: string, locale: string, internalSignature: string,
    customerID: string, deliveryService: string, shardKey: string, smID: Int64,
    dateCreated: int, oofShard: string, createdAt: int, updatedAt: int)

  datatype DeliveryRow = DeliveryRow(
    name: string, phone: string, zip: string, city: string, address: string,
    region: string, email: string)

  datatype PaymentRow = PaymentRow(
    transaction: string, requestID: string, currency: string, provider: string,
    amount: Int64, paymentDt: Int64, bank: string, deliveryCost: Int64,
    goodsTotal: Int64, customFee: Int64)

  datatype ItemKey = ItemKey(orderID: string, nmID: Int64)

  datatype ItemRow = ItemRow(
    chrtID: Int64, trackNumber: string, price: Int64, rid: string, name: string,
    sale: Int64, size: string, totalPrice: Int64, brand: string, status: Int64)

  datatype Tables = Tables(
    orders: map<string, OrderRow>, deliveries: map<string, DeliveryRow>,
    payments: map<string, PaymentRow>, items: map<ItemKey, ItemRow>)

  const NO_ROWS := Tables(map[], map[], map[], map[])

  // ----- columns -----

  predicate Text(s: string, width: nat) { |s| <= width && '\0' !in s }

  predicate Integer(i: int) { -0x8000_0000 <= i < 0x8000_0000 }

  predicate NonNegative(i: int) { Integer(i) && i >= 0 }

  predicate OrderFits(o: Order) {
    && Text(o.orderUID, 50) && Text(o.trackNumber, 50) && Text(o.entry, 10) && Text(o.locale, 2)
    && Text(o.internalSignature, 100) && Text(o.customerID, 50) && Text(o.deliveryService, 50)
    && Text(o.shardKey, 10) && Integer(o.smID) && Text(o.oofShard, 10)
  }

  predicate DeliveryFits(d: Delivery) {
    && Text(d.name, 100) && Text(d.phone, 20) && Text(d.zip, 20) && Text(d.city, 100)
    && Text(d.address, 200) && Text(d.region, 100) && Text(d.email, 100)
  }

  predicate PaymentFits(p: Payment) {
    && Text(p.transaction, 50) && Text(p.requestID, 50) && Text(p.currency, 3) && Text(p.provider, 50)
    && NonNegative(p.amount) && Text(p.bank, 50) && NonNegative(p.deliveryCost)
    && NonNegative(p.goodsTotal) && NonNegative(p.customFee)
  }

  predicate ItemFits(i: OrderItem) {
    && Text(i.trackNumber, 50) && NonNegative(i.price) && Text(i.rid, 50) && Text(i.name, 100)
    && 0 <= i.sale <= 100 && Text(i.size, 10) && NonNegative(i.totalPrice) && Text(i.brand, 100)
    && Integer(i.status)
  }

  predicate ItemsFit(items: seq<OrderItem>) { forall i :: 0 <= i < |items| ==> ItemFits(items[i]) }

  /** Every column takes its value. */
  predicate ColumnsFit(o: Order) {
    && OrderFits(o) && PaymentFits(o.payment) && DeliveryFits(o.delivery)
    && ItemsFit(o.items)
  }

  // ----- what a save makes of its values -----

  predicate Short(s: string, width: nat) { |s| <= width }

  predicate Quotable(s: string, width: nat) { |s| <= width && '\'' !in s }

  predicate PlainItem(i: OrderItem) {
    && Quotable(i.trackNumber, 50) && Quotable(i.rid, 50) && Quotable(i.name, 100) && Quotable(i.size, 10)
    && Quotable(i.brand, 100)
  }

  /** No text is longer than its column, and none that is put between the quotes
      of the items statement holds a quote. Postgres cuts a longer text when
      only spaces are cut off, and a quote ends its text or, doubled, becomes
      one; so other texts may be stored differently. */
  predicate Plain(o: Order) {
    && Quotable(o.orderUID, 50) && Short(o.trackNumber, 50) && Short(o.entry, 10) && Short(o.locale, 2)
    && Short(o.internalSignature, 100) && Short(o.customerID, 50) && Short(o.deliveryService, 50)
    && Short(o.shardKey, 10) && Short(o.oofShard, 10)
    && Short(o.delivery.name, 100) && Short(o.delivery.phone, 20) && Short(o.delivery.zip, 20)
    && Short(o.delivery.city, 100) && Short(o.delivery.address, 200) && Short(o.delivery.region, 100)
    && Short(o.delivery.email, 100)
    && Short(o.payment.transaction, 50) && Short(o.payment.requestID, 50) && Short(o.payment.currency, 3)
    && Short(o.payment.provider, 50) && Short(o.payment.bank, 50)
    && forall i :: 0 <= i < |o.items| ==> PlainItem(o.items[i])
  }

  /** No text of the order has a NUL, and none of its items statement a quote. */
  predicate NoSpecials(o: Order) {
    && (forall x :: x in OrderTexts(o) ==> '\0' !in x)
    && (forall x :: x in StatementTexts(o) ==> '\'' !in x)
  }

  function StatementTexts(o: Order): set<string> {
    {o.orderUID} + set i, x | 0 <= i < |o.items| && x in ItemTexts(o.items[i]) :: x
  }

  function ItemTexts(i: OrderItem): set<string> { {i.trackNumber, i.rid, i.name, i.size, i.brand} }

  function OrderTexts(o: Order): set<string> {
    {o.trackNumber, o.entry, o.locale, o.internalSignature, o.customerID, o.deliveryService, o.shardKey, o.oofShard,
     o.delivery.name, o.delivery.phone, o.delivery.zip, o.delivery.city, o.delivery.address, o.delivery.region,
     o.delivery.email, o.payment.transaction, o.payment.requestID, o.payment.currency, o.payment.provider,
     o.payment.bank} + StatementTexts(o)
  }

  /** Every integer is in the range of its column and meets its CHECK. */
  predicate NumbersFit(o: Order) {
    && -0x8000_0000 <= o.smID < 0x8000_0000
    && 0 <= o.payment.amount < 0x8000_0000 && 0 <= o.payment.deliveryCost < 0x8000_0000
    && 0 <= o.payment.goodsTotal < 0x8000_0000 && 0 <= o.payment.customFee < 0x8000_0000
    && forall i :: 0 <= i < |o.items| ==> ItemNumbersFit(o.items[i])
  }

  predicate ItemNumbersFit(i: OrderItem) {
    && 0 <= i.price < 0x8000_0000 && 0 <= i.sale <= 100 && 0 <= i.totalPrice < 0x8000_0000
    && -0x8000_0000 <= i.status < 0x8000_0000
  }

  /** Without special characters, the texts that are stored as given are exactly
      those that fit their columns. */
  lemma PlainIffFits(o: Order)
    requires NoSpecials(o)
    ensures ColumnsFit(o) <==> Plain(o) && NumbersFit(o)
  {
    assert o.orderUID in StatementTexts(o);
    forall i | 0 <= i < |o.items|
      ensures ItemFits(o.items[i]) <==> PlainItem(o.items[i]) && ItemNumbersFit(o.items[i])
    {
      forall x | x in ItemTexts(o.items[i]) ensures '\'' !in x && '\0' !in x {
        assert x in StatementTexts(o);
        assert x in OrderTexts(o);
      }
    }
    forall x | x in OrderTexts(o) ensures '\0' !in x {
    }
  }

  /** A quote in a text of the items statement is never plain. */
  lemma PlainHasNoQuotes(o: Order, x: string)
    requires x in StatementTexts(o) && '\'' in x
    ensures !Plain(o)
  {
    if x != o.orderUID {
      var i :| 0 <= i < |o.items| && x in ItemTexts(o.items[i]);
      assert !PlainItem(o.items[i]);
    }
  }

  /** `kept` may be what the columns are given when `o` is saved. Times are kept
      as they are whenever the texts are. */
  predicate Keeps(o: Order, kept: Order) {
    && (Plain(o) ==> kept == o)
    && (o.orderUID != "" ==> kept.orderUID != "") && (o.items != [] ==> kept.items != [])
  }

  // ----- inserts -----

  /** `created_at` and `updated_at` take the database's default. */
  function InsertOrder(t: Tables, o: Order, now: int): Option<Tables> {
    if o.orderUID in t.orders || !OrderFits(o) then None
    else
      Some(t.(orders := t.orders[o.orderUID := OrderRow(
                o.trackNumber, o.entry, o.locale, o.internalSignature, o.customerID,
                o.deliveryService, o.shardKey, o.smID, o.dateCreated, o.oofShard, now, now)]))
  }

  function InsertPayment(t: Tables, uid: string, p: Payment): Option<Tables> {
    if uid in t.payments || uid !in t.orders || !PaymentFits(p) then None
    else
      Some(t.(payments := t.payments[uid := PaymentRow(
                p.transaction, p.requestID, p.currency, p.provider, p.amount, p.paymentDt,
                p.bank, p.deliveryCost, p.goodsTotal, p.customFee)]))
  }

  function InsertDelivery(t: Tables, uid: string, d: Delivery): Option<Tables> {
    if uid in t.deliveries || uid !in t.orders || !DeliveryFits(d) then None
    else
      Some(t.(deliveries := t.deliveries[uid := DeliveryRow(
                d.name, d.phone, d.zip, d.city, d.address, d.region, d.email)]))
  }

  function RowOf(i: OrderItem): ItemRow {
    ItemRow(i.chrtID, i.trackNumber, i.price, i.rid, i.name, i.sale, i.size, i.totalPrice, i.brand, i.status)
  }

  /** One statement for all items: it fails as a whole. */
  function InsertItems(t: Tables, uid: string, items: seq<OrderItem>): Option<Tables> {
    if items == [] then Some(t)
    else
      var last := items[|items| - 1];
      match InsertItems(t, uid, items[..|items| - 1])
      case None => None
      case Some(u) =>
        var key := ItemKey(uid, last.nmID);
        if key in u.items || uid !in u.orders || !ItemFits(last) then None
        else Some(u.(items := u.items[key := RowOf(last)]))
  }

  /** The tables after all four inserts, if each of them goes through. */
  function Inserted(t: Tables, o: Order, now: int): Option<Tables> {
    match InsertOrder(t, o, now)
    case None => None
    case Some(t1) =>
      match InsertPayment(t1, o.orderUID, o.payment)
      case None => None
      case Some(t2) =>
        match InsertDelivery(t2, o.orderUID, o.delivery)
        case None => None
        case Some(t3) => InsertItems(t3, o.orderUID, o.items)
  }

  // ----- queries -----

  predicate HasItems(t: Tables, uid: string) {
    exists k :: k in t.items && k.orderID == uid
  }

  function OrderOf(uid: string, o: OrderRow, d: DeliveryRow, p: PaymentRow): Order {
    Order(uid, o.trackNumber, o.entry, o.locale, o.internalSignature, o.customerID, o.deliveryService,
          o.shardKey, o.smID, o.dateCreated, o.oofShard, o.createdAt, o.updatedAt,
          Delivery(uid, d.name, d.phone, d.zip, d.city, d.address, d.region, d.email),
          Payment(uid, p.transaction, p.requestID, p.currency, p.provider, p.amount, p.paymentDt, p.bank,
                  p.deliveryCost, p.goodsTotal, p.customFee),
          [])
  }

  /** The joined query; the inner join with the items finds nothing for an
      order without items, and an empty uid counts as not found. */
  function BaseRead(t: Tables, uid: string): Option<Order> {
    if uid in t.orders && uid in t.deliveries && uid in t.payments && HasItems(t, uid) && uid != "" then
      Some(OrderOf(uid, t.orders[uid], t.deliveries[uid], t.payments[uid]))
    else None
  }

  function ItemOf(k: ItemKey, r: ItemRow): OrderItem {
    OrderItem(k.orderID, r.chrtID, r.trackNumber, r.price, r.rid, r.name, r.sale, r.size, r.totalPrice,
              k.nmID, r.brand, r.status)
  }

  function KeysFor(t: Tables, uid: string): set<ItemKey> { set k | k in t.items && k.orderID == uid }

  function ItemsAt(t: Tables, keys: set<ItemKey>): set<OrderItem>
    requires keys <= t.items.Keys
  {
    set k | k in keys :: ItemOf(k, t.items[k])
  }

  function ItemRows(t: Tables, uid: string): set<OrderItem> { ItemsAt(t, KeysFor(t, uid)) }

  /** All item rows of an order, in some order. */
  ghost predicate Listing(t: Tables, uid: string, items: seq<OrderItem>) {
    multiset(items) == multiset(ItemRows(t, uid))
  }

  /** Some of the item rows of an order, each at most once. */
  ghost predicate PartListing(t: Tables, uid: string, items: seq<OrderItem>) {
    multiset(items) <= multiset(ItemRows(t, uid))
  }

  /** What a scan makes of a stream that ends after `n` rows. */
  ghost predicate CutListing(t: Tables, uid: string, n: nat, items: seq<OrderItem>) {
    && PartListing(t, uid, items)
    && |items| == Min(n, |KeysFor(t, uid)|)
    && (Listing(t, uid, items) <==> n >= |KeysFor(t, uid)|)
  }

  /** Different keys give different rows. */
  lemma {:induction false} RowsCounted(t: Tables, keys: set<ItemKey>)
    requires keys <= t.items.Keys
    ensures |ItemsAt(t, keys)| == |keys|
  {
    if keys != {} {
      var k :| k in keys;
      RowsCounted(t, keys - {k});
      ItemsAtAdd(t, keys - {k}, k);
      assert keys - {k} + {k} == keys;
      assert |multiset(ItemsAt(t, keys))| == |ItemsAt(t, keys)|;
    }
  }

  lemma CutIsListing(t: Tables, uid: string, items: seq<OrderItem>)
    requires PartListing(t, uid, items)
    ensures Listing(t, uid, items) <==> |items| == |KeysFor(t, uid)|
  {
    RowsCounted(t, KeysFor(t, uid));
    var part, all := multiset(items), multiset(ItemRows(t, uid));
    assert |part| == |items| && |all| == |ItemRows(t, uid)|;
    if |items| == |KeysFor(t, uid)| {
      PartIsAll(part, all);
    }
  }

  /** A scan has made `items` of the keys `scanned`; `rest` is still to come. */
  ghost predicate Scanning(
      t: Tables, uid: string, items: seq<OrderItem>, scanned: set<ItemKey>, rest: set<ItemKey>)
  {
    && scanned + rest == KeysFor(t, uid) && scanned !! rest
    && multiset(items) == multiset(ItemsAt(t, scanned)) && |items| == |scanned|
  }

  lemma RowScanned(
      t: Tables, uid: string, items: seq<OrderItem>, scanned: set<ItemKey>, rest: set<ItemKey>, k: ItemKey)
    requires Scanning(t, uid, items, scanned, rest) && k in rest
    ensures Scanning(t, uid, items + [ItemOf(k, t.items[k])], scanned + {k}, rest - {k})
  {
    ItemsAtAdd(t, scanned, k);
    assert scanned + {k} + (rest - {k}) == scanned + rest;
  }

  lemma ScanIsCut(t: Tables, uid: string, n: nat, items: seq<OrderItem>, scanned: set<ItemKey>, rest: set<ItemKey>)
    requires Scanning(t, uid, items, scanned, rest) && |items| <= n
    requires rest == {} || |items| == n
    ensures CutListing(t, uid, n, items)
  {
    assert |KeysFor(t, uid)| == |scanned| + |rest|;
    assert ItemsAt(t, scanned) <= ItemRows(t, uid);
    CutIsListing(t, uid, items);
  }

  // ----- what the inserts mean for the queries -----

  function LinkItem(uid: string, i: OrderItem): OrderItem { i.(orderID := uid) }

  function LinkItems(uid: string, items: seq<OrderItem>): seq<OrderItem> {
    seq(|items|, i requires 0 <= i < |items| => LinkItem(uid, items[i]))
  }

  /** The order as storage knows it: linked by its uid, stamped by the
      database, items left to the second query. */
  function StoredBase(o: Order, now: int): Order {
    o.(createdAt := now, updatedAt := now, items := [],
       delivery := o.delivery.(orderID := o.orderUID), payment := o.payment.(orderID := o.orderUID))
  }

  /** References hold, and an order comes with its payment and delivery. */
  ghost predicate Intact(t: Tables) {
    && t.payments.Keys == t.orders.Keys == t.deliveries.Keys
    && forall k :: k in t.items ==> k.orderID in t.orders
  }

  lemma ItemsAtAdd(t: Tables, keys: set<ItemKey>, k: ItemKey)
    requires keys + {k} <= t.items.Keys && k !in keys
    ensures ItemOf(k, t.items[k]) !in ItemsAt(t, keys)
    ensures multiset(ItemsAt(t, keys + {k})) == multiset(ItemsAt(t, keys)) + multiset{ItemOf(k, t.items[k])}
  {
    assert ItemsAt(t, keys + {k}) == ItemsAt(t, keys) + {ItemOf(k, t.items[k])};
  }

  lemma {:induction false} ItemsInserted(t: Tables, uid: string, items: seq<OrderItem>)
    requires InsertItems(t, uid, items).Some? && KeysFor(t, uid) == {}
    ensures var u := InsertItems(t, uid, items).value;
            && u == t.(items := u.items)
            && multiset(LinkItems(uid, items)) == multiset(ItemRows(u, uid))
            && (forall k: ItemKey :: k.orderID != uid ==>
                  (k in u.items <==> k in t.items) && (k in t.items ==> u.items[k] == t.items[k]))
            && (HasItems(u, uid) <==> items != [])
            && (items != [] ==> uid in t.orders)
  {
    if items == [] {
      assert ItemRows(t, uid) == {};
    } else {
      var init, last := items[..|items| - 1], items[|items| - 1];
      ItemsInserted(t, uid, init);
      var v, u := InsertItems(t, uid, init).value, InsertItems(t, uid, items).value;
      var key := ItemKey(uid, last.nmID);
      assert key in u.items && HasItems(u, uid);
      assert KeysFor(u, uid) == KeysFor(v, uid) + {key};
      assert ItemsAt(u, KeysFor(v, uid)) == ItemRows(v, uid);
      ItemsAtAdd(u, KeysFor(v, uid), key);
      assert LinkItems(uid, items) == LinkItems(uid, init) + [LinkItem(uid, last)];
    }
  }

  /** What a committed save makes of the tables, told by the queries: the order
      comes back exactly when it has items and a uid, with every field as
      given, and nobody else's rows change. */
  lemma SaveRoundTrip(t: Tables, o: Order, now: int)
    requires Intact(t) && Inserted(t, o, now).Some?
    ensures var u, uid := Inserted(t, o, now).value, o.orderUID;
            && Intact(u)
            && uid !in t.orders && u.orders.Keys == t.orders.Keys + {uid}
            && BaseRead(u, uid) == (if o.items != [] && uid != "" then Some(StoredBase(o, now)) else None)
            && (forall items :: Listing(u, uid, items) <==> multiset(items) == multiset(LinkItems(uid, o.items)))
            && (forall k :: k != uid ==> BaseRead(u, k) == BaseRead(t, k) && ItemRows(u, k) == ItemRows(t, k))
  {
    var uid := o.orderUID;
    assert KeysFor(t, uid) == {};
    var t2 := InsertPayment(InsertOrder(t, o, now).value, uid, o.payment).value;
    var t3 := InsertDelivery(t2, uid, o.delivery).value;
    assert KeysFor(t3, uid) == {};
    ItemsInserted(t3, uid, o.items);
    var u := Inserted(t, o, now).value;
    forall k | k != uid ensures BaseRead(u, k) == BaseRead(t, k) && ItemRows(u, k) == ItemRows(t, k) {
      assert KeysFor(u, k) == KeysFor(t, k);
      assert HasItems(u, k) <==> HasItems(t, k);
    }
  }

  ghost predicate DistinctItems(items: seq<OrderItem>) {
    forall i, j :: 0 <= i < j < |items| ==> items[i].nmID != items[j].nmID
  }

  lemma {:induction false} InsertItemsIff(t: Tables, uid: string, items: seq<OrderItem>)
    requires uid in t.orders && KeysFor(t, uid) == {}
    ensures InsertItems(t, uid, items).Some? <==> DistinctItems(items) && ItemsFit(items)
    ensures InsertItems(t, uid, items).Some? ==>
              var u := InsertItems(t, uid, items).value;
              && u.orders == t.orders
              && forall n :: ItemKey(uid, n) in u.items <==> exists i :: 0 <= i < |items| && items[i].nmID == n
  {
    if items == [] {
      forall n ensures ItemKey(uid, n) !in t.items {
        assert ItemKey(uid, n) !in KeysFor(t, uid);
      }
    } else {
      var init, last := items[..|items| - 1], items[|items| - 1];
      InsertItemsIff(t, uid, init);
      assert items == init + [last];
      assert ItemsFit(items) <==> ItemsFit(init) && ItemFits(last);
      if DistinctItems(init) && ItemsFit(init) {
        var u := InsertItems(t, uid, init).value;
        assert DistinctItems(items) <==> ItemKey(uid, last.nmID) !in u.items;
      } else {
        assert !DistinctItems(items) || !ItemsFit(items);
      }
    }
  }

  /** Exactly when the four inserts go through by themselves: every column takes
      its value, the uid is new, and no two items share an `nm_id`. */
  lemma InsertableIff(t: Tables, o: Order, now: int)
    requires Intact(t)
    ensures Inserted(t, o, now).Some? <==> ColumnsFit(o) && o.orderUID !in t.orders && DistinctItems(o.items)
  {
    var uid := o.orderUID;
    if uid !in t.orders && OrderFits(o) && PaymentFits(o.payment) && DeliveryFits(o.delivery) {
      var t2 := InsertPayment(InsertOrder(t, o, now).value, uid, o.payment).value;
      var t3 := InsertDelivery(t2, uid, o.delivery).value;
      assert KeysFor(t3, uid) == {};
      InsertItemsIff(t3, uid, o.items);
    }
  }

  /** No row refers to an order that is not there. */
  ghost predicate References(t: Tables) {
    && t.payments.Keys <= t.orders.Keys && t.deliveries.Keys <= t.orders.Keys
    && forall k :: k in t.items ==> k.orderID in t.orders
  }

  /** Each insert by itself, in whatever order they come, keeps the references
      and overwrites no row. */
  lemma {:induction false} InsertsKeepReferences(t: Tables, o: Order, now: int, uid: string)
    requires References(t)
    ensures InsertOrder(t, o, now).Some? ==> References(InsertOrder(t, o, now).value) && o.orderUID !in t.orders
    ensures InsertPayment(t, uid, o.payment).Some? ==>
              References(InsertPayment(t, uid, o.payment).value) && uid !in t.payments
    ensures InsertDelivery(t, uid, o.delivery).Some? ==>
              References(InsertDelivery(t, uid, o.delivery).value) && uid !in t.deliveries
    ensures InsertItems(t, uid, o.items).Some? ==>
              && References(InsertItems(t, uid, o.items).value)
              && forall k :: k in t.items ==> k in InsertItems(t, uid, o.items).value.items
                                              && InsertItems(t, uid, o.items).value.items[k] == t.items[k]
    decreases |o.items|
  {
    if o.items != [] {
      InsertsKeepReferences(t, o.(items := o.items[..|o.items| - 1]), now, uid);
    }
  }

  // ----- the latest orders -----

  predicate InDescendingTime(t: Tables, uids: seq<string>)
    requires forall u :: u in uids ==> u in t.orders
  {
    forall i, j :: 0 <= i < j < |uids| ==> t.orders[uids[i]].createdAt >= t.orders[uids[j]].createdAt
  }

  /** An answer the database may give to the query for the last `limit` orders:
      distinct stored orders, as many as there are up to the limit, newest
      first, none of them older than one left out. */
  ghost predicate IsLatest(t: Tables, limit: int, uids: seq<string>) {
    && limit >= 0 && |uids| == Min(limit, |t.orders|)
    && NoDup(uids)
    && (forall u :: u in uids ==> u in t.orders)
    && InDescendingTime(t, uids)
    && (forall u, v :: u in uids && v in t.orders && v !in uids ==> t.orders[u].createdAt >= t.orders[v].createdAt)
  }

  /** A row of that query, which does not join the items. */
  function LastRead(t: Tables, uid: string): Order
    requires Intact(t) && uid in t.orders
  {
    OrderOf(uid, t.orders[uid], t.deliveries[uid], t.payments[uid])
  }

  /** The start-up query and the query by uid agree on an order exactly when it
      has items and a uid. */
  lemma LastReadAgrees(t: Tables, uid: string)
    requires Intact(t) && uid in t.orders
    ensures BaseRead(t, uid) == Some(LastRead(t, uid)) <==> HasItems(t, uid) && uid != ""
  {
  }

  // ----- how queries end -----

  /** The rows of a query: an error that is reported, or rows that stop coming
      after the `n`th, if there are so many, which nobody checks. */
  datatype Stream = Fails | EndsAfter(n: nat)

  /** The environment of a read by uid. `itemsErrFirst` says which of two errors
      the error group sees first. */
  datatype ReadEnv = ReadEnv(baseOk: bool, items: Stream, itemsErrFirst: bool)

  predicate ReadsGoThrough(e: ReadEnv) { e.baseOk && e.items.EndsAfter? }

  /** The result of a read by uid. An error is one that happened; a result is
      the stored order with as many of its items as arrived. */
  ghost predicate AnswersRead(t: Tables, uid: string, e: ReadEnv, r: Result<Order, StorageError>) {
    match r
    case Ok(o) =>
      && ReadsGoThrough(e) && BaseRead(t, uid).Some?
      && o == BaseRead(t, uid).value.(items := o.items) && CutListing(t, uid, e.items.n, o.items)
    case Err(ErrOrderNotFound) => e.baseOk && BaseRead(t, uid).None?
    case Err(ErrQueryOrder) => !e.baseOk
    case Err(ErrQueryItems) => e.items.Fails?
    case Err(_) => false
  }

  /** The environment of the start-up read: the uids that the database would
      answer with, how their rows arrive, and those of the items of each. */
  datatype LastEnv = LastEnv(uids: seq<string>, base: Stream, items: seq<Stream>)

  ghost predicate MayAnswer(t: Tables, limit: int, e: LastEnv) {
    |e.items| == |e.uids| && (e.base.EndsAfter? ==> IsLatest(t, limit, e.uids))
  }

  /** How many orders arrive. */
  function Arriving(e: LastEnv): (k: nat)
    ensures k <= |e.uids|
  {
    match e.base
    case Fails => 0
    case EndsAfter(n) => Min(n, |e.uids|)
  }

  predicate LastGoThrough(e: LastEnv)
    requires |e.items| == |e.uids|
  {
    e.base.EndsAfter? && forall i :: 0 <= i < Arriving(e) ==> e.items[i].EndsAfter?
  }

  /** `orders` are the first of the latest orders, as many as arrived, each with
      as many of its own items as arrived. */
  ghost predicate AnswersLast(t: Tables, e: LastEnv, orders: seq<Order>)
    requires Intact(t) && |e.items| == |e.uids| && LastGoThrough(e)
  {
    && |orders| == Arriving(e)
    && forall i :: 0 <= i < |orders| ==> Loaded(t, e.uids[i], e.items[i].n, orders[i])
  }

  /** `o` is stored order `uid` with what arrived of its items. */
  ghost predicate Loaded(t: Tables, uid: string, n: nat, o: Order)
    requires Intact(t)
  {
    uid in t.orders && o == LastRead(t, uid).(items := o.items) && CutListing(t, uid, n, o.items)
  }

  lemma ArrivedAt(t: Tables, e: LastEnv, orders: seq<Order>, i: nat)
    requires Intact(t) && |e.items| == |e.uids| && LastGoThrough(e) && AnswersLast(t, e, orders) && i < |orders|
    ensures e.uids[i] in t.orders && orders[i].orderUID == e.uids[i]
    ensures orders[i].createdAt == t.orders[e.uids[i]].createdAt
  {
    assert Loaded(t, e.uids[i], e.items[i].n, orders[i]);
  }

  ghost predicate Arrived(e: LastEnv, n: nat, u: string)
    requires n <= |e.uids|
  {
    exists j :: 0 <= j < n && e.uids[j] == u
  }

  /** No stored order that did not arrive is newer than one that did. */
  lemma NoneNewer(t: Tables, limit: int, e: LastEnv, n: nat, i: nat, u: string)
    requires IsLatest(t, limit, e.uids) && i < n <= |e.uids| && u in t.orders && !Arrived(e, n, u)
    ensures e.uids[i] in t.orders && t.orders[e.uids[i]].createdAt >= t.orders[u].createdAt
  {
    assert e.uids[i] in e.uids;
    if u in e.uids {
      var j :| 0 <= j < |e.uids| && e.uids[j] == u;
      assert j >= n;
    }
  }

  /** What arrived of the latest orders are the latest of all: newest first, and
      no stored order that did not arrive is newer. When the rows do not end
      early there are as many as asked for or stored. */
  lemma ArrivedAreNewest(t: Tables, limit: int, e: LastEnv, orders: seq<Order>)
    requires Intact(t) && MayAnswer(t, limit, e) && LastGoThrough(e) && AnswersLast(t, e, orders)
    ensures forall i, j :: 0 <= i < j < |orders| ==>
                             orders[i].orderUID != orders[j].orderUID && orders[i].createdAt >= orders[j].createdAt
    ensures forall i, u :: 0 <= i < |orders| && u in t.orders && !Arrived(e, |orders|, u)
                           ==> orders[i].createdAt >= t.orders[u].createdAt
    ensures forall i :: 0 <= i < |orders| ==> orders[i].orderUID == e.uids[i]
    ensures e.base.n >= |t.orders| ==> |orders| == Min(limit, |t.orders|)
  {
    NoDupPairs(e.uids);
    forall i, j | 0 <= i < j < |orders|
      ensures orders[i].orderUID != orders[j].orderUID && orders[i].createdAt >= orders[j].createdAt
    {
      ArrivedAt(t, e, orders, i);
      ArrivedAt(t, e, orders, j);
    }
    forall i, u | 0 <= i < |orders| && u in t.orders && !Arrived(e, |orders|, u)
      ensures orders[i].createdAt >= t.orders[u].createdAt
    {
      ArrivedAt(t, e, orders, i);
      NoneNewer(t, limit, e, |orders|, i, u);
    }
    forall i | 0 <= i < |orders| ensures orders[i].orderUID == e.uids[i] {
      ArrivedAt(t, e, orders, i);
    }
  }

  // ----- the adapter -----

  datatype StorageError =
    | ErrBegin | ErrSaveOrder | ErrSavePayment | ErrSaveDelivery | ErrSaveItems | ErrCommit
    | ErrOrderNotFound | ErrQueryOrder | ErrQueryItems | ErrQueryLastOrders

  /** What the database answers besides violations, and what it takes the
      values of the order for. */
  datatype Env = Env(
    beginOk: bool, orderOk: bool, paymentOk: bool, deliveryOk: bool, itemsOk: bool, commitOk: bool, now: int,
    kept: Order)

  predicate Undisturbed(e: Env) { e.beginOk && e.orderOk && e.paymentOk && e.deliveryOk && e.itemsOk }

  /** The save fails with this error: the first stage that does not go through. */
  ghost predicate FailsWith(t: Tables, o: Order, e: Env, err: StorageError) {
    match err
    case ErrBegin => !e.beginOk
    case ErrSaveOrder => e.beginOk && !OrderSaved(t, o, e)
    case ErrSavePayment => e.beginOk && OrderSaved(t, o, e) && !PaymentSaved(t, o, e)
    case ErrSaveDelivery => e.beginOk && PaymentSaved(t, o, e) && !DeliverySaved(t, o, e)
    case ErrSaveItems =>
      e.beginOk && DeliverySaved(t, o, e) && (!e.itemsOk || Inserted(t, o, e.now).None?)
    case _ => false
  }

  predicate OrderSaved(t: Tables, o: Order, e: Env) { e.orderOk && InsertOrder(t, o, e.now).Some? }

  predicate PaymentSaved(t: Tables, o: Order, e: Env) {
    OrderSaved(t, o, e) && e.paymentOk && InsertPayment(InsertOrder(t, o, e.now).value, o.orderUID, o.payment).Some?
  }

  predicate DeliverySaved(t: Tables, o: Order, e: Env) {
    && PaymentSaved(t, o, e) && e.deliveryOk
    && InsertDelivery(InsertPayment(InsertOrder(t, o, e.now).value, o.orderUID, o.payment).value, o.orderUID,
                      o.delivery).Some?
  }

  class OrdersStoragePostgres {
    var tables: Tables

    constructor ()
      ensures tables == NO_ROWS
    {
      tables := NO_ROWS;
    }

    /** All or nothing: after an error the tables are as before. But the
        deferred commit writes its error to a variable that is not the result,
        so success is reported whether or not the commit went through. */
    method SaveOrder(order: Order, env: Env) returns (result: Option<StorageError>)
      requires Keeps(order, env.kept)
      modifies this
      ensures result.None? <==> Undisturbed(env) && Inserted(old(tables), env.kept, env.now).Some?
      ensures result.Some? ==> FailsWith(old(tables), env.kept, env, result.value)
      ensures tables == if result.None? && env.commitOk then Inserted(old(tables), env.kept, env.now).value
                        else old(tables)
    {
      if !env.beginOk {
        return Some(ErrBegin);
      }
      var transaction, err := RunInserts(env.kept, env);
      result := err;
      // deferred
      if err.Some? {
        transaction := tables;  // rolled back; the commit below finds a closed transaction
      }
      if env.commitOk {
        tables := transaction;
      } else {
        err := Some(ErrCommit);  // assigned too late to be returned
      }
    }

    /** The four inserts on the transaction's view of the tables. */
    method RunInserts(order: Order, env: Env) returns (transaction: Tables, err: Option<StorageError>)
      ensures err.None? <==> env.orderOk && env.paymentOk && env.deliveryOk && env.itemsOk
                             && Inserted(tables, order, env.now).Some?
      ensures err.None? ==> transaction == Inserted(tables, order, env.now).value
      ensures err.Some? && env.beginOk ==> FailsWith(tables, order, env, err.value)
    {
      transaction := tables;
      var step := InsertOrder(transaction, order, env.now);
      if !env.orderOk || step.None? {
        return transaction, Some(ErrSaveOrder);
      }
      transaction := step.value;
      step := InsertPayment(transaction, order.orderUID, order.payment);
      if !env.paymentOk || step.None? {
        return transaction, Some(ErrSavePayment);
      }
      transaction := step.value;
      step := InsertDelivery(transaction, order.orderUID, order.delivery);
      if !env.deliveryOk || step.None? {
        return transaction, Some(ErrSaveDelivery);
      }
      transaction := step.value;
      step := InsertItems(transaction, order.orderUID, order.items);
      if !env.itemsOk || step.None? {
        return transaction, Some(ErrSaveItems);
      }
      return step.value, None;
    }

    /** Scans the item rows in whatever order the database gives them, until
        no more arrive. That they ended early is never asked. */
    method GetOrderItemsByID(orderID: string, arriving: Stream) returns (r: Result<seq<OrderItem>, StorageError>)
      ensures arriving.Fails? ==> r == Err(ErrQueryItems)
      ensures arriving.EndsAfter? ==> r.Ok? && CutListing(tables, orderID, arriving.n, r.value)
    {
      if arriving.Fails? {
        return Err(ErrQueryItems);
      }
      var items := [];
      var rows := KeysFor(tables, orderID);
      ghost var scanned: set<ItemKey> := {};
      while rows != {} && |items| < arriving.n
        invariant Scanning(tables, orderID, items, scanned, rows)
        invariant |items| <= arriving.n
        decreases rows
      {
        var k :| k in rows;
        RowScanned(tables, orderID, items, scanned, rows, k);
        items := items + [ItemOf(k, tables.items[k])];
        rows, scanned := rows - {k}, scanned + {k};
      }
      ScanIsCut(tables, orderID, arriving.n, items, scanned, rows);
      return Ok(items);
    }

    /** Both queries on one state of the tables, in an error group. */
    method GetOrderByID(orderID: string, env: ReadEnv) returns (r: Result<Order, StorageError>)
      ensures AnswersRead(tables, orderID, env, r)
    {
      var base := GetOrderByIDBase(orderID, env.baseOk);
      var items := GetOrderItemsByID(orderID, env.items);
      match (base, items)
      case (Ok(order), Ok(rows)) => r := Ok(order.(items := rows));
      case (Ok(_), Err(e)) => r := Err(e);
      case (Err(e), Ok(_)) => r := Err(e);
      case (Err(e), Err(f)) => r := Err(if env.itemsErrFirst then f else e);
    }

    /** A query for one row reports its errors. */
    method GetOrderByIDBase(orderID: string, ok: bool) returns (r: Result<Order, StorageError>)
      ensures r == if !ok then Err(ErrQueryOrder)
                   else match BaseRead(tables, orderID) case None => Err(ErrOrderNotFound) case Some(o) => Ok(o)
    {
      if !ok {
        return Err(ErrQueryOrder);
      }
      var row := BaseRead(tables, orderID);
      return if row.None? then Err(ErrOrderNotFound) else Ok(row.value);
    }

    /** The base rows, then the items of each order fetched into its own place.
        It fails exactly when a query reports an error. */
    method GetLastOrders(limit: int, env: LastEnv) returns (r: Result<seq<Order>, StorageError>)
      requires Intact(tables) && MayAnswer(tables, limit, env)
      ensures r.Ok? <==> LastGoThrough(env)
      ensures r.Ok? ==> AnswersLast(tables, env, r.value)
      ensures r.Err? ==> r.error == if env.base.Fails? then ErrQueryLastOrders else ErrQueryItems
    {
      if env.base.Fails? {
        return Err(ErrQueryLastOrders);
      }
      var ordersList := GetLastOrdersBase(env.uids, env.base.n);
      var itemsList := GetItemsOfEach(ordersList, env.items);
      if itemsList.Err? {
        return Err(itemsList.error);
      }
      var result := AttachItems(ordersList, itemsList.value);
      forall i | 0 <= i < |result| ensures Loaded(tables, env.uids[i], env.items[i].n, result[i]) {
        assert CutListing(tables, ordersList[i].orderUID, env.items[i].n, itemsList.value[i]);
      }
      return Ok(result);
    }

    /** The fetches of the items, each into its own place, until one fails. */
    method GetItemsOfEach(orders: seq<Order>, arriving: seq<Stream>)
      returns (r: Result<seq<seq<OrderItem>>, StorageError>)
      requires |arriving| >= |orders|
      ensures r.Ok? <==> forall i :: 0 <= i < |orders| ==> arriving[i].EndsAfter?
      ensures r.Ok? ==>
                && |r.value| == |orders|
                && forall i :: 0 <= i < |orders| ==>
                                 CutListing(tables, orders[i].orderUID, arriving[i].n, r.value[i])
      ensures r.Err? ==> r.error == ErrQueryItems
    {
      var itemsList := new seq<OrderItem>[|orders|](_ => []);
      for i := 0 to |orders|
        invariant forall j :: 0 <= j < i ==> arriving[j].EndsAfter?
        invariant forall j :: 0 <= j < i ==> CutListing(tables, orders[j].orderUID, arriving[j].n, itemsList[j])
      {
        var items := GetOrderItemsByID(orders[i].orderUID, arriving[i]);
        if items.Err? {
          return Err(items.error);
        }
        itemsList[i] := items.value;
      }
      return Ok(itemsList[..]);
    }

    /** The base rows, scanned one after the other until no more arrive. */
    method GetLastOrdersBase(uids: seq<string>, n: nat) returns (orders: seq<Order>)
      requires Intact(tables) && forall u :: u in uids ==> u in tables.orders
      ensures |orders| == Min(n, |uids|)
      ensures forall j :: 0 <= j < |orders| ==> uids[j] in tables.orders && orders[j] == LastRead(tables, uids[j])
    {
      orders := [];
      while |orders| < |uids| && |orders| < n
        invariant |orders| <= |uids| && |orders| <= n
        invariant forall j :: 0 <= j < |orders| ==> uids[j] in tables.orders && orders[j] == LastRead(tables, uids[j])
      {
        var next := uids[|orders|];
        assert next in uids;
        orders := orders + [LastRead(tables, next)];
      }
    }
  }

  /** The closing loop: each order gets the items fetched into its place. */
  method AttachItems(orders: seq<Order>, itemsList: seq<seq<OrderItem>>) returns (r: seq<Order>)
    requires |itemsList| == |orders|
    ensures |r| == |orders| && forall j :: 0 <= j < |orders| ==> r[j] == orders[j].(items := itemsList[j])
  {
    r := orders;
    for i := 0 to |itemsList|
      invariant |r| == |orders|
      invariant forall j :: 0 <= j < |orders| ==> r[j] == if j < i then orders[j].(items := itemsList[j]) else orders[j]
    {
      r := r[i := r[i].(items := itemsList[i])];
    }
  }
}
