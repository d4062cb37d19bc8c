/** The HTTP response built from an order
    (order_service/internal/handlers/httphandlers/handler.go). It forgets the
    link columns and the time stamps, so it decides when a cached and a stored
    order count as the same. */
module Handler {
  import opened Common
  import opened Models
  import opened Storage

  datatype OptString = OptString(value: string, isSet: bool)

  datatype OrderResponse = OrderResponse(
    orderUID: string, trackNumber: string, entry: string, delivery: DeliveryInfo,
    payment: PaymentInfo, items: seq<ItemInfo>, locale: string,
    internalSignature: OptString, customerID: string, deliveryService: string,
    shardkey: string, smID: Int64, dateCreated: int, oofShard: string)

  datatype DeliveryInfo = DeliveryInfo(
    name: string, phone: string, zip: string, city: string, address: string,
    region: string, email: string)

  datatype PaymentInfo = PaymentInfo(
    transaction: string, requestID: OptString, currency: string, provider: string,
    amount: Int64, paymentDt: Int64, bank: string, deliveryCost: Int64,
    goodsTotal: Int64, customFee: Int64)

  datatype ItemInfo = ItemInfo(
    chrtID: Int64, trackNumber: string, price: Int64, rid: string, name: string,
    sale: Int64, size: string, totalPrice: Int64, nmID: Int64, brand: string,
    status: Int64)

  function ToItem(i: OrderItem): ItemInfo {
    ItemInfo(i.chrtID, i.trackNumber, i.price, i.rid, i.name, i.sale, i.size, i.totalPrice, i.nmID, i.brand, i.status)
  }

  function ToItems(items: seq<OrderItem>): (r: seq<ItemInfo>)
    ensures |r| == |items|
  {
    seq(|items|, i requires 0 <= i < |items| => ToItem(items[i]))
  }

  function ToResponse(o: Order): OrderResponse {
    OrderResponse(
      o.orderUID, o.trackNumber, o.entry,
      DeliveryInfo(o.delivery.name, o.delivery.phone, o.delivery.zip, o.delivery.city, o.delivery.address,
                   o.delivery.region, o.delivery.email),
      PaymentInfo(o.payment.transaction, OptString(o.payment.requestID, true), o.payment.currency,
                  o.payment.provider, o.payment.amount, o.payment.paymentDt, o.payment.bank,
                  o.payment.deliveryCost, o.payment.goodsTotal, o.payment.customFee),
      ToItems(o.items), o.locale, OptString(o.internalSignature, true), o.customerID, o.deliveryService,
      o.shardKey, o.smID, o.dateCreated, o.oofShard)
  }

  /** Equal up to the order of the items. */
  ghost predicate SameResponse(a: OrderResponse, b: OrderResponse) {
    a.(items := []) == b.(items := []) && multiset(a.items) == multiset(b.items)
  }

  function FromItem(i: ItemInfo, orderID: string): OrderItem {
    OrderItem(orderID, i.chrtID, i.trackNumber, i.price, i.rid, i.name, i.sale, i.size, i.totalPrice, i.nmID, i.brand,
              i.status)
  }

  /** Read a response back into an order. Only what a response has no field for
      is taken from `links`: the `orderID`s and the two time stamps. */
  function Rebuild(r: OrderResponse, links: Order): Order
    requires |r.items| == |links.items|
  {
    var d, p := r.delivery, r.payment;
    Order(
      r.orderUID, r.trackNumber, r.entry, r.locale, r.internalSignature.value, r.customerID, r.deliveryService,
      r.shardkey, r.smID, r.dateCreated, r.oofShard, links.createdAt, links.updatedAt,
      Delivery(links.delivery.orderID, d.name, d.phone, d.zip, d.city, d.address, d.region, d.email),
      Payment(links.payment.orderID, p.transaction, p.requestID.value, p.currency, p.provider, p.amount, p.paymentDt,
              p.bank, p.deliveryCost, p.goodsTotal, p.customFee),
      seq(|r.items|, i requires 0 <= i < |r.items| => FromItem(r.items[i], links.items[i].orderID)))
  }

  /** `r` carries every field of `o` but links and stamps, the items in their
      order, and both optional fields set. */
  ghost predicate Presents(r: OrderResponse, o: Order) {
    && |r.items| == |o.items| && Rebuild(r, o) == o
    && r.internalSignature.isSet && r.payment.requestID.isSet
  }

  /** The success branch of `OrderIDGet`: fill the item slice, then build the
      response around it. */
  method BuildResponse(result: Order) returns (response: OrderResponse)
    ensures Presents(response, result)
  {
    var items := new ItemInfo[|result.items|](i => ItemInfo(0, "", 0, "", "", 0, "", 0, 0, "", 0));
    for i := 0 to |result.items|
      invariant forall j :: 0 <= j < i ==> FromItem(items[j], result.items[j].orderID) == result.items[j]
    {
      items[i] := ToItem(result.items[i]);
    }
    response := OrderResponse(
      result.orderUID, result.trackNumber, result.entry,
      DeliveryInfo(result.delivery.name, result.delivery.phone, result.delivery.zip, result.delivery.city,
                   result.delivery.address, result.delivery.region, result.delivery.email),
      PaymentInfo(result.payment.transaction, OptString(result.payment.requestID, true), result.payment.currency,
                  result.payment.provider, result.payment.amount, result.payment.paymentDt, result.payment.bank,
                  result.payment.deliveryCost, result.payment.goodsTotal, result.payment.customFee),
      items[..], result.locale, OptString(result.internalSignature, true), result.customerID,
      result.deliveryService, result.shardKey, result.smID, result.dateCreated, result.oofShard);
    RebuiltItems(response, result);
  }

  lemma RebuiltItems(r: OrderResponse, o: Order)
    requires |r.items| == |o.items|
    requires forall j :: 0 <= j < |o.items| ==> FromItem(r.items[j], o.items[j].orderID) == o.items[j]
    ensures Rebuild(r, o).items == o.items
  {
  }

  /** There is one response that presents an order: the projection. */
  lemma PresentationUnique(r: OrderResponse, o: Order)
    ensures Presents(r, o) <==> r == ToResponse(o)
  {
    if Presents(r, o) {
      assert Rebuild(r, o).items == o.items;
      assert r.items == ToItems(o.items);
    }
  }

  /** An order without what a response does not show. */
  function Shown(o: Order): Order {
    o.(createdAt := 0, updatedAt := 0,
       delivery := o.delivery.(orderID := ""), payment := o.payment.(orderID := ""),
       items := seq(|o.items|, i requires 0 <= i < |o.items| => o.items[i].(orderID := "")))
  }

  /** Two orders give the same response exactly when they differ in links and
      time stamps at most. */
  lemma SameResponseIff(a: Order, b: Order)
    ensures ToResponse(a) == ToResponse(b) <==> Shown(a) == Shown(b)
  {
    var r, q := ToResponse(a), ToResponse(b);
    PresentationUnique(r, a);
    PresentationUnique(q, b);
    if r == q {
      assert Shown(a).items == Shown(b).items by {
        forall i | 0 <= i < |a.items| ensures Shown(a).items[i] == Shown(b).items[i] {
          assert Shown(a).items[i] == FromItem(r.items[i], "") == FromItem(q.items[i], "");
        }
      }
    }
    if Shown(a) == Shown(b) {
      forall i | 0 <= i < |a.items| ensures ToItem(a.items[i]) == ToItem(b.items[i]) {
        assert ToItem(a.items[i]) == ToItem(Shown(a).items[i]) && ToItem(b.items[i]) == ToItem(Shown(b).items[i]);
      }
      assert r.items == q.items;
      assert Shown(a).delivery == Shown(b).delivery && Shown(a).payment == Shown(b).payment;
    }
  }

  lemma ToItemsRemoved(items: seq<OrderItem>, i: nat)
    requires i < |items|
    ensures multiset(ToItems(items)) == multiset(ToItems(RemovedAt(items, i))) + multiset{ToItem(items[i])}
  {
    RemovedAtMultiset(ToItems(items), i);
    assert RemovedAt(ToItems(items), i) == ToItems(RemovedAt(items, i));
  }

  lemma Partner(a: seq<OrderItem>, b: seq<OrderItem>) returns (i: nat)
    requires multiset(a) <= multiset(b) && a != []
    ensures i < |b| && b[i] == a[0] && multiset(RemovedAt(a, 0)) <= multiset(RemovedAt(b, i))
  {
    assert a[0] in multiset(a);
    assert a[0] in multiset(b);
    i :| 0 <= i < |b| && b[i] == a[0];
    RemovedAtMultiset(a, 0);
    RemovedAtMultiset(b, i);
    var x := multiset{a[0]};
    assert multiset(RemovedAt(a, 0)) == multiset(a) - x;
    assert multiset(RemovedAt(b, i)) == multiset(b) - x;
  }

  /** A part of the items gives a part of the response's items. */
  lemma {:induction false} PartOfItems(a: seq<OrderItem>, b: seq<OrderItem>)
    requires multiset(a) <= multiset(b)
    ensures multiset(ToItems(a)) <= multiset(ToItems(b))
    decreases |a|
  {
    if a == [] {
      assert ToItems(a) == [];
    } else {
      var i := Partner(a, b);
      PartOfItems(RemovedAt(a, 0), RemovedAt(b, i));
      ToItemsRemoved(a, 0);
      ToItemsRemoved(b, i);
    }
  }

  lemma ItemsPermute(a: seq<OrderItem>, b: seq<OrderItem>)
    requires multiset(a) == multiset(b)
    ensures multiset(ToItems(a)) == multiset(ToItems(b))
  {
    PartOfItems(a, b);
    PartOfItems(b, a);
  }

  lemma LinkInvisible(uid: string, items: seq<OrderItem>)
    ensures ToItems(LinkItems(uid, items)) == ToItems(items)
  {
  }

  /** The rows of an order, put together again in any item order, give the
      response of the order that was saved. */
  lemma StoredResponse(o: Order, now: int, items: seq<OrderItem>)
    requires multiset(items) == multiset(LinkItems(o.orderUID, o.items))
    ensures SameResponse(ToResponse(StoredBase(o, now).(items := items)), ToResponse(o))
  {
    ItemsPermute(items, LinkItems(o.orderUID, o.items));
    LinkInvisible(o.orderUID, o.items);
  }
}
