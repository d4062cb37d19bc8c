/** The entities of order_service/internal/models/entities.go. Times are opaque
    integers. */
module Models {
  /** Go's 64-bit `int` and `int64`. */
  type Int64 = x: int | -0x8000_0000_0000_0000 <= x < 0x8000_0000_0000_0000

  datatype Order = Order(
    orderUID: string, trackNumber: string, entry: string, locale: string,
    internalSignature: string, customerID: string, deliveryService: string,
    shardKey: string, smID: Int64, dateCreated: int, oofShard: string,
    createdAt: int, updatedAt: int,
    delivery: Delivery, payment: Payment, items: seq<OrderItem>)

  datatype Delivery = Delivery(
    orderID: string, name: string, phone: string, zip: string, city: string,
    address: string, region: string, email: string)

  datatype Payment = Payment(
    orderID: string, transaction: string, requestID: string, currency: string,
    provider: string, amount: Int64, paymentDt: Int64, bank: string,
    deliveryCost: Int64, goodsTotal: Int64, customFee: Int64)

  datatype OrderItem = OrderItem(
    orderID: string, chrtID: Int64, trackNumber: string, price: Int64,
    rid: string, name: string, sale: Int64, size: string, totalPrice: Int64,
    nmID: Int64, brand: string, status: Int64)
}
