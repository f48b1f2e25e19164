/** Entities of the order engine: orders, carts, line items, payment methods,
    the requesting identity, and the error kinds the handlers raise. */
module OrderTypes {

  datatype Option<T> = None | Some(value: T)

  type UserId = string
  type OrderId = nat
  type CartId = string
  type AddressId = string
  type ProductId = string
  type VariantId = string
  type CompanyId = string
  type IntegrationId = string
  type Status = string

  /** Status set by updateOrder. */
  const Processing: Status := "processing"

  /** Status an order gets from the order schema's default when it is created
      (the schema itself is not part of this model). */
  const DefaultStatus: Status := "pending"

  datatype OrderItem = OrderItem(product: ProductId, variant: VariantId, quantity: nat, price: int)

  datatype PaymentMethod = PaymentMethod(id: int, name: string)

  /** The fixed payment method written by createCashOnDeliveryOrder. */
  const CashOnDelivery: PaymentMethod := PaymentMethod(1, "cashOnDelivery")

  /** The object literal a handler passes to Order.create. */
  datatype NewOrder = NewOrder(
    user: UserId,
    orderItems: seq<OrderItem>,
    subtotal: int,
    total: int,
    shippingFee: int,
    shippingAddress: Option<AddressId>,
    clientSecret: Option<string>,
    paymentIntentId: Option<string>,
    paid: bool,
    paymentMethod: PaymentMethod)

  /** A stored order: the literal plus what the store adds (id, creation time,
      default status). */
  datatype Order = Order(
    id: OrderId,
    createdAt: int,
    status: Status,
    user: UserId,
    orderItems: seq<OrderItem>,
    subtotal: int,
    total: int,
    shippingFee: int,
    shippingAddress: Option<AddressId>,
    clientSecret: Option<string>,
    paymentIntentId: Option<string>,
    paid: bool,
    paymentMethod: PaymentMethod)

  datatype Cart = Cart(items: seq<OrderItem>, totalPrice: int)

  /** The authenticated user of a request (`req.user`). */
  datatype Requester = Requester(id: UserId, company: CompanyId)

  /** BadRequest, NotFound and Forbidden are the custom errors; TypeError is
      the JavaScript error raised by reading a property of `undefined`. */
  datatype Error = BadRequest | NotFound | Forbidden | TypeError

  datatype Result<T> = Ok(value: T) | Err(error: Error)

  /** JavaScript truthiness of an optional string field (a query parameter,
      an id): absent and "" are falsy. */
  predicate Truthy(s: Option<string>)
  {
    s.Some? && s.value != ""
  }

  /** What Order.create stores for a literal `d`: every field of `d`, the id the
      store allocates, the creation time and the schema's default status. */
  function Stored(d: NewOrder, id: OrderId, now: int): (o: Order)
    ensures o.id == id && o.createdAt == now && o.status == DefaultStatus
    ensures o.user == d.user && o.orderItems == d.orderItems
    ensures o.subtotal == d.subtotal && o.total == d.total && o.shippingFee == d.shippingFee
    ensures o.shippingAddress == d.shippingAddress && o.clientSecret == d.clientSecret
    ensures o.paymentIntentId == d.paymentIntentId && o.paid == d.paid
    ensures o.paymentMethod == d.paymentMethod
  {
    Order(id, now, DefaultStatus, d.user, d.orderItems, d.subtotal, d.total, d.shippingFee,
          d.shippingAddress, d.clientSecret, d.paymentIntentId, d.paid, d.paymentMethod)
  }

  /** The amounts invariant every creation flow establishes. */
  predicate TotalsConsistent(d: NewOrder)
  {
    d.total == d.subtotal + d.shippingFee
  }
}
