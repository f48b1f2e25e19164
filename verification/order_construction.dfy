/** The two order-creation rules: which literal createOnlineOrder and
    createCashOnDeliveryOrder hand to the order store. */
module OrderConstruction {
  import opened OrderTypes

  /** The part of a gateway callback's `creation_extras` the handler reads. */
  datatype CreationExtras = CreationExtras(
    userId: Option<UserId>,
    addressId: Option<AddressId>,
    cartItems: seq<OrderItem>)

  /** The payment intention of a gateway callback. `paymentMethods` lists the
      `integration_id` of each entry of `payment_methods`, in order. */
  datatype Intention = Intention(
    id: Option<string>,
    clientSecret: Option<string>,
    extras: CreationExtras,
    amount: int,
    paymentMethods: seq<IntegrationId>)

  /** The callback body: the intention and `transaction.success`, where an
      absent transaction or flag reads as false. */
  datatype OnlineRequest = OnlineRequest(intention: Intention, transactionSuccess: bool)

  /** The payment-method table: entries keyed by gateway integration id, and
      the entry under `cashOnDelivery` used as the fallback. */
  datatype PaymentMethodTable = PaymentMethodTable(
    byIntegration: map<IntegrationId, PaymentMethod>,
    cashOnDelivery: PaymentMethod)

  /** The owner of an online order: the extras' user id when truthy, otherwise
      the requesting user (`userId || req.user._id`). */
  function OnlineOwner(extras: CreationExtras, requester: UserId): (u: UserId)
    ensures Truthy(extras.userId) ==> u == extras.userId.value
    ensures !Truthy(extras.userId) ==> u == requester
    ensures u != "" || requester == ""
  {
    if Truthy(extras.userId) then extras.userId.value else requester
  }

  /** The payment method of an online order: the table entry of the first
      integration id, or the cash-on-delivery entry when that id is unmapped.
      Reading `payment_methods[0].integration_id` of an empty list throws. */
  function ResolvePaymentMethod(table: PaymentMethodTable, ids: seq<IntegrationId>): (r: Result<PaymentMethod>)
    ensures r.Err? <==> ids == []
    ensures r.Err? ==> r.error == TypeError
    ensures r.Ok? ==> r.value in table.byIntegration.Values || r.value == table.cashOnDelivery
    ensures r.Ok? && ids[0] in table.byIntegration ==> r.value == table.byIntegration[ids[0]]
    ensures r.Ok? && ids[0] !in table.byIntegration ==> r.value == table.cashOnDelivery
  {
    if ids == [] then Err(TypeError)
    else if ids[0] in table.byIntegration then Ok(table.byIntegration[ids[0]])
    else Ok(table.cashOnDelivery)
  }

  /** The literal createOnlineOrder builds, or the error it throws before
      anything is stored. A failed transaction is rejected first. */
  function OnlineOrderData(req: OnlineRequest, requester: UserId, table: PaymentMethodTable): (r: Result<NewOrder>)
    ensures !req.transactionSuccess ==> r == Err(BadRequest)
    ensures req.transactionSuccess ==> (r.Ok? <==> req.intention.paymentMethods != [])
    ensures req.transactionSuccess && r.Err? ==> r.error == TypeError
    ensures r.Ok? ==> r.value.paid && r.value.shippingFee == 0 && TotalsConsistent(r.value)
    ensures r.Ok? ==> r.value.subtotal == req.intention.amount && r.value.total == req.intention.amount
    ensures r.Ok? ==> r.value.user == OnlineOwner(req.intention.extras, requester)
    ensures r.Ok? ==> Ok(r.value.paymentMethod) == ResolvePaymentMethod(table, req.intention.paymentMethods)
    ensures r.Ok? ==> r.value.orderItems == req.intention.extras.cartItems
    ensures r.Ok? ==> r.value.shippingAddress == req.intention.extras.addressId
    ensures r.Ok? ==> r.value.paymentIntentId == req.intention.id && r.value.clientSecret == req.intention.clientSecret
  {
    var shippingFee := 0;
    if !req.transactionSuccess then Err(BadRequest)
    else
      match ResolvePaymentMethod(table, req.intention.paymentMethods)
      case Err(e) => Err(e)
      case Ok(pm) =>
        Ok(NewOrder(
             user := OnlineOwner(req.intention.extras, requester),
             orderItems := req.intention.extras.cartItems,
             subtotal := req.intention.amount,
             total := req.intention.amount + shippingFee,
             shippingFee := shippingFee,
             shippingAddress := req.intention.extras.addressId,
             clientSecret := req.intention.clientSecret,
             paymentIntentId := req.intention.id,
             paid := true,
             paymentMethod := pm))
  }

  /** The literal createCashOnDeliveryOrder builds from an existing cart. */
  function CashOnDeliveryOrderData(cart: Cart, addressId: Option<AddressId>, requester: UserId): (d: NewOrder)
    ensures d.user == requester && d.orderItems == cart.items
    ensures d.subtotal == cart.totalPrice && d.total == cart.totalPrice
    ensures d.shippingFee == 0 && TotalsConsistent(d)
    ensures !d.paid && d.paymentMethod == CashOnDelivery
    ensures d.shippingAddress == addressId
    ensures d.paymentIntentId.None? && d.clientSecret.None?
  {
    var shippingFee := 0;
    NewOrder(
      user := requester,
      orderItems := cart.items,
      subtotal := cart.totalPrice,
      total := cart.totalPrice + shippingFee,
      shippingFee := shippingFee,
      shippingAddress := addressId,
      clientSecret := None,
      paymentIntentId := None,
      paid := false,
      paymentMethod := CashOnDelivery)
  }
}
