/** The order handlers over an abstract order store and cart store: the two
    creation flows, the three listings, single-order retrieval and the
    move to `processing`. Store look-ups the handlers make (users by name,
    a company's products), the permission check and the payment-method
    table are parameters. */
module OrderController {
  import opened OrderTypes
  import opened OrderConstruction
  import opened OrderQuery
  import opened Pagination

  /** `checkPermissions(req.user, order.user)`: true when the requester may
      act on an order owned by the given user. */
  type Permission = (Requester, UserId) -> bool

  /** Order.findOne({_id: id}): the position of the first stored order with
      that id, if any. */
  function FindOrder(os: seq<Order>, id: OrderId): (r: Option<nat>)
    ensures r.None? <==> forall i :: 0 <= i < |os| ==> os[i].id != id
    ensures r.Some? ==> r.value < |os| && os[r.value].id == id
    ensures r.Some? ==> forall j :: 0 <= j < r.value ==> os[j].id != id
  {
    if os == [] then None
    else if os[0].id == id then Some(0)
    else
      match FindOrder(os[1..], id)
      case None => None
      case Some(k) => Some(k + 1)
  }

  /** An order appended under an id no stored order has is the one a lookup
      by that id finds. */
  lemma FindAppended(os: seq<Order>, o: Order)
    requires forall i :: 0 <= i < |os| ==> os[i].id != o.id
    ensures FindOrder(os + [o], o.id) == Some(|os|)
  {
    assert (os + [o])[|os|] == o;
    assert forall i :: 0 <= i < |os| ==> (os + [o])[i] == os[i];
  }

  /** updateOrder's in-place edit of a found order: the payment intent is
      recorded and the status becomes `processing`, whatever it was. */
  function MarkProcessing(o: Order, paymentIntentId: Option<string>): (r: Order)
    ensures r.status == Processing && r.paymentIntentId == paymentIntentId
    ensures r.(status := o.status, paymentIntentId := o.paymentIntentId) == o
  {
    o.(paymentIntentId := paymentIntentId, status := Processing)
  }

  /** Resolves an optional query parameter against its default, as the
      handlers' destructuring defaults do. */
  function OrDefault(p: Option<nat>, default: nat): (n: nat)
    ensures p.None? ==> n == default
    ensures p.Some? ==> n == p.value
  {
    if p.Some? then p.value else default
  }

  /** The envelope a listing returns for a view: the requested window of the
      orders the view selects, with the page-length count. */
  function ListingFor(os: seq<Order>, v: View, env: Lookups, page: nat, limit: nat): (e: Envelope<Order>)
    requires page >= 1 && limit > 0
    ensures |e.orders| <= limit && e.totalCount == |e.orders| && e.currentPage == page
    ensures e.lastPage <= 1
    ensures forall o :: o in e.orders ==> o in os && Selects(v, env, o)
  {
    var selected := SelectFor(os, v, env);
    LastPageAtMostOne(selected, page, limit);
    PageEnvelope(Window(selected, Skip(page, limit), limit), page, limit)
  }

  class OrderStore {
    var orders: seq<Order>
    var carts: map<CartId, Cart>
    /** The next id the store hands out. */
    var nextId: OrderId

    /** Ids are below `nextId` and unique. */
    ghost predicate Valid()
      reads this
    {
      && (forall i :: 0 <= i < |orders| ==> orders[i].id < nextId)
      && (forall i, j :: 0 <= i < j < |orders| ==> orders[i].id != orders[j].id)
    }

    constructor (initialCarts: map<CartId, Cart>)
      ensures Valid()
      ensures orders == [] && carts == initialCarts && nextId == 0
    {
      orders := [];
      carts := initialCarts;
      nextId := 0;
    }

    /** Order.create: stores the literal under a fresh id. */
    method Create(d: NewOrder, now: int) returns (o: Order)
      requires Valid()
      modifies this`orders, this`nextId
      ensures Valid()
      ensures o == Stored(d, old(nextId), now)
      ensures orders == old(orders) + [o] && nextId == old(nextId) + 1
      ensures FindOrder(orders, o.id) == Some(|old(orders)|)
    {
      o := Stored(d, nextId, now);
      FindAppended(orders, o);
      orders := orders + [o];
      nextId := nextId + 1;
    }

    /** createOnlineOrder: rejects a failed transaction before anything is
      stored, otherwise stores one paid order built from the intention. */
    method CreateOnlineOrder(req: OnlineRequest, requester: Requester, table: PaymentMethodTable, now: int)
      returns (r: Result<Order>)
      requires Valid()
      modifies this`orders, this`nextId
      ensures Valid() && carts == old(carts)
      ensures OnlineOrderData(req, requester.id, table).Err? ==>
                r == Err(OnlineOrderData(req, requester.id, table).error)
                && orders == old(orders) && nextId == old(nextId)
      ensures OnlineOrderData(req, requester.id, table).Ok? ==>
                r == Ok(Stored(OnlineOrderData(req, requester.id, table).value, old(nextId), now))
                && orders == old(orders) + [r.value]
      ensures !req.transactionSuccess ==> r == Err(BadRequest) && orders == old(orders)
      ensures r.Ok? ==> r.value.paid && r.value.shippingFee == 0
                        && r.value.total == r.value.subtotal + r.value.shippingFee
                        && r.value.subtotal == req.intention.amount
    {
      var data := OnlineOrderData(req, requester.id, table);
      if data.Err? {
        r := Err(data.error);
        return;
      }
      var o := Create(data.value, now);
      r := Ok(o);
    }

    /** createCashOnDeliveryOrder: needs an existing cart; stores one unpaid
      order built from it, then deletes the cart. */
    method CreateCashOnDeliveryOrder(cartId: CartId, addressId: Option<AddressId>, requester: Requester, now: int)
      returns (r: Result<Order>)
      requires Valid()
      modifies this`orders, this`carts, this`nextId
      ensures Valid()
      ensures cartId !in old(carts) ==>
                r == Err(NotFound) && orders == old(orders) && carts == old(carts) && nextId == old(nextId)
      ensures cartId in old(carts) ==>
                r == Ok(Stored(CashOnDeliveryOrderData(old(carts)[cartId], addressId, requester.id), old(nextId), now))
                && orders == old(orders) + [r.value]
                && carts == old(carts) - {cartId}
                && nextId == old(nextId) + 1
      ensures r.Ok? ==> !r.value.paid && r.value.user == requester.id
                        && r.value.paymentMethod == CashOnDelivery
                        && r.value.subtotal == r.value.total
    {
      if cartId !in carts {
        r := Err(NotFound);
        return;
      }
      var cart := carts[cartId];
      var o := Create(CashOnDeliveryOrderData(cart, addressId, requester.id), now);
      carts := carts - {cartId};
      r := Ok(o);
    }

    /** getSingleOrder: NotFound for an absent id, then the permission check
      against the order's owner. */
    method GetSingleOrder(orderId: OrderId, requester: Requester, permitted: Permission)
      returns (r: Result<Order>)
      ensures r == Err(NotFound) <==> forall i :: 0 <= i < |orders| ==> orders[i].id != orderId
      ensures r.Ok? ==> r.value in orders && r.value.id == orderId && permitted(requester, r.value.user)
      ensures r.Err? && r.error != NotFound ==>
                r.error == Forbidden
                && exists i :: 0 <= i < |orders| && orders[i].id == orderId && !permitted(requester, orders[i].user)
      ensures FindOrder(orders, orderId).Some? ==>
                var i := FindOrder(orders, orderId).value;
                r == (if permitted(requester, orders[i].user) then Ok(orders[i]) else Err(Forbidden))
    {
      var found := FindOrder(orders, orderId);
      if found.None? {
        r := Err(NotFound);
        return;
      }
      var o := orders[found.value];
      if !permitted(requester, o.user) {
        r := Err(Forbidden);
        return;
      }
      r := Ok(o);
    }

    /** updateOrder: NotFound for an absent id, the permission check against
      the order's owner, then the payment intent and `processing` status are
      written into that one order; nothing else changes. */
    method UpdateOrder(orderId: OrderId, paymentIntentId: Option<string>, requester: Requester, permitted: Permission)
      returns (r: Result<Order>)
      requires Valid()
      modifies this`orders
      ensures Valid() && carts == old(carts) && nextId == old(nextId)
      ensures FindOrder(old(orders), orderId).None? ==> r == Err(NotFound) && orders == old(orders)
      ensures FindOrder(old(orders), orderId).Some? ==>
                var i := FindOrder(old(orders), orderId).value;
                if permitted(requester, old(orders)[i].user)
                then r == Ok(MarkProcessing(old(orders)[i], paymentIntentId)) && orders == old(orders)[i := r.value]
                else r == Err(Forbidden) && orders == old(orders)
      ensures r.Ok? ==> r.value.id == orderId && r.value.status == Processing
                        && r.value.paymentIntentId == paymentIntentId
    {
      var found := FindOrder(orders, orderId);
      if found.None? {
        r := Err(NotFound);
        return;
      }
      var i := found.value;
      if !permitted(requester, orders[i].user) {
        r := Err(Forbidden);
        return;
      }
      var o := MarkProcessing(orders[i], paymentIntentId);
      orders := orders[i := o];
      r := Ok(o);
    }

    /** getAllOrders: the admin query object, then the requested page. */
    method GetAllOrders(f: AdminFacets, page: Option<nat>, limit: Option<nat>, env: Lookups)
      returns (e: Envelope<Order>)
      requires page.Some? ==> page.value >= 1
      requires limit.Some? ==> limit.value > 0
      ensures e == ListingFor(orders, AdminView(f), env, OrDefault(page, DefaultPage), OrDefault(limit, AdminDefaultLimit))
      ensures forall o :: o in e.orders ==> o in orders && Selects(AdminView(f), env, o)
      ensures |e.orders| <= OrDefault(limit, AdminDefaultLimit) && e.totalCount == |e.orders|
      ensures e.currentPage == OrDefault(page, DefaultPage) && e.lastPage <= 1
    {
      var p := OrDefault(page, DefaultPage);
      var l := OrDefault(limit, AdminDefaultLimit);
      var skip := Skip(p, l);
      var q := BuildAdminQuery(f, env);
      var matching := Filter(orders, q);
      FilterAgreesWithView(orders, q, AdminView(f), env);
      e := PageEnvelope(Window(matching, skip, l), p, l);
    }

    /** getCurrentUserOrders: the requester's orders (or the `user` facet's),
      then the requested page. */
    method GetCurrentUserOrders(f: UserFacets, requester: Requester, page: Option<nat>, limit: Option<nat>, env: Lookups)
      returns (e: Envelope<Order>)
      requires page.Some? ==> page.value >= 1
      requires limit.Some? ==> limit.value > 0
      ensures e == ListingFor(orders, UserView(f, requester), env, OrDefault(page, DefaultPage), OrDefault(limit, DefaultLimit))
      ensures forall o :: o in e.orders ==> o in orders && Selects(UserView(f, requester), env, o)
      ensures |e.orders| <= OrDefault(limit, DefaultLimit) && e.totalCount == |e.orders|
      ensures e.currentPage == OrDefault(page, DefaultPage) && e.lastPage <= 1
    {
      var p := OrDefault(page, DefaultPage);
      var l := OrDefault(limit, DefaultLimit);
      var skip := Skip(p, l);
      var q := BuildUserQuery(f, requester);
      var matching := Filter(orders, q);
      FilterAgreesWithView(orders, q, UserView(f, requester), env);
      e := PageEnvelope(Window(matching, skip, l), p, l);
    }

    /** getCompanyOrders: orders holding one of the requester's company's
      products, then the requested page. */
    method GetCompanyOrders(f: CompanyFacets, requester: Requester, page: Option<nat>, limit: Option<nat>, env: Lookups)
      returns (e: Envelope<Order>)
      requires page.Some? ==> page.value >= 1
      requires limit.Some? ==> limit.value > 0
      ensures e == ListingFor(orders, CompanyView(f, requester), env, OrDefault(page, DefaultPage), OrDefault(limit, DefaultLimit))
      ensures forall o :: o in e.orders ==> o in orders && Selects(CompanyView(f, requester), env, o)
      ensures |e.orders| <= OrDefault(limit, DefaultLimit) && e.totalCount == |e.orders|
      ensures e.currentPage == OrDefault(page, DefaultPage) && e.lastPage <= 1
    {
      var p := OrDefault(page, DefaultPage);
      var l := OrDefault(limit, DefaultLimit);
      var skip := Skip(p, l);
      var q := BuildCompanyQuery(f, requester, env);
      var matching := Filter(orders, q);
      FilterAgreesWithView(orders, q, CompanyView(f, requester), env);
      e := PageEnvelope(Window(matching, skip, l), p, l);
    }
  }
}
