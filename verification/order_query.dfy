/** The filter side of the three order listings: the optional facets each
    listing reads from the query string, the query object the handlers build
    from them, and how the order store evaluates that object. */
module OrderQuery {
  import opened OrderTypes

  /** Facets of the admin listing (getAllOrders). `status` is the list the
      query string carried; it is used as a set of accepted statuses. */
  datatype AdminFacets = AdminFacets(
    name: Option<string>,
    status: Option<seq<Status>>,
    company: Option<CompanyId>,
    paid: Option<bool>,
    paymentMethod: Option<string>,
    period: Option<int>)

  /** Facets of the current-user listing (getCurrentUserOrders). */
  datatype UserFacets = UserFacets(
    status: Option<Status>,
    paid: Option<bool>,
    paymentMethod: Option<string>,
    user: Option<UserId>,
    period: Option<int>)

  /** Facets of the company listing (getCompanyOrders). */
  datatype CompanyFacets = CompanyFacets(
    name: Option<string>,
    status: Option<Status>,
    paid: Option<bool>,
    paymentMethod: Option<string>,
    period: Option<int>)

  /** The two store look-ups the handlers make before querying orders:
      the ids of the users whose first name, last name or email matches a
      name (User.find with a case-insensitive pattern), and the ids of a
      company's products (Product.find(...).select('_id')). */
  datatype Lookups = Lookups(
    usersMatching: string -> set<UserId>,
    productsOf: CompanyId -> set<ProductId>)

  datatype UserRule = UserIs(id: UserId) | UserIn(ids: set<UserId>)
  datatype StatusRule = StatusIs(status: Status) | StatusIn(statuses: seq<Status>)

  /** The `queryObject` handed to Order.find: one optional entry per order
      field a listing can constrain. */
  datatype Query = Query(
    user: Option<UserRule>,
    status: Option<StatusRule>,
    products: Option<set<ProductId>>,
    paid: Option<bool>,
    paymentMethodName: Option<string>,
    createdSince: Option<int>)

  const EmptyQuery: Query := Query(None, None, None, None, None, None)

  /** `'orderItems.product': {$in: ps}`: some line item names one of `ps`. */
  predicate HasProductIn(o: Order, ps: set<ProductId>)
  {
    exists i :: 0 <= i < |o.orderItems| && o.orderItems[i].product in ps
  }

  /** How the order store evaluates a query object: every present entry
      must hold. */
  predicate Matches(q: Query, o: Order)
  {
    && (q.user.Some? ==>
          match q.user.value
          case UserIs(id) => o.user == id
          case UserIn(ids) => o.user in ids)
    && (q.status.Some? ==>
          match q.status.value
          case StatusIs(st) => o.status == st
          case StatusIn(sts) => o.status in sts)
    && (q.products.Some? ==> HasProductIn(o, q.products.value))
    && (q.paid.Some? ==> o.paid == q.paid.value)
    && (q.paymentMethodName.Some? ==> o.paymentMethod.name == q.paymentMethodName.value)
    && (q.createdSince.Some? ==> o.createdAt >= q.createdSince.value)
  }

  /** Who is asking, and with which facets. */
  datatype View =
    | AdminView(admin: AdminFacets)
    | UserView(userFacets: UserFacets, requester: Requester)
    | CompanyView(companyFacets: CompanyFacets, requester: Requester)

  /** The facets every listing shares: paid, payment-method name, period. */
  predicate CommonFacetsHold(paid: Option<bool>, paymentMethod: Option<string>, period: Option<int>, o: Order)
  {
    && (paid.Some? ==> o.paid == paid.value)
    && (Truthy(paymentMethod) ==> o.paymentMethod.name == paymentMethod.value)
    && (period.Some? ==> period.value <= o.createdAt)
  }

  /** Which orders a listing is meant to return, stated facet by facet
      independently of the query object: a facet that is not supplied
      constrains nothing, supplied facets hold together. */
  predicate Selects(v: View, env: Lookups, o: Order)
  {
    match v
    case AdminView(f) =>
      && (Truthy(f.name) ==> o.user in env.usersMatching(f.name.value))
      && (f.status.Some? ==> o.status in f.status.value)
      && (Truthy(f.company) ==>
            exists item :: item in o.orderItems && item.product in env.productsOf(f.company.value))
      && CommonFacetsHold(f.paid, f.paymentMethod, f.period, o)
    case UserView(f, requester) =>
      && o.user == (if Truthy(f.user) then f.user.value else requester.id)
      && (Truthy(f.status) ==> o.status == f.status.value)
      && CommonFacetsHold(f.paid, f.paymentMethod, f.period, o)
    case CompanyView(f, requester) =>
      && (exists item :: item in o.orderItems && item.product in env.productsOf(requester.company))
      && (Truthy(f.name) ==> o.user in env.usersMatching(f.name.value))
      && (Truthy(f.status) ==> o.status == f.status.value)
      && CommonFacetsHold(f.paid, f.paymentMethod, f.period, o)
  }

  /** getAllOrders' query object, built entry by entry behind one guard per
      facet. */
  method BuildAdminQuery(f: AdminFacets, env: Lookups) returns (q: Query)
    ensures forall o :: Matches(q, o) <==> Selects(AdminView(f), env, o)
    ensures q.user.Some? <==> Truthy(f.name)
    ensures q.status.Some? <==> f.status.Some?
    ensures q.products.Some? <==> Truthy(f.company)
    ensures q.paid == f.paid
    ensures q.paymentMethodName.Some? <==> Truthy(f.paymentMethod)
    ensures q.createdSince == f.period
  {
    q := EmptyQuery;
    if Truthy(f.name) {
      q := q.(user := Some(UserIn(env.usersMatching(f.name.value))));
    }
    if f.status.Some? {
      q := q.(status := Some(StatusIn(f.status.value)));
    }
    if Truthy(f.company) {
      q := q.(products := Some(env.productsOf(f.company.value)));
    }
    if f.paid.Some? {
      q := q.(paid := f.paid);
    }
    if Truthy(f.paymentMethod) {
      q := q.(paymentMethodName := f.paymentMethod);
    }
    if f.period.Some? {
      q := q.(createdSince := f.period);
    }
  }

  /** getCurrentUserOrders' query object: it starts from `user == requester`
      and a supplied `user` facet overwrites that entry. */
  method BuildUserQuery(f: UserFacets, requester: Requester) returns (q: Query)
    ensures forall env, o :: Matches(q, o) <==> Selects(UserView(f, requester), env, o)
    ensures q.user == Some(UserIs(if Truthy(f.user) then f.user.value else requester.id))
    ensures q.status.Some? <==> Truthy(f.status)
    ensures q.products.None?
    ensures q.paid == f.paid
    ensures q.paymentMethodName.Some? <==> Truthy(f.paymentMethod)
    ensures q.createdSince == f.period
  {
    q := EmptyQuery.(user := Some(UserIs(requester.id)));
    if Truthy(f.status) {
      q := q.(status := Some(StatusIs(f.status.value)));
    }
    if f.paid.Some? {
      q := q.(paid := f.paid);
    }
    if Truthy(f.paymentMethod) {
      q := q.(paymentMethodName := f.paymentMethod);
    }
    if Truthy(f.user) {
      q := q.(user := Some(UserIs(f.user.value)));
    }
    if f.period.Some? {
      q := q.(createdSince := f.period);
    }
  }

  /** getCompanyOrders' query object: it always starts from the requester's
      company's products, then adds one entry per supplied facet. */
  method BuildCompanyQuery(f: CompanyFacets, requester: Requester, env: Lookups) returns (q: Query)
    ensures forall o :: Matches(q, o) <==> Selects(CompanyView(f, requester), env, o)
    ensures q.products == Some(env.productsOf(requester.company))
    ensures q.user.Some? <==> Truthy(f.name)
    ensures q.status.Some? <==> Truthy(f.status)
    ensures q.paid == f.paid
    ensures q.paymentMethodName.Some? <==> Truthy(f.paymentMethod)
    ensures q.createdSince == f.period
  {
    q := EmptyQuery.(products := Some(env.productsOf(requester.company)));
    if Truthy(f.name) {
      q := q.(user := Some(UserIn(env.usersMatching(f.name.value))));
    }
    if Truthy(f.status) {
      q := q.(status := Some(StatusIs(f.status.value)));
    }
    if f.paid.Some? {
      q := q.(paid := f.paid);
    }
    if Truthy(f.paymentMethod) {
      q := q.(paymentMethodName := f.paymentMethod);
    }
    if f.period.Some? {
      q := q.(createdSince := f.period);
    }
  }

  /** The orders of `os` that satisfy `p`, in store order. */
  function Keep(os: seq<Order>, p: Order -> bool): (r: seq<Order>)
    ensures |r| <= |os|
    ensures forall o :: o in r <==> o in os && p(o)
  {
    if os == [] then []
    else (if p(os[0]) then [os[0]] else []) + Keep(os[1..], p)
  }

  /** Two predicates that agree on every order keep the same orders. */
  lemma {:induction false} KeepAgrees(os: seq<Order>, p: Order -> bool, p': Order -> bool)
    requires forall o :: p(o) == p'(o)
    ensures Keep(os, p) == Keep(os, p')
  {
    if os != [] {
      KeepAgrees(os[1..], p, p');
    }
  }

  /** Order.find(q): the stored orders the query object matches, in store
      order. */
  function Filter(os: seq<Order>, q: Query): (r: seq<Order>)
    ensures |r| <= |os|
    ensures forall o :: o in r <==> o in os && Matches(q, o)
  {
    Keep(os, o => Matches(q, o))
  }

  /** The orders a listing is meant to return, in store order: the reference
      the query objects are checked against. */
  function SelectFor(os: seq<Order>, v: View, env: Lookups): (r: seq<Order>)
    ensures |r| <= |os|
    ensures forall o :: o in r <==> o in os && Selects(v, env, o)
  {
    Keep(os, o => Selects(v, env, o))
  }

  /** A query object that agrees with a view on every order fetches exactly
      the view's orders, in the same order. */
  lemma FilterAgreesWithView(os: seq<Order>, q: Query, v: View, env: Lookups)
    requires forall o :: Matches(q, o) <==> Selects(v, env, o)
    ensures Filter(os, q) == SelectFor(os, v, env)
  {
    KeepAgrees(os, o => Matches(q, o), o => Selects(v, env, o));
  }
}
