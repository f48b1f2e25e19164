# Order engine and body trimming, modelled in Dafny

This project models two parts of an e-commerce backend:

- **The order controller** (`controllers/order.js`). It has two order-creation flows:
  - online-payment confirmation, driven by a payment gateway's callback;
  - cash on delivery, built from a stored cart.

  It also has three filtered, paginated order listings (admin, current user, company), single-order retrieval, and the move of an order to `processing`.
- **The `trim` middleware** (`middlewares/trim.js`). It trims every string field of a request body in place, except `password`.

The MongoDB collections become state of one class, `OrderController.OrderStore`:
- orders are a `seq<Order>`;
- carts are a `map<CartId, Cart>`;
- a counter hands out order ids.

The handlers' lookups into other collections become parameters. These are the users whose name or email matches a pattern, and a company's product ids. The permission check and the payment-method table are parameters too. The clock is a parameter: the creation time `now`.

Each listing builds its `queryObject` step by step, one guarded assignment per facet (`OrderQuery.BuildAdminQuery`, `BuildUserQuery`, `BuildCompanyQuery`). A query object holds one optional entry per constrained field. `OrderQuery.Matches` is how the store evaluates it. Each builder is proved equivalent, on every order, to `OrderQuery.Selects`: an independent, facet-by-facet statement of what that listing should return. The listings then take the skip/limit window of the matching orders (`Pagination.Window`). They wrap it in the envelope `{totalCount, currentPage, lastPage, orders}`.

As the code is written, `totalCount` is the length of the fetched page, not the number of matching orders. `lastPage` is `ceil(totalCount / limit)`, so it is always 0 or 1. The model keeps this behaviour. `Pagination.LastPageAtMostOne` and `Pagination.SecondPageOfFifteen` state its consequences: with 15 matching orders, `limit = 10` and `page = 2`, the page holds orders 11 to 15, but `totalCount` is 5 and `lastPage` is 1.

`updateOrder` sets `status` to `processing` whatever the order's current status is. The model keeps that too (`OrderController.MarkProcessing`).

The model keeps three omissions of the code. No handler checks that an order's line items are non-empty. Both creation flows fix the shipping fee at 0. Neither guards against creating the same online order twice.

Files: `order_types.dfy` (entities), `order_construction.dfy` (the two creation literals), `order_query.dfy` (facets, query objects, filtering), `pagination.dfy`, `order_controller.dfy` (the store and the handlers), `trim.dfy`.

## Model

| member | source | states |
|---|---|---|
| OrderConstruction.OnlineOwner | controllers/order.js:14-15 | the owner is the creation extras' user id when it is truthy, otherwise the requesting user |
| OrderConstruction.ResolvePaymentMethod | controllers/order.js:39-41 | the table entry of the first integration id when mapped, otherwise the cash-on-delivery entry; always a value of the table; an empty `payment_methods` list is a TypeError |
| OrderConstruction.OnlineOrderData | controllers/order.js:14-42 | a failed transaction gives BadRequest; otherwise the order is paid, shipping is 0, subtotal = amount, total = subtotal + shippingFee, with the resolved owner and payment method and the intention's items, address, intent id and client secret |
| OrderConstruction.CashOnDeliveryOrderData | controllers/order.js:59-73 | owned by the requester, items and subtotal = total from the cart, unpaid, shipping 0, payment method {1, cashOnDelivery}, no intent id or client secret |
| OrderQuery.BuildAdminQuery | controllers/order.js:97-133 | the built query object matches exactly the orders that satisfy every supplied admin facet (name → user-id set, status set membership, company → product set, paid, payment-method name, period); each entry is present only when its facet is supplied |
| OrderQuery.BuildUserQuery | controllers/order.js:182-204 | the query matches exactly the orders of the requester, or of the `user` facet when supplied (it replaces the requester constraint), that also satisfy the supplied status/paid/payment-method/period facets |
| OrderQuery.BuildCompanyQuery | controllers/order.js:235-268 | the query always restricts to orders with an item among the requester's company's products, plus the supplied name/status/paid/payment-method/period facets |
| OrderQuery.KeepAgrees | controllers/order.js:135 | keeping the orders that satisfy one predicate gives the same sequence as keeping those that satisfy another that agrees with it on every order |
| OrderQuery.Filter | controllers/order.js:135 | Order.find returns no more orders than stored, and exactly the stored orders the query matches |
| OrderQuery.SelectFor | controllers/order.js:99-133 | the reference selection returns exactly the stored orders the listing's facets select |
| OrderQuery.FilterAgreesWithView | controllers/order.js:206 | a query object equivalent to a view on every order fetches the same sequence of orders as the view's reference selection |
| Pagination.Skip | controllers/order.js:95 | `skip = (page - 1) * limit`, so that skip + limit is the end of page `page` |
| Pagination.Window | controllers/order.js:142-143 | skip/limit returns at most `limit` orders, exactly min(limit, count - skip) of them, the k-th being the matching order at position skip + k |
| Pagination.CeilDiv | controllers/order.js:146 | `Math.ceil(n / d)`: the least number of pages of size d that hold n items |
| Pagination.PageEnvelope | controllers/order.js:145-152 | the envelope carries the page, currentPage = page, totalCount = page length, lastPage = ceil(totalCount / limit) |
| Pagination.CeilDivOfOnePage | controllers/order.js:146 | a count no larger than one page needs at most one page, and none exactly when it is zero |
| Pagination.LastPageAtMostOne | controllers/order.js:212-213 | with the page-length count, lastPage is at most 1, and 0 exactly when the page is empty |
| Pagination.ConsecutivePagesAdjacent | controllers/order.js:180 | page p followed by page p+1 is the window of twice the limit starting at page p |
| Pagination.EveryItemOnItsPage | controllers/order.js:233 | the matching order at position i is item i mod limit of page i div limit + 1 |
| Pagination.SecondPageOfFifteen | controllers/order.js:271-285 | with 15 matching orders, limit 10, page 2: the page is orders 11 to 15, currentPage 2, totalCount 5, lastPage 1 |
| OrderController.FindOrder | controllers/order.js:294-297 | findOne by id yields the first position with that id, and nothing exactly when no stored order has it |
| OrderController.FindAppended | controllers/order.js:44 | an order stored under an id no other order has is exactly the one a later lookup by that id finds |
| OrderController.MarkProcessing | controllers/order.js:300-301 | the status becomes `processing` and the payment intent id is the given one; restoring those two fields gives back the original order, so nothing else changes |
| OrderController.OrDefault | controllers/order.js:91-92 | an absent page or limit takes its default, a supplied one is kept |
| OrderController.ListingFor | controllers/order.js:135-152 | a listing's envelope holds at most `limit` orders, all stored and all selected by the view, with totalCount = page length, currentPage = page and lastPage ≤ 1 |
| OrderController.OrderStore.Create | controllers/order.js:44 | Order.create appends exactly one order carrying the literal's fields, a fresh id, the creation time and the default status; ids stay unique, and a lookup by the new id finds exactly that order |
| OrderController.OrderStore.CreateOnlineOrder | controllers/order.js:13-47 | a failed transaction (or an empty payment-method list) stores nothing and returns the error; otherwise exactly one paid order is appended; carts are untouched |
| OrderController.OrderStore.CreateCashOnDeliveryOrder | controllers/order.js:50-79 | an unknown cart id gives NotFound and changes neither store; otherwise exactly one unpaid cash-on-delivery order built from the cart is appended under the next id, the counter advances by one and that cart is removed |
| OrderController.OrderStore.GetSingleOrder | controllers/order.js:156-167 | NotFound exactly when no stored order has the id; otherwise the first stored order with that id (the one findOne returns) when the permission check passes against its owner, and Forbidden when it fails |
| OrderController.OrderStore.UpdateOrder | controllers/order.js:290-305 | NotFound for an absent id and Forbidden for a failed permission check, both leaving the store unchanged; otherwise only that order is replaced, by the same order with the new payment intent id and status `processing` |
| OrderController.OrderStore.GetAllOrders | controllers/order.js:82-153 | returns the requested window (defaults page 1, limit 10) of the stored orders the admin facets select, in store order, with the page-length count |
| OrderController.OrderStore.GetCurrentUserOrders | controllers/order.js:170-220 | the same for the current-user view, with default limit 12 |
| OrderController.OrderStore.GetCompanyOrders | controllers/order.js:223-287 | the same for the company view, with default limit 12 |
| TrimMiddleware.TrimStart | middlewares/trim.js:6 | the result is a suffix of the string, everything removed is whitespace, and it does not start with whitespace |
| TrimMiddleware.TrimEnd | middlewares/trim.js:6 | the result is a prefix of the string, everything removed is whitespace, and it does not end with whitespace |
| TrimMiddleware.StringTrim | middlewares/trim.js:6 | the result is a contiguous slice with only whitespace before and after it in the original, and has no whitespace at either end |
| TrimMiddleware.TrimUnique | middlewares/trim.js:6 | any split of a string into whitespace, a part without edge whitespace, and whitespace yields that part as the trim |
| TrimMiddleware.TrimIdempotent | middlewares/trim.js:6 | trimming twice equals trimming once |
| TrimMiddleware.TrimmedBody | middlewares/trim.js:2-8 | the key set is unchanged, `password` is untouched, non-string values are untouched, every other string value is its trim and has no edge whitespace |
| TrimMiddleware.TrimmedBodyIdempotent | middlewares/trim.js:4-8 | applying the middleware twice gives the same body as once |
| TrimMiddleware.TrimKey | middlewares/trim.js:5-7 | one loop iteration replaces the value under `key` by its trimmed field (a string outside the exception list trimmed, anything else kept), keeps the key set and changes no other key's value |
| TrimMiddleware.TrimKeysCommute | middlewares/trim.js:4-8 | two loop iterations on different or equal keys commute: either order gives the same body |
| TrimMiddleware.Request.Trim | middlewares/trim.js:1-11 | the in-place loop, one `TrimKey` step per key, leaves the body equal to the trimmed body of its old value, whichever order the keys are picked in |

## Left out

- Persistence mechanics: the `populate` relation expansion, HTTP responses and status codes, `async`/`await`, and races between concurrent requests. Because of the races, the duplicate online orders and the window between storing the order and deleting the cart are not modelled.
- The admin listing's caller-supplied `.sort(sort)`: its ordering rules are not visible here, so the model returns matching orders in store order.
- The `$regex` name search and `Product.find(...).select('_id')`: these are given as functions from a name to matching user ids and from a company to its product ids.
- `checkPermissions` and `PAYMENT_METHODS` are defined in files that are not part of this model. They are given as a predicate over (requester, owner) and as a table with a `cashOnDelivery` entry.
- The order schema is not part of this model. Its default status is taken to be `pending`, and its validation of required fields (which can make Order.create reject a literal) is not modelled.
- Query-string coercion: `page`, `limit`, `paid` and `period` are given as the values the order schema casts them to. `Some(b)` for `paid` (and `Some(t)` for `period`) stands for a non-empty query-string value, which is truthy in `if (paid)` even when it is `"false"` or `"0"`, and which the schema then casts to `b` (or `t`). An empty string facet counts as absent, as JavaScript truthiness makes it. `page` must be at least 1 and `limit` at least 1; a non-positive page, which gives a negative skip, and `limit = 0`, which Mongo reads as "no limit", are not modelled.
- Casts of malformed ids (`Cart.findById` and `findOne` with an id that is not an ObjectId) and a missing `req.user` are not modelled.
- JavaScript numbers are modelled as unbounded integers, so floating-point amounts and `undefined + 0 = NaN` for a missing amount are not captured.
- `next()` at the end of the middleware (the rest of the request pipeline) is not modelled. The middleware visits the body's keys in an arbitrary order rather than in `Object.keys` order; the postcondition of `TrimMiddleware.Request.Trim` holds for every visiting order, so the order does not matter.
- `middlewares/logger.js` (file-system writes, timestamps, random ids) and the routing tables in `routes/` are not modelled.
