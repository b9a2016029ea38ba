# Course store commerce kernel, in Dafny

A model of the logic under the course store's React pages and Express
routes. It covers five pieces:

- the browser cart;
- the checkout handler, which recomputes the price, charges it and records the order;
- the catalog routes, gated by the admin role;
- the order-history read;
- the client route guard.

Every price is an integer number of cents. The document store is a map or a
sequence held by a class. The payment gateway, the store's query answers and
the JWT decoder are inputs.

Modules: one per core source file, plus `Common` for shared definitions and `Kernel` for the two server stores used together:

- `Common` (common.dfy): course record, caller, `SumPrices` (the `reduce` used by both cart and server), `UniqueIds`.
- `Cart` (cart.dfy): `client/src/context/CartContext.js`. Pure transitions `Add`/`Remove` and the `CartStore` class that holds `cartItems`.
- `Catalog` (catalog.dfy): `server/routes/courses.js`. The `courseFields` builder, `$set` semantics and the `CourseStore` class with the five handlers.
- `OrderModel` (order_model.dfy): `server/models/Order.js`. Line items and orders, the snapshot of found courses.
- `Checkout` (checkout.dfy): `server/routes/checkout.js`. The reference total, the decision function `Decide` and the `OrderLedger` class whose `Checkout` method runs the handler step by step.
- `OrderHistory` (order_history.dfy): `server/routes/orders.js`. Filter by owner and `populate`.
- `RouteGuard` (route_guard.dfy): `client/src/components/ProtectedRoute.jsx`. The decision function and the token storage it may clear.
- `Kernel` (kernel.dfy): the catalog and the ledger side by side. Editing or deleting a course after a purchase leaves the recorded line items as bought.

How the outside world is modelled:

- The `$in` query's answer is the input `lookup`. `None` means the query threw. `Some(found)` must satisfy `IsFindResult`: each matched catalog course exactly once, in an order the store chooses.
- The gateway's answer is `IntentResult`: an intent id and status, or a thrown error.
- A store call that throws is a fault input and leads to the generic 500.
- The clock (`createdAt`) is a parameter.
- Fresh document ids come from a counter in each store.

What the code does at the points where a reader might expect otherwise:

- No empty-cart rejection. An empty `courseIds` with a total of 0 reaches the gateway with a charge of 0 (`EmptyCartReachesGateway`).
- Unknown ids are silently dropped from the server total (`ExtraIdChangesNothing`). Only a resulting total mismatch rejects.
- A failed save after a successful charge is the same plain 500 as any other error. Nothing separate is recorded for reconciliation.
- A partial update keeps only truthy fields, not every present one. A price sent as the number 0 or a text sent as `""` is ignored.
- The amount charged is computed from the client's `totalAmount`. In cents the guard makes it equal to the server total, and the model proves that.

## Model

| member | source | states |
|---|---|---|
| `Common.SumPricesAppend` | client/src/context/CartContext.js:37-39 | the price fold over a concatenation is the sum of the two folds |
| `Cart.Add` | client/src/context/CartContext.js:17-27 | the result contains the course; the old items stay as a prefix in order; it grows by one exactly when the id was absent, and then the new last item is the course; distinct ids stay distinct |
| `Cart.AddIdempotent` | client/src/context/CartContext.js:19-23 | adding a course twice equals adding it once |
| `Cart.Remove` | client/src/context/CartContext.js:29-31 | no item with the id remains; an item is kept exactly when it was there and has another id; never longer; distinct ids stay distinct |
| `Cart.RemoveDistributes` | client/src/context/CartContext.js:30 | filtering commutes with concatenation, so survivors keep their relative order |
| `Cart.RemoveAbsent` | client/src/context/CartContext.js:30 | removing an id that is not in the cart leaves it unchanged |
| `Cart.AddThenRemove` | client/src/context/CartContext.js:24-30 | adding a new course and then removing its id restores the original cart |
| `Cart.RemoveLowersTotal` | client/src/context/CartContext.js:29-39 | in a cart with distinct ids, removing an item's id lowers the total by exactly that item's price |
| `Cart.ReachableCartsHaveUniqueIds` | client/src/context/CartContext.js:17-35 | every cart reached from empty by add, remove and clear has pairwise-distinct ids |
| `Cart.CartStore.constructor` | client/src/context/CartContext.js:6-10 | a fresh cart is empty and valid |
| `Cart.CartStore.AddToCart` | client/src/context/CartContext.js:17-27 | the new list is `Add` of the old one; the distinct-ids invariant is kept |
| `Cart.CartStore.RemoveFromCart` | client/src/context/CartContext.js:29-31 | the new list is `Remove` of the old one and holds no item with the id; the invariant is kept |
| `Cart.CartStore.ClearCart` | client/src/context/CartContext.js:33-35 | the cart becomes empty, valid, with total 0 |
| `Cart.CartStore.GetTotalPrice` | client/src/context/CartContext.js:37-39 | returns the sum of the item prices in cents |
| `Catalog.CourseFields` | server/routes/courses.js:71-76 | each field of the `$set` document is present exactly when the body's value is truthy, and then equals it |
| `Catalog.BuildCourseFields` | server/routes/courses.js:71-76 | the successive conditional assignments produce exactly `CourseFields(body)` |
| `Catalog.ApplySet` | server/routes/courses.js:88-92 | a `$set` never changes the course id |
| `Catalog.UpdateOverwritesOnlyTruthyFields` | server/routes/courses.js:71-92 | after a partial update each field is the body's value if truthy and the old value otherwise (a price sent as the number 0 or an empty text keeps the old one) |
| `Catalog.UpdateIdempotent` | server/routes/courses.js:88-92 | applying the same update twice equals applying it once |
| `Catalog.CourseStore.Create` | server/routes/courses.js:9-31 | a non-admin gets 401 and the catalog is unchanged; a failed save gives 500, unchanged; an admin adds exactly one course under a fresh id carrying the body fields, and gets it back; the id counter advances only then |
| `Catalog.CourseStore.GetAll` | server/routes/courses.js:36-44 | returns every stored course, or 500 when the query fails; changes nothing |
| `Catalog.CourseStore.GetById` | server/routes/courses.js:49-62 | returns the stored course, 404 when absent, 500 when the lookup fails; changes nothing |
| `Catalog.CourseStore.Update` | server/routes/courses.js:67-99 | 500 on a failed lookup; 404 for a missing id whatever the caller; 401 for a non-admin on an existing id; 500 on a failed write; all with the catalog unchanged; otherwise only that id changes, to `ApplySet` of the truthy fields, and the updated record is returned |
| `Catalog.CourseStore.Delete` | server/routes/courses.js:104-122 | same check order as update; an admin removes exactly that id and gets "Course removed"; every other course stays |
| `OrderModel.Snapshot` | server/routes/checkout.js:36 | one line item per found course, in order, holding its id, title and price |
| `OrderModel.SnapshotTotal` | server/routes/checkout.js:18-37 | the line items' prices sum to the found courses' total |
| `Checkout.EnumerationTotal` | server/routes/checkout.js:17-18 | summing any duplicate-free listing of a set of catalog courses gives the set's total |
| `Checkout.FindResultTotal` | server/routes/checkout.js:17-18 | the handler's `reduce` over any valid query answer equals the reference total: each matched catalog course's current price, counted once |
| `Checkout.ExtraIdChangesNothing` | server/routes/checkout.js:17 | a duplicated id or an unknown id does not change the server total |
| `Checkout.Decide` | server/routes/checkout.js:12-51 | Status 200 exactly when an order is recorded, 400 exactly for a mismatch or a failed payment. 500 when the query fails. Mismatch exactly when the computed total differs from the claimed one. A charge of the computed total in `usd` is requested exactly when they agree. An order is recorded exactly on success: status `succeeded` and the save works; the order is the caller's, `completed`, holds the intent id and the snapshots, and its total equals its items' sum. Any other status gives "Payment failed" with that status and no order. A gateway or save error gives 500 and no order |
| `Checkout.DecideAgainstCatalog` | server/routes/checkout.js:17-31 | against the catalog: mismatch exactly when the reference total differs from the claim, with no charge and no order; the amount charged is the reference total in `usd`; a recorded order has one item per matched course and items summing to the reference total |
| `Checkout.EmptyCartReachesGateway` | server/routes/checkout.js:17-31 | an empty id list with a claimed total of 0 passes the guard and requests a charge of 0 |
| `Checkout.TwoCourseScenario` | server/routes/checkout.js:17-43 | courses at 1000 and 2550 cents with a claim of 3550 are charged 3550 and give a two-item order of 3550; a claim of 3549 is refused with no charge |
| `Checkout.OrderLedger.Checkout` | server/routes/checkout.js:12-51 | the reply and the charge request are those of `Decide`; the id counter advances only on success; the ledger grows by the recorded order and nothing else; the ledger invariant (completed orders, totals equal items' sums, increasing ids) is kept; mismatch exactly when the reference total differs; a charge is always the reference total in `usd` |
| `OrderHistory.OwnedBy` | server/routes/orders.js:11 | an order is returned exactly when it is in the ledger and owned by the user |
| `OrderHistory.OwnedByDistributes` | server/routes/orders.js:11 | the owner filter commutes with concatenation, so ledger order is kept |
| `OrderHistory.OwnedByAppend` | server/routes/orders.js:11 | an order appended by another user does not appear; one appended by the user appears last |
| `OrderHistory.Populate` | server/routes/orders.js:11 | a populated order keeps its id, owner, total, status, intent id and every item's snapshot title and price; a course reference resolves exactly when the course still exists, and then carries that course's id and its current title, image and video link; `createdAt` is kept |
| `OrderHistory.SnapshotsIgnoreCatalog` | server/models/Order.js:9-18 | a returned order's titles, prices and total are the same whatever the catalog now holds |
| `OrderHistory.GetOrders` | server/routes/orders.js:9-17 | 500 when the query fails; otherwise every returned order is the caller's, and every caller's order in the ledger is returned populated |
| `RouteGuard.Guard` | client/src/components/ProtectedRoute.jsx:5-26 | no token: login, whatever `adminOnly` is. Token and not admin-only: render. Render exactly when there is a token and, on an admin-only route, it decodes to an admin. Home exactly when an admin-only token decodes to a non-admin or lacks a user. The token is removed exactly when an admin-only token fails to decode, and then the result is login |
| `RouteGuard.PlainRouteIgnoresDecoder` | client/src/components/ProtectedRoute.jsx:12-25 | on a route that is not admin-only the verdict does not depend on the decoder |
| `RouteGuard.TokenStorage.ProtectedRoute` | client/src/components/ProtectedRoute.jsx:5-26 | the navigation is `Guard`'s; the stored token is cleared exactly when `Guard` says so and kept otherwise |
| `Kernel.PurchaseThenUpdate` | server/routes/checkout.js:34-42 | after a successful checkout and an admin update, the new order still holds the snapshots taken at purchase and earlier orders are unchanged |
| `Kernel.PurchaseThenDelete` | server/routes/courses.js:115-117 | after a successful checkout and an admin delete, the new order still holds its snapshots; the delete removes at most that id |

## Left out

- Browser storage: the `localStorage` load and save of the cart (CartContext.js:6-15) is not modelled. A fresh `CartStore` starts empty. The methods do not require distinct ids, so a cart loaded with duplicates is still handled.
- JWT decoding: `jwtDecode` is a parameter `string -> Option<Claims>`; `None` stands for a thrown decode error.
- Floating point: prices are integer cents. `toFixed(2)` and `Math.round(totalAmount * 100)` are not modelled, so the 2-decimal comparison is integer equality.
- Store and gateway: Mongoose and Stripe are not modelled, and neither are network behaviour and timeouts. Each handler's failures are one fault input leading to 500.
- Catalog.CourseFields: body values are typed, so a price sent as a string such as `"0"` is not modelled. That string is truthy in the source, so there a price typed as 0 in the admin form does overwrite the stored price.
- Catalog.CourseStore.GetAll: returns the set of stored courses, not the store's natural order.
- Checkout.IsFindResult: leaves the order of the `$in` answer to the store. Line items follow that order.
- Request validation: a body whose `totalAmount` or `courseIds` is missing or not a number would throw and give 500. The model types these fields, so that path does not arise.
- Course schema validation: `server/models/Course.js` is not part of this model. A rejected save is the `saveFails` 500 branch.
- Authentication middleware: `req.user` is an input (`User`). Token issuance, login and registration are not modelled.
- `return_url`, `confirm: true` and logging: the console output has no effect on the model.
- Concurrency: two checkouts running at once are not coordinated in the source, and the model runs one request at a time.
- Order statuses `pending` and `failed`: they exist in the schema, but the handler never writes them.
- Page components, bootstrap code (`server/server.js`) and CORS are UI or wiring.
