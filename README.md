# Apex E-Commerce — a verified model of the store's core

Apex is a small web shop. A Laravel JSON API serves products, orders, payments and
the admin and seller back offices, and a React front end keeps a cart in the
browser. This project models the parts of it that decide money, stock and access:

- **Checkout** (`OrderController::store`) validates the requested lines and checks
  each line's quantity against the product's stock. It then records a `pending`
  order whose total is Σ price × quantity, creates one order item per line at the
  product's current price, and decrements the stock. The owner-scoped `index`,
  `show` and `pay` are modelled too.
- **Payment** (`PaymentController`) maps a caller's own order to a card-payment
  checkout session, one line item per order item, priced in cents. The webhook
  moves the order a verified `checkout.session.completed` event names to
  `processing`.
- **Admin and seller back offices** cover the dashboard statistics, role and status
  changes, user deletion (an admin cannot delete themself), and product create,
  update and delete. A seller may only touch their own products, and `getSales`
  cuts each order down to the seller's items.
- **Product API** (`ProductController`) and the mass-assignment rules of the
  `Product` model (`$fillable`).
- **Routing and CORS**: which middleware guards each API route, and the headers
  the CORS middleware writes.
- **Browser side**:
  - the cart page: quantity changes clamped at 1, removal, promo codes, subtotal,
    shipping and total, and placing the order;
  - the catalogue's search filter, price and name sorts, and add-to-cart;
  - the navigation bar's cart count and role-dependent links.

Database tables are maps from auto-increment ids to rows, held by one
`Schema.Database` object. The controller actions that write are methods that
change it in place. Each method states its result and the whole new state for
every branch: validation error 422, missing row 404, forbidden 403, and
business errors 400 with the source's message. Read-only actions are functions
over the tables.

Laravel's request validation is modelled by `Http.FieldRule` and `Http.Validates`
over the decoded request body. Money is an exact `real`. The payment provider is a
parameter: a function from the session request to a session or an error. Signature
checking is a `Verification` value, either a verified event or a rejection
message. Browser `localStorage` is the `Browser.Storage` object. Navigation is the
`location` field of the page objects.

## Model

| member | source | states |
|---|---|---|
| `Http.Passes` | app/Http/Controllers/Seller/SellerController.php:64-68 | an absent key passes exactly when the field is not `required`, `null` exactly when it is `nullable` and not `required`; a passing value has its kind, is not blank when required, meets its `min:` and its `max:` length |
| `Http.Validates` | app/Http/Controllers/Api/ProductController.php:21-26 | a passing request carries every `required` key with a non-null value; an empty request passes exactly when no rule is `required` |
| `Http.Validated` | app/Http/Controllers/Api/ProductController.php:21-28 | the validated data holds exactly the request keys that have a rule, with the request's values |
| `Http.ValidatedValidates` | app/Http/Controllers/Api/ProductController.php:21-28 | the validated data still passes the rules it was validated against |
| `Http.RequiredIsPresent` | app/Http/Controllers/Api/ProductController.php:21-26 | after validation a `required` field is present, not null, and of its declared kind |
| `Http.MinHolds` | app/Http/Controllers/Api/ProductController.php:24-25 | after validation a present non-nullable field with `min:` is a number at least that bound |
| `Http.AsId` | app/Http/Controllers/PaymentController.php:19-23 | a request value is an id exactly when it is a non-negative integer, and the id equals it |
| `Schema.RoleNamed` | app/Http/Controllers/Admin/AdminController.php:39-41 | a role name read back gives the one role with that name, and nothing for any other string |
| `Schema.StatusNamed` | app/Http/Controllers/Admin/AdminController.php:105-107 | a status name read back gives the one status with that name, and nothing for any other string |
| `Schema.Rows` | app/Http/Controllers/Admin/AdminController.php:17-22 | a table scan lists only rows of the table, and lists every row |
| `Schema.RowsCount` | app/Http/Controllers/Admin/AdminController.php:17-20 | a table scan lists each id once: its length is the number of ids scanned |
| `Schema.RowsCountAll` | app/Http/Controllers/Admin/AdminController.php:17-20 | when every id is below the counter, the scan's length is the table's size |
| `ProductModel.Fill` | app/Models/Product.php:13-19 | each fillable key sent with a value of its column's type is written: name, description (null clears it), price, whole-number stock, and `seller_id` (null or an id) |
| `ProductModel.OnlyFillable` | app/Models/Product.php:13-19 | the mass-assignable part of a request is the request restricted to the five `$fillable` keys |
| `ProductModel.FillReadsOnlyFillable` | app/Models/Product.php:13-19 | filling from a request gives the same product as filling from its `$fillable` part |
| `ProductModel.FillIgnoresOtherKeys` | app/Models/Product.php:13-19 | a request with no `$fillable` key leaves the product unchanged |
| `ProductModel.FillKeepsAbsent` | app/Models/Product.php:13-19 | each of the five attributes changes only when its key is in the request |
| `ProductModel.FillReassignsOwner` | app/Models/Product.php:18 | a request carrying `seller_id` moves the product to that owner |
| `ProductModel.ValidatedFillKeepsPrice` | app/Http/Controllers/Admin/AdminController.php:74-82 | filling from a request validated with a non-negative `min` on `price` keeps the price non-negative |
| `ProductModel.SellerOf` | app/Models/Product.php:26-29 | the seller relation gives the user whose id is `seller_id`, and nothing when it is null or dangling |
| `ProductModel.OrderItemsOf` | app/Models/Product.php:21-24 | the order-items relation returns only items of this product, and every one of them |
| `ProductModel.ItemsWithProduct` | app/Models/Product.php:21-24 | the items of one order that belong to the product are exactly those with its id |
| `OrderController.ParseItems` | app/Http/Controllers/Api/OrderController.php:24-28 | the request passes exactly when `items` is a non-empty array of lines naming existing products with integer quantities of at least 1; otherwise 422; the parsed lines keep request order |
| `OrderController.FirstShort` | app/Http/Controllers/Api/OrderController.php:33-36 | the stock check stops at the first line asking for more than its product's stock, and finds none exactly when every line fits |
| `OrderController.CheckEach` | app/Http/Controllers/Api/OrderController.php:31-38 | the checking loop finds the same first short line, and otherwise sums the total Σ price × quantity |
| `OrderController.Reserve` | app/Http/Controllers/Api/OrderController.php:55 | decrementing stock line by line keeps the set of products |
| `OrderController.ReserveEffect` | app/Http/Controllers/Api/OrderController.php:55 | after checkout each product's stock has dropped by exactly the total quantity the lines ask of it, and nothing else about it changed |
| `OrderController.ItemsForTotal` | app/Http/Controllers/Api/OrderController.php:37-53 | the order items created add up to the recorded `total_amount` |
| `OrderController.NewOrderConsistent` | app/Http/Controllers/Api/OrderController.php:40-53 | the inserted order has at least one item, non-negative prices, and a total equal to its items' sum |
| `OrderController.CommitLines` | app/Http/Controllers/Api/OrderController.php:46-56 | the item loop creates one item per line, in order, at the product's price, and leaves the stock decremented by every line |
| `OrderController.ReserveStep` | app/Http/Controllers/Api/OrderController.php:46-55 | one loop step: the line's product is still in the table at its original price, and the step decrements it |
| `OrderController.ItemsForStep` | app/Http/Controllers/Api/OrderController.php:48-53 | one loop step appends exactly that line's item |
| `OrderController.CommitOrder` | app/Http/Controllers/Api/OrderController.php:40-56 | inserts the `pending` order for the caller under the next id, with its items and total, and leaves the stock decremented |
| `OrderController.Store` | app/Http/Controllers/Api/OrderController.php:22-60 | 422 on invalid input and 400 "Insufficient stock for <name>", both changing nothing; otherwise the new order and decremented stock; stock stays non-negative when product ids are distinct |
| `OrderController.DemandOfDistinct` | app/Http/Controllers/Api/OrderController.php:33-55 | with distinct product ids, a product's demand is its single line's quantity or zero |
| `OrderController.DistinctIdsKeepStock` | app/Http/Controllers/Api/OrderController.php:33-55 | with distinct product ids, passing the per-line check keeps every stock non-negative |
| `OrderController.DuplicateIdsOversell` | app/Http/Controllers/Api/OrderController.php:33-55 | two lines for one product with stock 1 both pass the per-line stock check and leave stock -1 |
| `OrderController.FirstOversoldFrom` | app/Http/Controllers/Api/OrderController.php:33-36 | corrected check: finds the first line asking more than what earlier lines left, and none exactly when all fit |
| `OrderController.CumulativeCheckKeepsStock` | app/Http/Controllers/Api/OrderController.php:33-55 | corrected check: if no line is oversold, stock stays non-negative |
| `OrderController.DistinctChecksAgree` | app/Http/Controllers/Api/OrderController.php:33-36 | with distinct product ids the corrected and the written checks reject the same lines |
| `OrderController.CheckCumulative` | app/Http/Controllers/Api/OrderController.php:31-38 | the corrected checking loop finds the first oversold line, and otherwise sums the total |
| `OrderController.ReservingStep` | app/Http/Controllers/Api/OrderController.php:33-55 | one corrected step: compares the line against the stock the earlier lines left, and adds its cost |
| `OrderController.StoreReserving` | app/Http/Controllers/Api/OrderController.php:22-60 | corrected checkout: same answers as `Store` but with the cumulative check; stock always stays non-negative |
| `OrderController.Show` | app/Http/Controllers/Api/OrderController.php:65-69 | the caller gets an order exactly when it exists and is theirs; otherwise 404 |
| `OrderController.ForeignOrderLooksMissing` | app/Http/Controllers/Api/OrderController.php:67 | someone else's order answers exactly like a missing one |
| `OrderController.Index` | app/Http/Controllers/Api/OrderController.php:14-17 | lists exactly the caller's orders |
| `OrderController.Pay` | app/Http/Controllers/Api/OrderController.php:81-89 | 404 for an order that is not the caller's, 400 unless pending; otherwise the order alone moves to `processing` |
| `OrderController.PayTwice` | app/Http/Controllers/Api/OrderController.php:84-87 | paying again after a successful payment is refused with 400 and changes nothing more |
| `PaymentController.RequestedOrder` | app/Http/Controllers/PaymentController.php:19-23 | `order_id` names an order exactly when it is an integer id present in the table |
| `PaymentController.LineItems` | app/Http/Controllers/PaymentController.php:30-42 | one `usd` line item per order item, with the product's name and description, price × 100 and the item's quantity |
| `PaymentController.ChargeIsTotalInCents` | app/Http/Controllers/PaymentController.php:30-42 | the session's line items charge exactly the order items' sum in cents |
| `PaymentController.CreateCheckoutSession` | app/Http/Controllers/PaymentController.php:17-63 | 422 for an unknown order; 403 exactly for someone else's order, sending nothing; a 500 crash exactly when one of the caller's order items has lost its product, sending nothing; otherwise a card-payment session with the order's lines, URLs and `order_id` metadata; a provider error becomes 500 |
| `PaymentController.OwnerReachesProvider` | app/Http/Controllers/PaymentController.php:26-58 | the owner of a consistent order reaches the provider with a request whose charge is the order total in cents |
| `PaymentController.AfterEvent` | app/Http/Controllers/PaymentController.php:82-91 | a verified completed event moves the order it names to `processing`; every other order and every other event leave the table as it was |
| `PaymentController.RedeliveryIsIdempotent` | app/Http/Controllers/PaymentController.php:82-91 | delivering the same event twice has the effect of delivering it once |
| `PaymentController.RejectedChangesNothing` | app/Http/Controllers/PaymentController.php:71-79 | an event failing signature checks changes no order |
| `PaymentController.CompletedOverridesAnyStatus` | app/Http/Controllers/PaymentController.php:85-89 | a completed event moves the order to `processing` whatever its status was |
| `PaymentController.Webhook` | app/Http/Controllers/PaymentController.php:65-94 | 400 with the message on a rejected event, `success` otherwise; the orders become `AfterEvent` of the old ones |
| `PaymentController.DeliverTwice` | app/Http/Controllers/PaymentController.php:65-94 | a redelivered event gets the same answer and leaves the same orders |
| `AdminController.DashboardOf` | app/Http/Controllers/Admin/AdminController.php:14-26 | counts users, sellers, products, orders and pending orders, and sums `total_amount` over completed orders only; sellers ≤ users and pending ≤ orders |
| `AdminController.Dashboard` | app/Http/Controllers/Admin/AdminController.php:14-26 | on the database: sellers ≤ users and pending ≤ orders |
| `AdminController.DashboardCountsTables` | app/Http/Controllers/Admin/AdminController.php:17-20 | the user, product and order counts are the table sizes |
| `AdminController.RevenueBounded` | app/Http/Controllers/Admin/AdminController.php:22 | revenue lies between 0 and the sum of all order totals |
| `AdminController.CompletingAddsRevenue` | app/Http/Controllers/Admin/AdminController.php:22 | marking a non-completed order completed raises the dashboard's revenue by exactly its total and leaves the user, product and order counts as they were |
| `AdminController.RequestedStatus` | app/Http/Controllers/Admin/AdminController.php:105-107 | the request names a status exactly when `status` is one of the four allowed strings, and names that one |
| `AdminController.RequestedRole` | app/Http/Controllers/Admin/AdminController.php:39-41 | the request names a role exactly when `role` is one of the three allowed strings, and names that one |
| `AdminController.StatusRuleNamesStatus` | app/Http/Controllers/Admin/AdminController.php:105-107 | the status rule passes exactly when the request names a status |
| `AdminController.RoleRuleNamesRole` | app/Http/Controllers/Admin/AdminController.php:39-41 | the role rule passes exactly when the request names a role |
| `AdminController.UpdateOrderStatus` | app/Http/Controllers/Admin/AdminController.php:103-114 | 422 and then 404 change nothing; otherwise only that order's status changes, to the requested one |
| `AdminController.UpdateUserRole` | app/Http/Controllers/Admin/AdminController.php:37-48 | 422 and then 404 change nothing; otherwise only that user's role changes, to the requested one |
| `AdminController.DeleteUser` | app/Http/Controllers/Admin/AdminController.php:50-61 | 404 for a missing user, 400 "Cannot delete yourself" for the caller; otherwise only that user is removed; the caller always survives |
| `AdminController.UpdateProduct` | app/Http/Controllers/Admin/AdminController.php:72-85 | 422 and then 404 change nothing; otherwise the product is filled from the whole request |
| `AdminController.DeleteProduct` | app/Http/Controllers/Admin/AdminController.php:87-92 | 404 changes nothing; otherwise only that product is removed |
| `SellerController.SellerDashboardOf` | app/Http/Controllers/Seller/SellerController.php:13-29 | own products are those with the caller's `seller_id`, active ones those of them with stock > 0; sales are the completed orders holding one of the seller's products, and revenue sums those orders' whole totals |
| `SellerController.CompletingAddsSale` | app/Http/Controllers/Seller/SellerController.php:20-25 | completing an order that holds one of the seller's items adds one sale and its whole total to the revenue; completing any other order changes neither |
| `SellerController.SellerDashboard` | app/Http/Controllers/Seller/SellerController.php:13-29 | on the database: active products ≤ own products |
| `SellerController.SellerRevenueWithinTotal` | app/Http/Controllers/Seller/SellerController.php:23-25 | a seller's revenue lies between 0 and the admin dashboard's revenue |
| `SellerController.RevenueCountsWholeOrder` | app/Http/Controllers/Seller/SellerController.php:23-25 | a seller's revenue counts the whole order total, including other sellers' items |
| `SellerController.SellerItems` | app/Http/Controllers/Seller/SellerController.php:89-98 | an order cut down to the seller's items keeps exactly those |
| `SellerController.Sales` | app/Http/Controllers/Seller/SellerController.php:85-101 | every order holding a seller's item appears cut down to the seller's items; no other order appears and no foreign item remains |
| `SellerController.RestrictedRowsOwnItems` | app/Http/Controllers/Seller/SellerController.php:89-98 | each kept order, cut down, still holds at least one item, all the seller's |
| `SellerController.RestrictedRowsComplete` | app/Http/Controllers/Seller/SellerController.php:89-98 | every qualifying order appears, and every listed order comes from the input |
| `SellerController.NewProduct` | app/Http/Controllers/Seller/SellerController.php:42-55 | the created product carries the validated name (≤ 255), description, price ≥ 0 and stock ≥ 0, owned by the caller |
| `SellerController.CreateProduct` | app/Http/Controllers/Seller/SellerController.php:40-58 | 422 changes nothing; otherwise inserts the product under the next id |
| `SellerController.UpdateProduct` | app/Http/Controllers/Seller/SellerController.php:60-74 | someone else's product is 404 before validation; 422 changes nothing; otherwise the product is filled from the whole request |
| `SellerController.UpdateCanGiveProductAway` | app/Http/Controllers/Seller/SellerController.php:64-71 | a request carrying only `seller_id` validates and moves the product to another owner |
| `SellerController.DeleteProduct` | app/Http/Controllers/Seller/SellerController.php:76-82 | someone else's product is 404; otherwise only that product is removed |
| `ProductController.Index` | app/Http/Controllers/Api/ProductController.php:11-14 | lists only products of the table, with their stored values |
| `ProductController.IndexListsEveryProduct` | app/Http/Controllers/Api/ProductController.php:11-14 | lists every product, once |
| `ProductController.Show` | app/Http/Controllers/Api/ProductController.php:35-39 | a product exactly when it exists, otherwise 404 |
| `ProductController.CreatedHasValidatedFields` | app/Http/Controllers/Api/ProductController.php:21-28 | the stored product has the validated name, price ≥ 0 and stock ≥ 0, a null description unless one was sent, and no seller |
| `ProductController.Store` | app/Http/Controllers/Api/ProductController.php:19-30 | 422 changes nothing; otherwise inserts the product under the next id |
| `ProductController.UpdatedChangesOnlySupplied` | app/Http/Controllers/Api/ProductController.php:47-54 | fields not sent keep their values, and the owner never changes |
| `ProductController.UpdatedWritesSupplied` | app/Http/Controllers/Api/ProductController.php:47-54 | each validated field sent (name, description, price, stock quantity) takes the sent value; a null description clears it |
| `ProductController.Update` | app/Http/Controllers/Api/ProductController.php:44-56 | 404 before validation, then 422, both changing nothing; otherwise the product takes the validated fields |
| `ProductController.Destroy` | app/Http/Controllers/Api/ProductController.php:61-66 | 404 changes nothing; otherwise only that product is removed |
| `Routes.Resolve` | routes/api.php:12-67 | every route sits behind `cors`, and its guard stack is one of the four the groups build |
| `Routes.GuardStacks` | routes/api.php:12-59 | the public stack admits everyone, `auth:api` any signed-in user, the admin group only admins, the seller group sellers and admins |
| `Routes.AuthEntryPointsArePublic` | routes/api.php:14-15 | register and login are open to anyone |
| `Routes.ProductWritesNeedAdmin` | routes/api.php:22-26 | creating, updating and deleting products is admitted exactly for admins |
| `Routes.ProductReadsArePublic` | routes/api.php:62-63 | the product list and a product are open to anyone |
| `Routes.OrderRoutesNeedSignIn` | routes/api.php:29-32 | the order routes are admitted exactly for signed-in users |
| `Routes.CheckoutNeedsSignIn` | routes/api.php:35 | creating a checkout session is admitted exactly for signed-in users |
| `Routes.AdminPrefixNeedsAdmin` | routes/api.php:38-48 | every `admin/` route is admitted exactly for admins |
| `Routes.SellerPrefixAdmitsSellerOrAdmin` | routes/api.php:51-58 | every `seller/` route is admitted exactly for sellers and admins |
| `Routes.WebhookIsPublic` | routes/api.php:66 | the webhook admits an anonymous caller |
| `Routes.RoleGuardImpliesSignIn` | routes/api.php:17-58 | every role check sits inside the `auth:api` group, so no anonymous request passes one |
| `CorsMiddleware.OriginOf` | app/Http/Middleware/CorsMiddleware.php:17 | the request's `Origin`, or `*` when absent |
| `CorsMiddleware.CorsHeaders` | app/Http/Middleware/CorsMiddleware.php:19-23 | the five header names with their fixed values and the echoed origin |
| `CorsMiddleware.StatusAfter` | app/Http/Middleware/CorsMiddleware.php:26-28 | 200 for `OPTIONS`, the inner status otherwise |
| `CorsMiddleware.HeadersAfter` | app/Http/Middleware/CorsMiddleware.php:19-23 | the five names take the middleware's values, and every other header keeps the inner response's |
| `CorsMiddleware.HeadersAfterIdempotent` | app/Http/Middleware/CorsMiddleware.php:19-23 | running the middleware over its own output changes nothing |
| `CorsMiddleware.HeadersAfterIsFiveWrites` | app/Http/Middleware/CorsMiddleware.php:19-23 | the five `set` calls in order produce that header bag |
| `CorsMiddleware.Response.SetHeader` | app/Http/Middleware/CorsMiddleware.php:19 | one `set` replaces one header and nothing else |
| `CorsMiddleware.Response.SetStatus` | app/Http/Middleware/CorsMiddleware.php:27 | sets the status and nothing else |
| `CorsMiddleware.Handle` | app/Http/Middleware/CorsMiddleware.php:13-31 | the response leaves with `HeadersAfter` of its headers and `StatusAfter` of its status |
| `Browser.Storage.SavedCart` | frontend/src/pages/ProductList.jsx:48 | the stored cart, or the empty cart when none is stored |
| `Cart.QuantityUpdated` | frontend/src/pages/Cart.jsx:25-28 | only lines with the id change; their quantity becomes max(1, quantity + delta) with the product kept |
| `Cart.QuantitiesStayPositive` | frontend/src/pages/Cart.jsx:27 | quantities of at least 1 stay at least 1 |
| `Cart.WithoutItem` | frontend/src/pages/Cart.jsx:34-35 | keeps exactly the lines with another id |
| `Cart.WithoutItemKeepsOrder` | frontend/src/pages/Cart.jsx:35 | removal works piece by piece, so the remaining lines keep their order |
| `Cart.PromoDiscount` | frontend/src/pages/Cart.jsx:41-50 | 10% exactly for SAVE10 and 20% exactly for SAVE20 after upper-casing, 0 otherwise |
| `Cart.PromoIgnoresCase` | frontend/src/pages/Cart.jsx:42-44 | the code's case does not matter |
| `Cart.Subtotal` | frontend/src/pages/Cart.jsx:78 | an empty cart costs 0, and a cart of non-negative prices and quantities never costs less |
| `Cart.Shipping` | frontend/src/pages/Cart.jsx:80 | free strictly above 100, 10 otherwise |
| `Cart.Total` | frontend/src/pages/Cart.jsx:79-81 | with no discount the total is subtotal plus shipping; with a rate between 0 and 1 on a non-negative subtotal it lies between shipping and subtotal plus shipping |
| `Cart.TotalBounds` | frontend/src/pages/Cart.jsx:78-81 | the total lies between shipping and subtotal plus shipping |
| `Cart.OrderLines` | frontend/src/pages/Cart.jsx:60-63 | one `{product_id, quantity}` pair per line, in order |
| `Cart.CartView.LoadCart` | frontend/src/pages/Cart.jsx:18-23 | takes the stored cart when there is one, and otherwise keeps the current one |
| `Cart.CartView.UpdateQuantity` | frontend/src/pages/Cart.jsx:25-32 | page state and storage both become the updated cart |
| `Cart.CartView.RemoveItem` | frontend/src/pages/Cart.jsx:34-39 | page state and storage both become the reduced cart |
| `Cart.CartView.ApplyPromo` | frontend/src/pages/Cart.jsx:41-50 | sets the code's discount, and raises the alert exactly when it is 0 |
| `Cart.CartView.PlaceOrder` | frontend/src/pages/Cart.jsx:52-76 | without a token it goes to the login page and sends nothing; otherwise it sends the cart's pairs; only an accepted order clears the cart and storage and goes to the orders page |
| `CheckoutRequest.DecodedItems` | frontend/src/pages/Cart.jsx:60-65 | the server receives one decoded line per sent pair |
| `CheckoutRequest.CartBodyValidates` | app/Http/Controllers/Api/OrderController.php:24-28 | a non-empty cart of known products with quantities ≥ 1 passes checkout validation, line for line |
| `CheckoutRequest.EmptyCartIsRejected` | app/Http/Controllers/Api/OrderController.php:24-28 | an empty item list is rejected with 422 |
| `CheckoutRequest.VanishedProductIsRejected` | app/Http/Controllers/Api/OrderController.php:24-28 | a line naming a deleted product fails validation for the whole order |
| `ProductList.MatchesAsWritten` | frontend/src/pages/ProductList.jsx:26-29 | the written filter throws exactly when the description is null and the name does not match |
| `ProductList.SearchAsWritten` | frontend/src/pages/ProductList.jsx:26-29 | the written search fails exactly when some product throws |
| `ProductList.NullDescriptionBreaksSearch` | frontend/src/pages/ProductList.jsx:28 | a product with a null description breaks the search for any term its name lacks |
| `ProductList.Search` | frontend/src/pages/ProductList.jsx:26-29 | corrected search: keeps exactly the products whose name or description contains the term, ignoring case; a subset |
| `ProductList.SearchAgreesWhenNoThrow` | frontend/src/pages/ProductList.jsx:26-29 | where the written search does not throw it gives the corrected result |
| `ProductList.EmptyTermKeepsAll` | frontend/src/pages/ProductList.jsx:26-29 | the empty term keeps every product and never throws |
| `ProductList.ComesFirstIsPreorder` | frontend/src/pages/ProductList.jsx:32-42 | each sort mode's comparator is a total preorder |
| `ProductList.PriceOrders` | frontend/src/pages/ProductList.jsx:34-37 | sorted by `price-low` means non-decreasing prices, by `price-high` non-increasing |
| `ProductList.PriceTies` | frontend/src/pages/ProductList.jsx:34-37 | in the price modes two products tie exactly when their prices are equal |
| `ProductList.SwapKeepsTies` | frontend/src/pages/ProductList.jsx:32 | swapping neighbours that are out of order never reorders a class of tied entries |
| `ProductList.SwapStep` | frontend/src/pages/ProductList.jsx:32 | one swap moves the inserted entry down a place, keeping the other pairs ordered, the entries and the ties |
| `ProductList.Insert` | frontend/src/pages/ProductList.jsx:32 | one insertion step extends the sorted prefix, permutes the array and keeps tied entries in their order |
| `ProductList.SortInPlace` | frontend/src/pages/ProductList.jsx:32-42 | the array ends sorted by the comparator, is a permutation of what it held, and entries the comparator ties keep their order, as a stable sort does |
| `ProductList.FilteredAndSorted` | frontend/src/pages/ProductList.jsx:25-45 | the shown list is a permutation of the search result, sorted by the chosen mode, with tied products (equal prices) in search order |
| `ProductList.AddedToCart` | frontend/src/pages/ProductList.jsx:47-58 | a product already in the cart has that line's quantity raised by 1, others unchanged; a new one is appended with quantity 1 |
| `ProductList.IncrementTotal` | frontend/src/pages/ProductList.jsx:53-55 | raising the matching lines adds the number of matching lines to the total quantity |
| `ProductList.UniqueIdCountsOnce` | frontend/src/pages/ProductList.jsx:49 | in a cart with one line per product, a present id matches exactly one line |
| `ProductList.NotInCountsZero` | frontend/src/pages/ProductList.jsx:49 | an absent id matches no line |
| `ProductList.AddRaisesTotalByOne` | frontend/src/pages/ProductList.jsx:47-58 | with one line per product, adding raises the total quantity by exactly 1 |
| `ProductList.AddKeepsIdsUnique` | frontend/src/pages/ProductList.jsx:47-58 | adding keeps one line per product |
| `ProductList.AddToCart` | frontend/src/pages/ProductList.jsx:47-61 | storage's cart becomes the added cart; token and user are untouched |
| `Navbar.CountCoversLines` | frontend/src/components/Navbar.jsx:30 | with quantities ≥ 1 the count is at least the number of lines |
| `Navbar.BadgeShowsForNonEmptyCart` | frontend/src/components/Navbar.jsx:70 | the badge shows exactly for a non-empty cart |
| `Navbar.AddToCartBumpsCount` | frontend/src/components/Navbar.jsx:28-31 | after add-to-cart the count rises by exactly 1 |
| `Navbar.LinksNeedToken` | frontend/src/components/Navbar.jsx:54-66 | no link shows without a token, and the admin link implies the seller link |
| `Navbar.LinksMatchRouteGuards` | frontend/src/components/Navbar.jsx:54-66 | for a signed-in role the admin, seller and cart links show exactly when the matching API routes admit that role |
| `Navbar.NavbarView.UpdateCartCount` | frontend/src/components/Navbar.jsx:28-32 | the count becomes the stored cart's total quantity, and 0 when no cart is stored |
| `Navbar.NavbarView.HandleLogout` | frontend/src/components/Navbar.jsx:34-39 | token, user and role are cleared, the page goes to the login, the cart stays, and no guarded link shows |

## Left out

- The Stripe SDK is not modelled. `Session::create` is the `provider` parameter and `Webhook::constructEvent` is the `Verification` value. The provider's exceptions are its `ProviderError` answer.
- `DB::transaction` locking and concurrent checkouts are not modelled. `store` is one atomic step. A failed check rolls back by changing nothing.
- Floating point is not modelled. Prices, totals, `price * 100`, the promo multiplication and JSON numbers are exact reals. Decimal columns serialised as strings and display rounding (`toFixed`) are left out.
- Laravel's acceptance of numeric strings for `numeric`/`integer` rules is not modelled. Request values are already-decoded JSON values.
- `exists:` and `findOrFail` see the same table, the one the model reads. Eager loading (`with('items.product')`, `load`) only shapes the JSON and is not modelled.
- `AuthController`, `RoleMiddleware`, the `User`/`Order`/`OrderItem` models and user registration are not part of this model. `auth:api` and `role:` are taken to admit as their names say.
- The listing actions are not modelled beyond their rows: `getUsers`, `getAllProducts`, `getAllOrders`, `getProducts`, and the `latest()` / `created_at` ordering of the admin and seller listings. There are no timestamps in the model.
- Database cascades on delete (order items of a deleted product, orders of a deleted user) are not modelled.
- `OPTIONS` requests reach the middleware only if a route matches. That routing is not modelled. `Handle` is modelled for any request.
- `PaymentController.AfterEvent`: the webhook moves a completed order to `processing` from any status, including `completed` or `cancelled`. The code is followed here, not a pending-only reading.
- The browser is only partly modelled:
  - `JSON.parse` failures of `localStorage`, the `cartUpdated` events, `setTimeout` button feedback and the rendering are left out.
  - `alert` is the `alerted` result of `ApplyPromo`.
  - The server's answer to `placeOrder` is the `accepted` parameter.
- `ProductModel.FillSeller`: no rule validates `seller_id`, and both `update($request->all())` calls pass it through. A value that is neither null nor a non-negative whole number (a negative or fractional number, or a string such as `"5"`) keeps the old owner in the model. Eloquent would hand it to the database, which coerces it or fails with a 500 depending on the column type. The migrations that decide this are not part of this model.
- `Http.Passes` takes the request as the controller receives it. Laravel's default global `TrimStrings` and `ConvertEmptyStringsToNull` middleware is not modelled, because the HTTP kernel that installs it is not part of this model. With it, `"name": ""` on a product update is a 422, and `"description": ""` on create is stored as null. The model instead accepts the empty name and stores an empty description.
- `Cart.PromoDiscount`, `Cart.PromoIgnoresCase` and `ProductList.Search` case-map ASCII letters only. JavaScript's `toUpperCase`/`toLowerCase` map all of Unicode. For example, `"ſave10"` gets 10% in the browser and 0 here, and a search for "é" finds "École" in the browser but not here.
- `localeCompare` is locale-dependent. The name sort takes it as a parameter `nameLe`, assumed to be a total preorder.
- The pages that only render or call the API are not part of this model: the admin and seller dashboards, orders, login and seller registration pages, and the app shell.

## Findings

| source | as written | input that shows it | evidently intended | confidence | as-written member | corrected member |
|---|---|---|---|---|---|---|
| app/Http/Controllers/Api/OrderController.php:33-55 | each line is checked against the stock as it was before checkout, and then every line decrements | product 1 with stock 1; `items` = two lines of product 1, quantity 1 each: both pass and the stock ends at -1 | check each line against what the earlier lines left, so stock never goes negative | not executed | `OrderController.DuplicateIdsOversell` (on `OrderController.Store`) | `OrderController.StoreReserving` |
| frontend/src/pages/ProductList.jsx:28 | `product.description.toLowerCase()` is called even when the description is null, which the product API allows | a product named "Mug" with a null description and the search term "tea": the filter throws | a product with no description matches on its name alone | not executed | `ProductList.NullDescriptionBreaksSearch` (on `ProductList.SearchAsWritten`) | `ProductList.Search` |
