# Storefront bookkeeping, modelled in Dafny

The storefront exists in two versions, and this project models the bookkeeping at the core of both.

The **client-only** version keeps everything in memory:
- a session user found among two demo accounts;
- the catalog, with add, merge-update and delete;
- a cart of (product, quantity) lines;
- a favorites list;
- an order list;
- on top of these, the checkout page, the catalog page's search and sort, the seller dashboard's figures, and the seller's product form.

The **server** version is a REST API over a document database. This project covers:
- order creation, which walks the requested lines and lowers stock as it goes;
- the order status update and the vendor's order list;
- the favorites and the cart kept on the user document;
- the product listing (filter, sort, pagination) and the owner-or-admin edits;
- reviews and the product's average rating;
- the order document's enumerations, defaults and the hook that gives a new order its number;
- the client context that holds the server-backed cart.

Conventions:
- Money is whole cents. Shipping is 999 cents and is waived when the subtotal is above 10000.
- Average ratings are `real`.
- Ids, timestamps and random numbers are parameters.
- "" stands for an absent, falsy string.
- A requester is an id and a role.

Structure:
- Each source file is one module. `Collections` holds the shared sequence helpers.
- State that the source replaces or mutates lives in classes:
  - `AppStore.Store` holds the five client collections;
  - `ServerStore.Database` holds maps of products, orders and users, plus a sequence of reviews;
  - `CartContext.CartState` holds the server-backed cart.
- Each operation is a method. Its contract ties the new state to a pure function of the old one, and lemmas state what those functions mean.

Order creation is specified by **`OrderRoutes.Reserve`**, the route's loop over a prefix of the requested lines:
- the loop's invariant keeps the database equal to `Reserve` of the lines seen so far;
- there is no rollback, as in the source: stock already taken by accepted lines stays taken when a later line, or the save, fails;
- a line with a negative quantity passes the stock check and raises the stock (`OrderRoutes.NegativeQuantityRaisesStock`).

Where the two versions differ, both behaviours are modelled:
- **Cart update.** The client removes a line when its quantity is 0 or less. The server stores the quantity as given.
- **Favorites.** The client can list a product twice (`AppStore.FavoriteAddedTwice`). The server's list behaves as a set (`UserRoutes.FavoriteIdempotent`).
- **Order total.** The client total includes shipping. The server's `totalAmount` does not.

Two facts about the server code shape the model:
- Order creation checks and lowers stock one line at a time, saving each product before it looks at the next line. Nothing is reserved for the order as a whole (server/routes/orders.js:16-36).
- The product listing returns pages of 12 products unless a limit is given (server/routes/products.js:10).

## Model

| member | source | states |
|---|---|---|
| AppStore.Authenticate | contexts/AppContext.tsx:134-146 | login finds a user exactly when some demo account matches both email and password; the result is the first such account, without its password |
| AppStore.Store.Login | contexts/AppContext.tsx:134-146 | returns true exactly when the credentials match, and only then replaces the session user |
| AppStore.Store.Logout | contexts/AppContext.tsx:148-152 | user, cart and favorites are all cleared; the cart invariant holds |
| AppStore.Store.constructor | contexts/AppContext.tsx:87-91 | starts logged out, with an empty cart and no favorites, over the initial catalog and orders |
| AppStore.Store.AddProduct | contexts/AppContext.tsx:155-161 | exactly one product, the draft under the supplied id, is appended |
| AppStore.Merge | contexts/AppContext.tsx:164 | `{ ...p, ...patch }`: every field the patch carries replaces the product's, the id included, and every other field is kept |
| AppStore.PatchProducts | contexts/AppContext.tsx:163-165 | the products with the id get the patch merged in; every other product is unchanged; the length is kept |
| AppStore.Store.UpdateProduct | contexts/AppContext.tsx:163-165 | the catalog becomes `PatchProducts` of the old one |
| AppStore.DropProducts | contexts/AppContext.tsx:167-169 | exactly the products with the id are gone; all others remain; nothing changes when the id is absent |
| AppStore.Store.DeleteProduct | contexts/AppContext.tsx:167-169 | the catalog becomes `DropProducts` of the old one |
| AppStore.FindProduct | app/checkout/page.tsx:46 | finds nothing exactly when no product has the id; otherwise the first catalog product with that id, no earlier product having it |
| AppStore.FindProductAfterDrop | contexts/AppContext.tsx:167-169 | after a delete, the deleted id finds nothing and every other id finds what it found before |
| AppStore.AddItem | contexts/AppContext.tsx:172-184 | a product already in the cart has its quantity raised by q on its lines, other lines unchanged; otherwise one line (p, q) is appended |
| AppStore.AddItemQuantity | contexts/AppContext.tsx:172-184 | adding q of p raises p's quantity by exactly q and leaves every other product's quantity as it was |
| AppStore.Store.AddToCart | contexts/AppContext.tsx:172-184 | the cart becomes `AddItem` with the quantity defaulting to 1, and stays free of repeated products |
| AppStore.RemoveItem | contexts/AppContext.tsx:186-188 | p is no longer in the cart; every other product is present exactly when it was; no change when p was absent |
| AppStore.RemoveItemQuantity | contexts/AppContext.tsx:186-188 | after removal p's quantity is 0 and every other product keeps its quantity |
| AppStore.Store.RemoveFromCart | contexts/AppContext.tsx:186-188 | the cart becomes `RemoveItem` of the old one and stays free of repeated products |
| AppStore.SetItemQuantity | contexts/AppContext.tsx:190-198 | a quantity of 0 or less removes the product; a positive one overwrites only that product's lines and never inserts a line |
| AppStore.SetItemQuantityEffect | contexts/AppContext.tsx:190-198 | afterwards p has the new quantity when it was in the cart and the quantity is positive, 0 otherwise; other products are unaffected |
| AppStore.Store.UpdateCartQuantity | contexts/AppContext.tsx:190-198 | the cart becomes `SetItemQuantity` of the old one and stays free of repeated products |
| AppStore.CartOperationsKeepUnique | contexts/AppContext.tsx:172-198 | add, remove and update all keep the cart's product ids distinct |
| AppStore.Store.ClearCart | contexts/AppContext.tsx:200-202 | the cart is empty |
| AppStore.Store.AddToFavorites | contexts/AppContext.tsx:205-207 | the product id is appended unconditionally |
| AppStore.Store.RemoveFromFavorites | contexts/AppContext.tsx:209-211 | every occurrence of the id is removed, the rest kept in order |
| AppStore.FavoriteAddedTwice | contexts/AppContext.tsx:205-211 | adding a product twice lists it twice, and a single removal takes both copies away |
| AppStore.Store.CreateOrder | contexts/AppContext.tsx:214-221 | exactly one order, the data with the supplied id and date, is appended; the catalog, and so the stock, is not touched |
| AppStore.WithStatus | contexts/AppContext.tsx:223-227 | only the status of the orders with the id changes; all other orders, and all other fields, are unchanged |
| AppStore.WithStatusLastWins | contexts/AppContext.tsx:223-227 | a later status update of the same order overrides an earlier one |
| AppStore.Store.UpdateOrderStatus | contexts/AppContext.tsx:223-227 | the orders become `WithStatus` of the old ones |
| Checkout.JoinCart | app/checkout/page.tsx:45-51 | each joined line carries the first catalog product with its id and comes from a cart line; there are no more lines than in the cart |
| Checkout.JoinCartLines | app/checkout/page.tsx:45-51 | the joined lines are exactly the cart lines whose product exists, in cart order |
| Checkout.Subtotal | app/checkout/page.tsx:53 | the sum of current price times quantity over the joined lines, never negative when no price or quantity is |
| Checkout.Shipping | app/checkout/page.tsx:54 | shipping is waived exactly when the subtotal is above 100.00, and is 9.99 otherwise |
| Checkout.ShippingThreshold | app/checkout/page.tsx:54 | a subtotal of exactly 100.00 still pays 9.99 of shipping; one cent more ships free |
| Checkout.ExampleFreeShipping | app/checkout/page.tsx:53-54 | 2 x 29.99 plus 1 x 89.99 gives a subtotal of 149.97 and free shipping |
| Checkout.Validate | app/checkout/page.tsx:76-84 | placement passes exactly when name, address and phone are non-empty and the joined cart is not empty; the delivery fields are checked first |
| Checkout.BuildOrderData | app/checkout/page.tsx:90-103 | one line per joined item, snapshotting id, name, quantity and current price; status pending; the client and delivery details are the user's and the form's |
| Checkout.OrderTotalFromLines | app/checkout/page.tsx:53-55 | the order total is the sum of the snapshotted lines plus the shipping that sum incurs |
| Checkout.PlaceOrder | app/checkout/page.tsx:73-106 | a refusal changes neither orders nor cart; otherwise exactly one order is appended and the cart is emptied |
| Checkout.ControlsKeepQuantityInRange | app/checkout/page.tsx:185-198 | pressing an enabled minus or plus control moves a quantity in [1, stock] by one and keeps it in [1, stock] |
| ProductsPage.FilterAndSort | app/products/page.tsx:39-75 | the list holds exactly the products passing the search and category filters, with their multiplicities; it is ordered by price up, price down or newest as asked, and by rating down otherwise |
| ProductsPage.SortPlan | app/products/page.tsx:57-72 | only "price-low" sorts ascending; price is the key for the two price options, the id's time for "newest", and rating for every other value, "featured" included |
| ProductsPage.SortPlanMeaning | app/products/page.tsx:57-72 | a list ordered by the key and direction chosen for `sortBy` is ordered by price up for "price-low", by price down for "price-high", by id time down for "newest" and by rating down for any other value |
| ProductsPage.SortBy | app/products/page.tsx:57-72 | the sort yields an ordered permutation of its input |
| Dashboard.SellerProducts | app/dashboard/page.tsx:45 | exactly the products whose seller is the user |
| Dashboard.SellerOrders | app/dashboard/page.tsx:46-51 | exactly the orders with a line whose product, looked up in the current catalog, belongs to the seller |
| Dashboard.DashboardStats | app/dashboard/page.tsx:34-57 | figures exist exactly when a seller is logged in; the products are the number of catalog entries of the seller, the orders the number of orders involving the seller, the revenue the sum of the whole totals of those orders (other sellers' lines and shipping included), and the pending figure the number of those orders still pending |
| Dashboard.RevenueNonNegative | app/dashboard/page.tsx:54 | revenue is never negative when no order total is |
| Dashboard.DeleteNeverAddsSellerOrders | app/dashboard/page.tsx:46-51 | deleting a product never adds an order to a seller's list, and an order whose every line names the deleted product drops out |
| ProductForm.Prefill | components/dashboard/ProductForm.tsx:33-46 | editing fills every form field from the product: the text fields and images as they are, price and stock as printed |
| ProductForm.ChangeImage | components/dashboard/ProductForm.tsx:62-67 | only the entry at the index takes the new value; the length and every other field are kept |
| ProductForm.ChangeImageUndo | components/dashboard/ProductForm.tsx:62-67 | writing back the old value of an entry restores the form |
| ProductForm.AddImageField | components/dashboard/ProductForm.tsx:69-74 | one empty entry is appended and nothing else changes |
| ProductForm.RemoveImageField | components/dashboard/ProductForm.tsx:76-81 | the entry at the index is gone, the others keep their order, and the length drops by one; an index out of range changes nothing |
| ProductForm.AddThenRemoveImageField | components/dashboard/ProductForm.tsx:69-81 | removing the field just added gives back the form |
| ProductForm.SubmittedImages | components/dashboard/ProductForm.tsx:95 | the submitted images are exactly the entries that are not blank once trimmed |
| ProductForm.EmptyFieldNotSubmitted | components/dashboard/ProductForm.tsx:69-74 | an added, still empty, image field does not change what is submitted |
| ProductForm.BuildDraft | components/dashboard/ProductForm.tsx:88-100 | the record carries the typed text fields, the parsed price and stock, the non-blank images, the edited product's rating and review count (0 for a new product) and the current user as seller |
| ProductForm.Submit | components/dashboard/ProductForm.tsx:102-108 | an update with the edited product's id exactly when editing, otherwise an add; never both |
| ProductForm.UntouchedEditKeepsProduct | components/dashboard/ProductForm.tsx:33-46 | submitting an untouched edit of a product leaves it as it was, provided its numbers print and parse back, its images are non-blank and it is the user's |
| ProductForm.SubmitTo | components/dashboard/ProductForm.tsx:102-108 | the store's catalog is patched under the edited id, or has the new product appended |
| CartContext.TotalItems | contexts/CartContext.tsx:85 | `totalItems`, the sum of the line quantities, never negative when no quantity is |
| CartContext.TotalPrice | contexts/CartContext.tsx:86 | `totalPrice`, the sum of price times quantity, never negative when no price or quantity is |
| CartContext.TotalsSplit | contexts/CartContext.tsx:85-86 | the unit count and the total price add up over any split of the cart |
| CartContext.UnitsAtLeastLines | contexts/CartContext.tsx:85 | when every line holds a unit, there are at least as many units as lines |
| CartContext.CartState.constructor | contexts/CartContext.tsx:33 | the local cart starts empty |
| CartContext.CartState.ClearCart | contexts/CartContext.tsx:81-83 | the local items are emptied |
| CartContext.CartState.RefreshCart | contexts/CartContext.tsx:36-48 | with no user the items become empty; a fetched cart replaces them; a failed fetch keeps them |
| OrderSchema.ParseStatus | server/models/Order.js:47-51 | exactly the six status names are accepted, each as the status it names |
| OrderSchema.StatusRoundTrip | server/models/Order.js:47-51 | every status's name reads back as that status |
| OrderSchema.ParsePaymentMethod | server/models/Order.js:57-61 | exactly the four payment-method names are accepted |
| OrderSchema.PaymentMethodRoundTrip | server/models/Order.js:57-61 | every payment method's name reads back as that method |
| OrderSchema.NewOrder | server/models/Order.js:47-69 | a new document has status and payment status pending, payment method card when none is given, and empty tracking number and notes; an unknown payment method is refused |
| OrderSchema.Validate | server/models/Order.js:3-34 | a document passes exactly when it has an order number and every line has at least one unit |
| OrderSchema.Decimal | server/models/Order.js:76 | a non-negative number is written as one or more decimal digits |
| OrderSchema.DecimalRoundTrip | server/models/Order.js:76 | reading the digits back gives the number |
| OrderSchema.OrderNumber | server/models/Order.js:76 | an order number starts with "GDK-" and has at least two digits after it |
| OrderSchema.OrderNumberInjective | server/models/Order.js:76 | for timestamps of equal width, the number determines the timestamp and the random part |
| OrderSchema.OrderNumberCollision | server/models/Order.js:76 | without padding, timestamp 1 with random 23 and timestamp 12 with random 3 give the same number |
| OrderSchema.PreSave | server/models/Order.js:74-79 | only a new document without a number gets one; no other field changes, and every other document is left as it is |
| OrderSchema.PreSaveIdempotent | server/models/Order.js:74-79 | running the hook again never replaces a number once given |
| OrderSchema.SaveAsWritten | server/models/Order.js:3-8 | as written, a save succeeds exactly when the document already passes validation before the hook runs |
| OrderSchema.NewOrderNeverSavesAsWritten | server/models/Order.js:74-79 | as written, every order the route builds is refused for a missing order number |
| OrderSchema.Save | server/models/Order.js:74-79 | with the number assigned before validation, a new order is saved exactly when its lines are valid, and the saved document is the hooked one |
| OrderRoutes.Reserve | server/routes/orders.js:16-36 | the creation loop over the lines so far: a line passes against the stock the earlier lines left, lowers it, is snapshotted and added to the total; the first refused line stops the walk and nothing is undone. Its properties are the lemmas below |
| OrderRoutes.ReserveLines | server/routes/orders.js:16-36 | the lines are the accepted prefix of the request, all of them when none was refused, each with its product's price and vendor; the total is their sum; products are neither added nor removed, and only stock changes |
| OrderRoutes.ReserveStock | server/routes/orders.js:33-35 | each product's stock drops by exactly the units the accepted lines took from it |
| OrderRoutes.StockStaysNonNegative | server/routes/orders.js:18 | stock that starts non-negative stays non-negative through the walk, whatever the quantities |
| OrderRoutes.RejectedSticks | server/routes/orders.js:18-22 | once a line is refused, the later lines change nothing |
| OrderRoutes.FirstRejection | server/routes/orders.js:16-22 | a refused walk stopped at its first failing line: the earlier lines passed, their stock decrements remain, and that line fails against them |
| OrderRoutes.LastUnitSoldOnce | server/routes/orders.js:18-34 | of two one-unit orders for the last unit, the first takes it and the second is refused |
| OrderRoutes.NegativeQuantityRaisesStock | server/routes/orders.js:18-34 | a negative quantity passes the stock check and raises the stock, and the schema then refuses the order |
| OrderRoutes.Placement | server/routes/orders.js:38-46 | with the save corrected as in "## Findings": the order is built only from a completed walk, for the requester, with the walk's lines and total, pending and numbered; it is refused exactly for a bad payment method or a line below one unit |
| OrderRoutes.CreateOrder | server/routes/orders.js:9-51 | with the save corrected as in "## Findings": the stock ends as the walk leaves it; a refused line answers 400 and a refused save 500, both with no order stored; otherwise the order is stored and 201 answered. As written, the save always refuses a new order (`OrderSchema.NewOrderNeverSavesAsWritten`), so the route answers 500 after lowering the stock |
| OrderRoutes.VendorOrders | server/routes/orders.js:69-73 | refused with 403 unless vendor or admin; otherwise exactly the orders with a line sold by the requester |
| OrderRoutes.Retracked | server/routes/orders.js:100-101 | the status is replaced; the tracking number only by a non-empty value; nothing else changes |
| OrderRoutes.UpdateStatus | server/routes/orders.js:85-108 | 404 for an unknown order and 403 unless the requester sells in it or is admin, both with no change; an unknown status name is refused on save (500); otherwise any status may follow any status |
| UserRoutes.WithFavorite | server/routes/users.js:13-16 | an id already listed leaves the list unchanged; an absent one is appended; a duplicate-free list stays duplicate-free |
| UserRoutes.FavoriteIdempotent | server/routes/users.js:13-16 | adding a favorite twice is adding it once |
| UserRoutes.AddThenRemoveFavorite | server/routes/users.js:13-28 | removing a favorite just added gives back the list |
| UserRoutes.RemoveFavoriteKeepsNoDuplicates | server/routes/users.js:28 | removal keeps a duplicate-free list duplicate-free |
| Collections.RemoveAll | server/routes/users.js:28 | the id appears nowhere afterwards; every other element stays; no change when the id is absent |
| UserRoutes.AddFavorite | server/routes/users.js:8-22 | a missing user document answers 500 with no change; otherwise the user's favorites become `WithFavorite` |
| UserRoutes.RemoveFavorite | server/routes/users.js:25-35 | a missing user document answers 500 with no change; otherwise every occurrence of the id is removed |
| UserRoutes.AddEntry | server/routes/users.js:53-59 | an existing entry keeps its place and product; otherwise an entry is pushed |
| UserRoutes.AddEntryQuantity | server/routes/users.js:53-59 | the product's quantity grows by exactly the amount added; other products are unaffected |
| UserRoutes.AddToCart | server/routes/users.js:48-66 | a missing user answers 500; otherwise the cart becomes `AddEntry` with the quantity defaulting to 1 |
| UserRoutes.SetEntry | server/routes/users.js:84-88 | the cart keeps its length and products; without an entry for the product nothing changes |
| UserRoutes.SetEntryQuantity | server/routes/users.js:84-88 | the product takes the given quantity, even one below 1, when it has an entry; otherwise nothing changes; other products are unaffected |
| UserRoutes.UpdateCartItem | server/routes/users.js:79-94 | a missing user answers 500; otherwise the cart becomes `SetEntry`, never inserting or removing |
| UserRoutes.DropEntries | server/routes/users.js:100 | no entry for the product remains; every other entry stays |
| UserRoutes.CartRoutesKeepDistinct | server/routes/users.js:53-100 | all three cart routes keep the products of the cart distinct |
| UserRoutes.RemoveFromCart | server/routes/users.js:97-107 | a missing user answers 500; otherwise the cart becomes `DropEntries` |
| ProductRoutes.BuildQuery | server/routes/products.js:12-15 | the filter always requires active status, and names a category or subcategory exactly when that parameter is non-empty |
| ProductRoutes.ListingFilter | server/routes/products.js:12-15 | a product is listed exactly when it is active and matches each category or subcategory parameter given |
| ProductRoutes.SortMeaning | server/routes/products.js:18-34 | an ordered listing is by price up, price down, rating down or creation time down as asked; for any other value, featured products come first and then newer ones |
| ProductRoutes.SortOption | server/routes/products.js:18-34 | one key for the four named orders and two (featured, then newest) for any other value; price is the first key exactly for the two price options, and only "price-low" sorts ascending |
| ProductRoutes.FilterKeepsOrder | server/routes/products.js:36-40 | filtering an ordered collection keeps it ordered |
| ProductRoutes.Window | server/routes/products.js:39-40 | at most `n` products, each the one at its offset from `from` on; exactly `n` when that many remain, otherwise all that remain |
| ProductRoutes.WindowKeepsOrder | server/routes/products.js:36-40 | skipping and limiting an ordered collection keeps it ordered |
| ProductRoutes.Paginate | server/routes/products.js:39-49 | pages before the first are refused (500); otherwise the page is the slice from (page - 1) * limit of at most limit products, with the total and the page count |
| ProductRoutes.PageCount | server/routes/products.js:46 | the page count is the fewest pages of `limit` that hold all products |
| ProductRoutes.PageOfPosition | server/routes/products.js:39-46 | every matching product is on the page its position says, at the offset it says, and that page is within the page count |
| ProductRoutes.ListProducts | server/routes/products.js:8-53 | with page 1 and limit 12 by default: refused (500) exactly for a page before the first; otherwise the items are the window of `limit` matching products starting at `(page - 1) * limit`, the current page is the one asked for, the total counts every match and the page count is the ceiling of the total over the limit; every listed product matches the filter, and the page is ordered as asked |
| ProductRoutes.Assign | server/routes/products.js:110 | every field the body carries replaces the product's, the vendor, creation time and review list included; every field it does not carry is kept |
| ProductRoutes.AssignLaws | server/routes/products.js:110 | an empty body changes nothing, and applying a body twice is applying it once |
| ProductRoutes.CreateProduct | server/routes/products.js:79-95 | 403 with no change unless vendor or admin; otherwise the product is stored with the requester as vendor, whatever the body says |
| ProductRoutes.UpdateProduct | server/routes/products.js:98-117 | 404 for a missing product and 403 unless owner or admin, both with no change; otherwise only that product changes, merged with the body |
| ProductRoutes.DeleteProduct | server/routes/products.js:120-137 | 404 for a missing product and 403 unless owner or admin, both with no change; otherwise exactly that product is removed |
| ReviewRoutes.ReviewsOf | server/routes/reviews.js:34 | exactly the stored reviews of the product |
| ReviewRoutes.ReviewsOfAfterAdding | server/routes/reviews.js:31-34 | after storing a review, the product's reviews are the earlier ones followed by it |
| ReviewRoutes.Mean | server/routes/reviews.js:35 | the average times the number of reviews is the sum of the ratings |
| ReviewRoutes.MeanBounds | server/routes/reviews.js:35 | the average rating lies between the lowest and the highest rating |
| ReviewRoutes.MeanAfterAdding | server/routes/reviews.js:35 | one more review makes the average the old sum plus the new rating, over one more review |
| ReviewRoutes.Rerated | server/routes/reviews.js:37-41 | the product's rating is the average of its reviews, its count their number, and the new review's id is appended; nothing else changes |
| ReviewRoutes.NewReviewKeepsOnePerCustomer | server/routes/reviews.js:14-21 | a review accepted by the duplicate check keeps one review per customer per product |
| ReviewRoutes.CreateReview | server/routes/reviews.js:9-47 | a second review by the same customer answers 400 and stores nothing; otherwise the review is stored (201), and an existing product is rerated over all its reviews |

## Left out

- The localStorage load and save effects and their JSON form are not modelled. Neither are the session code and the fetch client behind the server-backed cart. All of this is I/O.
- Money is whole cents rather than JavaScript floating point. `toFixed` display is not modelled.
- ProductForm.BuildDraft: `parseFloat` and `parseInt` are parameters, so their results, NaN included, are not modelled.
- ProductForm.UntouchedEditKeepsProduct: printing and parsing the numbers back is assumed, because `toString` and the parsers are parameters.
- ProductsPage.FilterAndSort: lower-casing covers ASCII letters only.
- ProductsPage.FilterAndSort: the 'newest' key is an abstract `idTime` function, because it parses ids with JavaScript's date parser.
- ProductsPage.FilterAndSort: the contract does not state that the sort is stable.
- ProductRoutes.ListProducts: the database's text search (`search`), `populate` and the execution of sort, skip and limit are not modelled. The function is given the collection already in the requested order and states what the route does with it.
- ProductRoutes.Paginate: requires a positive limit. A limit of 0, a negative one and non-numeric strings are not modelled.
- ProductRoutes.ListProducts: requires a positive limit, as `Paginate` does. Its `currentPage` is an integer, while the route echoes the raw query value, which is a string whenever `page` is given.
- Ids are taken to be well-formed database ids. A malformed one makes `findById` throw a cast error, which the routes answer with 500. Examples are server/routes/products.js:100 and 122, and server/routes/orders.js:17 and 88. The model answers 404 instead in `ProductRoutes.UpdateProduct`, `ProductRoutes.DeleteProduct` and `OrderRoutes.UpdateStatus`. In `OrderRoutes.Reserve` and `OrderRoutes.CreateOrder` it refuses the line with 400, where the source answers 500 after the earlier lines have lowered stock.
- ProductRoutes.Assign: a body key that is not a product field is not modelled; it would be copied onto the document and dropped by the schema on save.
- Products, users and reviews are only checked as far as the routes' own code goes. The schemas that would also check them when they are saved are not part of this model.
- ReviewRoutes: ratings are whole numbers.
- OrderRoutes.UpdateStatus: the save checks only the new status; the order's other fields are taken as valid.
- Request bodies whose fields are missing or of the wrong type are not modelled. Examples are a missing `status`, or a string quantity that `+=` would concatenate.
- OrderSchema.Validate: only the order number and the unit count of each line are checked. The route always fills in the other required fields.
- OrderSchema.Validate: reports the first failing check rather than collecting every error.
- OrderSchema.Validate: uniqueness of `orderNumber` is a database index and is not modelled. `OrderSchema.OrderNumberCollision` shows that two orders can receive the same number.
- Requests are sequential. Concurrent requests on the same product would race, and that is not modelled.
- `Date.now()`, `new Date()` and `Math.random()` become parameters, so ids are not guaranteed fresh.
- The read-only routes are not modelled. They are: a single product, my orders, a product's reviews, the favorites list and the cart list. Each is a plain lookup with `populate` and a sort.
- OrderRoutes.VendorOrders: returns the set of matching order ids, so the order of the result is not modelled.
- CartContext: `addToCart`, `removeFromCart` and `updateQuantity` are server calls followed by `refreshCart`. Only the refresh is modelled, with the fetched cart, or a failed fetch, as a parameter.
- Checkout.PlaceOrder: requires a logged-in user, because the page renders nothing and redirects without one. Toasts, routing and the loading flag are not modelled.

## Findings

| source | as written | input that shows it | evidently intended | confidence | as-written member | corrected member |
|---|---|---|---|---|---|---|
| server/models/Order.js:4-8,74-79 | `orderNumber` is required, but it is only assigned in a `pre('save')` hook. The document library validates a document before it runs the `pre('save')` hooks, so every new order fails validation for lacking its number. `POST /orders` then answers 500, after the stock of its lines has already been lowered. | any `POST /orders` whose lines are all in stock | assign the number before validation, for example in a `pre('validate')` hook, so that a new order with valid lines is saved under a fresh number | high; not executed | OrderSchema.NewOrderNeverSavesAsWritten (over OrderSchema.SaveAsWritten) | OrderSchema.Save, used by OrderRoutes.Placement and OrderRoutes.CreateOrder |
