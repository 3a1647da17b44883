# Cart, checkout and catalog core of an e-commerce backend

This project models the request logic of an Express/Mongoose e-commerce backend:
- the cart routes, with their ObjectId gate, create, read, add, remove, update quantity, replace and clear;
- the in-memory `CartManager` with its id counter `ultId`;
- the cart data-access functions and the cart DTO projection;
- the purchase route, which checks stock, decrements it, sums the total and writes a `pending` ticket;
- the catalog listing, which validates `page` and `limit`, filters by case-insensitive substring, sorts by price and paginates;
- the cart-total fold of the cart views;
- the product, cart and ticket schemas, stated as validity predicates;
- the error handler and the `authenticate`, `authorizeAdmin` and `verifyUser` middlewares.

Collections are maps, or sequences where the source keeps an array. A Mongoose `save` is "store the document exactly when it passes the schema predicate". A rejected save throws, and the route answers 500.

Modules, one per source file:
- `CartModel`, `ProductModel` and `TicketModel`: the schemas.
- `LineItems`: the accumulate-or-append and remove-all operations shared by the router and the manager.
- `CartsRouter`, `Managers`, `CartDao`, `CartDto`, `TicketsRouter`, `ProductsRouter` and `ViewsRouter`.
- `ErrorHandler`, `Authenticate` and `VerifyUser`.
- `Wrappers`: `Option` and `Result`.

Prices and totals are integers (cents).

## Model

| member | source | states |
|---|---|---|
| CartModel.NewCart | src/models/cart.model.js:23-28 | a new cart gets state "reserved" and keeps the given user and items |
| CartModel.Materialize | src/models/cart.model.js:9-22 | every supplied `{product, quantity}` becomes one line item, in order, same length |
| CartModel.CartWithoutUserInvalid | src/models/cart.model.js:4-8 | a cart built without `user` never passes validation, whatever its items |
| CartModel.DuplicateProductsAllowed | src/models/cart.model.js:9-22 | the schema accepts a cart listing the same product twice |
| ProductModel.Build | src/models/product.model.js:4-50 | a product is built iff title, description and code are present and non-empty, and price, stock, category and status are in range; every supplied field is kept; missing price and stock default to 1, category to "other", status to "available", img and thumbnails to the default images; the result is valid |
| ProductModel.Save | src/models/product.model.js:23-27 | a save succeeds iff the product is valid and no other product has its code; on success the store maps the id to it and stays valid |
| ProductModel.RestockKeepsStoreValid | src/models/product.model.js:28-33 | setting a stored product's stock to any value ≥ 0 keeps the store valid with codes still unique |
| TicketModel.NewTicket | src/models/ticket.model.js:3-15 | a ticket keeps user, lines and total; status defaults to "pending" |
| TicketModel.AnyStatusAccepted | src/models/ticket.model.js:12 | status is not restricted: any text passes validation |
| LineItems.FirstIndex | src/routes/carts.router.js:113 | `findIndex`: -1 iff no item has the product, otherwise the first item that has it |
| LineItems.Accumulate | src/routes/carts.router.js:162-167 | a present product has its first item's quantity raised, with no new entry; an absent one is appended at the end |
| LineItems.Without | src/routes/carts.router.js:72 | `filter` keeps only items of other products, all taken from the input |
| LineItems.QuantityOfAppend | src/routes/carts.router.js:162-167 | the total quantity of a product is additive over concatenation |
| LineItems.QuantityOfAbsent | src/routes/carts.router.js:162-167 | a product with no item has total quantity 0 |
| LineItems.QuantityOfUpdate | src/routes/carts.router.js:118 | overwriting one item changes totals only by that item's old and new quantity |
| LineItems.AccumulateAddsQuantity | src/routes/carts.router.js:162-167 | adding raises the product's total by exactly the amount and leaves every other product's total unchanged |
| LineItems.AccumulateKeepsDistinct | src/routes/carts.router.js:162-167 | if products are distinct before an add, they stay distinct |
| LineItems.AccumulateTwice | src/routes/carts.router.js:162-167 | two adds of a new product give one appended item with the summed quantity |
| LineItems.WithoutAppend | src/routes/carts.router.js:72 | removal keeps the others in order (it distributes over concatenation) |
| LineItems.WithoutRemovesAll | src/routes/carts.router.js:72 | after removal the product is gone, and every other product keeps its total quantity |
| LineItems.WithoutQuantity | src/routes/carts.router.js:72 | removal sets the product's total quantity to 0 and keeps every other product's total |
| LineItems.WithoutAbsent | src/routes/carts.router.js:72 | removing an absent product leaves the list unchanged |
| LineItems.WithoutIdempotent | src/routes/carts.router.js:72 | removing twice is the same as removing once |
| CartsRouter.IdsAccepted | src/routes/carts.router.js:10-16 | accepted iff the cart id is valid and the product id, when present and non-empty, is valid too; an empty product id skips its test |
| CartsRouter.CartsApi.SaveCart | src/routes/carts.router.js:73 | the cart is stored iff it passes the cart schema, and nothing else changes |
| CartsRouter.CartsApi.Create | src/routes/carts.router.js:19-28 | creating a cart always answers 500 and stores nothing, since `user` is required |
| CartsRouter.CartsApi.Get | src/routes/carts.router.js:31-60 | 400 on a bad id, 404 on a missing cart, otherwise 200 with the stored cart |
| CartsRouter.CartsApi.Remove | src/routes/carts.router.js:63-80 | 400/404 change nothing; otherwise 200, and the cart's items become the list without the product, even when the product was absent |
| CartsRouter.CartsApi.Replace | src/routes/carts.router.js:83-100 | 400/404 change nothing; 200 iff every supplied item has a product and a quantity ≥ 1, and then the list is stored verbatim; otherwise 500 and no change |
| CartsRouter.CartsApi.UpdateQuantity | src/routes/carts.router.js:103-125 | 404 and no change when the cart or the item is missing; 200 iff the new quantity is present and ≥ 1, and then only the first matching item is overwritten; otherwise 500 |
| CartsRouter.CartsApi.Clear | src/routes/carts.router.js:128-144 | 400/404 change nothing; otherwise 200 with an empty item list and the rest of the cart kept |
| CartsRouter.CartsApi.Add | src/routes/carts.router.js:147-175 | 400/404 (bad id, missing cart, missing catalog product) change nothing; otherwise the cart becomes accumulate-or-append with quantity default 1, answered 200 iff it validates, else 500 and no change |
| CartsRouter.AddKeepsProductsDistinct | src/routes/carts.router.js:149-167 | an add keeps product references distinct and raises that product's total by the quantity (1 by default) |
| CartsRouter.ZeroQuantityUpdateRejected | src/routes/carts.router.js:118 | an update to quantity 0 yields a cart the schema rejects (src/models/cart.model.js:19) |
| Managers.MaxId | src/managers/cart-manager.js:16-19 | `Math.max` of the ids is ≥ every id and is one of them |
| Managers.CartIndex | src/managers/cart-manager.js:47 | `find` by id: -1 iff no cart has the id, otherwise the first cart with it |
| Managers.CartManager.constructor | src/managers/cart-manager.js:4-24 | the loaded list, or empty when it cannot be read; `ultId` is the maximum id, or 0 |
| Managers.CartManager.CreateCart | src/managers/cart-manager.js:35-44 | the new cart has id old `ultId` + 1 and no products, is appended at the end, and its id exceeds every existing id |
| Managers.CartManager.GetCartById | src/managers/cart-manager.js:46-54 | an error iff no cart has the id; otherwise the first cart with that id |
| Managers.CartManager.AddProduct | src/managers/cart-manager.js:56-70 | a missing cart is an error and changes nothing; otherwise only that cart changes, by accumulate-or-append with quantity default 1 |
| Managers.CreateTwice | src/managers/cart-manager.js:35-44 | two creations give strictly increasing ids, both absent before, and append exactly two carts |
| CartDao.RemoveAll | src/dao/cart.dao.js:26 | the id no longer occurs, and every remaining id was in the cart |
| CartDao.RemoveAllAppend | src/dao/cart.dao.js:26 | removal keeps the rest in order (it distributes over concatenation) |
| CartDao.RemoveAllCounts | src/dao/cart.dao.js:26 | removal drops every occurrence of the id and keeps every other id's count |
| CartDao.RemoveAbsent | src/dao/cart.dao.js:26 | removing an absent id leaves the list unchanged |
| CartDao.CartCollection.SaveNew | src/dao/cart.dao.js:5 | a new document is stored, as its product ids, iff it passes the cart schema; nothing else changes |
| CartDao.CartCollection.CreateCart | src/dao/cart.dao.js:3-7 | the new cart has no `user`, which the schema requires, so the save always fails and nothing is stored |
| CartDao.CartCollection.AddProductToCart | src/dao/cart.dao.js:13-21 | appends the id at the end without merging duplicates; "Cart not found" and no change for a missing cart |
| CartDao.CartCollection.RemoveProductFromCart | src/dao/cart.dao.js:23-31 | the cart becomes the list without the id; "Cart not found" and no change for a missing cart |
| CartDao.AddThenRemove | src/dao/cart.dao.js:13-31 | adding an id and then removing it is the same as removing it |
| CartDto.ProjectItems | src/dto/cart.dto.js:4-7 | same length and order; each entry has the item's own id as text, and its quantity |
| CartDto.FromCart | src/dto/cart.dto.js:2-9 | `id` is the cart's id; products are projected index by index with the same length |
| CartDto.ProjectionIgnoresProductReference | src/dto/cart.dto.js:5 | the DTO does not depend on the items' product references |
| TicketsRouter.RunFailureSticks | src/routes/tickets.router.js:22-30 | once an item fails, the later items change nothing (early return) |
| TicketsRouter.RunPrefix | src/routes/tickets.router.js:22-41 | the loop after item i is one more iteration of the loop before it |
| TicketsRouter.LastStep | src/routes/tickets.router.js:22-41 | a successful run ends with the last item decremented, totalled and recorded |
| TicketsRouter.RunKeepsKeys | src/routes/tickets.router.js:33-34 | the loop never adds or deletes a product |
| TicketsRouter.RunLines | src/routes/tickets.router.js:40 | on success there is one ticket line per requested item, in request order, with its product and quantity |
| TicketsRouter.RunStock | src/routes/tickets.router.js:28-34 | on success each product's stock drops by exactly the total quantity requested for it |
| TicketsRouter.RunTotal | src/routes/tickets.router.js:19-37 | on success every item names a stored product, and the total is Σ price × quantity in request order |
| TicketsRouter.RunKeepsStoreValid | src/routes/tickets.router.js:28-34 | stock never goes negative, so the product store stays valid, whether the run fails or succeeds |
| TicketsRouter.RunFailsAt | src/routes/tickets.router.js:22-30 | a failed run failed at some item k: all items before k succeeded, and k was unknown (404) or short of stock (400) |
| TicketsRouter.SameProductTwice | src/routes/tickets.router.js:23-34 | a product listed twice is checked the second time against the already decremented stock |
| TicketsRouter.Checkout.Purchase | src/routes/tickets.router.js:9-57 | a missing or empty list gives 400 with no change; otherwise the products become the loop's result, kept even on failure; a failure answers 404/400 with no ticket; success saves a pending ticket (201), or answers 500 when the ticket fails validation |
| ViewsRouter.CartTotalAppend | src/routes/views.router.js:50-52 | the cart total is additive over concatenation (0 for an empty cart) |
| ViewsRouter.RenderCart | src/routes/views.router.js:50-54 | a populated cart renders with its total; an unpopulated product makes the fold throw (500) |
| ViewsRouter.CartById | src/routes/views.router.js:39-59 | a missing cart gives 404 and no total; otherwise the cart page with its total |
| ViewsRouter.UserCart | src/routes/views.router.js:62-87 | no token redirects to login; a token that fails verification gives 500; no cart renders `cart: null`; otherwise the same page as by id |
| ViewsRouter.Priced | src/routes/views.router.js:50-52 | each purchase item becomes a view item with its product's price and its quantity |
| ViewsRouter.AmountIsCartTotal | src/routes/views.router.js:50-52 | Σ price × quantity of a purchase equals the cart-view total of the same items |
| ViewsRouter.TicketTotalIsCartTotal | src/routes/tickets.router.js:37 | a successful checkout's `totalAmount` equals the view's cart total for the same items and prices |
| ViewsRouter.ViewsAgree | src/routes/views.router.js:78-80 | both cart views compute the same page and the same total |
| ProductsRouter.OccursShift | src/routes/products.router.js:25-27 | a substring occurrence shifts by one when the first character is dropped |
| ProductsRouter.Includes | src/routes/products.router.js:25-27 | `includes` holds iff the query occurs at some position |
| ProductsRouter.Filtered | src/routes/products.router.js:23-31 | a product is kept iff it matches: query in the lowercased title, description or category, or "true"/"false" against a boolean status |
| ProductsRouter.FilteredAppend | src/routes/products.router.js:23-31 | filtering keeps order (it distributes over concatenation) |
| ProductsRouter.EmptyQueryKeepsAll | src/routes/products.router.js:12-31 | the default empty query keeps every product in order |
| ProductsRouter.Insert | src/routes/products.router.js:35-37 | inserting into a sorted list keeps it sorted and adds exactly that product |
| ProductsRouter.SortByPrice | src/routes/products.router.js:35-37 | the result is sorted by price and is a permutation of the input |
| ProductsRouter.InsertWithPrice | src/routes/products.router.js:35-37 | an inserted product lands after every product of its price already in the list |
| ProductsRouter.SortKeepsEqualPricesInOrder | src/routes/products.router.js:35-37 | the sort is stable: the products of any one price keep their relative order |
| ProductsRouter.Arrange | src/routes/products.router.js:34-38 | "asc" gives non-decreasing prices, "desc" non-increasing, any other value keeps the order; always a permutation, and products of equal price keep their filter order |
| ProductsRouter.CeilDiv | src/routes/products.router.js:41 | `Math.ceil(n / d)`: the least r with r·d ≥ n |
| ProductsRouter.Slice | src/routes/products.router.js:43-45 | `slice` is exactly the window with both ends clamped to the list, empty when the start is past the end, and full length when the end is inside the list |
| ProductsRouter.NatStr | src/routes/products.router.js:56-57 | a number prints as a non-empty string of decimal digits |
| ProductsRouter.NatStrValue | src/routes/products.router.js:56-57 | the digits printed in a link denote the page or limit number itself |
| ProductsRouter.PastLastPage | src/routes/products.router.js:41-43 | a page past the last one starts at or after the end of the list |
| ProductsRouter.BeforeLastPage | src/routes/products.router.js:41-44 | a page before the last one ends inside the list |
| ProductsRouter.Paginate | src/routes/products.router.js:40-58 | totalPages = ceil(count / limit); hasPrevPage iff page > 1, with prevPage page−1 exactly then; likewise next with page < totalPages; each link is present iff its page is |
| ProductsRouter.PayloadIsWindow | src/routes/products.router.js:43-45 | the payload holds the products at positions (page−1)·limit onwards; it has `limit` of them when the page fits, the remainder of the list on a partial last page, and none past the end |
| ProductsRouter.SliceWindow | src/routes/products.router.js:45 | each sliced element is the list's element at the start plus its offset |
| ProductsRouter.PayloadSize | src/routes/products.router.js:43-45 | in terms of `totalPages`: a page past the last one is empty; a page before the last one holds exactly `limit` products |
| ProductsRouter.List | src/routes/products.router.js:10-58 | 400 iff limit or page is not a number or ≤ 0 (defaults 10 and 1); otherwise the page of the filtered, arranged products |
| ErrorHandler.OrElse | src/middlewares/errorHandler.js:8-9 | `s \|\| fallback`: the value when present and non-empty, else the fallback |
| ErrorHandler.Handle | src/middlewares/errorHandler.js:2-35 | a truthy statusCode wins, with message default "Error desconocido" and type "general"; otherwise ValidationError gives 400 with its errors, the token errors 401, anything else 500 |
| ErrorHandler.StatusCodeWins | src/middlewares/errorHandler.js:6-11 | with a status code set, the error's name does not change the answer |
| ErrorHandler.NameClassification | src/middlewares/errorHandler.js:13-34 | without a status code the answer is 400, 401 or 500, and it is 500 exactly for names outside the three known ones |
| Authenticate.Authenticate | src/middlewares/authenticate.js:3-15 | a strategy error gives 500 whatever the user; no user gives 401; otherwise next with that user |
| Authenticate.AuthorizeAdmin | src/middlewares/authenticate.js:18-23 | passes iff the role is exactly "admin", else 403 |
| Authenticate.SeededAdminRejected | src/middlewares/authenticate.js:19 | the role "ADMIN" (upper case) is refused with 403 |
| VerifyUser.VerifyUser | src/middlewares/verifyUser.js:4-29 | 400 with no id; 500 when the lookup throws; 404 for an unknown id; 403 when unverified; next with the stored user iff all pass |
| VerifyUser.GuardOrder | src/middlewares/verifyUser.js:8-20 | the first failing guard decides: 403 implies a known id, 404 implies a working lookup, and a missing id gives 400 whatever the store |

## Left out

- File persistence of `CartManager`: the JSON read and write, and `guardarCarritos` failures, are not modelled. The constructor takes the parsed file as a parameter, or none when it is unreadable. The un-awaited load at construction is not modelled either.
- Concurrency: every request is modelled on its own. Racing purchases or racing adds are not modelled.
- Floating-point prices and totals are modelled as integers.
- JS coercions: a string `quantity` that would concatenate under `+=`, and `parseInt` accepting trailing text. Quantities are integers, and a page parameter is either absent, a number or not a number.
- `mongoose.Types.ObjectId.isValid` is a function parameter `validId`. Its definition lives in the library.
- Mongoose `populate`, the pre-find hooks and `lean`: line items hold the product reference, and view items hold the populated price, which is missing when the product no longer exists.
- `LineItems.FirstIndex`, `LineItems.Accumulate` and `LineItems.Without` compare the line item's product reference with the requested id as plain ids. In the source, `findById` also fires the `pre("findOne")` populate hook (src/models/cart.model.js:37-40). The `product.product.toString()` comparisons at src/routes/carts.router.js:72, 113 and 162 may then see a populated document rather than the id. The model assumes an unpopulated reference.
- CastErrors and database failures other than schema validation: the generic 500 answers of the `catch` blocks are not modelled.
- Response messages and bodies are not modelled, except where the source's text is the outcome (`Cart not found`, the error-handler defaults).
- `CartDao.CartCollection.AddProductToCart` and `CartDao.CartCollection.RemoveProductFromCart` do not check their saves against the cart schema, because the DAO stores bare ids in the line-item array. `getCartById` in src/dao/cart.dao.js is only a populated read and is not modelled.
- `ViewsRouter.UserCart`: `jwt.verify` becomes the flag `tokenVerifies`. The result of `findOne({ userId })` is a parameter, because which carts match depends on the library's query filtering.
- `ProductsRouter.Filtered`: lowercasing covers ASCII letters only.
- `ProductsRouter.SortByPrice`: the product list comes in as a parameter, because `ProductManager` is not part of this model. The engine's in-place sort is modelled on a sequence, as an insertion sort. Sortedness, permutation and stability are proved, but not the update in place.
- `Managers.CartManager.GetCartById`: the error message does not include the id.
- Ticket timestamps `createdAt` and `updatedAt` are not modelled.
- The other handlers of src/routes/products.router.js (get by id, add to cart through the manager, create, update, delete) and the other routes of src/routes/views.router.js (product pagination, register, login, profile) are not modelled.
