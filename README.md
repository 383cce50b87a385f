# Storefront core: cart, product queries, product schema

A Dafny model of the logic at the heart of a small e-commerce storefront
(Express + Mongoose backend, Angular frontend):

- **Cart** (`src/app/services/cart.service.ts`): the client-side cart, a list
  of product snapshots with quantities that `addToCart`, `incrementProduct`,
  `decrementProduct` and `deleteProduct` update in place and copy to local
  storage after every change; `getCartItemCount` and `getTotal` fold over it.
  `CartService` is a class with a `cart` field and a ghost `persisted` field
  (what local storage holds); its methods are proved equal to pure functions
  (`AddedCart`, `IncrementedCart`, `DecrementedCart`, `Without`, `ItemCount`,
  `Total`), and the lemmas state what the cart promises about them.
- **Product routes** (`Backend/routes/ProductRoutes.js`): each handler becomes
  a function from an in-memory store (a sequence of records) and the request
  to the reply (status code and body) and, for the writing routes, the new
  store. Modules `ImageRefs` (the comma-joined `img_url` and its split
  `img_urls`), `ProductRoutes` (`GET /categories`, `GET /category/:category`,
  `GET /`, `GET /:id`, `POST /`), `ProductSearch` (`GET /searchsort`) and
  `FeedbackRoutes` (`POST /feedback`, `GET /feedbacks/:productId`).
- **Product schema** (`Backend/models/ProductsModelDB.js`): the required
  fields, the seven-value category enum and the `show` default, as a
  validation function `ProductSchema.Validate`.

Supporting modules: `Wrappers` (Option, Result), `Http` (JSON body values
with JavaScript truthiness, replies), `Seqs` (filter), `Sorting` (a stable
insertion sort standing in for the store's sort, with its sortedness and
permutation proved).

Inputs the model cannot compute are parameters: `jwt.verify` is a function
from the token to the decoded `userid` (None when it throws), the ObjectId
constructor and `ObjectId.isValid` are functions, every store failure is a
flag, and feedback creation time is a `now` argument.

Behaviours of the code that the model keeps as written:
- the schema sets no lower bound on `price` (Backend/models/ProductsModelDB.js:13-16),
  so a negative price is accepted;
- `/searchsort` with no search and no category still filters on
  `category: { $ne: null }` (Backend/routes/ProductRoutes.js:452), so products
  without a category are dropped;
- in `POST /feedback` a token that fails `jwt.verify` is caught and answered
  with 400; only a missing or empty header gives 401
  (Backend/routes/ProductRoutes.js:537-561);
- `POST /feedback` checks its fields by falsiness, so `rate` 0 is rejected,
  and it never looks up the product (Backend/routes/ProductRoutes.js:543-556).

## Model

| member | source | states |
|---|---|---|
| `Cart.FindIndex` | src/app/services/cart.service.ts:31 | the index `find` stops at: an entry with the id, none before it; None exactly when no entry has the id |
| `Cart.CartService.constructor` | src/app/services/cart.service.ts:17-22 | the cart is what storage held, or empty when nothing was stored; storage mirrors it |
| `Cart.CartService.SaveCartToLocalStorage` | src/app/services/cart.service.ts:25-27 | afterwards storage holds exactly the in-memory cart |
| `Cart.CartService.Find` | src/app/services/cart.service.ts:31 | the loop returns the first entry with the id, or None exactly when there is none |
| `Cart.CartService.AddToCart` | src/app/services/cart.service.ts:30-39 | the new cart is `AddedCart` of the old one and storage mirrors it |
| `Cart.CartService.GetCartItemCount` | src/app/services/cart.service.ts:47-49 | the loop returns the sum of the quantities |
| `Cart.CartService.IncrementProduct` | src/app/services/cart.service.ts:52-58 | the new cart is `IncrementedCart`; storage mirrors it; an absent id leaves the object untouched |
| `Cart.CartService.DecrementProduct` | src/app/services/cart.service.ts:61-70 | the new cart is `DecrementedCart`; storage mirrors it; an absent id leaves the object untouched |
| `Cart.CartService.DeleteProduct` | src/app/services/cart.service.ts:73-76 | the new cart is the old one without the entries of that id; storage mirrors it |
| `Cart.CartService.GetTotal` | src/app/services/cart.service.ts:79-81 | the loop returns the sum of price times quantity |
| `Cart.AddedCart` | src/app/services/cart.service.ts:30-37 | `addToCart` on the list: one entry longer exactly when the id was absent, and the id is present afterwards; its lemmas are `AddNewAppends`, `AddExistingBumps`, `AddRaisesCount`, `AddRaisesTotal` |
| `Cart.IncrementedCart` | src/app/services/cart.service.ts:52-58 | `incrementProduct` on the list: same length, every product snapshot kept; its lemmas are `IncrementPresentBumps`, `AbsentIdUnchanged`, `IncrementRaisesCount` |
| `Cart.DecrementedCart` | src/app/services/cart.service.ts:61-70 | `decrementProduct` on the list: never longer; its lemmas are `DecrementAtOneRemoves`, `DecrementAboveOneLowers`, `DecrementLowersCount` |
| `Cart.Without` | src/app/services/cart.service.ts:74 | no contract; the id filter of `deleteProduct`, whose lemmas are `WithoutKeepsOrder`, `WithoutMembers`, `WithoutRemovesAll`, `WithoutDistinct` |
| `Cart.AddNewAppends` | src/app/services/cart.service.ts:34-36 | a product whose id is absent is appended once, with quantity 1, after the unchanged entries |
| `Cart.AddExistingBumps` | src/app/services/cart.service.ts:31-33 | a present id raises that entry's quantity by 1, keeps the length, keeps the stored snapshot (not refreshed from the argument) and every other entry |
| `Cart.IncrementPresentBumps` | src/app/services/cart.service.ts:53-55 | incrementing the id at `i` keeps the length, raises exactly that entry's quantity by 1 and leaves every other entry equal |
| `Cart.AbsentIdUnchanged` | src/app/services/cart.service.ts:52-70 | increment and decrement of an id not in the cart change nothing |
| `Cart.DecrementAtOneRemoves` | src/app/services/cart.service.ts:61-67 | at quantity 1, decrement removes exactly that entry |
| `Cart.DecrementAboveOneLowers` | src/app/services/cart.service.ts:61-67 | above quantity 1, decrement lowers it by exactly 1 and changes nothing else |
| `Cart.WithoutKeepsOrder` | src/app/services/cart.service.ts:74 | the filter distributes over concatenation and keeps or drops each entry by its id, so the survivors keep their order |
| `Cart.WithoutMembers` | src/app/services/cart.service.ts:74 | an entry survives delete if and only if it was there and has another id |
| `Cart.WithoutRemovesAll` | src/app/services/cart.service.ts:73-76 | after delete no entry has the id, and the cart has not grown |
| `Cart.WithoutDistinct` | src/app/services/cart.service.ts:73-76 | with distinct ids, deleting removes just the one entry |
| `Cart.AddPreservesWellFormed` | src/app/services/cart.service.ts:30-39 | distinct ids and quantities at least 1 survive `addToCart` |
| `Cart.IncrementPreservesWellFormed` | src/app/services/cart.service.ts:52-58 | distinct ids and quantities at least 1 survive `incrementProduct` |
| `Cart.DecrementPreservesWellFormed` | src/app/services/cart.service.ts:61-70 | distinct ids and quantities at least 1 survive `decrementProduct` |
| `Cart.DeletePreservesWellFormed` | src/app/services/cart.service.ts:73-76 | distinct ids and quantities at least 1 survive `deleteProduct` |
| `Cart.AddRaisesCount` | src/app/services/cart.service.ts:30-49 | `addToCart` raises the item count by 1, appending or bumping |
| `Cart.AddRaisesTotal` | src/app/services/cart.service.ts:79-81 | `addToCart` raises the total by one unit price: the stored snapshot's if present, else the argument's |
| `Cart.IncrementRaisesCount` | src/app/services/cart.service.ts:47-58 | increment raises the item count by 1 when the id is present, else by 0 |
| `Cart.DecrementLowersCount` | src/app/services/cart.service.ts:47-70 | in a well-formed cart decrement lowers the item count by 1 when the id is present, else by 0 |
| `Cart.TwoProductsScenario` | src/app/services/cart.service.ts:30-81 | from an empty store, adding a 10.00 product twice and a 5.00 product once gives 2 entries, 3 items, total 25.00 |
| `ImageRefs.Split` | Backend/routes/ProductRoutes.js:156 | JavaScript `split` on one character: always at least one piece; its lemmas are `SplitPieces`, `JoinSplit`, `SplitJoin` |
| `ImageRefs.Join` | Backend/routes/ProductRoutes.js:344 | no contract; `join(',')`, whose lemmas are `JoinSplit`, `SplitJoin`, `ImageRoundTrip` |
| `ImageRefs.ImgUrls` | Backend/routes/ProductRoutes.js:155-159 | the read routes' `img_urls`: [] exactly when `img_url` is absent or empty; otherwise one piece more than there are commas, empty pieces included, comma-free and joining back to `img_url` |
| `ImageRefs.SplitPieces` | Backend/routes/ProductRoutes.js:156 | split yields one more piece than there are commas, none containing a comma |
| `ImageRefs.JoinSplit` | Backend/routes/ProductRoutes.js:156 | joining the pieces of a split restores the string |
| `ImageRefs.SplitJoin` | Backend/routes/ProductRoutes.js:344 | splitting a join of one or more comma-free pieces restores the pieces |
| `ImageRefs.ImageRoundTrip` | Backend/routes/ProductRoutes.js:337-344 | the `img_urls` read back from what `POST /` stored equal the file names, when they are non-empty and comma-free (no names gives []) |
| `ImageRefs.EmptyNameLost` | Backend/routes/ProductRoutes.js:155-159 | a single empty name is stored as '' and reads back as [] |
| `ProductSchema.ParseCategory` | Backend/models/ProductsModelDB.js:23 | a parse that succeeds gives the category with exactly that name; a parse fails only for strings outside the enum list |
| `ProductSchema.CategoryNamesMatch` | Backend/models/ProductsModelDB.js:21-25 | every category's name is in the enum, parses back to it, and names are distinct |
| `ProductSchema.CategoryEnum` | Backend/models/ProductsModelDB.js:21-25 | a category passes if and only if it is one of Electronics, Mobiles, Clothes, Books, Home, Grocery, Health |
| `ProductSchema.WithDefaults` | Backend/models/ProductsModelDB.js:26-29 | an absent `show` becomes true, a supplied one is kept, and no other field changes |
| `ProductSchema.Validate` | Backend/models/ProductsModelDB.js:4-29 | a rejection reports at least one error; its lemmas are `ValidateAcceptsExactly`, `MissingFieldRejected`, `ValidatedFields`, `NegativePriceAccepted` |
| `ProductSchema.ValidateAcceptsExactly` | Backend/models/ProductsModelDB.js:4-29 | a document is accepted if and only if name, description, price, img_url and category are supplied, the strings non-empty, and the category in the enum |
| `ProductSchema.MissingFieldRejected` | Backend/models/ProductsModelDB.js:5-25 | a document missing any one required field fails with a required error for that field |
| `ProductSchema.ValidatedFields` | Backend/models/ProductsModelDB.js:26-29 | an accepted document keeps the supplied fields; `show` is true unless supplied |
| `ProductSchema.NegativePriceAccepted` | Backend/models/ProductsModelDB.js:13-16 | a negative price passes validation |
| `ProductRoutes.GroupByCategory` | Backend/routes/ProductRoutes.js:56-69 | no contract; the `$group` stage and its mapping, whose lemmas are `TallyCounts`, `TallyKeys`, `CategoriesCounted` |
| `ProductRoutes.WithImageList` | Backend/routes/ProductRoutes.js:150-165 | no contract; the record with `img_urls` added and `img_url` kept, whose lemmas are `ReadRoutesDiffer`, `CreateThenRead` |
| `ProductRoutes.TallyCounts` | Backend/routes/ProductRoutes.js:56-63 | counting one product adds 1 to its category's count and to the total, nothing else |
| `ProductRoutes.TallyKeys` | Backend/routes/ProductRoutes.js:56-63 | counting one product adds its category to the keys and no other |
| `ProductRoutes.CategoriesCounted` | Backend/routes/ProductRoutes.js:56-69 | one entry per distinct category (missing counts as null), each count equal to the number of products in it, counts summing to the number of products |
| `ProductRoutes.GetCategories` | Backend/routes/ProductRoutes.js:53-77 | 400 on failure; otherwise 200 with one entry per category, each count the number of products in it, summing to the number of products |
| `ProductRoutes.GetByCategory` | Backend/routes/ProductRoutes.js:142-172 | 400 on failure; otherwise 200, every reply record a stored product of that category, with `img_urls` split from its `img_url` |
| `ProductRoutes.ByCategoryComplete` | Backend/routes/ProductRoutes.js:145-147 | every stored product of the category is in the reply |
| `ProductRoutes.ByCategoryExact` | Backend/routes/ProductRoutes.js:145-166 | the reply's records are the stored products of the category in store order, each as often as it is stored, and no others |
| `ProductRoutes.GetAll` | Backend/routes/ProductRoutes.js:228-252 | 400 on failure; otherwise 200 with every record, in order, kept whole and given `img_urls` |
| `ProductRoutes.FindById` | Backend/routes/ProductRoutes.js:730 | a record found has the id and is stored; none found means no record has it |
| `ProductRoutes.GetById` | Backend/routes/ProductRoutes.js:727-748 | a failing id cast or lookup gives 400, no record 404, else 200 with the record and its `img_urls` |
| `ProductRoutes.CreateProduct` | Backend/routes/ProductRoutes.js:334-356 | the reply is 200 or 400; 400 stores nothing; 200 appends one record with the new id |
| `ProductRoutes.CreateWithoutFilesRejected` | Backend/routes/ProductRoutes.js:337-354 | with no uploaded file `img_url` is '', which fails validation: 400 and nothing stored |
| `ProductRoutes.CreateThenRead` | Backend/routes/ProductRoutes.js:337-346 | a created product reads back with `img_urls` equal to the uploaded names (non-empty, comma-free) and `show` true |
| `ProductRoutes.CreateStoresForm` | Backend/routes/ProductRoutes.js:337-349 | a created record is exactly the new id, the form's name, description, price and category, the comma-joined file names as `img_url`, and `show` true |
| `ProductRoutes.CreateSucceedsExactly` | Backend/routes/ProductRoutes.js:334-356 | `POST /` answers 200 if and only if the form fields pass the schema, at least one file was uploaded and the save works |
| `Sorting.Insert` | Backend/routes/ProductRoutes.js:454 | inserting adds exactly the one element |
| `Sorting.Sort` | Backend/routes/ProductRoutes.js:454 | the sort returns a permutation of its input |
| `Sorting.SortKeeps` | Backend/routes/ProductRoutes.js:454 | every element of the sorted sequence comes from its input |
| `Sorting.SortSorted` | Backend/routes/ProductRoutes.js:454 | under any total preorder the sort's result is in order and a permutation |
| `Sorting.SortUnderNoOrder` | Backend/routes/ProductRoutes.js:444 | an empty sort spec leaves the order unchanged |
| `ProductSearch.SortSpecFor` | Backend/routes/ProductRoutes.js:444-448 | no contract; the `sort_by` mapping, whose lemma is `SortSpecChoices` |
| `ProductSearch.Matches` | Backend/routes/ProductRoutes.js:451-453 | no contract; the category and name filter, whose lemmas are `SearchFindsExactly`, `EmptyQueryKeepsCategorized`, `ContainsAt` |
| `ProductSearch.SearchResults` | Backend/routes/ProductRoutes.js:451-454 | no longer than the store, every product found passes the filter; its lemmas are `SearchFindsExactly`, `SearchResultsSorted` |
| `ProductSearch.SearchResultsSorted` | Backend/routes/ProductRoutes.js:454 | the products found are in the order of the chosen sort |
| `ProductSearch.SearchView` | Backend/routes/ProductRoutes.js:456-471 | no contract; the reshaping of each product, whose lemmas are `SearchDropsImgUrl`, `ReadRoutesDiffer` |
| `ProductSearch.SortSpecChoices` | Backend/routes/ProductRoutes.js:442-448 | each of the four `sort_by` names selects its own order; any other value, '' included, selects none |
| `ProductSearch.BeforeIsPreorder` | Backend/routes/ProductRoutes.js:445-448 | every sort spec is a total preorder on products |
| `ProductSearch.ContainsAt` | Backend/routes/ProductRoutes.js:453 | the substring test succeeds exactly when the search text stands somewhere in the name |
| `ProductSearch.EmptySearchMatches` | Backend/routes/ProductRoutes.js:442 | the default empty search matches every name |
| `ProductSearch.SearchSort` | Backend/routes/ProductRoutes.js:441-477 | a thrown query error gives 500 with its message as JSON; otherwise 200 with one item per product found |
| `ProductSearch.SearchFindsExactly` | Backend/routes/ProductRoutes.js:451-454 | the reply holds exactly the products that pass the category and case-insensitive name filters, as often as stored, ordered by the chosen sort |
| `ProductSearch.PriceDescNonIncreasing` | Backend/routes/ProductRoutes.js:448-454 | with `price_desc` the reply is non-increasing in price |
| `ProductSearch.SearchDropsImgUrl` | Backend/routes/ProductRoutes.js:456-471 | the reply has one item per product found, in order; each has no `img_url`, its `img_urls` split from the record's `img_url`, its other fields unchanged |
| `ProductSearch.ReadRoutesDiffer` | Backend/routes/ProductRoutes.js:461-468 | the other read routes keep `img_url`; `/searchsort` deletes it; both give the same `img_urls` |
| `ProductSearch.EmptyQueryKeepsCategorized` | Backend/routes/ProductRoutes.js:442-454 | with no parameters the reply is the products that have a category, in store order |
| `FeedbackRoutes.PostFeedback` | Backend/routes/ProductRoutes.js:534-563 | the reply is 200, 400 or 401; anything but 200 stores nothing |
| `FeedbackRoutes.UnauthorizedExactlyWithoutToken` | Backend/routes/ProductRoutes.js:535-537 | 401 if and only if the `x-auth-token` header is missing or empty |
| `FeedbackRoutes.BadTokenIsBadRequest` | Backend/routes/ProductRoutes.js:539-561 | a token that fails verification gives 400, not 401, and stores nothing |
| `FeedbackRoutes.FalsyFieldRejected` | Backend/routes/ProductRoutes.js:543-546 | with a verified token, any falsy productId, feedback or rate gives 400; rate 0 is falsy |
| `FeedbackRoutes.RateZeroRejected` | Backend/routes/ProductRoutes.js:543-546 | with a verified token, a `rate` of 0 is taken as missing: 400 "Missing required fields", nothing stored |
| `FeedbackRoutes.PostSucceedsExactly` | Backend/routes/ProductRoutes.js:539-558 | 200 if and only if the token verifies, the fields are truthy, both ids cast and the save works (product existence plays no part); then the feedback is appended |
| `FeedbackRoutes.GetFeedbacks` | Backend/routes/ProductRoutes.js:624-649 | the reply is 200, 400, 404 or 500, and a 200 is never empty |
| `FeedbackRoutes.MalformedIdRejected` | Backend/routes/ProductRoutes.js:628-631 | an id `isValid` rejects gives 400 whatever the store |
| `FeedbackRoutes.QueryErrorIs500` | Backend/routes/ProductRoutes.js:633-648 | a failing query gives 500 |
| `FeedbackRoutes.NoFeedbackIs404` | Backend/routes/ProductRoutes.js:640-642 | a product with no feedback gives 404, not an empty 200 |
| `FeedbackRoutes.FeedbacksFor` | Backend/routes/ProductRoutes.js:634-638 | no longer than the store, every entry for the product asked; its lemmas are `FeedbacksForNewestFirst`, `FeedbacksForExact` |
| `FeedbackRoutes.FeedbacksForNewestFirst` | Backend/routes/ProductRoutes.js:638 | the feedback found comes newest first by `createdAt` |
| `FeedbackRoutes.FeedbacksForExact` | Backend/routes/ProductRoutes.js:634-636 | the feedback found is exactly that of the product, each entry as often as stored |
| `FeedbackRoutes.FeedbacksFound` | Backend/routes/ProductRoutes.js:633-644 | with some feedback present the reply is 200 with all of it, each joined with its user |

## Left out

- MongoDB and Mongoose execution (`find`, `aggregate`, `populate`, `save`, ObjectId casting): the store is a sequence of records; id casts, id validity, lookup and save failures are parameters. The store's sort is a stable insertion sort, and only "sorted permutation" is promised.
- Mongo string collation: names compare character by character; the order of ties is not promised.
- `$regex`: the search text is a literal; case is ignored for ASCII letters only; a malformed pattern is only the `failure` argument of `SearchSort`.
- Floating-point numbers: prices are integers (cents); NaN is not a `JsValue`.
- `jsonwebtoken`, token expiry and the secret: `jwt.verify` is the `verify` argument.
- Mongoose's cast of the `price` form field to a number: `ProductForm.price` is the number it casts to; a cast error is not modelled separately (it also answers 400).
- Mongoose runs more than one validator per path; the model reports one error per path.
- Backend/models/FeedbackModelDB.js is not part of this model: its validation folds into `saveFails`, and `createdAt` is the `now` argument.
- `populate` of the user is a map from user id to name; other user fields are not modelled.
- Express plumbing: `req`/`res`, route registration order, the multer upload middleware, Swagger comments, logging, query parameters given as arrays.
- The commented-out admin `POST /` and the update and delete routes (Backend/routes/ProductRoutes.js:314-331, 652-656).
- `localStorage` and `JSON.parse`/`stringify`: storage is the ghost field `persisted`; malformed stored JSON is out of scope; a stored cart is taken unchecked, so well-formedness is a precondition of the lemmas.
- `getCart` and aliasing: the service hands out its live array and entries are objects mutated in place; the model's entries are values, so changes made through a returned reference are not modelled.
- The other frontend files (products.service.ts, the cart and nav-bar components, language.service.ts, app.config.ts): HTTP wrappers, UI delegation and dependency wiring.
