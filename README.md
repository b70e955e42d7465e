# E-commerce storefront core, modelled in Dafny

This project models the server-side state machine of a small storefront
(an Express server over an SQLite database) and its duplicate browser-side
authentication module. The server keeps four tables that its routes touch:
`users`, `products`, `cart_items` and `reviews`. It also keeps one
process-wide `currentUser`. The model has these parts:

- `schema.dfy` (module `Schema`): the rows of the four tables and their
  `CHECK`, `PRIMARY KEY`, `UNIQUE` and `FOREIGN KEY` constraints, stated as
  predicates over whole tables (`DatabaseValid`).
- `server.dfy` (module `Server`): class `Store`, holding the tables and the
  session. There is one method per route that changes state (sign-up,
  sign-in, sign-out, cart add/set-quantity/delete/clear, and review insert
  with the rating recompute) and one for the read-only current-user route.
  The methods that write a table require and keep `Valid()`; sign-in,
  sign-out and current-user may change only `currentUser`, which the
  constraints do not mention. Each method either performs its statements or
  is rejected with its failure and changes nothing. Its `ensures` say
  exactly what the new state is.
- `catalog.dfy` (module `Catalog`): `GET /api/products` and
  `GET /api/products/:id` as pure functions over the tables.
- `cart.dfy` (module `Cart`): the cart lookups and deletions and the
  `GET /api/cart/:userId` join.
- `ratings.dfy` (module `Ratings`): `COALESCE(AVG(rating), 0)` and
  `COUNT(*)` as an exact mean over `real`.
- `client_auth.dfy` (module `ClientAuth`): class `Session` for
  `src/lib/auth.ts`, with its own `users` table and `currentUser`.
- `seqs.dfy`, `base.dfy`: generic sequence operations (search, filter,
  stable insertion sort) and the `Option`/`Result`/`Outcome` wrappers.

Modelling conventions:

- A table is a sequence of rows in storage order.
- A uniqueness constraint is `DistinctBy(table, key)`.
- Prices are integer cents.
- Timestamps (`CURRENT_TIMESTAMP`, `created_at`) are abstract integers.
- A database refusal is `ConstraintFailed(violation)`, which the routes
  report as HTTP 500.
- The statement's constraints are checked in SQLite's order: `CHECK`, then
  the primary key and `UNIQUE` indexes, then foreign keys at the end of the
  statement.
- bcrypt and uuid are foreign calls. Sign-up receives the password hash and
  the fresh id as parameters. Sign-in receives bcrypt's comparison as a
  function `matches(password, hash)`. A generated id that collides with an
  existing one is modelled as the primary-key failure the database would
  raise.

Proved beyond the route contracts:

- The rating recompute always satisfies the `average_rating` CHECK
  (`MeanInRange`). So no table constraint can make the recompute fail, and a
  constraint never stops the insert-then-update of a review halfway. Other
  database failures of the second statement are not modelled.
- The full re-scan equals an incremental update (`AppendReviewAggregate`).
- The listing returns exactly the selected rows, in the requested order
  (`ListProducts`, `ListingComplete`).
- The recursive substring search agrees with the positional definition
  (`ContainsTextIffOccurs`).

## Model

| member | source | states |
|---|---|---|
| `Schema.RequestedRole` | server/index.js:543 | the role a sign-up stores: the one given, or `customer` when it is absent; both sign-ups use it, the client's parameter default at auth.ts line 9 being the same rule |
| `Server.RequestedQuantity` | server/index.js:750 | the quantity a cart add uses: the one given, or 1 when it is absent |
| `Server.Store.constructor` | server/index.js:23 | the server starts on a database meeting every table constraint, with `currentUser` null |
| `Server.Store.SignUp` | server/index.js:541-578 | a taken email gives 400 "User already exists with this email" and inserts nothing; otherwise a role outside customer/seller/admin is a CHECK failure and a reused id a primary-key failure, both changing nothing; otherwise exactly one row (role default `customer`, not banned) is appended and its id, email, full_name and role are returned; all constraints are kept |
| `Server.Store.SignIn` | server/index.js:580-621 | unknown email and wrong password give the same 400 "Invalid email or password"; a banned user with the right password gets 403 and the session is untouched; success, and only success, sets `currentUser` to the stored row's fields |
| `Server.SignUpThenSignIn` | server/index.js:541-621 | a successful sign-up followed by a sign-in whose password matches the stored hash always succeeds, and the session then holds the new user with the requested role (default `customer`), the given name, no avatar, the sign-up time and not banned |
| `Server.Store.SignOut` | server/index.js:623-626 | afterwards nobody is signed in |
| `Server.Store.CurrentUser` | server/index.js:628-630 | returns the session value and changes nothing |
| `Server.Store.AddToCart` | server/index.js:748-775 | an existing (user, product) row's quantity grows by the given amount (default 1) with no new row; otherwise exactly one row with that quantity is appended; a resulting quantity of 0 or less is a CHECK failure, a reused id a primary-key failure, an unknown user or product a foreign-key failure, each changing nothing; cart constraints are kept |
| `Server.Store.SetQuantity` | server/index.js:777-795 | quantity 0 or less deletes exactly the row with that id; a positive quantity becomes that row's quantity; every other row is unchanged; an unknown id changes nothing |
| `Server.Store.DeleteItem` | server/index.js:797-805 | exactly the row with that id is removed and every other row stays in order; an unknown id changes nothing |
| `Server.Store.ClearCart` | server/index.js:807-815 | every row of that user is removed and every row of any other user is kept |
| `Server.Store.CreateReview` | server/index.js:840-865 | a rating outside 1..5 is a CHECK failure, then a reused id a primary-key failure, then a second review by the same user a UNIQUE failure, then an unknown product or user a foreign-key failure, each answered with 500 and leaving reviews and products unchanged; otherwise one review is appended, the product's average_rating and review_count become the mean and number of all its ratings, and no other product changes; all constraints, including the average_rating CHECK, are kept |
| `Schema.UsersValid` | server/index.js:29-39 | `users`: id PRIMARY KEY, email UNIQUE, role in customer/seller/admin |
| `Schema.ProductsValid` | server/index.js:56-71 | `products`: id PRIMARY KEY, price, stock and average_rating CHECKs, and the seller foreign key into `users` |
| `Schema.CartValid` | server/index.js:76-86 | `cart_items`: id PRIMARY KEY, quantity > 0, UNIQUE(user_id, product_id), and both foreign keys |
| `Schema.ReviewsValid` | server/index.js:120-131 | `reviews`: id PRIMARY KEY, rating in 1..5, UNIQUE(product_id, user_id), and both foreign keys |
| `Schema.DatabaseValid` | server/index.js:29-131 | every constraint of the four tables holds; `Store` keeps it as its invariant, and `Session` keeps its users part, `UsersValid` |
| `Schema.SessionOf` | server/index.js:603-611 | the seven fields of a user row that a successful sign-in stores as `currentUser` |
| `Schema.UserByEmail` | server/index.js:546 | finds a row with the given email exactly when one exists |
| `Schema.UserByEmailUnique` | server/index.js:31 | with UNIQUE emails the row found is the only row with that email |
| `Schema.UserByEmailAfterInsert` | server/index.js:560-562 | after a sign-up insert with a new email, the sign-in lookup of that email finds the new row |
| `Schema.AddUserKeepsDatabaseValid` | server/index.js:29-40 | an insert with a new id, a new email and a role in the enumeration keeps every constraint of the four tables |
| `Schema.SameProductIdsKeepKeys` | server/index.js:856-859 | rewriting non-key product columns keeps the product primary key and every foreign key into `products` |
| `Schema.ProductIndex` | server/index.js:856-859 | locates the product the `UPDATE ... WHERE id = ?` targets, exactly when it exists |
| `Ratings.ProductReviews` | server/index.js:851-854 | selects exactly the reviews of that product, never more rows than the table has |
| `Ratings.ProductReviewsMultiset` | server/index.js:851-854 | each review of the product is selected exactly as often as it is stored and no other review is, which `COUNT(*)` and `AVG` rely on |
| `Ratings.Mean` | server/index.js:852 | `COALESCE(AVG(rating), 0)`: 0 for no reviews, otherwise the rating sum divided by the count (its range is stated by `MeanInRange`) |
| `Ratings.AverageRating` | server/index.js:851-854 | the `average_rating` written back: the mean over the product's reviews |
| `Ratings.ReviewCount` | server/index.js:851-854 | the `review_count` written back: at most the table size, and 0 exactly when no review is of that product |
| `Ratings.RatingSumBounds` | server/index.js:124 | with every rating in 1..5 the rating sum lies between count and 5 times count |
| `Ratings.MeanInRange` | server/index.js:66 | the recomputed average is 0 with no reviews and within [1, 5] otherwise, so it meets the average_rating CHECK |
| `Ratings.ProductRatingsInRange` | server/index.js:851-859 | over a valid reviews table the recomputed average of any product lies in [0, 5] |
| `Ratings.AppendReviewAggregate` | server/index.js:845-859 | appending a review changes only its own product's aggregate: one more review, its rating added to the sum |
| `Catalog.ListProducts` | server/index.js:633-693 | every listed row is an approved stored product meeting every given filter, joined with its seller; every selected row is listed as often as it is stored; the rows are in the order `sortBy` names |
| `Catalog.Given` | server/index.js:645-650 | the JavaScript truthiness of `if (category)` and `if (search)`: present and not the empty string |
| `Catalog.ListingComplete` | server/index.js:641-663 | every approved product meeting all given filters is in the listing |
| `Catalog.ListingHasNoDuplicates` | server/index.js:57 | with unique product ids no product is listed twice |
| `Catalog.OrderOf` | server/index.js:666-681 | `price_asc`, `price_desc` and `rating` select their order; `newest`, an absent value and any other value select newest first |
| `Catalog.InOrder` | server/index.js:666-681 | the direction of each `ORDER BY`: price ascending, price descending, average rating descending, created_at descending (newest first) |
| `Catalog.ContainsTextIffOccurs` | server/index.js:650-653 | the search match holds exactly when the search text occurs as a contiguous block of the name or description |
| `Catalog.SellerName` | server/index.js:637-640 | the seller name comes from a user whose id is the product's seller_id, and is NULL when there is no seller; with unique user ids, whenever the seller's row exists the name is that row's `full_name` |
| `Catalog.ViewOf` | server/index.js:684-687 | the returned row carries every product column, the joined seller name, and a `seller` object exactly when that name is non-empty |
| `Catalog.SearchHit` | server/index.js:650-652 | the search term occurs in the name or in a non-NULL description |
| `Catalog.Selected` | server/index.js:641-663 | the `WHERE` clause: approved, and each filter that is given (category, search, minimum and maximum price) holds |
| `Catalog.GetProduct` | server/index.js:695-718 | returns 404 "Product not found" exactly when no product has that id, approved or not; otherwise a product with that id joined with its seller |
| `Catalog.GetProductFindsRow` | server/index.js:697-703 | with unique ids the lookup returns the one stored row with that id |
| `Cart.FindPair` | server/index.js:753-755 | finds the cart row of that user and product exactly when one exists |
| `Cart.FindItem` | server/index.js:781-788 | finds the cart row with that id exactly when one exists |
| `Cart.WithoutItemExact` | server/index.js:800 | with unique ids, deleting by id removes exactly that one row and keeps the rest in order; an unknown id changes nothing |
| `Cart.WithoutItem` | server/index.js:800 | keeps exactly the rows whose id differs |
| `Cart.WithoutUser` | server/index.js:810 | keeps exactly the rows of other users |
| `Cart.DeletionsKeepCartValid` | server/index.js:76-87 | both cart deletions keep `quantity > 0`, `UNIQUE(user_id, product_id)`, the primary key and the foreign keys |
| `Cart.CartLines` | server/index.js:721-746 | every line is a row of that user joined with its product; every such row whose product exists is shown |
| `Cart.SummaryOf` | server/index.js:733-739 | the `product` object of a cart line: the product's id, name, price, image_url and stock_quantity |
| `Cart.CartLinesMultiset` | server/index.js:724-729 | the inner join returns each of the user's rows with an existing product exactly as often as it is stored, and no other row |
| `Cart.CartLinesExact` | server/index.js:724-729 | over a valid cart the user's cart shows exactly that user's rows |
| `Seqs.SortBy` | server/index.js:666-681 | the result is in ascending key order and is a permutation of the input |
| `Seqs.FilterDropsOne` | server/index.js:800 | a deletion matching exactly one position removes that element and nothing else |
| `Seqs.FilterDistinct` | server/index.js:85 | deleting rows keeps a primary key or UNIQUE constraint satisfied |
| `ClientAuth.Session.constructor` | src/lib/auth.ts:7 | the module starts with `currentUser` null over a users table meeting its constraints |
| `ClientAuth.Session.SignUp` | src/lib/auth.ts:9-33 | a taken email throws "User already exists with this email" and inserts nothing; otherwise a role outside the enumeration or a reused id is refused with no change; otherwise exactly one row (role default `customer`) is inserted and its id, email, full_name and role are returned |
| `ClientAuth.Session.SignIn` | src/lib/auth.ts:35-70 | unknown email and wrong password throw the identical "Invalid email or password"; the ban is checked only after the password and leaves `currentUser` unchanged; success sets `currentUser` to the stored row's fields |
| `ClientAuth.Session.SignOut` | src/lib/auth.ts:72-74 | afterwards `currentUser` is null |
| `ClientAuth.Session.GetCurrentUser` | src/lib/auth.ts:76-78 | returns the current value and changes nothing |
| `ClientAuth.Session.UpdateUserProfile` | src/lib/auth.ts:80-116 | with neither full_name nor avatar_url defined nothing is written and `currentUser` is returned unchanged; otherwise only those columns of the rows with `userId` change, and `currentUser` is merged with the whole update only when it is that user; the result is the new `currentUser` |
| `ClientAuth.SetColumns` | src/lib/auth.ts:101-105 | the `UPDATE ... SET` writes exactly the listed columns and leaves every other column of the row as it was |
| `ClientAuth.ProfileColumns` | src/lib/auth.ts:85-92 | the SET list names full_name exactly when it is defined and avatar_url exactly when it is defined |
| `ClientAuth.Merge` | src/lib/auth.ts:109 | `{ ...currentUser, ...updates }`: every property the update defines replaces the cached one, every other property is kept |
| `ClientAuth.MergeLaws` | src/lib/auth.ts:109 | the object spread that refreshes the cached user: merging an empty update changes nothing, merging the same update twice equals merging it once (so saving the same profile again leaves the cached user as the first save left it), and an update that defines only `full_name` and `avatar_url` changes only those two properties |

## Left out

- Order placement, order items, notifications, categories and admin operations: the code has no logic for them beyond table creation and seed data.
- Table creation and seed data: the initial database is a parameter of the constructors, which require it to meet the constraints.
- `GET /api/products/:productId/reviews` (server/index.js:818-837): a read-only join outside this model.
- bcrypt hashing and comparison, uuid generation: foreign calls, passed in as a hash, an id and a `matches` function. The model does not claim that a stored hash differs from the plaintext.
- Express routing, JSON bodies, CORS and `app.listen`: each route is one method or function. Its result is the response body or a failure with its status.
- The JavaScript clock value `created_at: new Date().toISOString()` in the sign-up response: clocks are not modelled. `SignUpReply` omits it, and also omits the constant `success` and `is_banned: false` fields.
- The `updated_at` columns, `cart_items.created_at` and `reviews.created_at`: they are set by SQLite defaults and returned by the GET routes (`p.*`, `ci.*`), but they are not modelled; `Product` has no `updated_at`, and `CartItem` and `Review` have neither column. The reviews columns are never returned by a modelled route.
- Floating point: prices are integer cents, and `parseFloat` of `minPrice`/`maxPrice` is taken as already done. A non-numeric value (NaN) is not modelled. The average rating is an exact real number, not SQLite's double.
- SQLite `LIKE` details: ASCII case-insensitivity and `%`/`_` wildcards inside the search text are not modelled. The search is case-sensitive containment.
- Catalog.ListProducts: the contract does not state where rows that tie under the sort key go. The sort keeps them in storage order, but that is not proved; SQLite leaves their order unspecified.
- Request values of the wrong JavaScript type (a string quantity, a `null` role or email, a non-integer rating): parameters are typed. An explicitly present `undefined` property of the profile update is treated as absent, although the object spread would copy it into `currentUser`.
- The shared `currentUser` global under concurrent requests: the store is sequential.
- Foreign-key cascades on delete: no modelled operation deletes users or products.
- All React pages, components, hooks and the fetch wrappers in `src/lib/api.ts`: these are UI and network clients.
