# Super Store storefront — a Dafny model

This project models the core of the Super Store: three small request-handler
services over one shared document store.

- The auth service registers users and logs them in.
- The buyer service browses products, keeps a cart, tops up savings and places orders.
- The seller service manages inventory listings and answers product image lookups.

The store holds four collections: Users, Inventory, Carts and Orders.

## Structure

- `seqs.dfy` (module `Seqs`) holds `Option` and the collection queries the handlers use:
  - `Filter` is `find(query)`: all matches, in collection order.
  - `FirstIndex` is `find_one`, `update_one` and `delete_one`: the first match.
  - `RemoveAt` deletes one row.
- `tables.dfy` (module `Tables`) holds:
  - the documents (`User`, `Item`, `CartEntry`, `OrderLine`, `Order`);
  - the error outcomes;
  - the query filters, written as named closures;
  - the store invariant `Consistent`. It says that usernames are unique, savings are never negative, and (seller, product) pairs are unique. It also says that every listing has a web image URL and that every document id is unique and was handed out by the store.
- `store.dfy` (module `Store`) holds the class `Db`. Its four sequence fields are the collections. It also has an id counter that stands in for ObjectId generation, so an inserted document gets a fresh `_id`.
- `auth.dfy`, `buyer.dfy` and `seller.dfy` follow the three services.
  - A handler that writes to the store is a module-level method that takes the store as a `db: Db` parameter and names it in `modifies`. It says which outcome it returns. On error it leaves the store `unchanged`. On success it states the whole new state. It keeps `Db.Valid()`.
  - A read-only handler is a function over the collection values. It ensures which rows it reports and when it reports "nothing found".
- `scenarios.dfy` (module `Scenarios`) replays two request sequences on a fresh store using only the handlers' contracts:
  - The Pen walkthrough: a refused duplicate listing, a checkout refused for lack of funds, then a paid checkout.
  - A cart with two rows for one product. Each row passes the stock check, but together they oversell the product.

`place_order` is the centre of the model.

- `Buyer.PlaceOrder` runs every check first: a non-empty cart, a known user, enough savings, and stock per cart row (`Buyer.CheckStock`, a loop).
- It then applies the decrements in a second loop (`Buyer.ApplyDecrements`). Afterwards each listing has lost exactly the quantity the buyer's cart asks of it (`Buyer.DeductedBy`).
- It debits the total, appends one order whose items are the cart rows without their ids, and deletes that buyer's cart rows.
- Any refusal leaves the store untouched.

The stock check looks at one cart row at a time, so stock can go below zero. Non-negative inventory is therefore not part of the invariant. `Scenarios.OversellingCheckout` shows a checkout that ends with stock -1. `Buyer.DistinctRowsDoNotOversell` states what the check does guarantee: when no product appears on two cart rows, no listing touched by the cart goes below zero.

Three points where the model keeps to what the source does:
- Inventory can go below zero in the source, so the model does not claim non-negative stock.
- `login_user` gives the same invalid-credentials error for an unknown username and for a wrong password (auth.py:38-40), and so does `Auth.LoginUser`.
- Savings are only ever raised by `add_balance`, so the walkthrough gives Bob his 100 with `add_balance(bob, 100)`.

## Model

| member | source | states |
|---|---|---|
| Seqs.Filter | buyer.py:34 | `find`: every reported row is in the collection and matches, every matching row is reported, and there are no more rows than in the collection |
| Seqs.FilterSubMultiset | buyer.py:34 | `find` reports each document at most as often as it occurs in the collection, so no row is repeated |
| Seqs.FilterAppend | buyer.py:70-76 | finding in a collection with rows inserted at the end gives the old matches, then the new ones |
| Seqs.FilterEmptyIff | buyer.py:35 | `find` reports nothing exactly when no row matches |
| Seqs.FilterFilter | buyer.py:112 | filtering a filtered collection again with a stricter query is filtering once with that query |
| Seqs.FirstIndex | buyer.py:46 | `find_one`: the index found matches and no earlier row does; none is found exactly when no row matches |
| Seqs.RemoveAt | buyer.py:81 | deleting one row keeps the rows before it and shifts those after it down by one |
| Tables.FilterCartIds | buyer.py:112 | deleting cart rows by a query keeps cart ids unique and below the id counter |
| Tables.FilterCartIdsDistinct | buyer.py:112 | deleting cart rows by a query keeps cart ids distinct |
| Store.Db.constructor | buyer.py:13-16 | an empty store is consistent |
| Store.Db.FreshId | buyer.py:70-76 | an insert's `_id` is the counter's value, and only the counter changes |
| Auth.RegisterUser | auth.py:18-31 | a taken username is refused with the store unchanged; otherwise exactly one user is appended with the role lower-cased and no savings, and usernames stay unique |
| Auth.LoginUser | auth.py:33-43 | succeeds exactly when some user matches both username and password, reporting the first match's role ("unknown" if it has none); otherwise an invalid-credentials error; it reads the users only |
| Auth.LoginKnownUser | auth.py:38-43 | with unique usernames, logging in as an existing user succeeds exactly when the password is that user's, with that user's role |
| Auth.LoginUnknownUser | auth.py:38-40 | logging in under a username nobody has fails |
| Auth.RegisterThenLogin | auth.py:26-43 | after registering a fresh username, logging in with the same credentials reports the lower-cased role |
| Auth.RegisteredNameIsTaken | auth.py:23-30 | after a registration the username is found, so a second registration is refused |
| Buyer.ViewProducts | buyer.py:22-30 | one row per listing, in order, with its id, name, price and stock; "no products" exactly when the inventory is empty |
| Buyer.ViewCart | buyer.py:32-42 | row k is the id, name, quantity and price of the buyer's k-th cart row in collection order (`CartOf`), with one row per cart row; "cart is empty" exactly when no cart row has that buyer |
| Buyer.CheckBalance | buyer.py:44-49 | the first user with that name's savings, 0 when there are none; an error exactly when no user has that name |
| Buyer.CreditKeepsNames | buyer.py:55 | the `$inc` on savings changes no username, so every lookup by name finds the same user |
| Buyer.CheckBalanceAfterCredit | buyer.py:55-59 | after a top-up, that user's balance rose by the amount and every other user's balance is the same |
| Buyer.AddBalance | buyer.py:51-59 | amount ≤ 0 or unknown user: error, store unchanged; otherwise that user's savings rise by exactly the amount (missing savings count as 0), the new balance is returned, and nothing else changes |
| Buyer.CartAfterAppend | buyer.py:70-76 | after a cart insert, the inserting buyer's cart is the old one plus the new row, and other buyers' carts are the same |
| Buyer.AddToCart | buyer.py:61-77 | quantity ≤ 0, unknown product or quantity above stock: error, store unchanged; otherwise exactly one cart row is appended with the product's current name and price, never merged, and inventory is untouched |
| Buyer.RemoveCartIds | buyer.py:81 | deleting one cart row keeps cart ids unique and below the id counter |
| Buyer.RemoveFromCart | buyer.py:79-84 | deletes the first cart row of that buyer for that product id and nothing else; an error with the store unchanged when there is none |
| Buyer.DemandAppend | buyer.py:103-104 | the quantity a cart asks of a product is additive over cart rows |
| Buyer.DecrementStep | buyer.py:103-104 | one `$inc` by id takes a state deducted by a prefix of the cart to one deducted by the prefix plus that row |
| Buyer.DemandOfAbsentProduct | buyer.py:103-104 | a product no cart row names loses nothing |
| Buyer.DistinctRowsDoNotOversell | buyer.py:98-104 | with at most one cart row per product, the stock check keeps every listing the cart touches at or above zero |
| Buyer.CheckoutClearsOnlyThatCart | buyer.py:112 | after deleting a buyer's cart rows that buyer's cart is empty and every other buyer's cart is the same |
| Buyer.OrdersAfterAppend | buyer.py:106-117 | after an order insert, the buyer's orders are the old ones plus the new one, and other buyers' orders are the same |
| Buyer.DeductedKeepsListings | buyer.py:103-104 | the decrements change quantities only, so (seller, product) pairs stay unique, images stay web URLs and ids stay fresh |
| Buyer.CheckStock | buyer.py:98-101 | the loop accepts exactly when every cart row's product exists with at least that row's quantity in stock |
| Buyer.ApplyDecrements | buyer.py:103-104 | after the loop each listing's quantity is lowered by exactly the sum of the cart's quantities for it, and nothing else changes |
| Buyer.DebitKeepsUsers | buyer.py:95-105 | debiting savings that cover the total keeps usernames unique and savings non-negative |
| Buyer.AppendOrderIds | buyer.py:106-111 | an order inserted with a fresh id keeps order ids unique and below the id counter |
| Buyer.CheckoutKeepsConsistent | buyer.py:103-112 | from a consistent store, a checkout whose savings cover the total (`CheckedOut`: stock deducted, total debited, one order appended with a fresh id, the buyer's cart rows deleted) gives a consistent store |
| Buyer.CommittedState | buyer.py:103-112 | the state built from the four writes of a checkout is the checked-out state, and it is consistent |
| Buyer.Commit | buyer.py:103-112 | the four writes of a checkout take the store to the `CheckedOut` state for that buyer and user row |
| Buyer.PlaceOrder | buyer.py:86-113 | the answer is `CheckoutAnswer` of the old store: the first failing check in the handler's order (empty cart, unknown user, savings below the total, a row without enough stock), or else the total, the sum of price times quantity over the cart; any error leaves the store unchanged; success leads to `CheckedOut`: each listing loses what the cart asks of it, the buyer's savings drop by the total, one "placed" order of the cart rows (without ids) is appended, and only that buyer's cart is emptied |
| Buyer.ViewOrders | buyer.py:115-123 | row k is the id, items, total and status of the buyer's k-th order in collection order (`OrdersOf`), with one row per order; "no orders" exactly when no order has that buyer |
| Seller.AddListingKeepsConsistent | seller.py:27-37 | inserting a listing whose (seller, product) pair is free keeps pairs unique, and afterwards the pair is taken |
| Seller.AddItem | seller.py:20-38 | refuses, in this order, a URL not starting with "http", a price or quantity ≤ 0, and a taken (seller, product) pair, with the store unchanged; otherwise exactly one listing carrying the given fields is appended |
| Seller.UpdateItem | seller.py:40-52 | a negative price or quantity (zero allowed) or no matching listing: error, store unchanged; otherwise only the first matching listing's price and quantity change |
| Seller.ViewSellerProducts | seller.py:54-63 | row k is the id, name, price, stock and image of the seller's k-th listing in collection order, with one row per listing; "no products" exactly when that seller lists nothing |
| Seller.RemoveListingKeepsConsistent | seller.py:67 | deleting a listing keeps the inventory consistent |
| Seller.RemoveItem | seller.py:65-70 | deletes the first listing with that (seller, product) pair and leaves all others; an error with the store unchanged when none matches |
| Seller.GetProductImageUrl | seller.py:72-77 | when the first listing with that name has an image URL, even an empty one, the result is `![product](url)` built from it; otherwise an image-not-found error, in particular when no listing has that name |
| Seller.GetProductInfoWithImage | seller.py:79-103 | for the first listing with that name, its price and stock, with the image markdown exactly when its URL is present and non-empty; an unknown-product error exactly when no listing has that name |
| Seller.ImageLookupsAgree | seller.py:74-91 | when the info carries an image it is the markdown the image lookup returns, and the converse holds for a non-empty URL |
| Seller.ImagesInConsistentInventory | seller.py:72-77 | in a consistent inventory the image lookup fails exactly when no listing has that name, and the info always carries the image |
| Scenarios.PenWalkthrough | buyer.py:86-113 | re-adding Pen is refused; checkout with no savings is refused with stock left at 5; after a top-up of 100 checkout pays 20, leaves 3 in stock and 80 in savings, records one placed order of 20 and empties the cart; login reports the lower-cased role |
| Scenarios.OversellingCheckout | buyer.py:98-104 | two cart rows of one pen each against a stock of one both pass the stock check; checkout pays 20 and leaves the stock at -1 |

## Left out

- Framework and startup code: the FastAPI app, the MCP mount, the route decorators, the root endpoints and the `uvicorn` blocks. They are HTTP plumbing.
- `utils/db_utils.py` and `utils/helpers.py` are not part of this model. The connection is I/O, and the handlers do not use the helpers. The store is the in-memory `Store.Db`.
- `ObjectId(...)` parsing: ids are natural numbers that are present or absent. A malformed id string raises inside a foreign library, and that is not modelled.
- Concurrency: the model is sequential. No other request interleaves with a handler. This is why a refused `place_order` leaves the store untouched, and why its four writes happen together.
- Money is a mathematical integer. `add_balance`'s float amount and IEEE rounding are not modelled.
- Message text is not modelled: outcomes are error variants and result values. The only text kept is the image markdown `![product](url)`. For `get_product_info_with_image` the model keeps which branch is taken, with price and stock, but not the wording.
- Auth.Lower: lower-cases ASCII letters only, because Python's Unicode case mapping is not modelled.
- Seller.ViewSellerProducts: a listing without an `image_url` field makes the source raise a `KeyError`. The model reports the field as absent instead. In a consistent store every listing has one.
- Seller.GetProductInfoWithImage: the "N/A" price and 0 stock fallbacks for documents without those fields are not modelled, because `Item` always has them.
- Passwords are stored and compared in plain text, as in the source. Hashing is not part of the behaviour.
- Non-negative inventory is not claimed. The stock check works per cart row (see `Scenarios.OversellingCheckout`).
