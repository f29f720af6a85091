# Shop backend: cart, order, payment and account bookkeeping

This project models the server side of a small online shop's HTTP API
(`backend/server.py`). The server keeps a product catalogue, one cart per
user, orders, payment records of an online payment gateway, users and login
sessions in a document database. The model is one in-memory `Store` class
(`store.dfy`) holding those collections as `map`/`seq` fields. Each endpoint
of the cart, order, payment and account groups that writes to the database,
and get_cart, is a method of the class, taken as one atomic step; get_order
only reads and is the pure function `Orders.GetOrder`. The rules the
endpoints apply are pure functions in their own modules:

- `catalog.dfy`: products, and the listing's sort field and direction.
- `cart.dfy`: the cart lines and what adding, updating, removing and clearing
  do to them, the cart view and its total.
- `orders.dfy`: order lines, the shipping rule (free strictly above 5000,
  otherwise 99), order lookup and confirmation.
- `payments.dfy`: payment records, the message the gateway signs, and
  marking a payment paid.
- `accounts.dfy`: users, sessions, and how a bearer token resolves to a user.
- `common.dfy`: `Option`, `Result`, the API's error responses (status and
  detail), and a first-match search.

Database semantics are modelled as follows:
- A single-document update or lookup acts on the first matching document or
  array element.
- A pull removes every matching element.
- A user without a cart document is a user id that is not a key of `carts`.

Endpoints receive the id of the authenticated user. `Accounts.Authenticate`
models how a bearer token resolves to that user, and `Logout` applies it.
Random ids and tokens are drawn from a counter `nextId` that only grows, so
every new id and token is fresh. The keyed HMAC and the password hash are
uninterpreted function fields of the store. The payment gateway's
order-creation call is a parameter: the gateway order id, or None when the
call failed.

The store's invariant `Valid()` is kept by every endpoint:
- Each cart has at most one line per product.
- Order ids are distinct and fresh.
- Every stored order is well formed: its subtotal is the sum over its lines,
  its fee follows the shipping rule, and its total is subtotal plus fee.
- No two users share an email.
- Session tokens are distinct and fresh.

`Server.CheckoutBelowThreshold` is a worked scenario on a fresh store: a user
adds one product priced 4000 and checks out with cash on delivery; the
assertions in its body state that the order carries the cart's total, pays 99
for shipping, and that the cart is empty afterwards.

## Model

| member | source | states |
|---|---|---|
| Catalog.SortField | backend/server.py:267 | the sort field is always one of price, rating, created_at, name; a whitelisted request is used as is, anything else (or none) gives created_at |
| Catalog.SortDirection | backend/server.py:268 | the direction is 1 or -1, and -1 exactly for rating and created_at |
| Catalog.ListingOrder | backend/server.py:267-268 | no field, or a field outside the whitelist, sorts by created_at newest first; price and name sort ascending |
| Cart.IndexOf | backend/server.py:324-330 | the line the lookup and the positional update address is the first line of the product; it is the end of the cart exactly when the product has no line |
| Cart.IndexOfFirstMatch | backend/server.py:324 | a position with no earlier line of the product and the product's line (or the end) at it is that first line |
| Cart.IndexOfUnique | backend/server.py:324-330 | in a cart without duplicate products, the line found for a product is that product's only line |
| Cart.AddLine | backend/server.py:322-337 | afterwards the product has a line; an existing line keeps the line count and gets old plus added quantity; otherwise the item is appended last; every other line is unchanged; one line per product is preserved |
| Cart.AddLineQuantity | backend/server.py:322-337 | adding raises the quantity held of the added product by the added amount and leaves every other product's quantity unchanged |
| Cart.QuantityOfAppend | backend/server.py:334-337 | appending a line adds its quantity to its product's total and nothing to others |
| Cart.QuantityOfUpdate | backend/server.py:328-331 | replacing one line changes the held quantities only by the difference between the old and new line |
| Cart.QuantityOfAbsent | backend/server.py:324 | a product without a line is held in quantity zero |
| Cart.QuantityOfLine | backend/server.py:324-330 | with one line per product, the quantity held of a product is the quantity on its line |
| Cart.WithoutProduct | backend/server.py:358-364 | after the pull no line of the product remains, no product is introduced, the cart can only shrink, a cart without the product is unchanged, one line per product is preserved |
| Cart.WithoutProductDropsLine | backend/server.py:358-364 | with one line per product, removing a product that has a line removes exactly that line and keeps the others in order |
| Cart.WithoutProductKeepsHead | backend/server.py:360-363 | a first line of another product stays first after the pull |
| Cart.WithoutProductQuantity | backend/server.py:358-364 | after removal the product is held in quantity zero and every other product in its old quantity |
| Cart.SetQuantity | backend/server.py:350-354 | the positional set overwrites the product's first line with the new quantity, leaves every other line and the line count unchanged, and leaves a cart without the product unchanged |
| Cart.UpdateLine | backend/server.py:343-354 | a quantity of zero or less pulls the product (`WithoutProduct`), leaving no line of it and every other line in order; a positive one overwrites only the product's line, keeping the line count; with no line of the product the cart is unchanged; one line per product is preserved |
| Cart.UpdateLineQuantity | backend/server.py:343-354 | with one line per product, after an update the product is held in the requested quantity when it is positive and the product had a line, in zero otherwise, and every other product in its old quantity |
| Cart.Cleared | backend/server.py:366-372 | clearing keeps the set of users with a cart, leaves that user's cart empty and every other cart as it was |
| Cart.ClearedIdempotent | backend/server.py:366-372 | clearing twice gives the same carts as clearing once |
| Cart.StoreCart | backend/server.py:320-337 | storing a cart with one line per product keeps that property for every cart |
| Cart.CartEntriesListed | backend/server.py:297-305 | the cart view has at most one entry per line, every entry carries the catalogue's current product, and with every product listed it has one entry per line |
| Cart.CartEntriesAppend | backend/server.py:297-305 | the cart view keeps cart order: the view of two runs of lines is the first run's view followed by the second's |
| Cart.CartEntriesAllListed | backend/server.py:297-305 | with every product listed, the k-th entry is the k-th line joined with its product |
| Cart.SubtotalAppend | backend/server.py:305 | the total of two runs of lines is the sum of their totals |
| Cart.SubtotalUpdate | backend/server.py:328-331 | changing one line changes the total by the difference of the two lines' amounts |
| Cart.MergedAmount | backend/server.py:330 | merging a quantity into a line of the same product adds the two amounts |
| Cart.SubtotalAfterAdd | backend/server.py:322-337 | adding an item raises the cart total by the item's price times quantity (nothing for an unlisted product), whether it was merged or appended |
| Cart.SubtotalAfterRemove | backend/server.py:358-364 | with one line per product, removing a product lowers the total by its line's amount, or by nothing when it has no line |
| Orders.ShippingFee | backend/server.py:399 | the fee is 0 exactly when the subtotal is strictly above 5000, and 99 otherwise |
| Orders.ShippingExamples | backend/server.py:399-409 | a subtotal of 4000 pays 99 for a total of 4099; 5000 still pays 99; 5001 and 6000 ship free |
| Orders.OrderItemsMatchCartView | backend/server.py:387-396 | the order lines correspond position by position to the cart view's entries, with the product's name and price copied |
| Orders.ItemsTotalAppend | backend/server.py:396 | the sum over two runs of order lines is the sum of their sums |
| Orders.SubtotalIsItemsTotal | backend/server.py:385-396 | the subtotal accumulated over the cart lines equals the sum of price times quantity over the order lines built from them |
| Orders.OrdersWellKeptRaise | backend/server.py:120-131 | handing out further ids keeps the order bookkeeping |
| Orders.AppendFreshOrder | backend/server.py:402-412 | inserting a well-formed order with a fresh id keeps ids distinct and every order well formed |
| Orders.FindOrder | backend/server.py:429 | the lookup finds the first order with that id and owner, or none when there is none |
| Orders.GetOrder | backend/server.py:427-432 | the caller's order with that id is returned exactly when one exists; otherwise 404 "Order not found" |
| Orders.ConfirmOrder | backend/server.py:514-523 | only an order with that id and owner can change; no order's id, owner, lines or amounts change; with no such order nothing changes |
| Orders.ConfirmOrderEffect | backend/server.py:514-523 | with distinct ids, the order with that id and owner becomes confirmed, paid by the gateway with the payment id, whatever its previous status; every other order stays as it was |
| Orders.ConfirmOrderKeepsBookkeeping | backend/server.py:514-523 | confirming keeps ids distinct and every order well formed |
| Payments.SignedMessageUnambiguous | backend/server.py:492 | when order ids contain no bar, the signed message determines the order id and the payment id |
| Payments.SignedMessageAmbiguous | backend/server.py:492 | without that restriction two different id pairs share a message, and so a signature |
| Payments.FindPayment | backend/server.py:504-505 | the update addresses the first payment record of that gateway order |
| Payments.MarkPaid | backend/server.py:503-512 | only that gateway order's first record changes, and it becomes paid with the payment id and signature; no record's id, owner, gateway order, amount or currency changes; the record's owner is not compared with the caller |
| Accounts.TokensBelowRaise | backend/server.py:152 | handing out further tokens keeps every stored token older than the next one |
| Accounts.NewSessionKeepsTokensDistinct | backend/server.py:188-193 | a session with a fresh token keeps tokens distinct |
| Accounts.FindByEmail | backend/server.py:176 | the lookup finds the first user with that email, and finds one exactly when the email is registered |
| Accounts.FindByEmailUnique | backend/server.py:202 | with distinct emails, the user found by email is the only user with it |
| Accounts.FindById | backend/server.py:162 | the lookup finds the first user with that id, or none when there is none |
| Accounts.FindSession | backend/server.py:159 | the lookup finds the first session with that token, and finds one exactly when a session has it |
| Accounts.Authenticate | backend/server.py:155-169 | a user results exactly when a token was sent, a session has it and that session's user exists; the user is a stored user and a session pairs the token with them |
| Accounts.RegisterKeepsEmailsDistinct | backend/server.py:175-186 | registering an email no user has keeps emails distinct |
| Accounts.WithoutSession | backend/server.py:221 | logout deletes exactly the first session with the token, keeping the others in order, when there is one, and nothing otherwise; with distinct tokens no session with the token remains |
| Accounts.DropSession | backend/server.py:221 | dropping the session at one position keeps the others in order and removes exactly that session from the multiset of sessions |
| Accounts.LogoutKeepsTokensBelow | backend/server.py:221 | logout hands out no token |
| Accounts.LogoutRevokes | backend/server.py:219-222 | after logout the token no longer authenticates anyone |
| Server.FindLine | backend/server.py:324 | the search loop stops at the first line of the product, or at the end when there is none |
| Server.ViewCart | backend/server.py:293-307 | the loop lists the cart view's entries and totals price times quantity over the listed lines |
| Server.PriceOrderLines | backend/server.py:383-396 | the loop builds the order lines and the subtotal over the lines whose product is listed, and the subtotal is the sum over the order lines |
| Server.Store.constructor | backend/server.py:21-29 | a fresh store has the given catalogue and keys, no carts, orders, payments, users or sessions, and satisfies the invariant |
| Server.Store.GetCart | backend/server.py:287-307 | a user without a cart sees no entries and a total of 0; otherwise the cart view and the cart total |
| Server.Store.AddToCart | backend/server.py:309-339 | fails with 404 "Product not found", changing no cart, exactly when the product is not listed; otherwise a user without a cart gets one holding the item and an existing cart becomes `AddLine` of it; no other cart changes; the invariant is kept |
| Server.Store.UpdateCartItem | backend/server.py:341-356 | an existing cart becomes `UpdateLine` of it, a user without a cart still has none, no other cart changes; the invariant is kept |
| Server.Store.RemoveFromCart | backend/server.py:358-364 | an existing cart loses every line of the product, a user without a cart still has none, no other cart changes; the invariant is kept |
| Server.Store.ClearCart | backend/server.py:366-372 | the carts become `Cleared` of them; the invariant is kept |
| Server.Store.CreateOrder | backend/server.py:376-420 | fails with 400 "Cart is empty", changing nothing, exactly when the cart is missing or empty; otherwise exactly one pending order is added with a fresh id, the caller as owner, the address and payment method as sent, the order lines, the cart's subtotal, the shipping fee and subtotal plus fee, and the caller's cart becomes empty; the invariant is kept |
| Server.Store.CreatePaymentIntent | backend/server.py:451-484 | fails with 500, storing nothing, exactly when the gateway call failed; otherwise one payment record in state created with a fresh id is added and the gateway order id, amount, currency INR and key id are returned |
| Server.Store.VerifyPayment | backend/server.py:486-523 | succeeds exactly when the signature equals the HMAC of "gateway order id\|payment id"; otherwise 400 "Invalid payment signature" and no payment or order changes; on success the payments become `MarkPaid` and the orders `ConfirmOrder` of them; the invariant is kept |
| Server.Store.Register | backend/server.py:173-198 | fails with 400 "Email already registered", changing nothing, exactly when the email is taken; otherwise one user with a fresh id and the password's hash and one session with a fresh token for them are added, and both are returned; emails stay distinct |
| Server.Store.Login | backend/server.py:200-217 | succeeds exactly when a user has that email and password hash; otherwise 401 "Invalid credentials" and nothing changes; on success one session with a fresh token is added for the user with that email and the user and token are returned |
| Server.Store.Logout | backend/server.py:219-222 | fails with 401 "Authentication required" exactly when the token does not authenticate; otherwise the token's session is deleted; the invariant is kept |

## Left out

- The web framework, database driver, routing, dependency injection, CORS, environment loading, logging and the shutdown hook: the store is plain in-memory state and each endpoint one method call.
- Concurrency: a handler's several database calls are one atomic step here, and concurrent requests are not modelled. A read in add_to_cart followed by another request's write before the update is therefore not captured.
- The payment gateway's order-creation call: a parameter of `CreatePaymentIntent`.
- SHA-256, HMAC-SHA256 and the random token and uuid generators: uninterpreted functions and a counter of fresh ids. Only equality of their results matters to the endpoints.
- Floating-point arithmetic: prices, quantities and amounts are integers. The conversion of the payment amount from rupees to paise is left out, and `CreatePaymentIntent` receives the amount in paise.
- get_products' query building (category filter, regex search, price range), the database's execution of the sort, and the result limit. Only the choice of sort field and direction is modelled.
- get_orders (listing the caller's orders newest first, at most 100), get_featured_products, get_product, get_me, the categories, get_product_reviews, seed, key, health and root endpoints: they only read or seed data and hold none of the bookkeeping modelled here.
- create_review: it stores a review and rewrites the reviewed product's rating and review count. No modelled endpoint reads those two fields, so the catalogue here stays fixed.
- The product inside a cart view entry: get_cart returns the whole product record (description, category, image, stock, rating and the rest), while `CartEntry.product` holds only its name and price.
- The exception text appended to the 500 detail of create_razorpay_order, and verify_payment's generic 500 path for database failures.
- Email normalisation by the request validation, and the type checks on the request bodies' fields (name, phone and the others).
- Timestamps (created_at, updated_at, paid_at) and the cart document's own id.
- Request defaults: a cart request without a quantity acts on quantity 1, and an order request without a payment method uses "cod". `AddToCart`, `UpdateCartItem` and `CreateOrder` take the value as a required argument, so a caller supplies the default itself.
- Server.Store.AddToCart: quantities are unbounded integers. The database stores them as signed 64-bit integers, so any stored quantity outside that range, whether new, appended or merged, makes the driver raise, which gives a 500 with the cart unchanged; the model stores the value instead.
- Server.Store.UpdateCartItem: likewise stores a quantity outside the signed 64-bit range, where the database driver raises and the server answers 500 with the cart unchanged.
- backend_test.py is not part of this model: it drives a live server over HTTP.
