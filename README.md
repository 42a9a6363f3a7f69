# Shop core of a Django e-commerce site, modelled in Dafny

The site sells products grouped into categories and offered by sellers. A signed-in user adds
products to a single cart and checks out to one delivery address, paying cash on delivery or
online through a payment gateway. The gateway's callback then marks the order paid. The user's
profile and cart are created when the user is. Admins see products filtered by price bucket or
by category. Server-rendered forms validate the contact and sign-up fields.

The model has six modules:

- `Wrappers`: Option and Result.
- `Records`: the record shapes of the tables, and the order status and payment-mode domains
  with their labels. It also holds the slug rule `SlugOnSave` that `Category.save`,
  `Seller.save` and `Product.save` apply.
- `Forms`: the `clean_*` validators of the contact and sign-up forms, as total functions to a
  Result.
- `AdminFilters`: the price-range and category list filters, as functions over a sequence of
  products.
- `Totals`: a sum over a set of line ids (`Sum`) and the checkout's two loops. `GrandTotal`
  adds price × quantity. `CopyLines` builds the order items. It also holds the ghost
  one-to-one correspondence `SnapshotOf` between the new order items and the cart lines they
  copy, with lemmas about it.
- `Shop`: the class `Store`. Its fields are the database tables, as maps from primary key to
  record, plus `nextId`, the next autoincrement key. Its methods are the JSON API's views, the
  user-provisioning signal handlers, and the `save` overrides of Category, Seller and Product
  that fill in the slug.

`Store.Valid()` is the invariant every method keeps:

- every key of the tables the flows insert into (users, profiles, carts, cart lines, addresses,
  orders, order items) is below `nextId`; categories, sellers and products get their keys from
  the caller of `save`;
- each profile and cart belongs to a stored user, with at most one of each per user;
- each cart line refers to a stored cart and product, with at most one line per (cart, product);
- every order is balanced: amount paid + amount due = total.

The model keeps three quirks of the code:

- A merged cart line keeps its old cached total (`Totals.MergedLineInconsistent`).
- Order items copy the cached line totals, while the order total is recomputed at today's
  prices. So the two agree only when every line is consistent (`Totals.SnapshotTotal`,
  `Totals.ConsistentLinesTotal`).
- The contact form demands 50 characters while its message says 10
  (`Forms.MessageErrorUnderstatesMinimum`).

The admin price buckets overlap on [50, 500) and leave (1000, 1500] uncovered
(`AdminFilters.LowMidOverlap`, `AdminFilters.MidHighGap`).

Money is `real`; the prices, thresholds and totals are exact. Keys are `int`. Strings are
sequences of characters.

Environment inputs are parameters of the model:

- The request's authenticated user is a parameter of the methods whose view uses it. Two
  views never scope their lookup to the requester: verify-payment finds the order by its gateway
  id alone (app_api/views.py:405), and address deletion finds the address by its id alone
  (app_api/views.py:465). So `VerifyPayment` and `DeleteAddress` take no user: any signed-in
  user can verify any order, or delete any user's address together with the orders placed with
  it.
- `django.utils.text.slugify` is the uninterpreted function `Store.slugify`.
- The gateway's signature check is the uninterpreted predicate `Store.signatureValid`.
- Django's username normalisation (Unicode NFKC) and e-mail normalisation (lower-casing the
  domain) are the uninterpreted functions `Store.normalizeUsername` and `Store.normalizeEmail`.
- The order id from the gateway's order-creation call is the input `gatewayOrder` of
  `Checkout`. `None` means the call raised.

The code's own behaviour is followed on two points:

- Verify-payment writes nothing unless the signature is accepted. The payment id and signature
  are assigned to the in-memory order before the check (app_api/views.py:406-407), but they
  reach the table only through the `save` on the success path (app_api/views.py:421).
- A checkout whose gateway call raises has already written the order and its items and emptied
  the cart (app_api/views.py:330-350 run before 356). `Checkout` returns `GatewayFailure` with
  exactly that state.

## Model

| member | source | states |
|---|---|---|
| Records.ParseStatus | app/models.py:125-129 | a label parses to a status exactly when it is that status's label; no other string names a status |
| Records.StatusRoundTrip | app/models.py:125-129 | each of Pending, Delivered and Cancelled parses back from its label |
| Records.ParsePaymentMode | app/models.py:130-133 | only "Cash on Delivery" and "Online Payment" name a payment mode, each its own |
| Records.PaymentModeRoundTrip | app/models.py:130-133 | each payment mode parses back from its label |
| Records.EmptySlugFilled | app/models.py:27-30 | saving with an empty slug sets it to slugify(name) |
| Records.SetSlugKept | app/models.py:45-48 | a non-empty slug is never changed by a save |
| Records.SlugSaveIdempotent | app/models.py:66-69 | saving twice gives the slug that saving once gives |
| Forms.EndsWithSplit | app/forms.py:29 | `endswith(suffix)` holds exactly when the string is some prefix followed by the suffix |
| Forms.CleanName | app/forms.py:21-25 | a name is accepted exactly when it has at least 3 characters, returned unchanged, else the length error |
| Forms.CleanContactEmail | app/forms.py:27-31 | an e-mail is accepted exactly when it is some local part followed by "@gmail.com" |
| Forms.CleanMessage | app/forms.py:33-37 | a message is accepted exactly when it has at least 50 characters |
| Forms.MessageErrorUnderstatesMinimum | app/forms.py:35-36 | a message of 10 to 49 characters, which the error text says is long enough, is still rejected |
| Forms.CleanSignUpEmail | app/forms.py:80-84 | the sign-up e-mail is rejected exactly when some existing user has it |
| Forms.CleanUsername | app/forms.py:86-90 | the username is rejected exactly when some existing user has it |
| Forms.CleanPassword2 | app/forms.py:92-97 | an error exactly when both passwords are non-empty and differ; otherwise password2 unchanged |
| AdminFilters.Select | app/admin.py:64-70 | a filter keeps exactly the rows satisfying its condition, each as often as in the input, as an order-preserving subsequence |
| AdminFilters.PriceRangeQueryset | app/admin.py:64-70 | "low" keeps price < 500, "mid" keeps 50 ≤ price ≤ 1000, "high" keeps price > 1500, each a subsequence of the input; any other value gives None |
| AdminFilters.PriceLookupsHandled | app/admin.py:57-62 | every offered bucket value is one the queryset handles |
| AdminFilters.LowMidOverlap | app/admin.py:59-68 | a product priced in [50, 500) is listed under both "low" and "mid" |
| AdminFilters.MidHighGap | app/admin.py:59-70 | a product priced in (1000, 1500] is listed under no bucket |
| AdminFilters.CategoryLookups | app/admin.py:77-81 | one (id, name) pair per category, in the categories' order |
| AdminFilters.CategoryQueryset | app/admin.py:83-87 | with a value, exactly the products of that category in input order; with none, the input unchanged |
| AdminFilters.SubsequenceRefl | app/admin.py:87 | the unfiltered queryset is a subsequence of itself |
| Totals.SumRemove | app_api/views.py:320-326 | the sum over a set is any one element's amount plus the sum over the rest |
| Totals.SumAdd | app_api/views.py:320-326 | adding a line to the summed set adds its amount |
| Totals.SumAgree | app_api/views.py:320-326 | sums over the same set agree when the amounts agree on it |
| Totals.LineAmounts | app_api/views.py:322-326 | every line whose product is known has an amount price × quantity |
| Totals.LinesPriced | app_api/views.py:322-326 | every line of a cart whose products exist has an amount |
| Totals.GrandTotal | app_api/views.py:320-326 | the loop's running total ends as the sum of price × quantity over all the cart's lines |
| Totals.CopyLines | app_api/views.py:341-348 | one order item per cart line under consecutive fresh keys, in one-to-one correspondence with the lines |
| Totals.SnapshotGrow | app_api/views.py:341-348 | copying one more line under a fresh key keeps the correspondence |
| Totals.SnapshotShrink | app_api/views.py:341-348 | dropping one order item and its line keeps the correspondence |
| Totals.SnapshotWiden | app_api/views.py:341-348 | the correspondence holds in the whole order-item table once the new items are inserted |
| Totals.SnapshotCount | app_api/views.py:341-348 | a checkout writes exactly as many order items as the cart had lines |
| Totals.SnapshotTotal | app_api/views.py:341-348 | the new order items add up to the totals cached on the cart's lines |
| Totals.ConsistentLinesTotal | app_api/views.py:326 | when every line caches price × quantity, the cached totals equal the order total |
| Totals.MergedLineInconsistent | app_api/views.py:163-166 | after a merge, a consistent line with a non-zero price no longer caches price × quantity |
| Shop.PlacedOrderBalanced | app_api/views.py:330-339 | a new order is Pending and its paid and due amounts add up to its total |
| Shop.PaidOrderSettles | app_api/views.py:418-421 | a verified order has nothing due, the same total, status and gateway id, and stays balanced |
| Shop.PaidOrderIdempotent | app_api/views.py:418-421 | verifying the same payment again changes nothing further |
| Shop.Store.constructor | app/models.py:76-158 | starts with all tables empty, satisfying the invariant |
| Shop.Store.FindCart | app_api/views.py:158-161 | the user's single cart when there is one, and None exactly when there is none |
| Shop.Store.CreateUser | app/signals.py:8-14 | an empty username, or one whose normalised form is taken, changes nothing; otherwise the user is stored with normalised username and e-mail and gets exactly one Profile (no date of birth, default image) and one Cart under fresh keys, and nothing else changes |
| Shop.Store.SignUpCleanersAgainstStore | app/forms.py:80-90 | the sign-up form's username and e-mail cleaners, run against the stored users, refuse a value exactly when some stored user has it |
| Shop.Store.SaveUser | app/signals.py:24-27 | a non-creating save writes only the user row, adds no Profile or Cart, and fails after that write when the user has no profile |
| Shop.Store.SaveCategory | app/models.py:27-31 | writes the category with the slug rule applied; a name or slug clash writes nothing |
| Shop.Store.SaveSeller | app/models.py:45-49 | writes the seller with the slug rule applied; a missing user or a user, name or slug clash writes nothing |
| Shop.Store.SaveProduct | app/models.py:66-70 | writes the product with the slug rule applied; a missing reference or a name or slug clash writes nothing |
| Shop.Store.GetOrCreateCart | app_api/views.py:158-161 | returns the user's cart, creating it under a fresh key when missing; leaves the user with exactly one cart |
| Shop.Store.AddLine | app_api/views.py:163-170 | a line for the product gets the quantity added with its cached total kept; otherwise exactly one new line caches price × quantity |
| Shop.Store.AddToCart | app_api/views.py:138-172 | rejects an unknown product or quantity < 1 and changes nothing; otherwise the user has one cart with one line for the product, and only carts and cart lines change |
| Shop.Store.RemoveFromCart | app_api/views.py:184-201 | deletes exactly the named line when it is in the requester's cart; an unknown item, a missing cart or another user's item changes nothing |
| Shop.Store.ViewCart | app_api/views.py:228-234 | exactly the lines of the user's cart, or "Cart not found" exactly when there is no cart |
| Shop.Store.Checkout | app_api/views.py:282-382 | rejects an unknown address, a bad payment mode, a missing or an empty cart and changes nothing; otherwise one Pending order at the priced cart total, one item per line, the cart emptied, and the gateway id stored for online payment |
| Shop.Store.PlaceOrder | app_api/views.py:320-350 | writes the order at the sum of price × quantity, the order items in correspondence with the lines, and deletes exactly the cart's lines |
| Shop.Store.InsertOrder | app_api/views.py:330-339 | the order under a fresh key, nothing else changed |
| Shop.Store.InsertOrderItems | app_api/views.py:341-348 | the new items under fresh keys, the existing ones untouched |
| Shop.Store.DeleteLines | app_api/views.py:350 | exactly the given lines are removed |
| Shop.Store.VerifyPayment | app_api/views.py:391-426 | a blank order id, payment id or signature, no order, several orders or a rejected signature changes nothing; otherwise exactly the one order becomes fully paid online with the payment id and signature |
| Shop.Store.ListOrders | app_api/views.py:259-262 | exactly the user's orders, with exactly their order items |
| Shop.Store.ListAddresses | app_api/views.py:450-453 | exactly the user's addresses |
| Shop.Store.AddAddress | app_api/views.py:433-459 | stores the address for the requester under a fresh key with an empty country exactly when every field is 1 to 255 characters |
| Shop.Store.DeleteAddress | app_api/views.py:462-467 | removes the address with its orders and their items, or reports a missing id and changes nothing |

## Left out

- The payment gateway client (order creation and signature verification) is a foreign library.
  Its signature check is an uninterpreted predicate. The order id it returns is an input.
- Floating-point prices and totals, and `int(order.total * 100)` conversion to paise: money is
  exact `real`, so the model has no rounding, and summing in a different order gives the same total.
- HTTP status codes, response bodies and the catch-all `except Exception` that turns any raise
  into a 500 response (app_api/views.py:381-382). Failures are `Error` values instead.
- Checkout: the `if not address` / `if not cart` branches (app_api/views.py:307-313) cannot be
  reached, because `.get` raises first. `Checkout` models the raise as `CartNotFound`.
- Several carts for one user cannot arise by the flows modelled. The invariant excludes them,
  so the `MultipleObjectsReturned` raise of `Cart.objects.get` is not modelled.
- Transactions and concurrency: each method is one atomic step, so two simultaneous checkouts of
  one cart are not modelled.
- Integer width: quantities are unbounded `int`. The database's quantity columns are 32-bit
  IntegerFields (app/models.py:88, 157), so a merge `cart_item.quantity += q`
  (app_api/views.py:165) that overflows one fails at the database, and the model does not
  capture that failure.
- Shop.Store.VerifyPayment: a whitespace-only order id, payment id or signature is trimmed to
  blank and refused by the serializer; the model refuses only the empty string.
- DRF serializer behaviour beyond the checks modelled: JSON shapes, whitespace trimming of
  `CharField` input and type coercion of integer fields.
- Shop.Store.AddAddress: models the address serializer's demands only as "each field 1 to 255
  characters".
- The category filter's value arrives as a string and is compared as an id. The model takes it
  already parsed (`Option<Id>`, `None` for no selection).
- Pagination (app_api/views.py:59-62), ProfileView, CategoryView, ProductsView,
  CategoryProductsView, ProductView and RegisterView are read-only or framework glue.
  `OrdersView.post` is left out: it is a generic model-serializer save. User creation itself is
  `Store.CreateUser`.
- CSRF token issuance, login, logout and the password rules of Django's `UserCreationForm`
  belong to the framework.
- `slugify` itself is a library function, kept abstract.
- Shop.Store.SaveCategory, Shop.Store.SaveSeller, Shop.Store.SaveProduct: the primary key is
  supplied by the caller, and max-length checks on names and slugs are not modelled.
- Enquiry, its form and admin, the admin display configuration (fieldsets, list_display,
  inlines, search) and the user admin's search override are presentation only.
- app/views.py is not part of this model: it only renders templates and redirects.
- The URL routing tables, the migrations and the random seed-data command are not part of this
  model.
- Dates and timestamps (`auto_now_add`) would need a clock, so they are not modelled.
- String lengths count code points. Python's `len` on `str` does the same, but the database's
  column limits may count differently.
