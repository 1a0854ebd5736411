# EShopCart in Dafny

This project models the back end of EShopCart, an ASP.NET Core web shop.
Customers fill a cart, turn it into an order and pay for the order from a
wallet or by card or cash on delivery. Merchants keep a catalogue and see a
summary of the orders that touch their products.

The model covers the six controllers (Cart, Order, Payment, Wallet, Product,
Users) and the product repository with its category lookups. It models
each action's guards, answers and saved changes as contracts, and proves
the properties the code relies on. Nothing here was run against the
application.

- **Data model.** The entities (`Model`) are values: users, products,
  categories, carts with their lines, orders with their lines, and payments.
  Money is a whole number of minor units, because every money column is
  `decimal(18,2)`.
- **The store.** The database is one class, `Data.Store`. It holds one field
  per table, in the state last saved. A controller action is a method over
  the store that assigns a field only where the application saves. When an
  action returns early, its tracked but unsaved changes are therefore lost,
  as in EF Core.
- **Store invariant.** `Store.Valid` says that identities lie below the next
  identity, that wallet balances are never negative, that usernames are
  unique, that every cart belongs to an existing user, that a cart has
  at most one line per product, and that every cart line names an existing
  product. Every state-changing action preserves it.
- **The caller.** The caller is the `UserId` claim of the token
  (`Requests.Claim`): absent, numeric, or not a number. Each action handles
  it the way its own code does: `int.Parse` inside a try block gives 500,
  `int.TryParse` gives 401 or 400, and a missing claim read as 0 gives 401.
- **Request bodies.** The DTO data annotations are checked automatically
  before an action runs, because every controller carries `[ApiController]`.
  They are modelled in `Requests` and checked first. Their length bounds
  count UTF-16 code units, as .NET's `string.Length` does, so a character
  outside the Basic Multilingual Plane counts twice.

Behaviours the model makes explicit and proves:

- Adding to the cart merges into the product's existing line and keeps its
  captured price.
- Removing a line leaves the stored cart total stale.
- The cart total reported by `GetTotalAmount` uses the products' current
  prices, while `GetCartDetails` uses the captured prices. The two agree
  while no price has changed.
- `MakePayment` commits the wallet debit, the payment and the "Paid" status
  before it checks any stock. The stock loop saves each decrement, so a
  shortfall part way through keeps the earlier decrements. The loop gets
  through the whole order exactly when no product is asked for more than
  its stock.
- `CreateOrder` takes the user id from the request body, not from the
  caller's claim. `MakePayment` and `GetPaymentByOrderId` do not compare
  the order's user with the caller either, and a paid order can be paid
  again.
- A product that a cart line or an order line refers to cannot be removed
  by the repository's hard delete; the controller's delete only sets the
  stock to 0.
- The email pattern accepts a trailing line feed, because .NET's `$` also
  matches before a final `\n`.

## Model

| member | source | states |
|---|---|---|
| Data.Store.constructor | EShopCart/Data/AppDbContext.cs:26-37 | a new database holds just the ten seeded categories, has empty tables, and satisfies the store invariant |
| Text.ToLowerFolds | EShopCart/Controllers/UserController.cs:57 | lower-casing leaves no ASCII capital and changes no other character, a second pass changes nothing, and two strings are equal ignoring case exactly when they have the same length and agree position by position up to case |
| Text.Utf16LengthOfBmp | EShopCart/Models/User.cs:17 | the length the annotations count is at least the number of characters and at most twice it, and equals it exactly when every character lies in the Basic Multilingual Plane |
| Requests.SurrogatePairsCountTwice | EShopCart/Controllers/UserController.cs:37 | example: a username of two emoji in the registration body (UserRegisterDto, whose `[StringLength(50, MinimumLength = 3)]` counts code units) is four code units and meets the minimum of three; one emoji does not |
| CartLines.FindLine | EShopCart/Controllers/CartController.cs:77 | gives the index of the first line for the product; None exactly when no line is for it |
| CartLines.Unordered | EShopCart/Controllers/OrderController.cs:45-47 | keeps every line not yet ordered and nothing else; never longer than the input |
| CartLines.LiveTotal | EShopCart/Controllers/CartController.cs:282 | fails (the null dereference) exactly when some line's product no longer exists; the store invariant rules that out, see GetTotalAmount |
| CartLines.CartTotalAppend | EShopCart/Controllers/CartController.cs:89-105 | appending a line adds exactly that line's quantity times price to the cart total |
| CartLines.CartTotalUpdate | EShopCart/Controllers/CartController.cs:244-245 | replacing a line changes the total by the new line total minus the old one |
| CartLines.CartTotalRemove | EShopCart/Controllers/CartController.cs:191 | deleting a line takes exactly its line total off the sum |
| CartLines.AddedLinesMerges | EShopCart/Controllers/CartController.cs:77-86 | adding a product the cart holds keeps the line count, grows only that line's quantity at its captured price, and raises the total by quantity times that price |
| CartLines.LineOfProduct | EShopCart/Controllers/CartController.cs:77 | in a cart with one line per product, the line the lookup finds is that product's only line |
| CartLines.AddedLinesAppends | EShopCart/Controllers/CartController.cs:87-95 | adding a product the cart lacks appends one un-ordered line at the product's current price and raises the total by quantity times price |
| CartLines.AddedLinesInvariant | EShopCart/Controllers/CartController.cs:72-96 | an add keeps one line per product, and when both stock guards pass the product's line holds no more than the stock |
| CartLines.RemoveAtInvariant | EShopCart/Controllers/CartController.cs:185-191 | deleting a line keeps one line per product, shortens the cart by one and leaves no line for that product |
| CartLines.RemoveLeavesTotalStale | EShopCart/Controllers/CartController.cs:179-193 | when the stored total was right and the removed line was worth something, the stored total no longer equals the sum of the lines |
| CartLines.LiveTotalAtCapturedPrices | EShopCart/Controllers/CartController.cs:150-282 | the current-price total and the captured-price total agree while every captured price is still its product's price |
| CartLines.LiveTotalAfterRepricing | EShopCart/Controllers/CartController.cs:150-282 | when one line's product is repriced and no other price changes, the current-price total differs from the captured-price total by exactly that line's quantity times the price change |
| CartLines.LiveTotalDiffersAfterRepricing | EShopCart/Controllers/CartController.cs:150-282 | example: after a price change the two totals of the same cart differ (3000 against 3600) |
| CartLines.MergeOverflowPassesGuards | EShopCart/Controllers/CartController.cs:80-85 | with 32-bit `+=`, a line of 1 plus a request of int.MaxValue with stock int.MaxValue passes both guards and stores int.MinValue |
| CartLines.MergeWithinInt32 | EShopCart/Controllers/CartController.cs:80-85 | with the intended unbounded check, the merged quantity stays within the stock and the 32-bit addition cannot wrap |
| CartController.LoggedInUserId | EShopCart/Controllers/CartController.cs:29-33 | a missing claim reads as user 0, a numeric claim as its value, and an unparsable one fails (500) |
| CartController.WithCart | EShopCart/Controllers/CartController.cs:54-64 | the caller's cart exists afterwards, empty if it was missing; every other cart is untouched |
| CartController.AddToCart | EShopCart/Controllers/CartController.cs:39-125 | the guards in source order: quantity 400, claim 500 or 401, cart foreign key 500, product 404, stock 400. A new cart is saved even when a later guard fails. On success the merged or appended lines are saved with a total equal to their sum, and that total is answered |
| CartController.GetCartDetails | EShopCart/Controllers/CartController.cs:134-161 | answers the stored lines with a total recomputed from captured prices, or NotFound exactly when the caller has no cart; changes nothing |
| CartController.RemoveFromCart | EShopCart/Controllers/CartController.cs:169-200 | deletes the product's line and keeps the stored total. NotFound when the cart or the line is missing. The store invariant is kept |
| CartController.UpdateQuantity | EShopCart/Controllers/CartController.cs:208-258 | overwrites the line's quantity (not cumulative) after the cart, line, product and stock guards; the saved total is the sum of the saved lines |
| CartController.GetTotalAmount | EShopCart/Controllers/CartController.cs:266-290 | NotFound exactly when the cart is missing or empty; otherwise the total at current product prices. The 500 for a line whose product is gone cannot be taken: the store invariant keeps every line's product, so a numeric caller never gets 500 |
| OrderController.SnapshotTotal | EShopCart/Controllers/OrderController.cs:63-79 | the order total of the snapshot equals the cart total of the collected lines |
| OrderController.BuildOrderItems | EShopCart/Controllers/OrderController.cs:63-80 | the loop yields one order line per collected line, in order, and a running sum equal to the lines' TotalPrice and to the cart total |
| OrderController.Collected | EShopCart/Controllers/OrderController.cs:45-47 | a line is collected exactly when it is an un-ordered line of that user's cart; nothing is collected without a cart |
| OrderController.CreateOrder | EShopCart/Controllers/OrderController.cs:36-104 | refuses a bad body (an address outside 10 to 200 UTF-16 code units, or a pin code that is not six digits), a user id of 0 or less, or nothing to collect, with nothing changed. Otherwise it stores a "Pending Payment" order with the given user, address and pin code, one line per collected line and a total equal to the sum of its lines. Every line of that cart is removed; the cart row and its stored total stay |
| OrderController.OrderOf | EShopCart/Controllers/OrderController.cs:128-133 | an order is found only by the pair of its id and its owner's id |
| OrderController.GetOrder | EShopCart/Controllers/OrderController.cs:112-143 | a missing or unparsable claim gives 401; another user's order is NotFound like a missing one |
| OrderController.PaymentsNotFor | EShopCart/Data/AppDbContext.cs:93-98 | the cascade keeps exactly the payments of other orders, in order, and keeps them all when none belongs to the order |
| OrderController.DeleteOrder | EShopCart/Controllers/OrderController.cs:149-169 | deletes the caller's order whatever its status, together with its payments; NotFound or 500 leave the store unchanged |
| OrderController.OrdersOf | EShopCart/Controllers/OrderController.cs:191 | exactly the orders whose user is the caller, with their contents |
| OrderController.NoOrdersOf | EShopCart/Controllers/OrderController.cs:191-196 | the user's order list is empty exactly when no order carries the user's id |
| OrderController.GetOrdersByUserId | EShopCart/Controllers/OrderController.cs:175-206 | NotFound instead of an empty list, exactly when the caller has no order; otherwise exactly the caller's orders, each with its stored contents |
| PaymentController.SettleStock | EShopCart/Controllers/PaymentController.cs:98-116 | the stock loop changes only stock, keeps the set of products, never leaves a decremented stock negative, and reports any shortfall at a line index of the order |
| PaymentController.SettleStockTakesDemand | EShopCart/Controllers/PaymentController.cs:98-116 | when no line falls short, each product's stock drops by exactly the total quantity the order asks of it |
| PaymentController.ShortfallIsFirst | EShopCart/Controllers/PaymentController.cs:98-116 | the loop stops at the first short line: the lines before it settle, and their decrements stay |
| PaymentController.SettlesIffStockCovers | EShopCart/Controllers/PaymentController.cs:98-116 | with positive quantities, the loop gets through the whole order exactly when no product is asked for more than its stock |
| PaymentController.DemandNonNegative | EShopCart/Controllers/PaymentController.cs:98-110 | lines with non-negative quantities never ask a negative amount of a product |
| PaymentController.StopsAtShortfall | EShopCart/Controllers/PaymentController.cs:104-107 | once a prefix of the lines falls short, the rest of the order changes nothing |
| PaymentController.Debited | EShopCart/Controllers/PaymentController.cs:66-80 | only the payer's record changes, and only its balance, which drops by exactly the amount |
| PaymentController.SettleOrderStock | EShopCart/Controllers/PaymentController.cs:98-116 | the imperative stock loop leaves the products and reports the shortfall exactly as the stock-loop function does |
| PaymentController.MakePayment | EShopCart/Controllers/PaymentController.cs:32-128 | the guards in source order: body 400, order or user 404, amount 400, wallet balance 400; each leaves the store unchanged. Past them, a Wallet payment is debited by the order total (CreditCard and COD are not), a "Completed" payment by the order's user is appended, the order becomes "Paid" and the stock loop runs. The answer is 400 on a shortfall and 500 when the email fails, and neither undoes these changes |
| PaymentController.FirstPaymentFor | EShopCart/Controllers/PaymentController.cs:155-157 | gives the index of the first payment of the order; None exactly when the order has no payment |
| PaymentController.GetPaymentByOrderId | EShopCart/Controllers/PaymentController.cs:153-163 | answers the first payment with that order id, or NotFound exactly when there is none |
| WalletController.TopUpWallet | EShopCart/Controllers/WalletController.cs:32-63 | a missing claim gives 401, an unparsable one or an amount of 0 or less 400, an unknown user 404, each changing nothing. Otherwise only the caller's balance changes, rising by exactly the amount, and the new balance is answered. No balance ever decreases |
| WalletController.GetWalletBalance | EShopCart/Controllers/WalletController.cs:70-92 | answers the caller's current balance (never negative), or 401, 400 or 404; changes nothing |
| ProductRepository.ProductsByUserId | EShopCart/Repository/ProductRepository.cs:41-47 | exactly the products whose owner is the user |
| ProductRepository.ProductsByCategoryId | EShopCart/Repository/ProductRepository.cs:28-33 | exactly the products of the category |
| ProductRepository.CategoryById | EShopCart/Repository/CategoryRepository.cs:15-18 | a category with that id, or None exactly when no category has it |
| ProductRepository.CategoryByName | EShopCart/Repository/CategoryRepository.cs:25-29 | a category whose name equals the given one ignoring case, or None exactly when there is none |
| ProductRepository.ProductsByCategoryName | EShopCart/Repository/ProductRepository.cs:34-39 | exactly the products whose category's name matches, ignoring case |
| ProductRepository.ByNameIsByIdOfName | EShopCart/Repository/ProductRepository.cs:28-39 | with distinct category ids and names, filtering by name equals filtering by the id of the category of that name, and gives nothing for an unknown name |
| ProductRepository.SeededCategoryByName | EShopCart/Repository/CategoryRepository.cs:25-29 | example: over the seeded categories, "BOOKS" finds category 4, "Books" |
| ProductRepository.MerchantProductIds | EShopCart/Repository/ProductRepository.cs:85-88 | exactly the ids of the merchant's products |
| ProductRepository.CustomerOrders | EShopCart/Repository/ProductRepository.cs:91-93 | exactly the orders with at least one line for a merchant's product, each counted once |
| ProductRepository.WithStatus | EShopCart/Repository/ProductRepository.cs:99-102 | exactly those of the given orders that have the status |
| ProductRepository.StatusCounts | EShopCart/Repository/ProductRepository.cs:99-102 | the grouping has an entry for exactly the statuses that occur among the orders |
| ProductRepository.CountOfIsCardinality | EShopCart/Repository/ProductRepository.cs:104-106 | the ContainsKey fallback gives the number of orders with the status, 0 when none has it |
| ProductRepository.OrderSummary | EShopCart/Repository/ProductRepository.cs:82-114 | always exactly the keys TotalOrders, PendingOrders and SuccessfulOrders. They hold the number of the merchant's orders and, among those, of "Pending Payment" and of "Paid" ones |
| ProductRepository.SummaryCountsBounded | EShopCart/Repository/ProductRepository.cs:96-106 | PendingOrders plus SuccessfulOrders never exceed TotalOrders |
| ProductRepository.DeleteProductAsync | EShopCart/Repository/ProductRepository.cs:70-78 | removes a present product and is a no-op for a missing one. A product still referred to by a cart or order line cannot be removed (500, nothing changes) |
| ProductController.GetAllProducts | EShopCart/Controllers/ProductController.cs:37-65 | the caller's own products and only those, or NotFound when there are none; 401 or 500 for a missing or unparsable claim |
| ProductController.GetProductsByCategory | EShopCart/Controllers/ProductController.cs:71-98 | NotFound for an unknown category name and for a category without products; otherwise exactly that category's products |
| ProductController.GetCategories | EShopCart/Controllers/ProductController.cs:108-121 | answers every category in table order |
| ProductController.AddProduct | EShopCart/Controllers/ProductController.cs:130-179 | the guards in source order: body 400 (a blank name, or one over 100 UTF-16 code units), unknown category 400, claim 401 or 500, owner foreign key 500; each changes nothing. Otherwise a product owned by the caller is stored under a fresh id |
| ProductController.OwnedProduct | EShopCart/Controllers/ProductController.cs:192-211 | succeeds exactly for the caller's existing product; otherwise 401, 500, 404 or 403, in that order |
| ProductController.UpdateProduct | EShopCart/Controllers/ProductController.cs:187-248 | refuses a blank name or one over 100 UTF-16 code units (400), then checks existence (404), then ownership (403), then category (400), changing nothing on refusal. Otherwise it replaces name, price, stock and category, never changes the owner, and leaves other products alone |
| ProductController.DeleteProduct | EShopCart/Controllers/ProductController.cs:256-290 | after the existence and ownership guards, sets only the stock to 0; no product is removed |
| ProductController.GetOrderSummary | EShopCart/Controllers/ProductController.cs:296-318 | 401 or 400 for a missing or unparsable claim. Otherwise the three-key summary; the NotFound branch for an empty summary cannot be taken |
| UsersController.EmailMatchesExamples | EShopCart/Controllers/UserController.cs:50-54 | example: the pattern accepts a plain address and refuses one without a dotted domain, one with a space and one with two '@' |
| UsersController.TrailingNewlineAccepted | EShopCart/Controllers/UserController.cs:50-54 | every address of the pattern's form is also accepted with a line feed appended, although that string is not of the form itself |
| UsersController.EmailMatchesImpliesAttribute | EShopCart/Controllers/UserController.cs:50-54 | an address the pattern accepts has exactly one '@', neither first nor last, so it also satisfies the DTO's annotation |
| UsersController.RoleAcceptedExamples | EShopCart/Controllers/UserController.cs:57-60 | example: the role test ignores case ("Customer", "MERCHANT") and refuses other roles |
| UsersController.Register | EShopCart/Controllers/UserController.cs:37-88 | refuses, with nothing changed, a missing or invalid body (lengths counted in UTF-16 code units), a taken username, an address the pattern refuses and an unknown role. An address longer than the Email column's 100 UTF-16 code units answers 500 with nothing stored. Otherwise it stores the user with the hash in place of the password and an empty wallet. A failed welcome email answers 500 but keeps the user. The new account is the only one with its name |
| UsersController.Login | EShopCart/Controllers/UserController.cs:116-126 | refuses a body whose username is not 3 to 50 or whose password is not 6 to 100 UTF-16 code units (400); otherwise answers a token exactly when a user with that name exists and the password verifies against the hash; the token carries that user's id and role; otherwise 401 |
| UsersController.GetProfile | EShopCart/Controllers/UserController.cs:136-144 | 500 without a numeric claim, NotFound exactly for an unknown user, otherwise the user's profile with a non-negative balance |

## Left out

- Authentication and the `[Authorize(Roles = …)]` role checks run before any action and are not modelled. The caller is given as the claim.
- JWT signing and expiry are not modelled (`UsersController.Token` carries only the claims). Password hashing is the parameter `passwordHash`, because BCrypt's salt is random. Verification is the parameter `verify`.
- Sending email over SMTP is the boolean parameter `emailDelivered`; the message content is not modelled.
- Image uploads to the file system, and the `ImageUrl` and product name in the arithmetic, are left out; the product name is carried but not checked.
- Clock readings (`OrderDate`, `PaymentDate`) are not modelled.
- Logging, response message texts and DTO mapping for output are left out; `Response` gives only the status class and the payload.
- Concurrency is out of scope. Requests are sequential, and cross-request races on stock or balance are not modelled.
- Money is a whole number of minor units. A request amount with more than two decimals, which the `decimal(18,2)` column would round, is not modelled.
- Text.ToLower: lower-cases ASCII letters only. The culture-sensitive lowering of other letters by `string.ToLower()` is not modelled, so the case-insensitive category and role matches are weaker than the source's outside ASCII.
- CartController.AddToCart: models the intended merge check on unbounded integers (the model's FitsStock). The source's unchecked 32-bit `+=` (CartController.cs:80-85) lets a wrapped sum through, which the model refuses with 400; the Findings table states the as-written behaviour.
- Integer widths are otherwise not modelled. Request quantities are bounded by int.MaxValue through the DTO range, but stock quantities, ids and the wallet top-up amount are unbounded integers, and a route value beyond the `int` range, which ASP.NET would refuse in binding, is not modelled.
- Of the annotations on the entity classes, only User.Email's `[MaxLength(100)]` is modelled, because it sets a column width that a valid request can exceed. Product.Name's `[StringLength(100)]` sets a width too, but the DTO's own limit of 100 keeps every name within it. EF Core does not check the other annotations on save.
- Requests.IsPinCode accepts ASCII digits only. .NET's `\d` also matches other Unicode decimal digits.
- The database collation is not modelled. SQL Server compares strings case-insensitively and ignores trailing spaces, which would affect the username uniqueness test, the login lookup and the category-name lookups (CategoryRepository.cs:27-28, ProductRepository.cs:34-39), so that "Books " finds Books there while the model answers NotFound; the model compares exactly.
- PaymentController.FirstPaymentFor: takes the payment inserted first. `FirstOrDefaultAsync` without an `OrderBy` (PaymentController.cs:155-157) leaves the order to the database, so when an order has several payments the source may answer any of them.
- Row identities other than user, product and order ids (CartId, CartItemId, OrderItemId, PaymentId) are not modelled. Carts are keyed by their customer, and payments are a sequence in insertion order.
- In CreateOrder, the loop that marks the collected lines as ordered (OrderController.cs:86-89) is not modelled as a separate step. Those lines are deleted in the same save, so the saved state is the same.
- PaymentController's own payment-mode check (PaymentController.cs:52-57) is not modelled as a branch. The DTO's pattern, checked earlier and matched against the whole value, already admits only the same three modes, so the branch cannot be taken.
- OrderRepository is not part of this model. `GetOrderByIdAsync(id, userId)` is taken to filter on both arguments, from its interface (IOrderRepository.cs:8) and the NotFound message at OrderController.cs:132. `GetOrdersByUserIdAsync` is taken to filter on the user, and `DeleteOrderAsync` to delete by id.
- GetProductByIdAsync, AddProductAsync and UpdateProductAsync of ProductRepository are modelled inside the controller actions that call them, as map lookups and updates with a save. GetAllProductsAsync has no caller in the modelled controllers and is left out.
- The role strings are stored as given. Only the registration test ignores case, and authorization by role is not modelled.

## Findings

| source | as written | input that shows it | evidently intended | confidence | as-written member | corrected member |
|---|---|---|---|---|---|---|
| EShopCart/Controllers/CartController.cs:80-85 | `existingCartItem.Quantity += request.Quantity` is an unchecked 32-bit addition, and the stock guard compares the wrapped sum | a line of quantity 1, a request of int.MaxValue units, a product stock of int.MaxValue: both guards pass and the saved quantity is int.MinValue | the merged quantity is compared with the stock without wrapping, so a passing add never exceeds the stock | not executed | CartLines.MergeOverflowPassesGuards | CartLines.MergeWithinInt32 |
