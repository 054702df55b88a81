# Marmita: a Dafny model of the marketplace store, cart and order flow

Marmita is a home-cooked-meal marketplace. Clients browse meals, fill a
single-cook cart and place orders. Cooks accept, prepare and send them, and
clients confirm receipt. Sales are credited to the cook's wallet, which
can request payouts. Each order has a chat. This project models three
parts of the system in Dafny:

- **The store behind the pages.** `MockService.Store` is a class whose six
  fields are the tables: users, meals, orders, wallet transactions,
  notifications and chat messages.
  - The service's read-only calls are functions of the store.
  - Its writing calls are methods that reassign the tables.
  - A call that throws returns `Err` and leaves every table as it was.
- **The shopping cart of the meal browser** (module `Cart`). It covers
  `addToCart`, `updateQty`, the cart total, the checkout guards and the
  availability filter. It also proves the cart's invariants: one cook,
  distinct meals, positive quantities.
- **The order lifecycle as the pages drive it** (module `OrderFlow`).
  The service accepts any status, so the only transitions that happen are
  the ones the pages show as buttons. The module covers those buttons, the
  cook dashboard's active/history split, its revenue and average-ticket
  figures, the order page's progress steps, receipt confirmation and chat
  send guard.

`Domain` holds the records of types.ts. `Seqs` holds the generic
`find`/`findIndex`/`filter`/`sort` the service is written with.

Representation choices:

- Money is in integer cents (150.50 is `15050`).
- Ids and timestamps are natural numbers.
- A call's clock reading (`Date.now()`, `new Date()`) is a parameter `now`.
- The order id's random draw is a parameter `draw < 90000`, giving the id
  `draw + 10000`.
- The random id of a payment method is a parameter.
- An optional field of a record is an `Option`. A missing balance counts
  as 0.
- JavaScript's falsy-string tests are explicit: an empty password means
  "no password given", and an empty name falls back to a default.

Note that `getMeals` returns every stored meal, unavailable ones
included (services/mockService.ts:226-229). Only the meal browser drops
the unavailable ones when it loads (pages/BrowseMeals.tsx:18), so
`MockService.Store.GetMeals` returns the table and `Cart.VisibleMeals`
filters it.

## Model

| member | source | states |
|---|---|---|
| Domain.CartTotalAppend | pages/BrowseMeals.tsx:66 | The `reduce` total of a cart grows by `price * qty` of each line added at the end |
| Domain.CartTotal | services/mockService.ts:305 | The `reduce` total, the same formula the cart shows at pages/BrowseMeals.tsx:66: non-negative whenever every price and quantity is |
| Domain.CartTotalPrepend | pages/BrowseMeals.tsx:66 | The left-to-right total also adds up from the front: a line put first adds its `price * qty` |
| Seqs.FindIndex | services/mockService.ts:143 | `findIndex`: the first index satisfying the predicate, and None exactly when no element does |
| Seqs.Find | services/mockService.ts:87 | `find`: the element at the `findIndex` position, absent exactly when `findIndex` finds nothing |
| Seqs.Filter | services/mockService.ts:234 | `filter`: keeps exactly the elements that pass, never adds or duplicates one |
| Seqs.FilterAppend | services/mockService.ts:278 | Filtering distributes over concatenation, so `filter` keeps the survivors in their original order |
| Seqs.FilterIdempotent | services/mockService.ts:278 | Filtering twice with the same predicate is filtering once |
| Seqs.SortBy | services/mockService.ts:287 | `sort` with a numeric comparator: the result is ordered by key and is a permutation of the input |
| MockService.LocalPart | services/mockService.ts:108 | `email.split('@')[0]` is a prefix of the email without '@', ending where the first '@' stands |
| MockService.NewAccount | services/mockService.ts:106-113 | The registered user has id `now`, the given email, role and password, the avatar built from the name (or the email when the name is empty), and no address, balance or payment methods. Its name is the given one, and empty only when the name and the email's local part both are |
| MockService.SocialAccount | services/mockService.ts:127-133 | The social account has id `now`, the synthetic email, the CLIENTE role, the provider's avatar, no password, address, balance or payment methods, and the name "Usuário " followed by the provider |
| MockService.LocalPartOfJoin | services/mockService.ts:108 | For an email `a@b` with no '@' in `a`, register's fallback name is exactly `a` |
| MockService.SignInSocial | services/mockService.ts:120-138 | socialLogin returns an account with the `user_<provider>@social.com` email that is in the table. It appends a new CLIENTE account only when no user has that email; otherwise it returns the first user with that email and the table is unchanged |
| MockService.SignInSocialIdempotent | services/mockService.ts:120-138 | A second socialLogin with the same provider returns the same account and leaves the table as the first call did |
| MockService.MergeUser | services/mockService.ts:145 | `{ ...user, ...data }`: every field the patch gives wins, every field it omits is kept |
| MockService.MergeUserLaws | services/mockService.ts:145 | Merging an empty patch changes nothing; merging the same patch twice is merging it once |
| MockService.Credit | services/mockService.ts:332 | The cook's balance (missing counts as 0) rises by exactly the amount and no other field changes |
| MockService.Debit | services/mockService.ts:191 | The balance (missing counts as 0) falls by exactly the amount and no other field changes |
| MockService.MergeMeal | services/mockService.ts:258 | `{ ...meal, ...data }` for meals: each field comes from the patch if given, else from the meal |
| MockService.Toggled | services/mockService.ts:265-273 | Only the first meal with the id has `available` flipped; an unknown id leaves the table as it was |
| MockService.ToggledTwice | services/mockService.ts:265-273 | Toggling the same meal twice restores the meals table |
| MockService.DeleteMealIdempotent | services/mockService.ts:275-280 | Deleting a meal a second time changes nothing |
| MockService.CookNameFor | services/mockService.ts:240-246 | The stored cook name is the first matching user's name when that is non-empty, and "Unknown" when there is no such user or its name is empty |
| MockService.NameOr | services/mockService.ts:310-312 | The name a missing or nameless user falls back from: the user's name when there is a user with a non-empty name, the fallback otherwise, so never empty for a non-empty fallback |
| MockService.Snapshot | services/mockService.ts:317-323 | Item k of the snapshot has id k+1 and copies the line's meal id, title, price (as unit price) and quantity |
| MockService.SnapshotTotalIsCartTotal | services/mockService.ts:305-323 | The snapshot's sum of quantity times unit price equals the cart total, so an order's total matches its items |
| MockService.PlacedOrder | services/mockService.ts:305-324 | The new order is PENDENTE with id in [10000, 99999], total equal to the cart total and to its items' sum, the snapshot items, the payment label and the creation time. Its client and cook names are those users' names, falling back to "Cliente" and "Cozinheiro" (`NameOr`), so never empty |
| MockService.StatusRecipient | services/mockService.ts:372 | A status change is announced to the cook when the new status is ENTREGUE and to the client otherwise |
| MockService.Store.Seeded | services/mockService.ts:14-77 | The initial tables: the two seed users (the cook with balance 150.50), two meals, one delivered order; empty ledger, notifications and chat |
| MockService.Store.Login | services/mockService.ts:84-97 | Fails as unknown email exactly when no user has the email. Fails as wrong password exactly when a password is given and differs from the first such user's. Otherwise returns the first user with the email |
| MockService.Store.Register | services/mockService.ts:99-118 | Fails exactly when the email is taken, changing nothing. Otherwise appends exactly one user, the `NewAccount` of the arguments (named after the email's local part when no name is given). Non-negative balances stay non-negative |
| MockService.Store.SocialLogin | services/mockService.ts:120-138 | The users table and the returned account are those of `SignInSocial`; the other tables are unchanged |
| MockService.Store.UpdateUser | services/mockService.ts:140-150 | Fails exactly when no user has the id. Otherwise replaces only the first such user by the merge of the patch into it |
| MockService.Store.AddPaymentMethod | services/mockService.ts:152-163 | Fails exactly when no user has the id. Otherwise appends the method, under the drawn id, to that user's list (missing counts as empty) and changes nothing else |
| MockService.Store.GetCookById | services/mockService.ts:165-169 | Returns the first user in the table with the id and the cook role, and nothing exactly when there is none |
| MockService.Store.GetWalletTransactions | services/mockService.ts:178-183 | Returns the whole ledger; the user id does not filter it |
| MockService.Store.RequestWithdrawal | services/mockService.ts:185-207 | Succeeds exactly when the user exists and the balance covers the amount (equality allowed). Then it debits exactly the amount and prepends one pending withdrawal. On failure users and ledger are unchanged. Non-negative balances stay non-negative |
| MockService.Store.GetNotifications | services/mockService.ts:210-214 | Exactly the user's notifications, each as often as stored, newest first |
| MockService.Store.MarkNotificationRead | services/mockService.ts:216-223 | Sets `read` on the first notification with the id and changes nothing else; an unknown id changes nothing |
| MockService.Store.GetMeals | services/mockService.ts:226-229 | Returns the meals table as stored, unavailable meals included |
| MockService.Store.GetCookMeals | services/mockService.ts:231-235 | Exactly the meals of the cook, in table order, with every copy kept (the `filter` of the meals table) |
| MockService.Store.CreateMeal | services/mockService.ts:237-251 | Appends one meal made of the draft with id `now` and the cook's name (or "Unknown"); the other tables are unchanged |
| MockService.Store.UpdateMeal | services/mockService.ts:253-263 | Fails exactly when no meal has the id, changing nothing. Otherwise replaces only the first such meal by the merge of the patch into it |
| MockService.Store.ToggleMealAvailability | services/mockService.ts:265-273 | The meals table becomes `Toggled` of the old one; the other tables are unchanged |
| MockService.Store.DeleteMeal | services/mockService.ts:275-280 | Keeps exactly the meals with another id, in order; the other tables are unchanged |
| MockService.Store.GetOrders | services/mockService.ts:283-291 | For a client its orders, for a cook the cook's orders, each as often as stored, with the highest id first |
| MockService.Store.GetOrderById | services/mockService.ts:293-297 | Returns the first order in the table with the id, and nothing exactly when there is none |
| MockService.Store.CreateOrder | services/mockService.ts:299-360 | Prepends the `PlacedOrder` order. When the cook exists, credits exactly the total and prepends one completed deposit; otherwise users and ledger are unchanged. Always appends one unread notification for the cook id. Keeps order totals equal to their items' sums, and non-negative balances non-negative when the order total is non-negative |
| MockService.Store.UpdateOrderStatus | services/mockService.ts:362-385 | Sets any status on the first order with the id and appends one notification to the cook (ENTREGUE) or the client. Every order's total and items are unchanged. An unknown id changes nothing |
| MockService.Store.GetMessages | services/mockService.ts:388-392 | Exactly the order's messages, each as often as stored, oldest first |
| MockService.Store.SendMessage | services/mockService.ts:394-413 | Appends one message stamped `now` under the sender's name (or "Usuário"); the other tables are unchanged |
| MockService.SeededSaleAndPayout | services/mockService.ts:185-207 | On the seed tables, a withdrawal of 200.00 fails and the cook keeps 150.50. A sale of one Feijoada Fit then raises the balance to 179.40 with one completed deposit of 28.90 |
| Cart.Bumped | pages/BrowseMeals.tsx:28 | Each line of the meal gets one more portion; every other line is kept |
| Cart.AddToCart | pages/BrowseMeals.tsx:24-39 | addToCart never leaves an empty cart, grows it by at most one line, and either holds the meal afterwards or leaves the cart as it was |
| Cart.HasMealLineIff | pages/BrowseMeals.tsx:26 | The `find` on the cart succeeds exactly when some line holds the meal |
| Cart.AddExistingBumpsOneLine | pages/BrowseMeals.tsx:26-28 | Adding a meal already in the cart raises only its line's quantity by one; the length and every other line are unchanged |
| Cart.AddNewAppends | pages/BrowseMeals.tsx:30-36 | A new meal from the cart's cook, or into an empty cart, is appended with quantity one |
| Cart.AddOtherCookReplacesOrKeeps | pages/BrowseMeals.tsx:30-35 | A meal from another cook leaves the cart if the user declines and replaces it with that meal alone if the user accepts |
| Cart.AddToCartWellFormed | pages/BrowseMeals.tsx:24-39 | addToCart keeps the cart from a single cook, with distinct meals and positive quantities |
| Cart.BumpedTotal | pages/BrowseMeals.tsx:66 | One more portion of a meal raises the cart total by that line's price |
| Cart.AddToCartTotal | pages/BrowseMeals.tsx:24-39 | addToCart raises the total by one portion's price, unless it is declined (total kept) or replaces the cart (total is that price) |
| Cart.Adjusted | pages/BrowseMeals.tsx:44 | The meal's line gets `max(0, qty + delta)`; other lines are unchanged |
| Cart.AdjustedLines | pages/BrowseMeals.tsx:42-46 | The `map` step of updateQty adjusts every line in place |
| Cart.UpdateQty | pages/BrowseMeals.tsx:41-48 | Every line left has a positive quantity, and every line of another meal is one from the cart |
| Cart.UpdateQtyAbsentMeal | pages/BrowseMeals.tsx:41-48 | updateQty for a meal not in the cart leaves the cart as it is |
| Cart.UpdateQtyChangesOneLine | pages/BrowseMeals.tsx:41-48 | updateQty changes only the meal's line. The line takes its new quantity in place, or disappears when the quantity reaches zero |
| Cart.UpdateQtyWellFormed | pages/BrowseMeals.tsx:41-48 | updateQty keeps the cart from a single cook, with distinct meals and positive quantities |
| Cart.FilterKeepsMeals | pages/BrowseMeals.tsx:47 | Dropping lines keeps the cart from one cook with distinct meals |
| Cart.Checkout | pages/BrowseMeals.tsx:50-56 | Checkout does nothing exactly when there is no user or the cart is empty. It asks for a payment method exactly when none is selected. Otherwise it orders the cart from the first line's cook with the selected payment |
| Cart.CheckoutOrdersFromTheCartsCook | pages/BrowseMeals.tsx:55 | On a single-cook cart, the order goes to the cook of every line |
| Cart.VisibleMeals | pages/BrowseMeals.tsx:18 | The browser shows exactly the stored meals that are available, in table order with every copy (the `filter` of the meals) |
| OrderFlow.Rank | types.ts:6-13 | Places PENDENTE < CONFIRMADO < PREPARANDO < ENTREGA < ENTREGUE; CANCELADO alone is off the line |
| OrderFlow.RankInjective | types.ts:6-13 | Distinct statuses have distinct ranks |
| OrderFlow.CookAction | pages/CookDashboard.tsx:62-90 | The cook's button moves one place forward. There is none exactly for ENTREGA, ENTREGUE and CANCELADO |
| OrderFlow.CookActionSteps | pages/CookDashboard.tsx:62-85 | The cook's transitions are exactly PENDENTE→CONFIRMADO, CONFIRMADO→PREPARANDO and PREPARANDO→ENTREGA |
| OrderFlow.CanConfirmReceipt | pages/OrderDetails.tsx:95 | The receipt button is offered exactly to a client whose order is at ENTREGA, a status where the cook has no button left |
| OrderFlow.WiredStepForward | pages/CookDashboard.tsx:62-85 | Every transition a page offers moves exactly one place forward and never touches CANCELADO |
| OrderFlow.StepsBetween | pages/CookDashboard.tsx:62-85 | Along a chain of offered transitions, the rank grows by one per step |
| OrderFlow.WiredPathAdvances | pages/CookDashboard.tsx:62-85 | Along any chain of offered transitions the status strictly advances, so none repeats and a chain has at most five statuses |
| OrderFlow.ActiveOrders | pages/CookDashboard.tsx:29 | The active list holds exactly the orders at PENDENTE, CONFIRMADO or PREPARANDO, in the dashboard list's order and every copy (the filter of the list by `IsActive`) |
| OrderFlow.HistoryOrders | pages/CookDashboard.tsx:30 | The history list holds exactly the orders at ENTREGA, ENTREGUE or CANCELADO, in the dashboard list's order and every copy (the filter of the list by `IsHistory`) |
| OrderFlow.ActiveXorHistory | pages/CookDashboard.tsx:29-30 | Every status is in exactly one of the two lists |
| OrderFlow.ActiveHistoryPartition | pages/CookDashboard.tsx:29-30 | The active and history lists together hold every order exactly as often as the dashboard's list |
| OrderFlow.WithStatus | pages/CookDashboard.tsx:26 | Orders with the id take the new status; all others, and all other fields, are unchanged |
| OrderFlow.Revenue | pages/CookDashboard.tsx:154 | Revenue is 0 when every order is cancelled and the sum of all totals when none is |
| OrderFlow.CancelledFilterCases | pages/CookDashboard.tsx:154 | The revenue filter keeps nothing from all-cancelled orders and everything from orders none of which is cancelled |
| OrderFlow.RevenueAppend | pages/CookDashboard.tsx:154 | Revenue counts an order's total exactly when the order is not CANCELADO |
| OrderFlow.WiredUpdateKeepsRevenue | pages/CookDashboard.tsx:23-27 | A status change between non-cancelled statuses leaves the revenue figure unchanged |
| OrderFlow.AverageTicket | pages/CookDashboard.tsx:162 | There is an average exactly when there are orders, and it times the order count is the sum of all totals |
| OrderFlow.StepOne | pages/OrderDetails.tsx:106 | Step 1 is lit exactly for the statuses on the line, i.e. all but CANCELADO |
| OrderFlow.StepTwo | pages/OrderDetails.tsx:109 | Step 2 is lit exactly from PREPARANDO on |
| OrderFlow.StepThree | pages/OrderDetails.tsx:112 | Step 3 is lit exactly from ENTREGA on |
| OrderFlow.ProgressStepsNested | pages/OrderDetails.tsx:106-113 | Step 1 is lit exactly when not CANCELADO, step 2 from PREPARANDO on, step 3 from ENTREGA on; step 3 implies step 2 implies step 1 |
| OrderFlow.WiredStepKeepsProgress | pages/OrderDetails.tsx:106-113 | An offered transition never turns a lit step off |
| OrderFlow.ConfirmDelivery | pages/OrderDetails.tsx:48-54 | After the user confirms, the order shows ENTREGUE with every other field unchanged; otherwise it is kept |
| OrderFlow.ConfirmDeliveryIsWired | pages/OrderDetails.tsx:95 | Confirming receipt where the button is offered is an offered transition, one place forward |
| OrderFlow.TrimStart | pages/OrderDetails.tsx:41 | Strips leading JavaScript white space: the result is a suffix, everything removed is white space, and what is left is empty or starts with a non-space |
| OrderFlow.TrimStartEmpty | pages/OrderDetails.tsx:41 | `trim()` leaves nothing exactly when every character is white space or a line terminator |
| OrderFlow.ShouldSend | pages/OrderDetails.tsx:41 | A message is sent exactly when there is a user and the text has a character that is not white space |
| OrderFlow.AfterSend | pages/OrderDetails.tsx:39-46 | When the guard passes, the sent message is appended at the end; otherwise the chat is unchanged |
| OrderFlow.BlankMessageIgnored | pages/OrderDetails.tsx:41-44 | A whitespace-only message, or no user, leaves the chat as it was |

## Left out

- Persistence in `localStorage` (`getStored`/`setStored`, services/mockService.ts:4-11). The tables are fields of the store object, so the per-table JSON round trip is not modelled.
- Simulated latency, `async`/`await` and the pages' polling. Every operation is one atomic step, so lost updates between overlapping calls are not modelled.
- Clock readings and random numbers are parameters. An operation that reads the clock several times reads it once here. Id collisions between `Date.now()` or random ids are not modelled beyond the order id's range.
- MockService.Store.Register: no contract says the new user's id is unique. The id is the clock reading, which can repeat.
- MockService.SeedOrder: its creation time is `now` minus one day, clamped at 0 for a clock below one day.
- Floating-point money and `toFixed` display. Amounts are exact integer cents, so float rounding in the sums is not modelled.
- MockService.Store.AddPaymentMethod: `Math.random()` gives a fraction in [0, 1) as the new method's id. Here the id is any natural number, so it may equal an existing method's id (the seed card's 1), which the fraction never does.
- `getCookReviews` and the reviews table. Nothing in the code ever writes a review, so the table is always empty.
- Notification and message texts and links are recorded as a structured topic. The interpolated client name, which may be `undefined`, is not part of the model. The same goes for the description of wallet transactions.
- `Partial<User>` and `Partial<Meal>` patches are modelled as records of optional fields. A patch that sets a field to `undefined` explicitly cannot be expressed.
- Seqs.SortBy: JavaScript's sort is stable. The model's insertion sort is stable too, but no contract states stability.
- `confirm()` and `alert()` dialogs are modelled as a boolean input or as the checkout outcome. The cart's React setter and `setCartOpen` are left out.
- The remote backend (server/), the auth context, routing, layout and the other pages are not part of this model. This includes profile and settings, wallet and meal-management forms, and the cook profile's rating average.
