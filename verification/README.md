# Pay-for-cart-item workflow of the `ecom` shop, in Dafny

This project models the core of a small Django shop (`ecom`): a buyer pays for one of
their cart entries, and the signal handlers react to the new payment. The model covers:

- `CartViewSet.get_queryset` and `CartViewSet.pay` in `ecom/views.py`;
- the three `post_save` receivers for `Payment` in `ecom/signals.py`: `notify_payment`,
  `quantity_control` and `ship`;
- the guard and loop of the discount notifier `notify_user_discount`;
- `ProductViewSet.add_to_wishlist`, which creates the wishlist rows that notifier reads;
- the record shapes, closed value sets and derived values of `ecom/models.py`.

The database is one immutable value, `Stores.Store`. It has a finite map per table, a
notification outbox, and one id counter per table that the workflow inserts into.
A request handler is a pure function from the store, the request and the environment's
persistence faults (`Views.Faults`: a failing INSERT or DELETE) to a reply status and
the store it leaves. The payment receivers are an explicit ordered chain of steps
(`Signals.OnPaymentSaved`). Each step returns the store it leaves and the exception it
raised. An exception stops the chain, and earlier writes stay written.

Transactions appear only through their outcome:

- A database error inside `pay`'s atomic block marks the block for rollback, so the
  reply is 500 and the store is unchanged.
- An ordinary exception raised by a `post_save` receiver is caught by `pay`'s
  `except`. The block is not marked, so what was written before the exception is
  committed.

The cart lookup is restricted to the requester's own entries (`get_queryset`,
ecom/views.py:110-111), so a request for someone else's entry is a 404. The ownership
test at ecom/views.py:122-123 is dead code: `Views.Pay` proves that 403 never occurs.

The `Product` receiver as written makes every `pay` fail after charging (see
"## Findings"). So the model has two wirings (`Signals.Wiring`):

- `Views.PayAsWritten` is the handler exactly as written.
- `Views.Pay` uses the corrected wiring, and the rest of the model is built on it.

Two lookups fail as written as well, and each is modelled both ways, with the failing
name as a parameter:

- The product view's queryset prefetches `sub_category` (ecom/views.py:40), but the
  field of `Product` is `subcategory`. `Views.AddToWishlistAsWritten` therefore never
  adds a row; `Views.AddToWishlist` is the handler with the prefetch corrected.
- The discount handler filters wishlists on `products__id` (ecom/signals.py:44).
  `Signals.NotifyUserDiscountAsWritten` therefore never notifies anyone;
  `Signals.NotifyUserDiscount` filters on the wishlist's `product`.

Float fields (`price`, `amount`, `unit_price`) are modelled as `real`. The nullable
integer `discount` is `Option<int>`.

## Model

| member | source | states |
|---|---|---|
| Models.ParseStatus | ecom/models.py:6-14 | a stored status parses exactly when it is one of the six `STATUS_CHOICES` values, and parsing inverts `Code` |
| Models.StatusRoundTrip | ecom/models.py:6-14 | every shipment status reads back as itself from the value stored for it |
| Models.ParseMethod | ecom/models.py:107-115 | a method name parses exactly when it is one of visa, mastercard, paypal, applepay, googlepay |
| Models.MethodRoundTrip | ecom/models.py:108-115 | every payment-method name reads back as itself from its stored value |
| Models.Range | ecom/models.py:94 | `range(lo, hi)` has `hi - lo` elements (none if empty), the i-th being `lo + i`, and holds exactly the integers in `[lo, hi)` |
| Models.StarChoices | ecom/models.py:94 | the rating star choices built from `range(1, 6)` are exactly 1, 2, 3, 4, 5 |
| Models.NewProduct | ecom/models.py:58-67 | a product created with its required fields has quantity 0, discount 0 and status false, so its discounted price is its price |
| Models.NewCartEntry | ecom/models.py:134-137 | a new cart entry has quantity 0, so its total price is 0 for every product |
| Models.PriceWithDiscount | ecom/models.py:73-75 | the discounted price fails exactly when the discount is null. It is the price at discount 0 and 0 at discount 100, and for a non-negative price it stays within [0, price] for a discount in 0..100 |
| Models.DiscountMonotone | ecom/models.py:73-75 | for a non-negative price, a larger discount never gives a larger discounted price |
| Models.TotalPrice | ecom/models.py:139-140 | the cart total is 0 for quantity 0, the unit price for quantity 1, and non-negative for a non-negative price and quantity |
| Notifications.SellerPaidText | ecom/signals.py:12 | the seller's payment message names the product |
| Notifications.BuyerPaidText | ecom/signals.py:13 | the buyer's payment message names the product |
| Notifications.DiscountText | ecom/signals.py:57 | the discount message opens with the product's name |
| Notifications.Decimal | ecom/signals.py:57 | the decimal text of a number is a non-empty run of digits without a leading zero (except for 0 itself) |
| Notifications.DecimalRoundTrip | ecom/signals.py:57 | reading the decimal text of a number back gives the number |
| Notifications.IntText | ecom/signals.py:57 | the text of an integer is non-empty and starts with a minus sign exactly when the integer is negative |
| Notifications.IntTextRoundTrip | ecom/signals.py:57 | reading back the digits of an integer's text, with its sign, gives the integer |
| Notifications.Recipients | ecom/signals.py:50-58 | the recipients of a run of notifications, one per notification and in order |
| Stores.InsertRating | ecom/models.py:99-100 | a rating is rejected exactly when the same user already rated the same object. An accepted one is stored under a fresh id, every existing rating and every other table is unchanged, and the constraints keep holding |
| Stores.WishlistRowsInsert | ecom/models.py:162-164 | inserting a wishlist row under a fresh id adds one row for its own (user, product) pair and none for any other |
| Signals.NotifyPayment | ecom/signals.py:6-13 | exactly two notifications are appended, first to the seller and then to the buyer. Both are sent on behalf of the payment with verb "you reached level 10" and name the product, and nothing else changes |
| Signals.SaveProduct | ecom/signals.py:40-41 | saving a product writes the whole object, and the `post_save` dispatch raises exactly under the as-written wiring |
| Signals.QuantityControl | ecom/signals.py:15-20 | the paid product's quantity drops by exactly one, with no lower bound. No other field, product or table changes |
| Signals.Ship | ecom/signals.py:23-36 | a new payment with a buyer profile gives exactly one `pending` shipment under the next id, addressed from that profile. A buyer without a profile raises with nothing written, and an update writes nothing |
| Signals.OnPaymentSaved | ecom/signals.py:6-36 | both parties are notified and stock drops by one, whatever happens next. The chain raises exactly under the as-written wiring or for a new payment without a buyer profile. It ships exactly for a new payment that did not raise |
| Signals.DiscountNotes | ecom/signals.py:50-58 | one discount notification per listed user, in order, each sent on behalf of the product with the same text |
| Signals.NewDiscount | ecom/signals.py:45-46 | the new discount is the `discount` entry when there is one, and otherwise falls back to the instance's discount, so only an explicit entry can make the guard hold |
| Signals.DiscountGuard | ecom/signals.py:48-49 | the guard holds only for a present old discount below a present new one. A null or zero old discount or a null new one fails it, and a non-zero old discount below a present new one passes |
| Signals.WishlistScan | ecom/signals.py:44-51 | the wishlist filter on a relation yields one user per matching row, so its length is the number of rows below the bound whose relation holds the value (every such row, on a valid store with the bound `nextWishlist`) |
| Signals.DiscountAttempt | ecom/signals.py:42-58 | the handler's `try` body raises `DoesNotExist` exactly for a missing product, and `FieldError` exactly for an existing product with a filter on a relation `Wishlist` lacks. Otherwise it only appends notifications: none when the guard fails, else one per scanned row with that row's user as recipient |
| Signals.NotifyUserDiscountWith | ecom/signals.py:42-62 | the `except` clauses swallow both exceptions: the handler only appends to the outbox, and changes nothing for a missing product or an unknown relation |
| Signals.NotifyUserDiscount | ecom/signals.py:42-58 | with the filter on `product`: a missing product or a false guard changes nothing. Otherwise only notifications are appended, one per wishlist row of the product, each message opening with the product's name. The source fixes no order for the rows (`Wishlist` has no ordering), and the model scans them in id order; `Signals.DiscountNotifiesEachWishlister` states the order-free count |
| Signals.NotifyUserDiscountAsWritten | ecom/signals.py:42-62 | as written, the filter on `products` raises `FieldError` for every existing product and a missing product raises `DoesNotExist`. Both are swallowed, so the handler never changes the store |
| Signals.DiscountLookupDefect | ecom/signals.py:44 | on a concrete store, the intended handler notifies the wishlisting user, but the handler as written notifies nobody |
| Signals.WishlistUsersCount | ecom/signals.py:44-51 | the wishlist scan lists a user exactly as often as that user has wishlist rows for the product |
| Signals.DiscountNotifiesEachWishlister | ecom/signals.py:48-58 | when the guard holds, each user is notified exactly once per wishlist row they hold for the product, and nobody else. Otherwise nobody is notified |
| Signals.ZeroOldDiscountNotifiesNobody | ecom/signals.py:48 | an old discount of 0 is falsy and notifies nobody |
| Signals.AbsentDiscountNotifiesNobody | ecom/signals.py:45-49 | without a `discount` entry the new discount falls back to the old one, so nobody is notified |
| Signals.NoIncreaseNotifiesNobody | ecom/signals.py:49 | keeping or lowering the discount notifies nobody |
| Views.CartQuerySet | ecom/views.py:110-111 | the cart queryset holds exactly the requester's own entries, unchanged |
| Views.GetCart | ecom/views.py:117 | the lookup finds an entry exactly when it exists and belongs to the requester |
| Views.GetCartSeesOnlyQuerySet | ecom/views.py:110-117 | the lookup finds an entry exactly when the restricted queryset holds it, and returns that entry |
| Views.VisaMethod | ecom/views.py:130 | the method lookup succeeds exactly when one row is named visa, and returns that row |
| Views.NewPayment | ecom/views.py:125-131 | the payment is made out to the requester for the entry's product, with amount and unit price both the product's price |
| Views.Charge | ecom/views.py:125-134 | inserting the payment and running the receivers charges the entry. The chain raises exactly under the as-written wiring or without a buyer profile, and ships exactly when it does not raise |
| Views.PayWith | ecom/views.py:115-144 | under either wiring: never 403; 404 exactly for an entry that is not the requester's, with nothing changed; 200 exactly for a chargeable entry with a buyer profile, no DELETE failure, and the corrected wiring |
| Views.PayWithSuccess | ecom/views.py:125-144 | a 200 leaves a completed payment |
| Views.PayWithFailure | ecom/views.py:133-142 | a failed pay keeps every cart entry. It changes the store exactly when the chain raised after the INSERT, and then the entry is charged but not shipped |
| Views.Pay | ecom/views.py:115-144 | 404 exactly for an entry that is not the requester's, with nothing changed, and 403 never. 200 exactly when chargeable, with a profile and no DELETE failure, and then: one payment at the unit price by visa, two notifications sent on behalf of the payment (seller then buyer), stock one lower, one pending shipment, and exactly that entry removed. Every failure keeps the entry. The only one that changes anything is a missing profile, charged but not shipped |
| Views.PayAsWritten | ecom/views.py:115-144 | as written, pay never answers 200 and never removes the entry. It changes the store exactly when the entry can be charged, and then charges without shipping |
| Views.ChargeKeepsValid | ecom/views.py:125-142 | a charge, with or without its shipment and entry removal, keeps ids fresh and foreign keys valid |
| Views.PayPreservesValid | ecom/views.py:115-144 | pay keeps the database constraints under either wiring |
| Views.PayAddsOnePayment | ecom/views.py:125-140 | a successful pay adds exactly one payment row and one shipment, and removes exactly one cart entry |
| Views.FailedPaymentSaveChangesNothing | ecom/views.py:133-137 | a failing payment INSERT gives 404 or 500 and leaves the store, cart entry included, unchanged |
| Views.PayTwiceFails | ecom/views.py:117-140 | paying again for an entry already paid is a 404 that changes nothing, so no second payment |
| Views.AmountIgnoresCartQuantity | ecom/views.py:128-129 | the amount charged equals the cart total only when the quantity is 1 or the price is 0 |
| Views.UnitPriceIsTotalOnlyForOne | ecom/models.py:139-140 | a product's price equals the entry's total only for quantity 1 or price 0 |
| Views.AsWrittenChargeStep | ecom/views.py:133-137 | as written, one pay on a chargeable entry is a 500. It adds one payment and takes one unit of stock, ships nothing, and leaves the entry chargeable again |
| Views.RetryAsWrittenChargesAgain | ecom/views.py:133-137 | as written, a retried pay charges a second time: two payments, two units of stock, no shipment, entry kept |
| Views.PayScenario | ecom/views.py:115-144 | in the example, paying for two units of a 100-priced product succeeds, charges 100, and leaves 4 of 5 in stock |
| Views.PayScenarioNotifies | ecom/signals.py:6-13 | in the example, the seller and then the buyer are notified |
| Views.PayScenarioShips | ecom/signals.py:23-36 | in the example, one pending shipment goes to the buyer's profile address and the cart ends up empty |
| Views.PayWithoutStock | ecom/signals.py:15-20 | with no stock left a pay still succeeds and the quantity becomes -1 |
| Views.GetProduct | ecom/views.py:40 | fetching a product through the view's queryset gives 404 exactly for an unknown id, and fails exactly when the id exists and the prefetched name is not a forward relation of `Product` (reverse relations are not modelled) |
| Views.AddToWishlistWith | ecom/views.py:56-70 | 404 exactly for an unknown product. 201 exactly for an existing product with a valid prefetch and a working INSERT, adding exactly the row (requester, product) under the next id and nothing else. Every other outcome is a 500 with nothing changed |
| Views.AddToWishlistAsWritten | ecom/views.py:40-70 | as written, the request is a 404 for an unknown product and a 500 for every other one, and the store never changes |
| Views.WishlistPrefetchDefect | ecom/views.py:40 | on the example store, the request as written is a 500 that adds nothing, while the corrected one is a 201 that adds the row |
| Views.AddToWishlist | ecom/views.py:56-70 | with the prefetch corrected: 404 exactly for an unknown product and 500 for a failing INSERT, both with nothing changed. Otherwise 201 with exactly one new row (requester, product) under a fresh id, nothing else changed, and the constraints kept |
| Views.AddToWishlistCountsOnce | ecom/views.py:58-65 | with the prefetch corrected, a successful add records the (requester, product) pair once more and no other pair |
| Views.WishlistThenDiscountNotifies | ecom/signals.py:48-58 | with the prefetch and the filter corrected, a user who wishlists a product gets one more notification when its discount rises from a non-zero value |

## Left out

- HTTP plumbing is left out: routing, authentication (JWT), registration and the generic CRUD endpoints. Responses are reduced to a status enum and the store.
- The serializers are left out. They only do nested create and update, and their `update_or_create` keys on an `attribute` field that `ProductAtribute` lacks.
- CSV upload and export, search and filtering are I/O or library filtering.
- Notification delivery through the notifications library is foreign code. Sending one is modelled as appending a record to the outbox.
- Concurrency is left out: two simultaneous pays on one entry are not modelled, and each request is one sequential step.
- Transactions are modelled only by the outcome described above.
- Rounding is not modelled: float prices are `real`. Prices may be negative (`price` has no validator); the bounds and monotonicity of the discounted price are stated for a non-negative price only.
- The `print` in the discount handler's catch-all `except` is left out: it is console output, and the model only records that the exception is swallowed.
- Other database faults are left out. Only the payment INSERT, the cart DELETE and the wishlist INSERT can fail. A failure inside the receivers (the notification, product or shipment writes) is not modelled.
- The discount handler's dispatch is left out. `Signals.NotifyUserDiscountWith` is its body, taken as invoked with the arguments it declares. The serializer's `fields` list omits `discount`, so `validated_data` never carries one in the running system. The `Absent` case of `Signals.DiscountField` covers that.
- `add_to_cart` is left out. It passes an `object_id` that `Cart` does not have, so it cannot succeed as written.
- `add_rating` is left out. It bypasses the star choices, and its `get_object()` fails on the same prefetch as `add_to_wishlist` (see "## Findings"). The `Rating` record, its star choices and its unique constraint (`Stores.InsertRating`) are modelled.
- Category, SubCategory, ProductAtribute and NNotification have no part in the workflow.
- Images, dates, ordering metadata and `__str__` methods carry no behaviour.
- Notifications.DiscountText: states only that the text opens with the product's name. The two discount values in it are fixed by the body (via `Notifications.IntText`, whose decimal part `Notifications.DecimalRoundTrip` inverts), not by the contract.
- Views.AddToWishlistCountsOnce: is about the handler with the prefetch corrected. As written no add succeeds (`Views.AddToWishlistAsWritten`), so no pair's count ever changes.
- Views.WishlistThenDiscountNotifies: is about the corrected add and the corrected filter. As written neither the add nor the notification happens (`Views.AddToWishlistAsWritten`, `Signals.NotifyUserDiscountAsWritten`).
- The `created == false` case of `Signals.OnPaymentSaved` is stated, but no handler in the model reaches it: `pay` always passes `created` as true. That case is an update of an existing payment.

## Findings

| source | as written | input that shows it | evidently intended | confidence | as-written member | corrected member |
|---|---|---|---|---|---|---|
| ecom/signals.py:40-41 | `notify_user_discount` is a `post_save` receiver for `Product` that declares four parameters `post_save` never passes, so every `Product.save()` writes the row and then raises `TypeError`. In `pay`, the save in `quantity_control` raises inside `payment.save()`. The `except` returns 500 with the payment, both notifications and the decrement committed, `ship` never runs, and the cart entry stays, so a retry charges again | any chargeable entry, e.g. the store of `Views.ScenarioStore` paying entry 10 as user 3 | the payment completes: 200, one pending shipment, entry removed | high; not executed | Views.RetryAsWrittenChargesAgain | Views.Pay |
| ecom/signals.py:44 | the wishlist query filters on `products__id`, a field `Wishlist` does not have. It raises `FieldError`, which the catch-all swallows, so no discount notification is ever sent | product 1 with discount 10, one wishlist row (user 3, product 1), discount raised to 20 | filter the wishlist rows on their product, so user 3 is notified once | high; not executed | Signals.DiscountLookupDefect | Signals.DiscountNotifiesEachWishlister |
| ecom/views.py:40 | the product view's queryset prefetches `sub_category`, but the field of `Product` is `subcategory`. Fetching any existing product through it raises `AttributeError` in `get_object()`, outside the `try`, so `add_to_wishlist` answers 500 for every existing product and never adds a row | the store of `Views.ScenarioStore`, user 3 adding product 1 | prefetch `subcategory`: 201 and one new wishlist row | high; not executed | Views.WishlistPrefetchDefect | Views.AddToWishlistCountsOnce |
