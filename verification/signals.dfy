/**
 * The reactions of `ecom/signals.py`, made an explicit ordered chain. Saving a payment
 * runs, in registration order, `notify_payment`, `quantity_control` and `ship`; each
 * step here returns the store it leaves behind and the exception it raised, if any.
 * A raised exception stops the chain (the later receivers never run), but what the
 * earlier steps wrote stays written.
 */
module Signals {
  import opened Options
  import opened Models
  import opened Notifications
  import opened Stores

  /**
   * How the `Product` post_save receiver is wired.
   *
   * `AsWritten`: `notify_user_discount` is connected to `post_save` for `Product`, but
   * it declares the parameters `validated_data`, `product_id`, `old_discount` and
   * `new_discount`, which `post_save` never passes. Every `Product.save()` therefore
   * writes the row and then raises `TypeError` while dispatching `post_save`.
   *
   * `Corrected`: saving a product dispatches nothing that can fail; the discount handler
   * is invoked on its own with the arguments it declares (`NotifyUserDiscount`).
   */
  datatype Wiring = AsWritten | Corrected

  datatype HandlerError =
    | ProfileMissing             // `customer.profile` on a user without a profile
    | ReceiverSignatureMismatch  // the `TypeError` described under `Wiring`

  /** The store after a handler ran, and the exception it raised, if any. */
  datatype Run = Run(store: Store, raised: Option<HandlerError>)

  // ---------------------------------------------------------------------------
  // The payment reactions
  // ---------------------------------------------------------------------------

  /**
   * `notify_payment`: one notification to the seller, then one to the buyer, both
   * sent on behalf of the payment and both naming the product.
   */
  function NotifyPayment(s: Store, id: PaymentId, payment: Payment, product: Product): (r: Store)
    ensures r == s.(outbox := r.outbox)
    ensures |r.outbox| == |s.outbox| + 2 && r.outbox[..|s.outbox|] == s.outbox
    ensures r.outbox[|s.outbox|].recipient == product.user
    ensures r.outbox[|s.outbox| + 1].recipient == payment.user
    ensures forall i :: |s.outbox| <= i < |r.outbox| ==>
              && r.outbox[i].actor == PaymentActor(id)
              && r.outbox[i].verb == PaymentVerb
              && Mentions(r.outbox[i].description, product.name)
  {
    var toSeller := Notification(PaymentActor(id), product.user, PaymentVerb, SellerPaidText(product.name));
    var toBuyer := Notification(PaymentActor(id), payment.user, PaymentVerb, BuyerPaidText(product.name));
    s.(outbox := s.outbox + [toSeller, toBuyer])
  }

  /**
   * `Product.save()` on an in-memory product object: the row is written with every
   * field of the object, then `post_save` is dispatched, which raises under `AsWritten`.
   */
  function SaveProduct(s: Store, id: ProductId, product: Product, wiring: Wiring): (r: Run)
    ensures r.store == s.(products := s.products[id := product])
    ensures r.raised.Some? <==> wiring == AsWritten
  {
    var written := s.(products := s.products[id := product]);
    match wiring
    case AsWritten => Run(written, Some(ReceiverSignatureMismatch))
    case Corrected => Run(written, None)
  }

  /**
   * `quantity_control`: the paid product's quantity drops by exactly one, with no
   * lower bound and whether or not the payment row was newly created; nothing else
   * about the product or the store changes.
   */
  function QuantityControl(s: Store, payment: Payment, product: Product, wiring: Wiring): (r: Run)
    ensures payment.product in r.store.products
    ensures r.store.products[payment.product].quantity == product.quantity - 1
    ensures r.store.products[payment.product] == product.(quantity := r.store.products[payment.product].quantity)
    ensures r.store == s.(products := s.products[payment.product := r.store.products[payment.product]])
    ensures r.raised.Some? <==> wiring == AsWritten
  {
    SaveProduct(s, payment.product, product.(quantity := product.quantity - 1), wiring)
  }

  /**
   * The shipment `ship` records for a payment: exactly one new row, under the next
   * shipping id, sending the paid product to the buyer at the address, city and country
   * of the buyer's profile, with status `pending`; every other shipment is untouched.
   */
  predicate Shipped(before: Store, after: Store, payment: Payment) {
    && payment.user in before.profiles
    && var profile := before.profiles[payment.user];
    && after.nextShipping == before.nextShipping + 1
    && after.shippings.Keys == before.shippings.Keys + {before.nextShipping}
    && after.shippings[before.nextShipping] == Shipping(
         payment.user, payment.product, profile.address, profile.city, Pending, profile.country)
    && (forall other :: other in before.shippings && other != before.nextShipping ==>
          after.shippings[other] == before.shippings[other])
  }

  /**
   * `ship`: on a newly created payment, one `pending` shipment of the paid product to
   * the buyer, addressed from the buyer's profile. A buyer without a profile makes the
   * handler raise before anything is written.
   */
  function Ship(s: Store, payment: Payment, created: bool): (r: Run)
    ensures r.store == s.(shippings := r.store.shippings, nextShipping := r.store.nextShipping)
    ensures r.raised.Some? <==> created && payment.user !in s.profiles
    ensures r.raised.Some? ==> r.raised.value == ProfileMissing && r.store == s
    ensures !created ==> r.store == s
    ensures created && payment.user in s.profiles ==> Shipped(s, r.store, payment)
  {
    if !created then Run(s, None)
    else if payment.user !in s.profiles then Run(s, Some(ProfileMissing))
    else
      var profile := s.profiles[payment.user];
      var shipment := Shipping(payment.user, payment.product, profile.address, profile.city, Pending, profile.country);
      Run(s.(shippings := s.shippings[s.nextShipping := shipment], nextShipping := s.nextShipping + 1), None)
  }

  /**
   * What `notify_payment` and `quantity_control` leave behind: the seller and then the
   * buyer notified about the product, the product's quantity one lower, and nothing
   * else changed.
   */
  predicate Reacted(before: Store, after: Store, id: PaymentId, payment: Payment, product: Product) {
    && |after.outbox| == |before.outbox| + 2
    && after.outbox[..|before.outbox|] == before.outbox
    && after.outbox[|before.outbox|].recipient == product.user
    && after.outbox[|before.outbox| + 1].recipient == payment.user
    && (forall i :: |before.outbox| <= i < |after.outbox| ==>
          && after.outbox[i].actor == PaymentActor(id)
          && after.outbox[i].verb == PaymentVerb
          && Mentions(after.outbox[i].description, product.name))
    && after.products == before.products[payment.product := product.(quantity := product.quantity - 1)]
    && after == before.(outbox := after.outbox, products := after.products)
  }

  /**
   * `post_save` for a payment: the three receivers in registration order. `product`
   * is the product object the payment was built from. Whatever happens to the shipment,
   * both parties are notified and the stock is decremented first; the shipment then
   * depends on the wiring, on `created` and on the buyer's profile.
   */
  function OnPaymentSaved(s: Store, id: PaymentId, payment: Payment, product: Product, created: bool, wiring: Wiring): (r: Run)
    ensures Reacted(s, r.store.(shippings := s.shippings, nextShipping := s.nextShipping), id, payment, product)
    ensures r.raised.Some? <==> wiring == AsWritten || (created && payment.user !in s.profiles)
    ensures created && r.raised.None? ==> Shipped(s, r.store, payment)
    ensures !created || r.raised.Some? ==>
              r.store.shippings == s.shippings && r.store.nextShipping == s.nextShipping
  {
    var notified := NotifyPayment(s, id, payment, product);
    var counted := QuantityControl(notified, payment, product, wiring);
    assert Reacted(s, counted.store, id, payment, product);
    if counted.raised.Some? then counted
    else
      var shipped := Ship(counted.store, payment, created);
      assert shipped.store.(shippings := s.shippings, nextShipping := s.nextShipping) == counted.store;
      shipped
  }

  // ---------------------------------------------------------------------------
  // The discount notifier
  // ---------------------------------------------------------------------------

  /** The `discount` entry of `validated_data`: missing, or present (possibly null). */
  datatype DiscountField = Absent | Given(value: Option<int>)

  /**
   * `validated_data.get('discount', instance.discount)`. Without an entry it falls back
   * to the instance's own discount, so only an explicit entry can make the guard hold.
   */
  function NewDiscount(instanceDiscount: Option<int>, field: DiscountField): (r: Option<int>)
    ensures field.Absent? ==> r == instanceDiscount
    ensures field.Given? ==> r == field.value
    ensures DiscountGuard(instanceDiscount, r) ==> field.Given?
  {
    match field
    case Absent => instanceDiscount
    case Given(d) => d
  }

  /** Python's truth value of a nullable integer: `None` and `0` are false. */
  function Truthy(d: Option<int>): bool {
    d.Some? && d.value != 0
  }

  /**
   * `if old_discount and new_discount is not None: if old_discount < new_discount`:
   * the old discount must be truthy, the new one present and larger.
   */
  function DiscountGuard(oldDiscount: Option<int>, newDiscount: Option<int>): (b: bool)
    ensures b ==> oldDiscount.Some? && newDiscount.Some? && oldDiscount.value < newDiscount.value
    ensures oldDiscount.None? || oldDiscount == Some(0) || newDiscount.None? ==> !b
    ensures oldDiscount.Some? && newDiscount.Some? && oldDiscount.value != 0 && oldDiscount.value < newDiscount.value ==> b
  {
    Truthy(oldDiscount) && newDiscount.Some? && oldDiscount.value < newDiscount.value
  }

  /** The relations of `Wishlist` a filter can follow to an id; any other name raises `FieldError`. */
  function WishlistRelations(): set<string> {
    {"user", "product"}
  }

  /** The id a wishlist row holds in the relation `field`. */
  function RelatedId(row: Wishlist, field: string): nat
    requires field in WishlistRelations()
  {
    if field == "user" then row.user else row.product
  }

  /** The ids below `bound` of the rows whose relation `field` holds `value`. */
  function MatchingRows(wishlists: map<WishlistId, Wishlist>, bound: nat, field: string, value: nat): set<WishlistId>
    requires field in WishlistRelations()
  {
    set id | id in wishlists && id < bound && RelatedId(wishlists[id], field) == value
  }

  /** Raising the bound by one adds the row at the old bound, if it matches. */
  lemma MatchingRowsStep(wishlists: map<WishlistId, Wishlist>, bound: nat, field: string, value: nat)
    requires field in WishlistRelations() && bound > 0
    ensures var id := bound - 1;
            |MatchingRows(wishlists, bound, field, value)|
            == |MatchingRows(wishlists, id, field, value)|
               + (if id in wishlists && RelatedId(wishlists[id], field) == value then 1 else 0)
  {
    var id := bound - 1;
    var earlier := MatchingRows(wishlists, id, field, value);
    if id in wishlists && RelatedId(wishlists[id], field) == value {
      assert MatchingRows(wishlists, bound, field, value) == earlier + {id};
    } else {
      assert MatchingRows(wishlists, bound, field, value) == earlier;
    }
  }

  /**
   * `Wishlist.objects.filter(<field>__id=value)` iterated, among ids below `bound`, in id
   * order: the users of the matching rows, one per row.
   */
  function WishlistScan(wishlists: map<WishlistId, Wishlist>, bound: nat, field: string, value: nat): (users: seq<UserId>)
    requires field in WishlistRelations()
    ensures |users| == |MatchingRows(wishlists, bound, field, value)|
  {
    if bound == 0 then
      assert MatchingRows(wishlists, bound, field, value) == {};
      []
    else
      var earlier := WishlistScan(wishlists, bound - 1, field, value);
      var id := bound - 1;
      MatchingRowsStep(wishlists, bound, field, value);
      if id in wishlists && RelatedId(wishlists[id], field) == value then earlier + [wishlists[id].user]
      else earlier
  }

  /** One discount notification per user, in order. */
  function DiscountNotes(users: seq<UserId>, product: ProductId, text: string): (notes: seq<Notification>)
    ensures Recipients(notes) == users
    ensures forall i :: 0 <= i < |notes| ==>
              notes[i].actor == ProductActor(product) && notes[i].verb == DiscountVerb && notes[i].description == text
  {
    if |users| == 0 then []
    else
      var last := Notification(ProductActor(product), users[|users| - 1], DiscountVerb, text);
      DiscountNotes(users[..|users| - 1], product, text) + [last]
  }

  /** The exceptions the discount handler's body can raise. */
  datatype LookupError =
    | ProductDoesNotExist  // `Product.objects.get(id=product_id)` found nothing
    | FieldError           // the wishlist filter names a relation `Wishlist` does not have

  /** How the body of the handler's `try` ends: with the store it leaves, or an exception. */
  datatype Attempt = Finished(store: Store) | Raised(error: LookupError)

  /**
   * The body of `notify_user_discount`'s `try`, with the wishlist filter following the
   * relation `lookup`. The product is looked up by id, the wishlist rows are filtered,
   * and only then is the guard tested; when it holds, each matching row's user is sent
   * one notification, in the order the rows are scanned.
   */
  function DiscountAttempt(s: Store, instance: Product, productId: ProductId, field: DiscountField, lookup: string): (r: Attempt)
    ensures r == Raised(ProductDoesNotExist) <==> productId !in s.products
    ensures r == Raised(FieldError) <==> productId in s.products && lookup !in WishlistRelations()
    ensures r.Finished? ==> r.store == s.(outbox := r.store.outbox)
    ensures r.Finished? ==> |s.outbox| <= |r.store.outbox| && r.store.outbox[..|s.outbox|] == s.outbox
    ensures r.Finished? && !DiscountGuard(instance.discount, NewDiscount(instance.discount, field)) ==> r.store == s
    ensures r.Finished? ==> forall i :: |s.outbox| <= i < |r.store.outbox| ==>
              && r.store.outbox[i].actor == ProductActor(productId)
              && r.store.outbox[i].verb == DiscountVerb
              && IsPrefix(s.products[productId].name, r.store.outbox[i].description)
    ensures r.Finished? ==>
              Recipients(r.store.outbox[|s.outbox|..])
              == if DiscountGuard(instance.discount, NewDiscount(instance.discount, field))
                 then WishlistScan(s.wishlists, s.nextWishlist, lookup, productId) else []
  {
    if productId !in s.products then Raised(ProductDoesNotExist)
    else if lookup !in WishlistRelations() then Raised(FieldError)
    else
      var product := s.products[productId];
      var users := WishlistScan(s.wishlists, s.nextWishlist, lookup, productId);
      var oldDiscount := instance.discount;
      var newDiscount := NewDiscount(instance.discount, field);
      if !DiscountGuard(oldDiscount, newDiscount) then Finished(s)
      else
        var text := DiscountText(product.name, oldDiscount.value, newDiscount.value);
        var notes := DiscountNotes(users, productId, text);
        assert (s.outbox + notes)[|s.outbox|..] == notes;
        Finished(s.(outbox := s.outbox + notes))
  }

  /**
   * `notify_user_discount` with the wishlist filter following `lookup`: the `try` body,
   * then its two `except` clauses, which swallow both exceptions and leave the store as
   * it was.
   */
  function NotifyUserDiscountWith(s: Store, instance: Product, productId: ProductId, field: DiscountField, lookup: string): (r: Store)
    ensures r == s.(outbox := r.outbox)
    ensures |s.outbox| <= |r.outbox| && r.outbox[..|s.outbox|] == s.outbox
    ensures productId !in s.products || lookup !in WishlistRelations() ==> r == s
  {
    match DiscountAttempt(s, instance, productId, field, lookup)
    case Finished(after) => after
    case Raised(_) => s
  }

  /** The relation the handler's filter names as written (`products__id`). */
  const WrittenLookup: string := "products"

  /** The relation the filter evidently means (`product__id`). */
  const IntendedLookup: string := "product"

  /**
   * `notify_user_discount` invoked with the arguments it declares, with the filter on the
   * wishlist's `product`. A missing product or a false guard changes nothing; otherwise
   * each wishlist row of the product gets one notification, in id order.
   */
  function NotifyUserDiscount(s: Store, instance: Product, productId: ProductId, field: DiscountField): (r: Store)
    ensures r == s.(outbox := r.outbox)
    ensures |s.outbox| <= |r.outbox| && r.outbox[..|s.outbox|] == s.outbox
    ensures productId !in s.products || !DiscountGuard(instance.discount, NewDiscount(instance.discount, field)) ==> r == s
    ensures forall i :: |s.outbox| <= i < |r.outbox| ==>
              && r.outbox[i].actor == ProductActor(productId)
              && r.outbox[i].verb == DiscountVerb
              && IsPrefix(s.products[productId].name, r.outbox[i].description)
    ensures Recipients(r.outbox[|s.outbox|..])
            == if productId in s.products && DiscountGuard(instance.discount, NewDiscount(instance.discount, field))
               then WishlistScan(s.wishlists, s.nextWishlist, IntendedLookup, productId) else []
  {
    NotifyUserDiscountWith(s, instance, productId, field, IntendedLookup)
  }

  /**
   * `notify_user_discount` exactly as written, invoked with the arguments it declares.
   * Its filter names `products`, which `Wishlist` does not have, so every run that gets
   * past the product lookup raises `FieldError`; both exceptions are swallowed, and the
   * handler never sends anything.
   */
  function NotifyUserDiscountAsWritten(s: Store, instance: Product, productId: ProductId, field: DiscountField): (r: Store)
    ensures r == s
  {
    NotifyUserDiscountWith(s, instance, productId, field, WrittenLookup)
  }

  /**
   * A product with discount 10 that user 3 has wishlisted, raised to 20: the intended
   * handler notifies user 3 once, the handler as written notifies nobody.
   */
  lemma DiscountLookupDefect()
    ensures var s := Store(map[1 := Product(7, "Lamp", 100.0, true, 5, Some(10))], map[], map[], map[], map[], map[],
                           map[0 := Wishlist(3, 1)], map[], [], 0, 0, 1, 0);
            var instance := s.products[1];
            && Recipients(NotifyUserDiscount(s, instance, 1, Given(Some(20))).outbox) == [3]
            && NotifyUserDiscountAsWritten(s, instance, 1, Given(Some(20))).outbox == []
  {
    var s := Store(map[1 := Product(7, "Lamp", 100.0, true, 5, Some(10))], map[], map[], map[], map[], map[],
                   map[0 := Wishlist(3, 1)], map[], [], 0, 0, 1, 0);
    assert WishlistScan(s.wishlists, 1, IntendedLookup, 1) == [3];
  }

  // ---------------------------------------------------------------------------
  // Lemmas about the discount notifier
  // ---------------------------------------------------------------------------

  /** The ids below `bound` of the rows recording that `user` wishlisted `product`. */
  function RowsBelow(wishlists: map<WishlistId, Wishlist>, bound: nat, user: UserId, product: ProductId): set<WishlistId> {
    set id | id in wishlists && id < bound && wishlists[id] == Wishlist(user, product)
  }

  /** Raising the bound by one adds the row at the old bound, if it is one of the pair's. */
  lemma RowsBelowStep(wishlists: map<WishlistId, Wishlist>, bound: nat, user: UserId, product: ProductId)
    requires bound > 0
    ensures var id := bound - 1;
            |RowsBelow(wishlists, bound, user, product)|
            == |RowsBelow(wishlists, id, user, product)|
               + (if id in wishlists && wishlists[id] == Wishlist(user, product) then 1 else 0)
  {
    var id := bound - 1;
    var earlier := RowsBelow(wishlists, id, user, product);
    if id in wishlists && wishlists[id] == Wishlist(user, product) {
      assert RowsBelow(wishlists, bound, user, product) == earlier + {id};
    } else {
      assert RowsBelow(wishlists, bound, user, product) == earlier;
    }
  }

  /** The scan lists a user exactly as often as it has rows for the product below the bound. */
  lemma {:induction false} WishlistUsersCount(wishlists: map<WishlistId, Wishlist>, bound: nat, product: ProductId, user: UserId)
    ensures multiset(WishlistScan(wishlists, bound, IntendedLookup, product))[user] == |RowsBelow(wishlists, bound, user, product)|
  {
    if bound == 0 {
      assert RowsBelow(wishlists, bound, user, product) == {};
    } else {
      var id := bound - 1;
      WishlistUsersCount(wishlists, id, product, user);
      RowsBelowStep(wishlists, bound, user, product);
      var earlier := WishlistScan(wishlists, id, IntendedLookup, product);
      if id in wishlists && RelatedId(wishlists[id], IntendedLookup) == product {
        assert WishlistScan(wishlists, bound, IntendedLookup, product) == earlier + [wishlists[id].user];
        assert multiset(earlier + [wishlists[id].user]) == multiset(earlier) + multiset{wishlists[id].user};
      } else {
        assert WishlistScan(wishlists, bound, IntendedLookup, product) == earlier;
      }
    }
  }

  /**
   * When the guard holds, each wishlisting user is notified exactly once per wishlist
   * row for the product, and nobody else is notified; otherwise nobody is.
   */
  lemma DiscountNotifiesEachWishlister(s: Store, instance: Product, productId: ProductId, field: DiscountField, user: UserId)
    requires Valid(s)
    ensures var r := NotifyUserDiscount(s, instance, productId, field);
            multiset(Recipients(r.outbox[|s.outbox|..]))[user]
            == if productId in s.products && DiscountGuard(instance.discount, NewDiscount(instance.discount, field))
               then |WishlistRows(s.wishlists, user, productId)| else 0
  {
    if productId in s.products && DiscountGuard(instance.discount, NewDiscount(instance.discount, field)) {
      WishlistUsersCount(s.wishlists, s.nextWishlist, productId, user);
      assert RowsBelow(s.wishlists, s.nextWishlist, user, productId) == WishlistRows(s.wishlists, user, productId);
    }
  }

  /** An old discount of zero (falsy) notifies nobody, whatever the new discount. */
  lemma ZeroOldDiscountNotifiesNobody(s: Store, instance: Product, productId: ProductId, field: DiscountField)
    requires instance.discount == Some(0)
    ensures NotifyUserDiscount(s, instance, productId, field) == s
  {
  }

  /** Without a `discount` entry the new discount equals the old one, so nobody is notified. */
  lemma AbsentDiscountNotifiesNobody(s: Store, instance: Product, productId: ProductId)
    ensures NotifyUserDiscount(s, instance, productId, Absent) == s
  {
  }

  /** Keeping or lowering the discount notifies nobody. */
  lemma NoIncreaseNotifiesNobody(s: Store, instance: Product, productId: ProductId, newDiscount: int)
    requires instance.discount.Some? && newDiscount <= instance.discount.value
    ensures NotifyUserDiscount(s, instance, productId, Given(Some(newDiscount))) == s
  {
  }
}
