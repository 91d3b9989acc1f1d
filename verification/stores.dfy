/**
 * The database the workflow reads and writes, as one immutable value: a finite map
 * per table, keyed by row id, plus the notification outbox. Each table that the
 * workflow inserts into has a counter standing for the database's id sequence.
 */
module Stores {
  import opened Options
  import opened Models
  import opened Notifications

  datatype Store = Store(
    products: map<ProductId, Product>,
    carts: map<CartId, CartEntry>,
    methods: map<MethodId, PaymentMethod>,
    payments: map<PaymentId, Payment>,
    shippings: map<ShippingId, Shipping>,
    profiles: map<UserId, Profile>,
    wishlists: map<WishlistId, Wishlist>,
    ratings: map<RatingId, Rating>,
    outbox: seq<Notification>,
    nextPayment: PaymentId,
    nextShipping: ShippingId,
    nextWishlist: WishlistId,
    nextRating: RatingId)

  /** Every id a table holds was issued by its sequence, so the next id is unused. */
  predicate IdsIssued(s: Store) {
    && (forall id :: id in s.payments ==> id < s.nextPayment)
    && (forall id :: id in s.shippings ==> id < s.nextShipping)
    && (forall id :: id in s.wishlists ==> id < s.nextWishlist)
    && (forall id :: id in s.ratings ==> id < s.nextRating)
  }

  /** The foreign keys the rows hold point at rows that exist. */
  predicate ForeignKeysHold(s: Store) {
    && (forall id :: id in s.carts ==> s.carts[id].product in s.products)
    && (forall id :: id in s.payments ==> s.payments[id].product in s.products)
    && (forall id :: id in s.payments ==> s.payments[id].paymentMethod in s.methods)
    && (forall id :: id in s.shippings ==> s.shippings[id].product in s.products)
    && (forall id :: id in s.wishlists ==> s.wishlists[id].product in s.products)
  }

  /** `unique_together = ('user', 'content_type', 'object_id')` on `Rating`. */
  predicate RatingsUnique(ratings: map<RatingId, Rating>) {
    forall a, b :: a in ratings && b in ratings && a != b ==> ratings[a].Key() != ratings[b].Key()
  }

  /** The constraints the database itself maintains. */
  predicate Valid(s: Store) {
    IdsIssued(s) && ForeignKeysHold(s) && RatingsUnique(s.ratings)
  }

  /** The ids of the wishlist rows recording that `user` wishlisted `product`. */
  function WishlistRows(wishlists: map<WishlistId, Wishlist>, user: UserId, product: ProductId): (ids: set<WishlistId>)
    ensures forall id :: id in ids <==> id in wishlists && wishlists[id] == Wishlist(user, product)
  {
    set id | id in wishlists && wishlists[id] == Wishlist(user, product)
  }

  /** Inserting a row under a fresh id adds one row for its own pair and none for any other. */
  lemma WishlistRowsInsert(wishlists: map<WishlistId, Wishlist>, id: WishlistId, row: Wishlist, user: UserId, product: ProductId)
    requires id !in wishlists
    ensures |WishlistRows(wishlists[id := row], user, product)|
            == |WishlistRows(wishlists, user, product)| + (if row == Wishlist(user, product) then 1 else 0)
  {
    var before := WishlistRows(wishlists, user, product);
    var after := WishlistRows(wishlists[id := row], user, product);
    if row == Wishlist(user, product) {
      assert after == before + {id};
    } else {
      assert after == before;
    }
  }

  /**
   * Inserting a rating: the unique constraint rejects a second rating by the same user
   * of the same object (`None` stands for the `IntegrityError`).
   */
  function InsertRating(s: Store, r: Rating): (res: Option<Store>)
    ensures res.None? <==> exists id :: id in s.ratings && s.ratings[id].Key() == r.Key()
    ensures res.Some? ==> res.value.ratings.Keys == s.ratings.Keys + {s.nextRating}
    ensures res.Some? ==> res.value.ratings[s.nextRating] == r
    ensures res.Some? ==> res.value.ratings == s.ratings[s.nextRating := r]
    ensures res.Some? && Valid(s) ==> Valid(res.value)
    ensures res.Some? ==> res.value == s.(ratings := res.value.ratings, nextRating := s.nextRating + 1)
  {
    if exists id :: id in s.ratings && s.ratings[id].Key() == r.Key() then None
    else Some(s.(ratings := s.ratings[s.nextRating := r], nextRating := s.nextRating + 1))
  }
}
