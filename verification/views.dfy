/**
 * The request handlers of `ecom/views.py` that the workflow rests on: the cart lookup
 * restricted to the requester's own entries, `CartViewSet.pay`, and
 * `ProductViewSet.add_to_wishlist`. A handler is a pure function from the store, the
 * request and the environment's persistence faults to a status and the store it leaves.
 *
 * Transactions matter only through their outcome. A database error inside the atomic
 * block marks it for rollback, so the handler returns 500 and the store is unchanged.
 * An ordinary Python exception raised by a `post_save` receiver is caught by `pay`'s
 * `except` without marking the block, so the block commits what was written before it.
 */
module Views {
  import opened Options
  import opened Models
  import opened Notifications
  import opened Stores
  import opened Signals

  /** The response statuses these handlers produce. */
  datatype Status =
    | Ok           // 200
    | Created      // 201
    | Forbidden    // 403
    | NotFound     // 404
    | ServerError  // 500

  /** Persistence failures the environment may inject: a failing INSERT or DELETE. */
  datatype Faults = Faults(insertFails: bool, deleteFails: bool)

  datatype Reply = Reply(status: Status, store: Store)

  // ---------------------------------------------------------------------------
  // Cart lookup
  // ---------------------------------------------------------------------------

  /** `CartViewSet.get_queryset`: the requester's own cart entries, and only those. */
  function CartQuerySet(s: Store, requester: UserId): (entries: map<CartId, CartEntry>)
    ensures forall id :: id in entries <==> id in s.carts && s.carts[id].user == requester
    ensures forall id :: id in entries ==> entries[id] == s.carts[id]
  {
    map id | id in s.carts && s.carts[id].user == requester :: s.carts[id]
  }

  /** `get_object()` on the cart view: `None` is the 404 for an id outside the queryset. */
  function GetCart(s: Store, requester: UserId, id: CartId): (r: Option<CartEntry>)
    ensures r.Some? <==> id in s.carts && s.carts[id].user == requester
    ensures r.Some? ==> r.value == s.carts[id]
  {
    if id in s.carts && s.carts[id].user == requester then Some(s.carts[id]) else None
  }

  /** `get_object()` finds an entry exactly when the restricted queryset holds it. */
  lemma GetCartSeesOnlyQuerySet(s: Store, requester: UserId, id: CartId)
    ensures GetCart(s, requester, id).Some? <==> id in CartQuerySet(s, requester)
    ensures GetCart(s, requester, id).Some? ==> GetCart(s, requester, id).value == CartQuerySet(s, requester)[id]
  {
  }

  // ---------------------------------------------------------------------------
  // Payment method lookup
  // ---------------------------------------------------------------------------

  /** The ids of the payment-method rows named `visa`. */
  function VisaRows(methods: map<MethodId, PaymentMethod>): set<MethodId> {
    set id | id in methods && methods[id].name == Visa
  }

  lemma SingletonHasOneElement<T>(xs: set<T>, a: T, b: T)
    requires |xs| == 1 && a in xs && b in xs
    ensures a == b
  {
    var rest := xs - {a};
    assert |rest| == 0;
    assert b in rest || b == a;
  }

  /**
   * `PaymentMethod.objects.get(name='visa')`: the one row so named. `None` stands for
   * both `DoesNotExist` (no such row) and `MultipleObjectsReturned` (several).
   */
  function VisaMethod(s: Store): (r: Option<MethodId>)
    ensures r.Some? <==> |VisaRows(s.methods)| == 1
    ensures r.Some? ==> r.value in s.methods && s.methods[r.value].name == Visa
  {
    var rows := VisaRows(s.methods);
    if |rows| != 1 then None
    else
      assert forall a, b :: a in rows && b in rows ==> a == b by {
        forall a, b | a in rows && b in rows ensures a == b {
          SingletonHasOneElement(rows, a, b);
        }
      }
      var id :| id in rows;
      Some(id)
  }

  // ---------------------------------------------------------------------------
  // CartViewSet.pay
  // ---------------------------------------------------------------------------

  /** The payment `pay` builds for a cart entry: the product's unit price as the amount, paid by visa. */
  function NewPayment(methodId: MethodId, requester: UserId, entry: CartEntry, product: Product): (p: Payment)
    ensures p.user == requester && p.product == entry.product && p.paymentMethod == methodId
    ensures p.amount == p.unitPrice == product.price
  {
    Payment(methodId, requester, entry.product, product.price, product.price)
  }

  /**
   * The part of `pay` after the lookups: the payment row inserted under the next payment
   * id, then the payment receivers run on it. The cart entry is not touched here.
   */
  function Charge(s: Store, cartId: CartId, requester: UserId, methodId: MethodId, wiring: Wiring): (run: Run)
    requires cartId in s.carts && s.carts[cartId].user == requester
    requires s.carts[cartId].product in s.products
    requires methodId in s.methods && s.methods[methodId].name == Visa
    ensures Charged(s, run.store, cartId, requester)
    ensures run.store.payments[s.nextPayment].paymentMethod == methodId
    ensures run.store.carts == s.carts
    ensures run.raised.Some? <==> wiring == AsWritten || requester !in s.profiles
    ensures run.raised.None? ==>
              Shipped(s, run.store, NewPayment(methodId, requester, s.carts[cartId], s.products[s.carts[cartId].product]))
    ensures run.raised.Some? ==> run.store.shippings == s.shippings && run.store.nextShipping == s.nextShipping
  {
    var entry := s.carts[cartId];
    var product := s.products[entry.product];
    var payment := NewPayment(methodId, requester, entry, product);
    var id := s.nextPayment;
    var inserted := s.(payments := s.payments[id := payment], nextPayment := id + 1);
    OnPaymentSaved(inserted, id, payment, product, true, wiring)
  }

  /**
   * `pay` with the `Product` receivers wired as `wiring`. Non-owners never see the
   * entry, so the ownership test after the lookup is kept as written but cannot fail.
   */
  function PayWith(s: Store, cartId: CartId, requester: UserId, faults: Faults, wiring: Wiring): (r: Reply)
    ensures r.status in {Ok, NotFound, ServerError}
    ensures r.status == NotFound <==> !(cartId in s.carts && s.carts[cartId].user == requester)
    ensures r.status == NotFound ==> r.store == s
    ensures r.status == Ok <==>
              wiring == Corrected && Chargeable(s, cartId, requester, faults)
              && requester in s.profiles && !faults.deleteFails
  {
    match GetCart(s, requester, cartId)
    case None => Reply(NotFound, s)
    case Some(entry) =>
      if requester != entry.user then Reply(Forbidden, s)
      // `instance.product` and the method lookup raise outside any `try`: a plain 500,
      // with nothing written yet.
      else if entry.product !in s.products then Reply(ServerError, s)
      else
        match VisaMethod(s)
        case None => Reply(ServerError, s)
        case Some(methodId) =>
          if faults.insertFails then Reply(ServerError, s)
          else
            var run := Charge(s, cartId, requester, methodId, wiring);
            if run.raised.Some? then Reply(ServerError, run.store)
            else if faults.deleteFails then Reply(ServerError, s)
            else Reply(Ok, run.store.(carts := run.store.carts - {cartId}))
  }

  /**
   * The part of a payment that happens before any shipment: one new payment row under
   * the next payment id, made out to the requester for the entry's product at the
   * product's unit price (the cart quantity plays no part) and paid with a `visa` row;
   * the seller and the buyer notified about the product; the product's quantity one
   * lower; carts, shipments and every other table unchanged.
   */
  predicate Charged(s: Store, s': Store, cartId: CartId, requester: UserId)
    requires cartId in s.carts && s.carts[cartId].product in s.products
  {
    var entry := s.carts[cartId];
    var product := s.products[entry.product];
    var id := s.nextPayment;
    && s'.payments.Keys == s.payments.Keys + {id}
    && (forall other :: other in s.payments && other != id ==> s'.payments[other] == s.payments[other])
    && s'.nextPayment == id + 1
    && s'.payments[id].user == requester
    && s'.payments[id].product == entry.product
    && s'.payments[id].unitPrice == product.price
    && s'.payments[id].amount == product.price
    && s'.payments[id].paymentMethod in s.methods
    && s.methods[s'.payments[id].paymentMethod].name == Visa
    && |s'.outbox| == |s.outbox| + 2 && s'.outbox[..|s.outbox|] == s.outbox
    && s'.outbox[|s.outbox|].recipient == product.user
    && s'.outbox[|s.outbox| + 1].recipient == requester
    && Mentions(s'.outbox[|s.outbox|].description, product.name)
    && Mentions(s'.outbox[|s.outbox| + 1].description, product.name)
    && s'.outbox[|s.outbox|].actor == PaymentActor(id) && s'.outbox[|s.outbox| + 1].actor == PaymentActor(id)
    && s'.outbox[|s.outbox|].verb == PaymentVerb && s'.outbox[|s.outbox| + 1].verb == PaymentVerb
    && s'.products.Keys == s.products.Keys
    && s'.products[entry.product] == product.(quantity := product.quantity - 1)
    && (forall other :: other in s.products && other != entry.product ==> s'.products[other] == s.products[other])
    && s'.methods == s.methods && s'.profiles == s.profiles
    && s'.wishlists == s.wishlists && s'.ratings == s.ratings
    && s'.nextWishlist == s.nextWishlist && s'.nextRating == s.nextRating
  }

  /**
   * A completed payment: charged as above, one `pending` shipment to the buyer's
   * profile address, and exactly the paid cart entry removed.
   */
  predicate Paid(s: Store, s': Store, cartId: CartId, requester: UserId)
    requires cartId in s.carts && s.carts[cartId].product in s.products
  {
    && Charged(s, s', cartId, requester)
    && s'.carts == s.carts - {cartId}
    && Shipped(s, s', NewPayment(s'.payments[s.nextPayment].paymentMethod, requester, s.carts[cartId], s.products[s.carts[cartId].product]))
  }

  /** A payment charged but left without shipment, the cart entry still in place. */
  predicate ChargedWithoutShipment(s: Store, s': Store, cartId: CartId, requester: UserId)
    requires cartId in s.carts && s.carts[cartId].product in s.products
  {
    && Charged(s, s', cartId, requester)
    && s'.carts == s.carts
    && s'.shippings == s.shippings && s'.nextShipping == s.nextShipping
  }

  /** Everything the payment step needs up to the receivers: the entry, its product, one visa row. */
  predicate Chargeable(s: Store, cartId: CartId, requester: UserId, faults: Faults) {
    && cartId in s.carts && s.carts[cartId].user == requester
    && s.carts[cartId].product in s.products
    && |VisaRows(s.methods)| == 1
    && !faults.insertFails
  }

  /**
   * `CartViewSet.pay`, with the `Product` receivers corrected. A request for an entry
   * that is missing or belongs to someone else is a 404 that changes nothing; 403 never
   * occurs. It succeeds exactly when the entry, its product and one visa row exist, the
   * requester has a profile and the database accepts the writes; it then performs the
   * whole payment. Every failure leaves the cart entry in place; the only failure that
   * leaves a trace is the buyer without a profile, which is charged but not shipped.
   */
  function Pay(s: Store, cartId: CartId, requester: UserId, faults: Faults): (r: Reply)
    ensures r.status in {Ok, NotFound, ServerError}
    ensures r.status == NotFound <==> !(cartId in s.carts && s.carts[cartId].user == requester)
    ensures r.status == NotFound ==> r.store == s
    ensures r.status == Ok <==> Chargeable(s, cartId, requester, faults) && requester in s.profiles && !faults.deleteFails
    ensures r.status == Ok ==> Paid(s, r.store, cartId, requester)
    ensures r.status != Ok ==> r.store.carts == s.carts
    ensures r.status != Ok && r.store != s ==>
              Chargeable(s, cartId, requester, faults) && requester !in s.profiles
              && ChargedWithoutShipment(s, r.store, cartId, requester)
  {
    var r := PayWith(s, cartId, requester, faults, Corrected);
    if r.status == Ok then
      PayWithSuccess(s, cartId, requester, faults, Corrected);
      r
    else
      PayWithFailure(s, cartId, requester, faults, Corrected);
      r
  }

  /**
   * `CartViewSet.pay` exactly as written: the product save in `quantity_control` raises,
   * so the request never succeeds. Once the payment row is inserted the handler returns
   * 500 with the charge committed, no shipment, and the cart entry still in place.
   */
  function PayAsWritten(s: Store, cartId: CartId, requester: UserId, faults: Faults): (r: Reply)
    ensures r.status in {NotFound, ServerError}
    ensures r.status == NotFound <==> !(cartId in s.carts && s.carts[cartId].user == requester)
    ensures r.store.carts == s.carts
    ensures r.store != s <==> Chargeable(s, cartId, requester, faults)
    ensures r.store != s ==> ChargedWithoutShipment(s, r.store, cartId, requester)
  {
    var r := PayWith(s, cartId, requester, faults, AsWritten);
    PayWithFailure(s, cartId, requester, faults, AsWritten);
    r
  }

  /** The store a successful `PayWith` leaves. */
  lemma PayWithSuccess(s: Store, cartId: CartId, requester: UserId, faults: Faults, wiring: Wiring)
    requires PayWith(s, cartId, requester, faults, wiring).status == Ok
    ensures cartId in s.carts && s.carts[cartId].product in s.products
    ensures Paid(s, PayWith(s, cartId, requester, faults, wiring).store, cartId, requester)
  {
    var methodId := VisaMethod(s).value;
    var run := Charge(s, cartId, requester, methodId, wiring);
    var s' := run.store.(carts := run.store.carts - {cartId});
    assert Charged(s, s', cartId, requester);
  }

  /** The store a failed `PayWith` leaves: unchanged, or charged without shipment. */
  lemma PayWithFailure(s: Store, cartId: CartId, requester: UserId, faults: Faults, wiring: Wiring)
    requires PayWith(s, cartId, requester, faults, wiring).status != Ok
    ensures var r := PayWith(s, cartId, requester, faults, wiring);
            && r.store.carts == s.carts
            && (r.store != s <==>
                  Chargeable(s, cartId, requester, faults) && (wiring == AsWritten || requester !in s.profiles))
            && (r.store != s ==> ChargedWithoutShipment(s, r.store, cartId, requester))
  {
    if Chargeable(s, cartId, requester, faults) && (wiring == AsWritten || requester !in s.profiles) {
      var run := Charge(s, cartId, requester, VisaMethod(s).value, wiring);
      assert |run.store.outbox| == |s.outbox| + 2;
    }
  }

  // ---------------------------------------------------------------------------
  // Lemmas about pay
  // ---------------------------------------------------------------------------

  /**
   * A charge, with or without its shipment, and with the paid entry kept or removed,
   * keeps the database constraints.
   */
  lemma ChargeKeepsValid(s: Store, s': Store, cartId: CartId, requester: UserId)
    requires Valid(s) && cartId in s.carts && s.carts[cartId].product in s.products
    requires Charged(s, s', cartId, requester)
    requires s'.carts == s.carts || s'.carts == s.carts - {cartId}
    requires || (s'.shippings == s.shippings && s'.nextShipping == s.nextShipping)
             || Shipped(s, s', NewPayment(s'.payments[s.nextPayment].paymentMethod, requester, s.carts[cartId], s.products[s.carts[cartId].product]))
    ensures Valid(s')
  {
    assert IdsIssued(s');
    assert ForeignKeysHold(s');
  }

  /** Pay keeps the database constraints, under either wiring. */
  lemma PayPreservesValid(s: Store, cartId: CartId, requester: UserId, faults: Faults, wiring: Wiring)
    requires Valid(s)
    ensures Valid(PayWith(s, cartId, requester, faults, wiring).store)
  {
    var r := PayWith(s, cartId, requester, faults, wiring);
    if r.status == Ok {
      PayWithSuccess(s, cartId, requester, faults, wiring);
      ChargeKeepsValid(s, r.store, cartId, requester);
    } else {
      PayWithFailure(s, cartId, requester, faults, wiring);
      if r.store != s {
        ChargeKeepsValid(s, r.store, cartId, requester);
      }
    }
  }

  /** On a valid store a successful pay adds exactly one payment row, at a fresh id. */
  lemma PayAddsOnePayment(s: Store, cartId: CartId, requester: UserId, faults: Faults)
    requires Valid(s) && Pay(s, cartId, requester, faults).status == Ok
    ensures var s' := Pay(s, cartId, requester, faults).store;
            && s.nextPayment !in s.payments
            && |s'.payments| == |s.payments| + 1
            && |s'.shippings| == |s.shippings| + 1
            && |s'.carts| == |s.carts| - 1
  {
    var s' := Pay(s, cartId, requester, faults).store;
    assert s.nextPayment !in s.payments.Keys;
    assert s.nextShipping !in s.shippings.Keys;
    assert |s'.payments.Keys| == |s.payments.Keys| + 1;
    assert |s'.shippings.Keys| == |s.shippings.Keys| + 1;
  }

  /**
   * A payment INSERT that fails is rolled back before the cart deletion is reached: the
   * reply is 404 or 500 and the store, the cart entry included, is unchanged.
   */
  lemma FailedPaymentSaveChangesNothing(s: Store, cartId: CartId, requester: UserId, faults: Faults)
    requires faults.insertFails
    ensures Pay(s, cartId, requester, faults).status in {NotFound, ServerError}
    ensures Pay(s, cartId, requester, faults).store == s
  {
  }

  /**
   * Paying a second time for the same entry finds nothing: a 404 that changes nothing,
   * so no second payment is made.
   */
  lemma PayTwiceFails(s: Store, cartId: CartId, requester: UserId, faults: Faults, retryFaults: Faults)
    requires Pay(s, cartId, requester, faults).status == Ok
    ensures var s' := Pay(s, cartId, requester, faults).store;
            Pay(s', cartId, requester, retryFaults) == Reply(NotFound, s')
  {
  }

  /**
   * The amount charged is the product's unit price whatever the cart quantity: it matches
   * `Cart.total_price` only when the quantity is 1 (or the price is 0).
   */
  lemma AmountIgnoresCartQuantity(s: Store, cartId: CartId, requester: UserId, faults: Faults)
    requires Pay(s, cartId, requester, faults).status == Ok
    ensures var s' := Pay(s, cartId, requester, faults).store;
            var entry := s.carts[cartId];
            var product := s.products[entry.product];
            s'.payments[s.nextPayment].amount == TotalPrice(entry, product)
            <==> entry.quantity == 1 || product.price == 0.0
  {
    var entry := s.carts[cartId];
    UnitPriceIsTotalOnlyForOne(entry, s.products[entry.product]);
  }

  /** A product's price equals the cart entry's total only for quantity 1 or price 0. */
  lemma UnitPriceIsTotalOnlyForOne(entry: CartEntry, product: Product)
    ensures product.price == TotalPrice(entry, product) <==> entry.quantity == 1 || product.price == 0.0
  {
    var x, k := product.price, entry.quantity as real;
    assert TotalPrice(entry, product) == x * k;
    ScaleFixesOnlyOne(x, k);
    assert x == x * k <==> k == 1.0 || x == 0.0;
    assert k == 1.0 <==> entry.quantity == 1;
  }

  /** `x == x * k` exactly when `k` is 1 or `x` is 0. */
  lemma ScaleFixesOnlyOne(x: real, k: real)
    ensures x == x * k <==> k == 1.0 || x == 0.0
  {
    if x != 0.0 && x == x * k {
      assert x * (k - 1.0) == 0.0;
    }
  }

  /**
   * One pay as written on a valid store whose entry can be charged: a 500 that charges
   * (one more payment row, one unit less in stock), ships nothing, keeps the entry, and
   * leaves a valid store in which the same entry can be charged again.
   */
  lemma AsWrittenChargeStep(s: Store, cartId: CartId, requester: UserId, faults: Faults)
    requires Valid(s) && Chargeable(s, cartId, requester, faults)
    ensures var r := PayAsWritten(s, cartId, requester, faults);
            var product := s.carts[cartId].product;
            && r.status == ServerError
            && Valid(r.store) && Chargeable(r.store, cartId, requester, faults)
            && |r.store.payments| == |s.payments| + 1
            && r.store.products[product].quantity == s.products[product].quantity - 1
            && r.store.shippings == s.shippings
  {
    var r := PayAsWritten(s, cartId, requester, faults);
    PayPreservesValid(s, cartId, requester, faults, AsWritten);
    assert ChargedWithoutShipment(s, r.store, cartId, requester);
    assert s.nextPayment !in s.payments;
    assert |r.store.payments.Keys| == |s.payments.Keys| + 1;
  }

  /**
   * As written, retrying a failed pay charges again: the entry survives the first
   * attempt, so a second request makes a second payment, takes a second unit of stock
   * and still ships nothing.
   */
  lemma RetryAsWrittenChargesAgain(s: Store, cartId: CartId, requester: UserId, faults: Faults)
    requires Valid(s) && Chargeable(s, cartId, requester, faults)
    ensures var first := PayAsWritten(s, cartId, requester, faults);
            var second := PayAsWritten(first.store, cartId, requester, faults);
            var product := s.carts[cartId].product;
            && first.status == ServerError && second.status == ServerError
            && |second.store.payments| == |s.payments| + 2
            && second.store.products[product].quantity == s.products[product].quantity - 2
            && cartId in second.store.carts
            && second.store.shippings == s.shippings
  {
    var first := PayAsWritten(s, cartId, requester, faults);
    AsWrittenChargeStep(s, cartId, requester, faults);
    AsWrittenChargeStep(first.store, cartId, requester, faults);
  }

  /**
   * A store with one product (price 100, no discount, 5 in stock) sold by user 7, a cart
   * entry 10 of user 3 for two units of it, one `visa` row, and user 3's profile.
   */
  function ScenarioStore(): (s: Store)
    ensures Valid(s)
  {
    Store(
      products := map[1 := Product(7, "Lamp", 100.0, true, 5, Some(0))],
      carts := map[10 := CartEntry(3, 1, 2)],
      methods := map[1 := PaymentMethod(Visa)],
      payments := map[],
      shippings := map[],
      profiles := map[3 := Profile("1 Main St", "Springfield", "US")],
      wishlists := map[],
      ratings := map[],
      outbox := [],
      nextPayment := 0,
      nextShipping := 0,
      nextWishlist := 0,
      nextRating := 0)
  }

  /** The example's entry can be charged, and its buyer has a profile. */
  lemma ScenarioChargeable()
    ensures Chargeable(ScenarioStore(), 10, 3, Faults(false, false)) && 3 in ScenarioStore().profiles
  {
    assert VisaRows(ScenarioStore().methods) == {1};
  }

  /**
   * The worked example: paying for two units of a 100-priced product succeeds, charges
   * 100 (one unit's price) and leaves 4 in stock.
   */
  lemma PayScenario()
    ensures var r := Pay(ScenarioStore(), 10, 3, Faults(false, false));
            && r.status == Ok
            && r.store.payments[0].amount == 100.0 && r.store.payments[0].unitPrice == 100.0
            && r.store.products[1].quantity == 4
  {
    ScenarioChargeable();
  }

  /** The same payment notifies the seller (user 7) and then the buyer (user 3). */
  lemma PayScenarioNotifies()
    ensures var r := Pay(ScenarioStore(), 10, 3, Faults(false, false));
            && |r.store.outbox| == 2
            && r.store.outbox[0].recipient == 7 && r.store.outbox[1].recipient == 3
  {
    ScenarioChargeable();
  }

  /**
   * The same payment ships to the buyer's profile address with status `pending` and
   * empties the cart.
   */
  lemma PayScenarioShips()
    ensures var r := Pay(ScenarioStore(), 10, 3, Faults(false, false));
            && 0 in r.store.shippings
            && r.store.shippings[0] == Shipping(3, 1, "1 Main St", "Springfield", Pending, "US")
            && r.store.carts == map[]
  {
    ScenarioChargeable();
    var r := Pay(ScenarioStore(), 10, 3, Faults(false, false));
    assert r.store.carts == ScenarioStore().carts - {10};
  }

  /** With no stock left a pay still succeeds, and the quantity goes negative. */
  lemma PayWithoutStock()
    ensures var s := ScenarioStore();
            var empty := s.(products := map[1 := s.products[1].(quantity := 0)]);
            var r := Pay(empty, 10, 3, Faults(false, false));
            r.status == Ok && r.store.products[1].quantity == -1
  {
    var s := ScenarioStore();
    var empty := s.(products := map[1 := s.products[1].(quantity := 0)]);
    assert VisaRows(empty.methods) == {1};
  }

  // ---------------------------------------------------------------------------
  // ProductViewSet.add_to_wishlist
  // ---------------------------------------------------------------------------

  /**
   * The forward relations of `Product` that `prefetch_related` can follow. The
   * reverse relations (`attribute`, `cart_set`, ...) are not listed, since the
   * handler only ever prefetches a forward name.
   */
  function ProductRelations(): set<string> {
    {"user", "subcategory"}
  }

  /** How fetching one product through the product view's queryset ends. */
  datatype Fetch = Fetched(product: Product) | Missing | PrefetchFailed

  /**
   * `get_object()` on the product view, whose queryset prefetches the relation named
   * `prefetch`. An id without a row gives an empty result, on which no prefetch runs (the
   * 404). A row found is prefetched next, which raises `AttributeError` when the name is
   * not a relation of `Product`.
   */
  function GetProduct(s: Store, productId: ProductId, prefetch: string): (r: Fetch)
    ensures r.Missing? <==> productId !in s.products
    ensures r.PrefetchFailed? <==> productId in s.products && prefetch !in ProductRelations()
    ensures r.Fetched? ==> productId in s.products && r.product == s.products[productId]
  {
    if productId !in s.products then Missing
    else if prefetch !in ProductRelations() then PrefetchFailed
    else Fetched(s.products[productId])
  }

  /** The relation the product view's queryset prefetches as written (`sub_category`). */
  const WrittenPrefetch: string := "sub_category"

  /** The relation it evidently means: `Product`'s field `subcategory`. */
  const IntendedPrefetch: string := "subcategory"

  /**
   * `add_to_wishlist` on a product view whose queryset prefetches `prefetch`. The lookup
   * runs outside the `try`, so its failure is a plain 500 with nothing written; a failing
   * INSERT is caught and rolled back, also a 500; otherwise one row is added.
   */
  function AddToWishlistWith(s: Store, productId: ProductId, requester: UserId, faults: Faults, prefetch: string): (r: Reply)
    ensures r.status in {Created, NotFound, ServerError}
    ensures r.status == NotFound <==> productId !in s.products
    ensures r.status == Created <==> productId in s.products && prefetch in ProductRelations() && !faults.insertFails
    ensures r.status != Created ==> r.store == s
    ensures r.status == Created ==>
              && r.store.wishlists == s.wishlists[s.nextWishlist := Wishlist(requester, productId)]
              && r.store == s.(wishlists := r.store.wishlists, nextWishlist := s.nextWishlist + 1)
  {
    match GetProduct(s, productId, prefetch)
    case Missing => Reply(NotFound, s)
    case PrefetchFailed => Reply(ServerError, s)
    case Fetched(_) =>
      if faults.insertFails then Reply(ServerError, s)
      else
        var row := Wishlist(requester, productId);
        Reply(Created, s.(wishlists := s.wishlists[s.nextWishlist := row], nextWishlist := s.nextWishlist + 1))
  }

  /**
   * `add_to_wishlist` with the queryset's prefetch corrected: 404 for an unknown product,
   * 500 when the INSERT fails, otherwise 201 with exactly one new wishlist row
   * (requester, product) and nothing else changed.
   */
  function AddToWishlist(s: Store, productId: ProductId, requester: UserId, faults: Faults): (r: Reply)
    ensures r.status in {Created, NotFound, ServerError}
    ensures r.status == NotFound <==> productId !in s.products
    ensures r.status == Created <==> productId in s.products && !faults.insertFails
    ensures r.status != Created ==> r.store == s
    ensures r.status == Created ==>
              && r.store.wishlists.Keys == s.wishlists.Keys + {s.nextWishlist}
              && r.store.wishlists[s.nextWishlist] == Wishlist(requester, productId)
              && (forall other :: other in s.wishlists && other != s.nextWishlist ==>
                    r.store.wishlists[other] == s.wishlists[other])
              && r.store == s.(wishlists := r.store.wishlists, nextWishlist := s.nextWishlist + 1)
    ensures Valid(s) ==> Valid(r.store)
  {
    AddToWishlistWith(s, productId, requester, faults, IntendedPrefetch)
  }

  /**
   * `add_to_wishlist` exactly as written: the prefetch of `sub_category` fails on every
   * product found, so the request is a 404 for an unknown product and a 500 otherwise,
   * and it never adds a row.
   */
  function AddToWishlistAsWritten(s: Store, productId: ProductId, requester: UserId, faults: Faults): (r: Reply)
    ensures r.status in {NotFound, ServerError}
    ensures r.status == NotFound <==> productId !in s.products
    ensures r.store == s
  {
    AddToWishlistWith(s, productId, requester, faults, WrittenPrefetch)
  }

  /**
   * On the example store, adding product 1 to user 3's wishlist: the request as written is
   * a 500 that adds nothing, the corrected one a 201 that adds the row.
   */
  lemma WishlistPrefetchDefect()
    ensures var s := ScenarioStore();
            && AddToWishlistAsWritten(s, 1, 3, Faults(false, false)) == Reply(ServerError, s)
            && AddToWishlist(s, 1, 3, Faults(false, false)).status == Created
            && AddToWishlist(s, 1, 3, Faults(false, false)).store.wishlists == map[0 := Wishlist(3, 1)]
  {
  }

  /**
   * On a valid store, a successful `add_to_wishlist` records the (requester, product)
   * pair once more and leaves the row count of every other pair alone.
   */
  lemma AddToWishlistCountsOnce(s: Store, productId: ProductId, requester: UserId, faults: Faults, user: UserId, product: ProductId)
    requires Valid(s) && AddToWishlist(s, productId, requester, faults).status == Created
    ensures var s' := AddToWishlist(s, productId, requester, faults).store;
            |WishlistRows(s'.wishlists, user, product)|
            == |WishlistRows(s.wishlists, user, product)| + (if user == requester && product == productId then 1 else 0)
  {
    assert s.nextWishlist !in s.wishlists;
    WishlistRowsInsert(s.wishlists, s.nextWishlist, Wishlist(requester, productId), user, product);
  }

  /**
   * A user who wishlists a product is then notified once more when its discount rises
   * from a non-zero value.
   */
  lemma WishlistThenDiscountNotifies(s: Store, productId: ProductId, requester: UserId, oldDiscount: int, newDiscount: int)
    requires Valid(s) && productId in s.products
    requires oldDiscount != 0 && oldDiscount < newDiscount
    ensures var s' := AddToWishlist(s, productId, requester, Faults(false, false)).store;
            var instance := s'.products[productId].(discount := Some(oldDiscount));
            var r := NotifyUserDiscount(s', instance, productId, Given(Some(newDiscount)));
            multiset(Recipients(r.outbox[|s'.outbox|..]))[requester] == |WishlistRows(s.wishlists, requester, productId)| + 1
  {
    var s' := AddToWishlist(s, productId, requester, Faults(false, false)).store;
    var instance := s'.products[productId].(discount := Some(oldDiscount));
    AddToWishlistCountsOnce(s, productId, requester, Faults(false, false), requester, productId);
    DiscountNotifiesEachWishlister(s', instance, productId, Given(Some(newDiscount)), requester);
  }
}
