/**
 * Record shapes, closed value sets and derived values of the shop's data model
 * (`ecom/models.py`). Rows are plain immutable values; the tables that hold them
 * live in the `Stores` module. Float fields (`price`, `amount`, `unit_price`) are
 * modelled as `real`: rounding is not modelled.
 */
module Models {
  import opened Options

  type UserId = nat
  type ProductId = nat
  type CartId = nat
  type MethodId = nat
  type PaymentId = nat
  type ShippingId = nat
  type WishlistId = nat
  type RatingId = nat

  // ---------------------------------------------------------------------------
  // Closed value sets
  // ---------------------------------------------------------------------------

  /** The six shipment statuses of `STATUS_CHOICES`. */
  datatype ShippingStatus = Delivered | Onway | Pending | Dispatched | Cancelled | Returned {

    /** The value stored in the database column. */
    function Code(): (c: string)
      ensures c in StatusCodes()
    {
      match this
      case Delivered => "delivered"
      case Onway => "onway"
      case Pending => "pending"
      case Dispatched => "dispatched"
      case Cancelled => "cancelled"
      case Returned => "returned"
    }
  }

  /** The stored values `STATUS_CHOICES` admits, in declaration order. */
  function StatusCodes(): seq<string> {
    ["delivered", "onway", "pending", "dispatched", "cancelled", "returned"]
  }

  /** Reads a stored status back; `None` for a value outside the choices. */
  function ParseStatus(code: string): (r: Option<ShippingStatus>)
    ensures r.Some? <==> code in StatusCodes()
    ensures r.Some? ==> r.value.Code() == code
  {
    if code == "delivered" then Some(Delivered)
    else if code == "onway" then Some(Onway)
    else if code == "pending" then Some(Pending)
    else if code == "dispatched" then Some(Dispatched)
    else if code == "cancelled" then Some(Cancelled)
    else if code == "returned" then Some(Returned)
    else None
  }

  lemma StatusRoundTrip(st: ShippingStatus)
    ensures ParseStatus(st.Code()) == Some(st)
  {
  }

  /** The five payment-method names `PaymentMethod.name` admits. */
  datatype MethodName = Visa | Mastercard | PayPal | ApplePay | GooglePay {

    function Code(): (c: string)
      ensures c in MethodCodes()
    {
      match this
      case Visa => "visa"
      case Mastercard => "mastercard"
      case PayPal => "paypal"
      case ApplePay => "applepay"
      case GooglePay => "googlepay"
    }
  }

  function MethodCodes(): seq<string> {
    ["visa", "mastercard", "paypal", "applepay", "googlepay"]
  }

  function ParseMethod(code: string): (r: Option<MethodName>)
    ensures r.Some? <==> code in MethodCodes()
    ensures r.Some? ==> r.value.Code() == code
  {
    if code == "visa" then Some(Visa)
    else if code == "mastercard" then Some(Mastercard)
    else if code == "paypal" then Some(PayPal)
    else if code == "applepay" then Some(ApplePay)
    else if code == "googlepay" then Some(GooglePay)
    else None
  }

  lemma MethodRoundTrip(m: MethodName)
    ensures ParseMethod(m.Code()) == Some(m)
  {
  }

  /** Python's `range(lo, hi)` as a sequence. */
  function Range(lo: int, hi: int): (r: seq<int>)
    ensures |r| == if lo < hi then hi - lo else 0
    ensures forall i :: 0 <= i < |r| ==> r[i] == lo + i
    ensures forall x :: x in r <==> lo <= x < hi
    decreases hi - lo
  {
    if lo >= hi then [] else [lo] + Range(lo + 1, hi)
  }

  /** The choices of `Rating.stars`, built as the source builds them from `range(1, 6)`. */
  function StarChoices(): (r: seq<int>)
    ensures r == [1, 2, 3, 4, 5]
  {
    Range(1, 6)
  }

  // ---------------------------------------------------------------------------
  // Records
  // ---------------------------------------------------------------------------

  /** `Profile`: the one-to-one address record of a user (the image is not modelled). */
  datatype Profile = Profile(address: string, city: string, country: string)

  /**
   * `Product`. `user` is the seller. `discount` is a nullable percentage.
   * Subcategory, description, image and date carry no behaviour here and are left out.
   */
  datatype Product = Product(
    user: UserId,
    name: string,
    price: real,
    status: bool,
    quantity: int,
    discount: Option<int>)

  /** `Cart`: one staged purchase of `product` by `user`. */
  datatype CartEntry = CartEntry(user: UserId, product: ProductId, quantity: int)

  /** `PaymentMethod`: a row holding one method name. */
  datatype PaymentMethod = PaymentMethod(name: MethodName)

  /** `Payment` (its timestamp is left out). */
  datatype Payment = Payment(
    paymentMethod: MethodId,
    user: UserId,
    product: ProductId,
    amount: real,
    unitPrice: real)

  /** `Shipping`: a delivery record; its status is drawn from `STATUS_CHOICES` by construction. */
  datatype Shipping = Shipping(
    user: UserId,
    product: ProductId,
    address: string,
    city: string,
    status: ShippingStatus,
    country: string)

  /** `Wishlist`: one (user, product) row. */
  datatype Wishlist = Wishlist(user: UserId, product: ProductId)

  /**
   * The generic "rateable" target of a rating: a content type (the model the row
   * belongs to) and the id of the object within it.
   */
  datatype Rateable = Rateable(contentType: nat, objectId: nat)

  /** `Rating`. */
  datatype Rating = Rating(user: UserId, target: Rateable, stars: int) {

    /** The columns of the `unique_together` constraint. */
    function Key(): (UserId, Rateable) {
      (user, target)
    }
  }

  // ---------------------------------------------------------------------------
  // Defaults and derived values
  // ---------------------------------------------------------------------------

  /**
   * A product created with only its required fields: quantity and discount take their
   * field defaults (0), status its default (false).
   */
  function NewProduct(user: UserId, name: string, price: real): (p: Product)
    ensures p.user == user && p.name == name && p.price == price
    ensures p.quantity == 0 && p.discount == Some(0) && !p.status
    ensures PriceWithDiscount(p) == Some(price)
  {
    Product(user, name, price, false, 0, Some(0))
  }

  /** A cart entry created with only user and product: its quantity defaults to 0. */
  function NewCartEntry(user: UserId, product: ProductId): (c: CartEntry)
    ensures c.user == user && c.product == product && c.quantity == 0
    ensures forall p: Product :: TotalPrice(c, p) == 0.0
  {
    CartEntry(user, product, 0)
  }

  /**
   * `Product.price_with_discount`: the price reduced by the discount percentage.
   * `None` stands for the `TypeError` Python raises when the nullable discount is null.
   */
  function PriceWithDiscount(p: Product): (r: Option<real>)
    ensures r.None? <==> p.discount.None?
    ensures p.discount == Some(0) ==> r == Some(p.price)
    ensures p.discount == Some(100) ==> r == Some(0.0)
    ensures r.Some? && 0.0 <= p.price && 0 <= p.discount.value <= 100 ==> 0.0 <= r.value <= p.price
  {
    match p.discount
    case None => None
    case Some(d) =>
      var factor := 1.0 - (d as real) / 100.0;
      assert 0 <= d <= 100 ==> 0.0 <= factor <= 1.0;
      DiscountBounds(p.price, factor);
      Some(p.price * factor)
  }

  /** A non-negative price scaled by a factor in [0, 1] stays within [0, price]. */
  lemma DiscountBounds(price: real, factor: real)
    ensures 0.0 <= price && 0.0 <= factor <= 1.0 ==> 0.0 <= price * factor <= price
  {
    if 0.0 <= price && 0.0 <= factor <= 1.0 {
      assert price * factor <= price * 1.0;
    }
  }

  /** A larger discount never yields a larger discounted price (for a non-negative price). */
  lemma DiscountMonotone(p: Product, d1: int, d2: int)
    requires 0.0 <= p.price && d1 <= d2
    ensures PriceWithDiscount(p.(discount := Some(d2))).value
         <= PriceWithDiscount(p.(discount := Some(d1))).value
  {
    var f1 := 1.0 - (d1 as real) / 100.0;
    var f2 := 1.0 - (d2 as real) / 100.0;
    assert PriceWithDiscount(p.(discount := Some(d1))).value == p.price * f1;
    assert PriceWithDiscount(p.(discount := Some(d2))).value == p.price * f2;
    ScaleMonotone(p.price, f2, f1);
  }

  /** Scaling a non-negative amount keeps the order of the factors. */
  lemma ScaleMonotone(x: real, a: real, b: real)
    requires 0.0 <= x && a <= b
    ensures x * a <= x * b
  {
    assert x * b - x * a == x * (b - a);
  }

  /** `Cart.total_price`: the product's undiscounted price times the cart quantity. */
  function TotalPrice(c: CartEntry, p: Product): (r: real)
    ensures c.quantity == 0 ==> r == 0.0
    ensures c.quantity == 1 ==> r == p.price
    ensures 0.0 <= p.price && 0 <= c.quantity ==> 0.0 <= r
  {
    p.price * (c.quantity as real)
  }
}
