/**
 * Notifications as an outbox of (actor, recipient, verb, description) records, and the
 * texts the signal handlers of `ecom/signals.py` put in them. Delivery is not modelled:
 * sending a notification appends it to the outbox.
 */
module Notifications {
  import opened Models

  /** The object a notification is sent on behalf of. */
  datatype Actor = PaymentActor(payment: PaymentId) | ProductActor(product: ProductId)

  datatype Notification = Notification(
    actor: Actor,
    recipient: UserId,
    verb: string,
    description: string)

  // ---------------------------------------------------------------------------
  // Text helpers
  // ---------------------------------------------------------------------------

  predicate IsPrefix(part: string, text: string) {
    |part| <= |text| && text[..|part|] == part
  }

  /** `part` occurs somewhere inside `text`. */
  predicate Mentions(text: string, part: string) {
    exists i :: 0 <= i <= |text| && IsPrefix(part, text[i..])
  }

  lemma MentionsInfix(before: string, part: string, after: string)
    ensures Mentions(before + part + after, part)
  {
    var text := before + part + after;
    assert text[|before|..][..|part|] == part;
    assert IsPrefix(part, text[|before|..]);
  }

  /** The ASCII digit for a value in 0..9. */
  function DigitChar(d: nat): (c: char)
    requires d < 10
    ensures '0' <= c <= '9'
  {
    "0123456789"[d]
  }

  function DigitValue(c: char): nat
    requires '0' <= c <= '9'
  {
    (c as int - '0' as int) as nat
  }

  predicate AllDigits(s: string) {
    forall i :: 0 <= i < |s| ==> '0' <= s[i] <= '9'
  }

  /** The decimal text of a natural number, as Python's `str` writes it. */
  function Decimal(n: nat): (s: string)
    ensures |s| >= 1 && AllDigits(s)
    ensures s[0] == '0' ==> n == 0
  {
    if n < 10 then [DigitChar(n)] else Decimal(n / 10) + [DigitChar(n % 10)]
  }

  /** Reads a run of decimal digits back into the number it denotes. */
  function ParseDecimal(s: string): nat
    requires AllDigits(s)
  {
    if |s| == 0 then 0 else ParseDecimal(s[..|s| - 1]) * 10 + DigitValue(s[|s| - 1])
  }

  lemma {:induction false} DecimalRoundTrip(n: nat)
    ensures ParseDecimal(Decimal(n)) == n
  {
    if n >= 10 {
      var s := Decimal(n);
      assert s[..|s| - 1] == Decimal(n / 10);
      DecimalRoundTrip(n / 10);
    }
  }

  /** Python's `str` of an integer: the decimal digits, after a minus sign exactly when the value is negative. */
  function IntText(i: int): (s: string)
    ensures |s| >= 1
    ensures s[0] == '-' <==> i < 0
  {
    if i < 0 then "-" + Decimal(-i) else Decimal(i)
  }

  /** Reading the digits of an integer's text back, and applying its sign, recovers the integer. */
  lemma IntTextRoundTrip(i: int)
    ensures var s := IntText(i);
            if i < 0 then |s| >= 2 && AllDigits(s[1..]) && ParseDecimal(s[1..]) == -i
            else AllDigits(s) && ParseDecimal(s) == i
  {
    var s := IntText(i);
    if i < 0 {
      var n: nat := -i;
      var digits := Decimal(n);
      assert s == "-" + digits;
      assert s[1..] == digits;
      DecimalRoundTrip(n);
    } else {
      assert s == Decimal(i);
      DecimalRoundTrip(i);
    }
  }

  // ---------------------------------------------------------------------------
  // Texts sent by the handlers
  // ---------------------------------------------------------------------------

  /** The verb both payment notifications carry. */
  const PaymentVerb: string := "you reached level 10"

  /** The verb of a discount notification. */
  const DiscountVerb: string := "discount applied"

  /** The description sent to the seller when a product is paid for. */
  function SellerPaidText(productName: string): (t: string)
    ensures Mentions(t, productName)
  {
    MentionsInfix("customer have successfully paid for ", productName, ".");
    "customer have successfully paid for " + productName + "."
  }

  /** The description sent to the buyer when a product is paid for. */
  function BuyerPaidText(productName: string): (t: string)
    ensures Mentions(t, productName)
  {
    MentionsInfix("You have successfully paid for ", productName, ".");
    "You have successfully paid for " + productName + "."
  }

  /**
   * The description of a discount notification. It opens with the product's name and
   * carries both discounts in decimal.
   */
  function DiscountText(productName: string, oldDiscount: int, newDiscount: int): (t: string)
    ensures IsPrefix(productName, t) && Mentions(t, productName)
  {
    var rest := " discount has been applied. Old discount: " + IntText(oldDiscount)
      + ", New discount: " + IntText(newDiscount) + ".";
    var t := productName + rest;
    assert t[0..][..|productName|] == productName;
    t
  }

  /** The recipients of a run of notifications, in order. */
  function Recipients(notes: seq<Notification>): (r: seq<UserId>)
    ensures |r| == |notes|
    ensures forall i :: 0 <= i < |notes| ==> r[i] == notes[i].recipient
  {
    if |notes| == 0 then [] else Recipients(notes[..|notes| - 1]) + [notes[|notes| - 1].recipient]
  }
}
