/** Money arithmetic of one line item: how the raw form fields become numbers
    and how a line's subtotal, discount amount and total follow from them.
    Amounts are exact reals; the two-decimal display is not part of it. */
module Money {
  import opened Wrappers

  /** `parseFloat(field) || fallback`: a parse that gave NaN (None) or zero
      is replaced by the fallback, any other number is kept. */
  function OrDefault(parsed: Option<real>, fallback: real): (r: real)
    ensures parsed.None? ==> r == fallback
    ensures parsed.Some? && parsed.value == 0.0 ==> r == fallback
    ensures parsed.Some? && parsed.value != 0.0 ==> r == parsed.value
  {
    if parsed.Some? && parsed.value != 0.0 then parsed.value else fallback
  }

  /** The price field: a non-numeric price counts as 0; since the fallback is
      itself 0, a parsed number always survives unchanged, negatives included. */
  function CoercePrice(parsed: Option<real>): (price: real)
    ensures price == (if parsed.Some? then parsed.value else 0.0)
  {
    OrDefault(parsed, 0.0)
  }

  /** The quantity field: non-numeric or zero becomes 1, so the quantity is
      never zero. */
  function CoerceQuantity(parsed: Option<real>): (quantity: real)
    ensures quantity != 0.0
    ensures parsed.Some? && parsed.value != 0.0 ==> quantity == parsed.value
    ensures parsed.None? || parsed.value == 0.0 ==> quantity == 1.0
  {
    OrDefault(parsed, 1.0)
  }

  /** The discount field (a percentage): non-numeric counts as 0; out-of-range
      values such as 150 or -10 are kept as they are. */
  function CoerceDiscount(parsed: Option<real>): (discount: real)
    ensures discount == (if parsed.Some? then parsed.value else 0.0)
  {
    OrDefault(parsed, 0.0)
  }

  /** `price * quantity`: one unit's price times the number of units. */
  function LineSubtotal(price: real, quantity: real): (subtotal: real)
    ensures quantity == 1.0 ==> subtotal == price
    ensures price >= 0.0 && quantity >= 0.0 ==> subtotal >= 0.0
    ensures price == 0.0 ==> subtotal == 0.0
  {
    price * quantity
  }

  /** `subtotal * (discount / 100)`: the discount is a percentage of the
      line's subtotal. */
  function LineDiscount(price: real, quantity: real, discount: real): (amount: real)
    ensures discount == 0.0 ==> amount == 0.0
    ensures discount == 100.0 ==> amount == LineSubtotal(price, quantity)
  {
    LineSubtotal(price, quantity) * (discount / 100.0)
  }

  /** `subtotal - discountAmount`, with no clamping. */
  function LineTotal(price: real, quantity: real, discount: real): (total: real)
    ensures total == LineSubtotal(price, quantity) - LineDiscount(price, quantity, discount)
    ensures discount == 0.0 ==> total == LineSubtotal(price, quantity)
    ensures discount == 100.0 ==> total == 0.0
  {
    var subtotal := price * quantity;
    var discountAmount := subtotal * (discount / 100.0);
    subtotal - discountAmount
  }

  /** The line total is the subtotal scaled by the share left after the
      discount. */
  lemma LineTotalFactored(price: real, quantity: real, discount: real)
    ensures LineTotal(price, quantity, discount)
         == price * quantity * (1.0 - discount / 100.0)
  {
  }

  /** With the ranges the form's inputs suggest (price at least 0, quantity
      above 0, discount between 0 and 100) the discount and the total both lie
      between 0 and the subtotal. */
  lemma LineTotalBounded(price: real, quantity: real, discount: real)
    requires price >= 0.0 && quantity > 0.0 && 0.0 <= discount <= 100.0
    ensures 0.0 <= LineSubtotal(price, quantity)
    ensures 0.0 <= LineDiscount(price, quantity, discount) <= LineSubtotal(price, quantity)
    ensures 0.0 <= LineTotal(price, quantity, discount) <= LineSubtotal(price, quantity)
  {
    ProductOfNonNegatives(price, quantity);
    var s := price * quantity;
    var f := discount / 100.0;
    ProductOfNonNegatives(s, f);
    ProductOfNonNegatives(s, 1.0 - f);
    assert s * (1.0 - f) == s - s * f;
    assert LineDiscount(price, quantity, discount) == s * f;
    assert LineTotal(price, quantity, discount) == s - s * f;
  }

  /** Nothing clamps the discount: above 100 percent, a line with a positive
      subtotal has a negative total. */
  lemma OverDiscountMakesTotalNegative(price: real, quantity: real, discount: real)
    requires LineSubtotal(price, quantity) > 0.0 && discount > 100.0
    ensures LineTotal(price, quantity, discount) < 0.0
  {
    var s := price * quantity;
    var f := discount / 100.0;
    assert s > 0.0 && f > 1.0;
    var over := s * (f - 1.0);
    ProductOfPositives(s, f - 1.0);
    assert s * f == over + s;
    assert LineTotal(price, quantity, discount) == s - s * f == -over;
  }

  /** Sign rules used above. */
  lemma ProductOfNonNegatives(a: real, b: real)
    requires a >= 0.0 && b >= 0.0
    ensures a * b >= 0.0
  {
  }

  lemma ProductOfPositives(a: real, b: real)
    requires a > 0.0 && b > 0.0
    ensures a * b > 0.0
  {
  }

  /** 100 at quantity 2 with 10 percent off: subtotal 200, discount 20,
      total 180. */
  lemma WorkedExample()
    ensures LineSubtotal(100.0, 2.0) == 200.0
    ensures LineDiscount(100.0, 2.0, 10.0) == 20.0
    ensures LineTotal(100.0, 2.0, 10.0) == 180.0
  {
  }
}
