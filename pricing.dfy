// `calculateDiscount`, written identically in the product page and the search
// results: the saving as a whole percentage of the list price, rounded the
// way `Math.round` rounds. Prices are integer cents, so the ratio is exact.
module Pricing {
  import opened JsText

  /** Floor division for either sign of the divisor. */
  function FloorDiv(a: int, d: int): (q: int)
    requires d != 0
    ensures d > 0 ==> d * q <= a < d * q + d
    ensures d < 0 ==> d * q >= a > d * q + d
  {
    if d > 0 then a / d else (-a) / (-d)
  }

  /** `Math.round(a / d)`: the nearest integer, halves rounded up. */
  function RoundRatio(a: int, d: int): (q: int)
    requires d != 0
    ensures d > 0 ==> 2 * d * q <= 2 * a + d < 2 * d * q + 2 * d
  {
    FloorDiv(2 * a + d, 2 * d)
  }

  /** `calculateDiscount(price, mrp)`: 0 when the list price is missing, zero
      or not above the price; otherwise the rounded percentage saved. */
  function Discount(price: int, mrp: Option<int>): (r: int)
    ensures mrp.None? || mrp.value == 0 || mrp.value <= price ==> r == 0
    ensures mrp.Some? && mrp.value != 0 && mrp.value > price ==> r == RoundRatio(100 * (mrp.value - price), mrp.value)
  {
    if mrp.None? || mrp.value == 0 || mrp.value <= price then 0
    else RoundRatio(100 * (mrp.value - price), mrp.value)
  }

  /** Floor division reaches `k` exactly when the dividend reaches `k` divisors. */
  lemma FloorDivAtLeast(x: int, d: int, k: int)
    requires d > 0
    ensures FloorDiv(x, d) >= k <==> x >= d * k
  {
    var q := FloorDiv(x, d);
    if q >= k {
      MulMonotone(d, k, q);
    } else {
      MulMonotone(d, q + 1, k);
      assert d * (q + 1) == d * q + d;
    }
  }

  lemma MulMonotone(d: int, x: int, y: int)
    requires d > 0 && x <= y
    ensures d * x <= d * y
  {
    assert d * y == d * x + d * (y - x);
  }

  /** The rounded ratio reaches `k` exactly when `a / d` reaches `k - 1/2`. */
  lemma RoundRatioAtLeast(a: int, d: int, k: int)
    requires d > 0
    ensures RoundRatio(a, d) >= k <==> 2 * a + d >= 2 * d * k
  {
    FloorDivAtLeast(2 * a + d, 2 * d, k);
  }

  /** For a nonnegative price the discount is a percentage between 0 and 100;
      it is 100 once the price is at most half a percent of the list price. */
  lemma DiscountIsPercentage(price: int, mrp: Option<int>)
    requires price >= 0
    ensures 0 <= Discount(price, mrp) <= 100
    ensures mrp.Some? && mrp.value > price ==> (Discount(price, mrp) == 100 <==> 200 * price <= mrp.value)
  {
    if mrp.Some? && mrp.value > price {
      var m := mrp.value;
      var a := 100 * (m - price);
      RoundRatioAtLeast(a, m, 0);
      RoundRatioAtLeast(a, m, 100);
      RoundRatioAtLeast(a, m, 101);
    }
  }

  /** The discount badge shows (a result above 0) exactly when the saving is
      at least half a percent of the list price. */
  lemma DiscountBadgeShown(price: int, mrp: Option<int>)
    requires price >= 0
    ensures Discount(price, mrp) > 0 <==> mrp.Some? && mrp.value > price && 200 * (mrp.value - price) >= mrp.value
  {
    if mrp.Some? && mrp.value > price {
      RoundRatioAtLeast(100 * (mrp.value - price), mrp.value, 1);
    }
  }

  /** The product page's fallback item: 29.99 against 39.99 is a 25% saving. */
  lemma MockProductDiscount()
    ensures Discount(2999, Some(3999)) == 25
  {
  }
}
