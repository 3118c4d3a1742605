/** Pure price and discount arithmetic. Amounts are paise; percentages are exact. */
module PriceMath {
  import opened Rounding
  import opened Sums

  /** No rate may go below this: the cost raised by the margin, a negative margin counting as none. */
  function MarginFloor(cost: int, minMargin: real): int {
    var margin := if minMargin < 0.0 then 0.0 else minMargin;
    Max(Ceil(cost as real * (1.0 + margin / 100.0)), cost)
  }

  function ScaleToQty(per1000: int, quantity: int): int {
    if quantity <= 0 then 0 else CeilDiv(per1000 * quantity, 1000)
  }

  /** What is left of a requested discount once the charge has to stay on the floor. */
  function CapDiscountToFloor(subtotal: int, discount: int, floor: int): int {
    if discount <= 0 || subtotal <= 0 then 0
    else
      var headroom := subtotal - Max(floor, 0);
      if headroom <= 0 then 0 else Min(Min(discount, headroom), subtotal)
  }

  lemma ScaleMonotone(p: int, q: int, quantity: int)
    requires p <= q
    ensures ScaleToQty(p, quantity) <= ScaleToQty(q, quantity)
  {
    if quantity > 0 {
      assert p * quantity <= q * quantity;
      CeilDivMonotone(p * quantity, q * quantity, 1000);
    }
  }

  /** A stricter margin never lowers the floor of a service that costs something. */
  lemma MarginFloorMonotone(cost: nat, low: real, high: real)
    requires low <= high
    ensures MarginFloor(cost, low) <= MarginFloor(cost, high)
  {
    var l := if low < 0.0 then 0.0 else low;
    var h := if high < 0.0 then 0.0 else high;
    assert cost as real * (1.0 + l / 100.0) <= cost as real * (1.0 + h / 100.0);
    CeilMonotone(cost as real * (1.0 + l / 100.0), cost as real * (1.0 + h / 100.0));
  }

  /**
   * The cap is exact: it keeps the floor whenever the subtotal met it, and any larger discount
   * up to the requested one would go below it.
   */
  lemma CapIsLargest(subtotal: int, discount: int, floor: int, other: int)
    requires subtotal >= floor
    ensures var capped := CapDiscountToFloor(subtotal, discount, floor);
            && 0 <= capped
            && subtotal - capped >= floor
            && (capped < other <= discount ==> subtotal - other < Max(floor, 0))
  {
  }

  /** The price of every part of a split order. */
  function PriceOf(per1000: int): int -> int {
    (quantity: int) => ScaleToQty(per1000, quantity)
  }

  function Identity(): int -> int {
    (quantity: int) => quantity
  }

  /**
   * Splitting a quantity into n orders at one rate never costs less than one order of the total,
   * and at most n - 1 paise more.
   */
  lemma {:induction false} SplittingNeverPays(per1000: int, parts: seq<int>)
    requires |parts| > 0
    requires forall i | 0 <= i < |parts| :: parts[i] > 0
    ensures Sum(parts, Identity()) > 0
    ensures ScaleToQty(per1000, Sum(parts, Identity())) <= Sum(parts, PriceOf(per1000))
    ensures Sum(parts, PriceOf(per1000)) <= ScaleToQty(per1000, Sum(parts, Identity())) + |parts| - 1
  {
    var n := |parts| - 1;
    var rest, last := parts[..n], parts[n];
    if n > 0 {
      SplittingNeverPays(per1000, rest);
      var total := Sum(rest, Identity());
      assert per1000 * (total + last) == per1000 * total + per1000 * last;
      CeilDivOfSum(per1000 * total, per1000 * last, 1000);
    }
  }
}
