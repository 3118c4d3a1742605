/** The rounding modes the program uses, over exact numbers. */
module Rounding {
  function Max(a: int, b: int): int {
    if a < b then b else a
  }

  function Min(a: int, b: int): int {
    if a < b then a else b
  }

  function Ceil(x: real): int {
    -((-x).Floor)
  }

  /** The quotient rounded up, for a positive divisor. */
  function CeilDiv(n: int, d: int): int
    requires d > 0
  {
    -((-n) / d)
  }

  /** Round to nearest, ties to the even neighbour. */
  function RoundHalfEven(x: real): int {
    var down := x.Floor;
    var rest := x - down as real;
    if rest < 0.5 then down
    else if rest > 0.5 then down + 1
    else if down % 2 == 0 then down
    else down + 1
  }

  /** Integer conversion: towards zero. */
  function Truncate(x: real): int {
    if x < 0.0 then Ceil(x) else x.Floor
  }

  lemma {:induction false} RoundsToNearest(x: real)
    ensures x - 0.5 <= RoundHalfEven(x) as real <= x + 0.5
  {
  }

  /** A nearest whole number, and the even one of two. */
  predicate NearestEven(x: real, n: int) {
    && x - 0.5 <= n as real <= x + 0.5
    && (n as real == x - 0.5 || n as real == x + 0.5 ==> n % 2 == 0)
  }

  lemma RoundsToNearestEven(x: real, n: int)
    ensures NearestEven(x, n) <==> n == RoundHalfEven(x)
  {
    var down := x.Floor;
    if NearestEven(x, n) { assert down - 1 <= n <= down + 1; }
  }

  /** `Ceil` is the least integer not below its argument. */
  lemma CeilIsLeast(x: real, n: int)
    ensures x <= n as real <==> Ceil(x) <= n
  {
    if x <= n as real {
      assert (-n) as real <= -x;
    }
  }

  lemma CeilMonotone(x: real, y: real)
    requires x <= y
    ensures Ceil(x) <= Ceil(y)
  {
    CeilIsLeast(y, Ceil(y));
    CeilIsLeast(x, Ceil(y));
  }

  /** A multiple of the divisor plus a remainder has the sign of its quotient. */
  lemma SignOfMultiple(x: int, d: int, r: int)
    requires 0 <= r < d
    ensures x * d + r >= 0 <==> x >= 0
  {
    if x >= 0 {
      assert x * d >= 0;
    } else {
      assert x * d <= -d;
    }
  }

  /** `CeilDiv` is the least integer whose product with the divisor reaches the dividend. */
  lemma CeilDivIsLeast(n: int, d: int, k: int)
    requires d > 0
    ensures n <= k * d <==> CeilDiv(n, d) <= k
  {
    var q, r := (-n) / d, (-n) % d;
    assert -n == q * d + r;
    assert (q + k) * d == q * d + k * d;
    SignOfMultiple(q + k, d, r);
  }

  lemma CeilDivMonotone(m: int, n: int, d: int)
    requires d > 0 && m <= n
    ensures CeilDiv(m, d) <= CeilDiv(n, d)
  {
    CeilDivIsLeast(n, d, CeilDiv(n, d));
    CeilDivIsLeast(m, d, CeilDiv(n, d));
  }

  /** Rounding two parts up separately costs nothing less, and at most one more, than rounding their sum. */
  lemma CeilDivOfSum(m: int, n: int, d: int)
    requires d > 0
    ensures CeilDiv(m + n, d) <= CeilDiv(m, d) + CeilDiv(n, d) <= CeilDiv(m + n, d) + 1
  {
    var qm, rm := (-m) / d, (-m) % d;
    var qn, rn := (-n) / d, (-n) % d;
    assert -(m + n) == (qm + qn) * d + (rm + rn);
    if rm + rn < d {
      QuotientIs(-(m + n), d, qm + qn, rm + rn);
    } else {
      QuotientIs(-(m + n), d, qm + qn + 1, rm + rn - d);
    }
  }

  lemma QuotientIs(n: int, d: int, q: int, r: int)
    requires d > 0 && n == q * d + r && 0 <= r < d
    ensures n / d == q
  {
    var p, s := n / d, n % d;
    assert (p - q) * d == p * d - q * d && (q - p) * d == q * d - p * d;
    SignOfMultiple(p - q, d, s);
    SignOfMultiple(q - p, d, r);
  }
}
