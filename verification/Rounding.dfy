/** Decimal rounding as Python's decimal module defines it, on non-negative rationals n/d. */
module Rounding {
  /** ROUND_HALF_UP of n/d: the one integer r with r - 1/2 <= n/d < r + 1/2. */
  function HalfUp(n: nat, d: nat): (r: nat)
    requires d > 0
    ensures (2 * r) * d <= 2 * n + d < (2 * r + 2) * d
  {
    var r := (2 * n + d) / (2 * d);
    DivBounds(2 * n + d, 2 * d);
    assert (2 * d) * r == (2 * r) * d;
    assert (2 * d) * (r + 1) == (2 * r + 2) * d;
    r
  }

  /** ROUND_HALF_EVEN of n/d. */
  function HalfEven(n: nat, d: nat): nat
    requires d > 0
  {
    if 2 * (n % d) > d || (2 * (n % d) == d && (n / d) % 2 == 1) then n / d + 1 else n / d
  }

  /** It is a nearest integer, and an even one when n/d is half-way between two. */
  lemma HalfEvenBounds(n: nat, d: nat)
    requires d > 0
    ensures var r := HalfEven(n, d);
            (2 * r) * d <= 2 * n + d && 2 * n <= (2 * r + 1) * d
            && ((2 * r) * d == 2 * n + d || 2 * n == (2 * r + 1) * d ==> r % 2 == 0)
  {
    QuotientRest(n, d);
    NearestBounds(n, d, n / d, n % d, HalfEven(n, d));
  }

  lemma QuotientRest(n: nat, d: nat)
    requires d > 0
    ensures n == d * (n / d) + n % d && 0 <= n % d < d
  {
  }

  lemma NearestBounds(n: nat, d: nat, q: int, rest: int, r: int)
    requires n == d * q + rest && 0 <= rest < d
    requires (r == q && 2 * rest <= d) || (r == q + 1 && 2 * rest >= d)
    requires 2 * rest == d ==> r % 2 == 0
    ensures (2 * r) * d <= 2 * n + d && 2 * n <= (2 * r + 1) * d
    ensures (2 * r) * d == 2 * n + d || 2 * n == (2 * r + 1) * d ==> r % 2 == 0
  {
    Assoc(2, r, d);
    Unfold(2 * r, d);
    Commute(r, d);
    if r == q + 1 {
      Unfold(q, d);
    }
    Commute(q, d);
  }

  lemma Commute(a: int, b: int)
    ensures a * b == b * a
  {
  }

  lemma DivBounds(n: nat, d: nat)
    requires d > 0
    ensures d * (n / d) <= n < d * (n / d + 1)
  {
  }

  lemma MulLe(a: int, b: int, c: nat)
    requires a <= b
    ensures a * c <= b * c
  {
  }

  /** The bounds of HalfUp leave one integer. */
  lemma HalfUpUnique(n: nat, d: nat, r: nat)
    requires d > 0 && (2 * r) * d <= 2 * n + d < (2 * r + 2) * d
    ensures HalfUp(n, d) == r
  {
    var h := HalfUp(n, d);
    if h < r {
      MulLe(2 * h + 2, 2 * r, d);
    } else if r < h {
      MulLe(2 * r + 2, 2 * h, d);
    }
  }

  /** x/2 <= n1/d1 <= n2/d2 <= y/2 orders x and y, and pins both ratios when x == y. */
  lemma Sandwich(x: int, y: int, n1: nat, d1: nat, n2: nat, d2: nat)
    requires d1 > 0 && d2 > 0 && n1 * d2 <= n2 * d1
    requires x * d1 <= 2 * n1 && 2 * n2 <= y * d2
    ensures x <= y
    ensures x == y ==> 2 * n1 == x * d1 && 2 * n2 == y * d2
  {
    MulLe(x * d1, 2 * n1, d2);
    MulLe(2 * n2, y * d2, d1);
    Assoc(2, n1, d2);
    Assoc(2, n2, d1);
    Swap(x, d1, d2);
    Assoc(x, d2, d1);
    Assoc(y, d2, d1);
    Positive(d2, d1);
    if y < x {
      StrictMul(y, x, d2 * d1);
    }
    if x * d1 < 2 * n1 { StrictMul(x * d1, 2 * n1, d2); }
    if 2 * n2 < y * d2 { StrictMul(2 * n2, y * d2, d1); }
  }

  lemma Unfold(k: int, d: int)
    ensures (k + 1) * d == k * d + d
  {
  }

  /** Rounding half up never reverses an order between rationals. */
  lemma HalfUpMonotone(n1: nat, d1: nat, n2: nat, d2: nat)
    requires d1 > 0 && d2 > 0 && n1 * d2 <= n2 * d1
    ensures HalfUp(n1, d1) <= HalfUp(n2, d2)
  {
    var r1: int, r2: int := HalfUp(n1, d1), HalfUp(n2, d2);
    Unfold(2 * r1 - 1, d1);
    Unfold(2 * r2 + 1, d2);
    Sandwich(2 * r1 - 1, 2 * r2 + 1, n1, d1, n2, d2);
  }

  /** Rounding half to even never reverses an order between rationals. */
  lemma HalfEvenMonotone(n1: nat, d1: nat, n2: nat, d2: nat)
    requires d1 > 0 && d2 > 0 && n1 * d2 <= n2 * d1
    ensures HalfEven(n1, d1) <= HalfEven(n2, d2)
  {
    var r1: int, r2: int := HalfEven(n1, d1), HalfEven(n2, d2);
    HalfEvenBounds(n1, d1);
    HalfEvenBounds(n2, d2);
    Unfold(2 * r1 - 1, d1);
    Sandwich(2 * r1 - 1, 2 * r2 + 1, n1, d1, n2, d2);
  }

  lemma Assoc(a: int, b: int, c: int)
    ensures a * b * c == a * (b * c)
  {
  }

  lemma Positive(a: nat, b: nat)
    requires a > 0 && b > 0
    ensures a * b > 0
  {
  }

  lemma StrictMul(a: int, b: int, c: nat)
    requires a < b && c > 0
    ensures a * c < b * c
  {
  }

  lemma Swap(k: int, a: int, b: int)
    ensures k * a * b == k * b * a
  {
  }
}
