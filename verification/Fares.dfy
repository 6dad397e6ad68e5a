/** Fare quotes (pricing.py:32-34, 48-50): 2.00 + 1.50 per km, times surge, half up to cents.

    A distance is any non-negative rational number of kilometres and the products are exact. */
module Fares {
  import opened Rounding
  import opened Surge

  datatype Km = Km(num: nat, den: nat)

  predicate ValidKm(d: Km) { d.den > 0 }

  predicate ShorterOrEqual(d1: Km, d2: Km) { d1.num * d2.den <= d2.num * d1.den }

  /** d1 + d2 as a fraction. */
  function Join(d1: Km, d2: Km): (d: Km)
    ensures ValidKm(d1) && ValidKm(d2) ==> ValidKm(d)
  {
    assert ValidKm(d1) && ValidKm(d2) ==> d1.den * d2.den > 0 by {
      if ValidKm(d1) && ValidKm(d2) {
        Positive(d1.den, d2.den);
      }
    }
    Km(d1.num * d2.den + d2.num * d1.den, d1.den * d2.den)
  }

  /** The exact fare in cents is FareNum / FareDen. */
  function FareNum(d: Km, m: Decimal): nat {
    (200 * d.den + 150 * d.num) * m.coeff
  }

  function FareDen(d: Km, m: Decimal): (r: nat)
    requires ValidKm(d)
    ensures r > 0
  {
    Positive(d.den, Pow10(m.places));
    d.den * Pow10(m.places)
  }

  /** calculate_fare, in cents. */
  function FareCents(d: Km, m: Decimal): nat
    requires ValidKm(d)
  {
    HalfUp(FareNum(d, m), FareDen(d, m))
  }

  /** m1 <= m2 as numbers. */
  predicate Cheaper(m1: Decimal, m2: Decimal) {
    m1.coeff * Pow10(m2.places) <= m2.coeff * Pow10(m1.places)
  }

  predicate AtLeastOne(m: Decimal) { m.coeff >= Pow10(m.places) }

  /** The quote is 2.00 and 1.50 a kilometre, times the multiplier, to within half a cent: over
      the common denominator, 200 cents and 150 cents a kilometre less the quote. */
  lemma FareWithinHalfCent(d: Km, m: Decimal)
    requires ValidKm(d)
    ensures var one := d.den * Pow10(m.places);
            var error := 2 * ((200 * d.den + 150 * d.num) * m.coeff - FareCents(d, m) * one);
            -(one as int) <= error < one
  {
    var r, den := FareCents(d, m), FareDen(d, m);
    Assoc(2, r, den);
    Unfold(2 * r, den);
    Unfold(2 * r + 1, den);
  }

  /** Without surge one more kilometre costs exactly 1.50, whatever the distance so far. */
  lemma OneMoreKilometre(d: Km, m: Decimal)
    requires ValidKm(d) && m.coeff == Pow10(m.places)
    ensures FareCents(Km(d.num + d.den, d.den), m) == FareCents(d, m) + 150
  {
    var r, n, den := FareCents(d, m), FareNum(d, m), FareDen(d, m);
    var longer := Km(d.num + d.den, d.den);
    assert FareNum(longer, m) == n + 150 * den by {
      Spread(200 * d.den + 150 * d.num, 150 * d.den, m.coeff);
      Assoc(150, d.den, m.coeff);
    }
    Spread(2 * r, 300, den);
    Spread(2 * r + 2, 300, den);
    HalfUpUnique(n + 150 * den, den, r + 150);
  }

  lemma MulLeTwice(a: int, b: int, c: nat, e: nat)
    requires a <= b
    ensures a * c * e <= b * c * e
  {
    MulLe(a, b, c);
    MulLe(a * c, b * c, e);
  }

  /** A longer trip never costs less. */
  lemma FareMonotoneInDistance(d1: Km, d2: Km, m: Decimal)
    requires ValidKm(d1) && ValidKm(d2) && ShorterOrEqual(d1, d2)
    ensures FareCents(d1, m) <= FareCents(d2, m)
  {
    var a1, a2 := 200 * d1.den + 150 * d1.num, 200 * d2.den + 150 * d2.num;
    var c, p := m.coeff, Pow10(m.places);
    assert a1 * d2.den <= a2 * d1.den by {
      assert a1 * d2.den == 200 * (d1.den * d2.den) + 150 * (d1.num * d2.den);
      assert a2 * d1.den == 200 * (d1.den * d2.den) + 150 * (d2.num * d1.den);
    }
    MulLeTwice(a1 * d2.den, a2 * d1.den, c, p);
    Regroup(a1, c, d2.den, p);
    Regroup(a2, c, d1.den, p);
    HalfUpMonotone(FareNum(d1, m), FareDen(d1, m), FareNum(d2, m), FareDen(d2, m));
  }

  lemma Regroup(a: nat, c: nat, d: nat, p: nat)
    ensures (a * c) * (d * p) == a * d * c * p
  {
    Assoc(a * c, d, p);
    Swap(a, c, d);
  }

  /** A higher multiplier never costs less. */
  lemma FareMonotoneInMultiplier(d: Km, m1: Decimal, m2: Decimal)
    requires ValidKm(d) && Cheaper(m1, m2)
    ensures FareCents(d, m1) <= FareCents(d, m2)
  {
    var a := 200 * d.den + 150 * d.num;
    var c1, c2, p1, p2 := m1.coeff, m2.coeff, Pow10(m1.places), Pow10(m2.places);
    MulLeTwice(c1 * p2, c2 * p1, a, d.den);
    Regroup(c1, a, p2, d.den);
    Regroup(c2, a, p1, d.den);
    Commute(c1, a);
    Commute(c2, a);
    Commute(p1, d.den);
    Commute(p2, d.den);
    HalfUpMonotone(FareNum(d, m1), FareDen(d, m1), FareNum(d, m2), FareDen(d, m2));
  }

  /** No quote is below the base fare of 2.00. */
  lemma FareAtLeastBase(d: Km, m: Decimal)
    requires ValidKm(d) && AtLeastOne(m)
    ensures FareCents(d, m) >= 200
  {
    var p := Pow10(m.places);
    var den := FareDen(d, m);
    MulLe(p, m.coeff, 200 * d.den + 150 * d.num);
    assert FareNum(d, m) >= (200 * d.den + 150 * d.num) * p;
    MulLe(200 * d.den, 200 * d.den + 150 * d.num, p);
    Assoc(200, d.den, p);
    FareWithinHalfCent(d, m);
    var r := FareCents(d, m);
    if r <= 199 {
      MulLe(r, 199, den);
    }
  }

  /** Splitting a trip is never cheaper: each part pays the base fare again. */
  lemma SplittingCostsMore(d1: Km, d2: Km, m: Decimal)
    requires ValidKm(d1) && ValidKm(d2) && AtLeastOne(m)
    ensures FareCents(d1, m) + FareCents(d2, m) > FareCents(Join(d1, d2), m)
  {
    var d := Join(d1, d2);
    var r1, r2, r := FareCents(d1, m), FareCents(d2, m), FareCents(d, m);
    var p, whole := Pow10(m.places), FareDen(d, m);
    ScaledLower(FareNum(d1, m), FareDen(d1, m), r1, d2.den);
    ScaledLower(FareNum(d2, m), FareDen(d2, m), r2, d1.den);
    assert FareDen(d1, m) * d2.den == whole by { Swap(d1.den, p, d2.den); }
    assert FareDen(d2, m) * d1.den == whole by { Swap(d2.den, p, d1.den); }
    BaseFareTwice(d1, d2, m);
    FareWithinHalfCent(d, m);
    PartsAboveWhole(r1, r2, r, whole, FareNum(d1, m) * d2.den, FareNum(d2, m) * d1.den, FareNum(d, m));
  }

  lemma PartsAboveWhole(r1: nat, r2: nat, r: nat, whole: nat, x1: int, x2: int, x: int)
    requires whole > 0
    requires 2 * (r1 * whole) > 2 * x1 - whole && 2 * (r2 * whole) > 2 * x2 - whole
    requires 2 * (x - r * whole) >= -(whole as int)
    requires x1 + x2 >= x + 200 * whole
    ensures r1 + r2 > r
  {
    assert (r1 + r2) * whole == r1 * whole + r2 * whole;
    if r1 + r2 <= r {
      MulLe(r1 + r2, r, whole);
    }
  }

  /** A half-up rounding is above its rational less a half, also over a common denominator. */
  lemma ScaledLower(n: nat, den: nat, r: nat, k: nat)
    requires den > 0 && k > 0 && r == HalfUp(n, den)
    ensures 2 * (r * (den * k)) > 2 * (n * k) - den * k
  {
    assert (2 * r + 2) * den == 2 * (r * den) + 2 * den;
    StrictMul(2 * n - den, 2 * (r * den), k);
    assert (2 * n - den) * k == 2 * (n * k) - den * k;
    Assoc(r, den, k);
    Assoc(2, r * den, k);
  }

  /** Exactly one base fare, at the surge rate, separates the parts from the whole. */
  lemma BaseFareTwice(d1: Km, d2: Km, m: Decimal)
    requires ValidKm(d1) && ValidKm(d2) && AtLeastOne(m)
    ensures FareNum(d1, m) * d2.den + FareNum(d2, m) * d1.den
            >= FareNum(Join(d1, d2), m) + 200 * FareDen(Join(d1, d2), m)
  {
    var c, p, dd := m.coeff, Pow10(m.places), d1.den * d2.den;
    var a1, a2 := 200 * d1.den + 150 * d1.num, 200 * d2.den + 150 * d2.num;
    var a := 200 * dd + 150 * (d1.num * d2.den + d2.num * d1.den);
    Swap(a1, c, d2.den);
    Swap(a2, c, d1.den);
    BaseTwice(d1.num, d1.den, d2.num, d2.den);
    Spread(a1 * d2.den, a2 * d1.den, c);
    Spread(a, 200 * dd, c);
    Assoc(200, dd, c);
    MulLe(p, c, dd);
    Commute(dd, p);
    Commute(dd, c);
  }

  lemma Spread(x: int, y: int, k: int)
    ensures (x + y) * k == x * k + y * k
  {
  }

  /** In the numerators, base fare and distance apart. */
  lemma BaseTwice(n1: int, e1: int, n2: int, e2: int)
    ensures (200 * e1 + 150 * n1) * e2 + (200 * e2 + 150 * n2) * e1
            == 400 * (e1 * e2) + 150 * (n1 * e2 + n2 * e1)
  {
    Spread(200 * e1, 150 * n1, e2);
    Spread(200 * e2, 150 * n2, e1);
    Assoc(200, e1, e2);
    Assoc(150, n1, e2);
    Assoc(200, e2, e1);
    Assoc(150, n2, e1);
    Commute(e1, e2);
  }
}
