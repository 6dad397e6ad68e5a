/** The surge multiplier (pricing.py:36-41) in Python's default decimal context:
    28 significant digits, ROUND_HALF_EVEN, then a clamp and a ROUND_HALF_UP quantize. */
module Surge {
  import opened Rounding

  /** A non-negative decimal as Python prints it: coeff / 10^places. */
  datatype Decimal = Decimal(coeff: nat, places: nat)

  /** A quotient in the 28-digit context: coeff * 10^exponent. */
  datatype Quotient = Quotient(coeff: nat, exponent: int)

  function Pow10(k: nat): (r: nat)
    ensures r > 0
  {
    if k == 0 then 1 else 10 * Pow10(k - 1)
  }

  const E27: nat := 1_000_000_000_000_000_000_000_000_000
  const E25: nat := 10_000_000_000_000_000_000_000_000

  const H25: nat := 5_000_000_000_000_000_000_000_000

  /** Brings n/d below 10^28 up to 28 digits before the point, then rounds. */
  function ScaleUp(n: nat, d: nat, exponent: int): Quotient
    requires n > 0 && d > 0
    decreases E27 * d - n
  {
    if n < E27 * d then ScaleUp(10 * n, d, exponent - 1)
    else Quotient(HalfEven(n, d), exponent)
  }

  /** Brings n/d of at least 10^27 down to 28 digits before the point, then rounds. */
  function ScaleDown(n: nat, d: nat, exponent: int): Quotient
    requires n >= E27 * d && d > 0
    decreases n - d
  {
    if n >= 10 * E27 * d then ScaleDown(n, 10 * d, exponent + 1)
    else Quotient(HalfEven(n, d), exponent)
  }

  /** Decimal(n) / Decimal(d). */
  function Divide28(n: nat, d: nat): Quotient
    requires d > 0
  {
    if n == 0 then Quotient(0, 0)
    else if n < E27 * d then ScaleUp(n, d, 0)
    else ScaleDown(n, d, 0)
  }

  predicate AtMost(q: Quotient, bound: nat) {
    if q.exponent >= 0 then q.coeff * Pow10(q.exponent) <= bound
    else q.coeff <= bound * Pow10(-q.exponent)
  }

  /** max(1.0, min(3.0, raw)).quantize(0.01), in hundredths. */
  function ClampQuantize(raw: Quotient): nat {
    if AtMost(raw, 1) then 100
    else if !AtMost(raw, 3) then 300
    else if raw.exponent >= 0 then HalfUp(100 * raw.coeff * Pow10(raw.exponent), 1)
    else HalfUp(100 * raw.coeff, Pow10(-raw.exponent))
  }

  /** compute_surge_multiplier: the constant 3.0 when no driver is free. */
  function ComputeMultiplier(pending: nat, free: nat): Decimal {
    if free == 0 then Decimal(30, 1)
    else Decimal(ClampQuantize(Divide28(pending, free)), 2)
  }

  function Hundredths(m: Decimal): nat {
    if m.places == 2 then m.coeff else if m.places == 1 then 10 * m.coeff else 0
  }

  /** The multiplier one rounding would give: the clamped ratio itself, half up. */
  function ExactHundredths(pending: nat, free: nat): nat {
    if free == 0 || pending >= 3 * free then 300
    else if pending <= free then 100
    else HalfUp(100 * pending, free)
  }

  // ---------- where the 28-digit quotient lies ----------

  lemma {:induction false} Pow10At27()
    ensures Pow10(27) == E27
  {
    assert Pow10(9) == 1_000_000_000 by {
      assert Pow10(3) == 1000;
      assert Pow10(6) == 1000 * 1000;
    }
    Pow10Add(9, 9);
    Pow10Add(18, 9);
  }

  lemma {:induction false} Pow10Add(a: nat, b: nat)
    ensures Pow10(a + b) == Pow10(a) * Pow10(b)
  {
    if a > 0 {
      Pow10Add(a - 1, b);
      assert Pow10(a + b) == 10 * Pow10(a - 1 + b);
      Assoc(10, Pow10(a - 1), Pow10(b));
    }
  }

  lemma {:induction false} Pow10Monotone(a: nat, b: nat)
    requires a <= b
    ensures Pow10(a) <= Pow10(b)
  {
    if a < b {
      Pow10Monotone(a, b - 1);
    }
  }

  /** Below 27 places a ratio under 10 has not yet reached 28 digits. */
  lemma StillShort(p: nat, a: nat, k: nat)
    requires p < 10 * a && k < 27
    ensures p * Pow10(k) < E27 * a
  {
    Pow10At27();
    Pow10Monotone(k + 1, 27);
    StrictMul(p, 10 * a, Pow10(k));
    MoveTen(a, Pow10(k));
    MulLe(Pow10(k + 1), E27, a);
  }

  lemma MoveTen(a: nat, x: nat)
    ensures (10 * a) * x == (10 * x) * a
  {
  }

  /** From 27 places on a ratio of at least 1 has its 28 digits. */
  lemma LongEnough(p: nat, a: nat, k: nat)
    requires a <= p && k >= 27
    ensures p * Pow10(k) >= E27 * a
  {
    Pow10At27();
    Pow10Monotone(27, k);
    MulLe(a, p, E27);
    MulLe(E27, Pow10(k), p);
  }

  lemma TenTimes(p: nat, k: nat)
    ensures 10 * (p * Pow10(k)) == p * Pow10(k + 1)
  {
    Assoc(10, p, Pow10(k));
    Assoc(p, 10, Pow10(k));
  }

  /** A ratio in [1, 10) keeps 27 digits after the point. */
  lemma {:induction false} ScaleUpTo27(p: nat, a: nat, k: nat, exponent: int)
    requires 0 < a <= p < 10 * a && k <= 27 && exponent + k == 0
    ensures ScaleUp(p * Pow10(k), a, exponent) == Quotient(HalfEven(p * E27, a), -27)
    decreases 27 - k
  {
    if k == 27 {
      Pow10At27();
      LongEnough(p, a, k);
    } else {
      StillShort(p, a, k);
      TenTimes(p, k);
      ScaleUpTo27(p, a, k + 1, exponent - 1);
    }
  }

  /** A ratio below 1 rounds to at most 1. */
  lemma {:induction false} ScaleUpBelowOne(p: nat, a: nat, k: nat, exponent: int)
    requires 0 < p < a && p * Pow10(k) < 10 * E27 * a && exponent + k == 0
    ensures AtMost(ScaleUp(p * Pow10(k), a, exponent), 1)
    decreases E27 * a - p * Pow10(k)
  {
    var n := p * Pow10(k);
    if n < E27 * a {
      TenTimes(p, k);
      ScaleUpBelowOne(p, a, k + 1, exponent - 1);
    } else {
      AtLeast28(p, a, k);
      HalfEvenAtMost(n, a, 10 * E27);
    }
  }

  lemma AtLeast28(p: nat, a: nat, k: nat)
    requires 0 < p < a && p * Pow10(k) >= E27 * a
    ensures Pow10(k) >= 10 * E27 && k > 0
  {
    Pow10At27();
    if k <= 27 {
      Pow10Monotone(k, 27);
      TooShort(p, a, Pow10(k));
    }
    Pow10Monotone(28, k);
  }

  lemma TooShort(p: nat, a: nat, x: nat)
    requires 0 < p < a && x <= E27
    ensures p * x < E27 * a
  {
    MulLe(x, E27, p);
    StrictMul(p, a, E27);
  }

  /** A ratio of at least 10 rounds to more than 3. */
  lemma {:induction false} ScaleUpAboveTen(p: nat, a: nat, k: nat, exponent: int)
    requires 0 < 10 * a <= p && p * Pow10(k) < 10 * E27 * a && exponent + k == 0
    ensures !AtMost(ScaleUp(p * Pow10(k), a, exponent), 3)
    decreases E27 * a - p * Pow10(k)
  {
    var n := p * Pow10(k);
    if n < E27 * a {
      TenTimes(p, k);
      ScaleUpAboveTen(p, a, k + 1, exponent - 1);
    } else {
      AtMost26(p, a, k);
      HalfEvenAtLeast(n, a, E27);
      if k == 0 {
        Ordered();
      }
    }
  }

  lemma AtMost26(p: nat, a: nat, k: nat)
    requires 0 < 10 * a <= p && p * Pow10(k) < 10 * E27 * a
    ensures 10 * Pow10(k) <= E27
  {
    Pow10At27();
    if k >= 27 {
      LongEnough(p, 10 * a, k);
    }
    Pow10Monotone(k, 26);
  }

  lemma {:induction false} ScaleDownHuge(n: nat, d: nat, exponent: nat)
    requires d > 0 && n >= E27 * d
    ensures !AtMost(ScaleDown(n, d, exponent), 3)
    decreases n - d
  {
    if n >= 10 * E27 * d {
      ScaleDownHuge(n, 10 * d, exponent + 1);
    } else {
      HalfEvenAtLeast(n, d, E27);
      MulLe(1, Pow10(exponent), HalfEven(n, d));
    }
  }

  lemma HalfEvenAtMost(n: nat, d: nat, bound: nat)
    requires d > 0 && n <= bound * d
    ensures HalfEven(n, d) <= bound
  {
    var r := HalfEven(n, d);
    HalfEvenBounds(n, d);
    Assoc(2, bound, d);
    assert (2 * bound + 2) * d == (2 * bound) * d + 2 * d;
    if r > bound {
      MulLe(2 * bound + 2, 2 * r, d);
    }
  }

  lemma HalfEvenAtLeast(n: nat, d: nat, bound: nat)
    requires d > 0 && bound * d <= n
    ensures bound <= HalfEven(n, d)
  {
    var r := HalfEven(n, d);
    HalfEvenBounds(n, d);
    Assoc(2, bound, d);
    assert (2 * r + 2) * d == (2 * r + 1) * d + d;
    if r < bound {
      MulLe(2 * r + 2, 2 * bound, d);
    }
  }

  /** The clamp's three zones, seen through the 28-digit division. */
  lemma Zones(p: nat, a: nat)
    requires a > 0
    ensures p < a ==> ClampQuantize(Divide28(p, a)) == 100
    ensures p >= 10 * a ==> ClampQuantize(Divide28(p, a)) == 300
    ensures a <= p < 10 * a ==> Divide28(p, a) == Quotient(HalfEven(p * E27, a), -27)
  {
    assert p * Pow10(0) == p;
    if 0 < p < a {
      ScaleUpBelowOne(p, a, 0, 0);
    } else if a <= p < 10 * a {
      ScaleUpTo27(p, a, 0, 0);
    } else if p >= 10 * a {
      Ordered();
      if p < E27 * a {
        ScaleUpAboveTen(p, a, 0, 0);
        NotAtMostMonotone(Divide28(p, a));
      } else {
        ScaleDownHuge(p, a, 0);
        NotAtMostMonotone(Divide28(p, a));
      }
    }
  }

  lemma Ordered()
    ensures Pow10(0) == 1
  {
  }

  lemma NotAtMostMonotone(q: Quotient)
    requires !AtMost(q, 3)
    ensures !AtMost(q, 1)
  {
  }

  // ---------- when the two roundings agree with one ----------

  /** Inside the clamp the multiplier is the half-up rounding of the 27-place quotient. */
  lemma Inside(p: nat, a: nat)
    requires 0 < a <= p < 10 * a
    ensures ClampQuantize(Divide28(p, a)) ==
            (var q := HalfEven(p * E27, a);
             if q <= E27 then 100 else if q > 3 * E27 then 300 else HalfUp(100 * q, E27))
  {
    Zones(p, a);
    Pow10At27();
  }

  /** How far the ratio is below the next rounding boundary, in units of 1 / (200 * free). */
  function Gap(p: nat, a: nat): int
    requires a > 0
  {
    (2 * HalfUp(100 * p, a) + 1) * a - 200 * p
  }

  lemma GapPositive(p: nat, a: nat)
    requires a > 0
    ensures Gap(p, a) >= 1
  {
    var k := HalfUp(100 * p, a);
    assert (2 * k + 2) * a == (2 * k + 1) * a + a;
  }

  /** The rounding boundary above the ratio, in units of 10^-27. */
  function Boundary(p: nat, a: nat): nat
    requires a > 0
  {
    (2 * HalfUp(100 * p, a) + 1) * H25
  }

  lemma BoundaryDistance(p: nat, a: nat)
    requires a > 0
    ensures Boundary(p, a) * a - p * E27 == H25 * Gap(p, a)
    ensures 1 <= Gap(p, a) <= 2 * a
    ensures Boundary(p, a) % 2 == 0
  {
    var k: int, h := HalfUp(100 * p, a), H25;
    Unfold(2 * k + 1, a);
    Unfold(2 * k, a);
    Swap(2 * k + 1, h, a);
    Distribute(h, (2 * k + 1) * a, 200 * p);
    EvenMultiple(2 * k + 1, h);
  }

  lemma BoundaryCrossed(p: nat, a: nat)
    requires 0 < a <= p
    ensures var t, q := Boundary(p, a), HalfEven(p * E27, a);
            (q >= t <==> E25 * Gap(p, a) <= a) && t - E25 <= q <= t
  {
    var t := Boundary(p, a);
    BoundaryDistance(p, a);
    NearestAtLeast(p * E27, a, t);
    HalfEvenAtMost(p * E27, a, t);
    HalfStep(t, a, p * E27, Gap(p, a));
    if t >= E25 {
      HalfEvenAtLeast(p * E27, a, t - E25);
    }
  }

  lemma HalfStep(t: int, a: nat, n: int, gap: int)
    requires t * a - n == H25 * gap && 1 <= gap <= 2 * a
    ensures (t - E25) * a <= n < t * a
    ensures 2 * (t * a - n) == E25 * gap
  {
    assert (t - E25) * a == t * a - E25 * a;
  }

  lemma Distribute(h: int, x: int, y: int)
    ensures h * x - h * y == h * (x - y)
  {
  }

  lemma EvenMultiple(k: int, h: int)
    requires h % 2 == 0
    ensures (k * h) % 2 == 0
  {
    var g := h / 2;
    assert h == 2 * g;
    assert k * h == 2 * (k * g);
  }

  /** Half-even rounding reaches an even integer t from below exactly within half a unit. */
  lemma NearestAtLeast(n: nat, d: nat, t: nat)
    requires d > 0 && n < t * d && t % 2 == 0
    ensures HalfEven(n, d) >= t <==> 2 * (t * d - n) <= d
  {
    var r := HalfEven(n, d);
    HalfEvenBounds(n, d);
    Assoc(2, t, d);
    assert (2 * t - 1) * d == (2 * t) * d - d;
    if r >= t {
      MulLe(2 * t, 2 * r, d);
    } else if r < t - 1 {
      StrictMul(2 * r + 1, 2 * t - 1, d);
    }
  }

  /** Double rounding is harmless for exactly the counts that keep their distance from the
      next boundary: an input where it is not must have more than 10^25 free drivers. */
  lemma DoubleRoundingExactlyWhen(pending: nat, free: nat)
    ensures Hundredths(ComputeMultiplier(pending, free)) == ExactHundredths(pending, free)
            <==> !(0 < free < pending < 3 * free && E25 * Gap(pending, free) <= free)
  {
    var p, a := pending, free;
    if a > 0 {
      Zones(p, a);
      if a < p < 3 * a {
        MidRange(p, a);
      } else if p == a {
        Inside(p, a);
        HalfEvenAtMost(p * E27, a, E27);
      } else if 3 * a <= p < 10 * a {
        Inside(p, a);
        assert 3 * E27 * a <= p * E27;
        HalfEvenAtLeast(p * E27, a, 3 * E27);
        HalfUpAt(300);
      }
    }
  }

  lemma HalfUpAt(k: nat)
    ensures HalfUp(k * E27, E27) == k
  {
    HalfUpUnique(k * E27, E27, k);
  }

  lemma MidRange(p: nat, a: nat)
    requires 0 < a < p < 3 * a
    ensures ClampQuantize(Divide28(p, a)) == HalfUp(100 * p, a) <==> E25 * Gap(p, a) > a
  {
    var k, q := HalfUp(100 * p, a), HalfEven(p * E27, a);
    var h := H25;
    var t := Boundary(p, a);
    Inside(p, a);
    BoundaryCrossed(p, a);
    HalfEvenAtLeast(p * E27, a, E27);
    HalfEvenAtMost(p * E27, a, 3 * E27);
    if q == E27 {
      HalfUpAt(100);
    }
    assert 200 * h == E27;
    var m := HalfUp(100 * q, E27);
    if q >= t {
      HalfUpUnique(100 * q, E27, k + 1);
    } else {
      HalfUpUnique(100 * q, E27, k);
    }
  }

  /** ... so up to 10^25 free drivers the code computes the once-rounded clamped ratio. */
  lemma DoubleRoundingHarmless(pending: nat, free: nat)
    requires free <= E25
    ensures Hundredths(ComputeMultiplier(pending, free)) == ExactHundredths(pending, free)
  {
    DoubleRoundingExactlyWhen(pending, free);
    if 0 < free < pending < 3 * free {
      GapPositive(pending, free);
      if free == E25 {
        GapEven(pending, free);
      }
    }
  }

  lemma GapEven(p: nat, a: nat)
    requires a > 0 && a % 2 == 0
    ensures Gap(p, a) % 2 == 0
  {
    EvenMultiple(2 * HalfUp(100 * p, a) + 1, a);
  }

  /** ... and one more driver is the first count at which it can fail. */
  lemma DoubleRoundingFirstFailure()
    ensures Hundredths(ComputeMultiplier(1005 * (E25 / 1000) + 1, E25 + 1)) == 101
    ensures ExactHundredths(1005 * (E25 / 1000) + 1, E25 + 1) == 100
  {
    var p, a := 1005 * (E25 / 1000) + 1, E25 + 1;
    HalfUpUnique(100 * p, a, 100);
    Inside(p, a);
    BoundaryCrossed(p, a);
    var q := HalfEven(p * E27, a);
    HalfUpUnique(100 * q, E27, 101);
  }

  // ---------- range and monotonicity, for all counts ----------

  lemma MultiplierInRange(pending: nat, free: nat)
    ensures 100 <= Hundredths(ComputeMultiplier(pending, free)) <= 300
    ensures ComputeMultiplier(pending, free).places in {1, 2}
  {
    if free > 0 {
      Zones(pending, free);
      if free <= pending < 10 * free {
        Inside(pending, free);
        var q := HalfEven(pending * E27, free);
        if E27 < q <= 3 * E27 {
          HalfUpAt(100);
          HalfUpAt(300);
          HalfUpMonotone(100 * E27, E27, 100 * q, E27);
          HalfUpMonotone(100 * q, E27, 300 * E27, E27);
        }
      }
    }
  }

  /** More demand or fewer drivers never lowers surge; no driver at all is the maximum.
      This holds for all counts, also beyond the double-rounding bound. */
  lemma SurgeMonotone(p1: nat, a1: nat, p2: nat, a2: nat)
    requires p1 <= p2 && a2 <= a1
    ensures Hundredths(ComputeMultiplier(p1, a1)) <= Hundredths(ComputeMultiplier(p2, a2))
  {
    MultiplierInRange(p1, a1);
    MultiplierInRange(p2, a2);
    if a2 > 0 {
      Zones(p1, a1);
      Zones(p2, a2);
      if a1 <= p1 < 10 * a1 && a2 <= p2 < 10 * a2 {
        Inside(p1, a1);
        Inside(p2, a2);
        var q1, q2 := HalfEven(p1 * E27, a1), HalfEven(p2 * E27, a2);
        MulLe(p1 * E27, p2 * E27, a2);
        MulLe(a2, a1, p2 * E27);
        HalfEvenMonotone(p1 * E27, a1, p2 * E27, a2);
        if E27 < q1 && q2 <= 3 * E27 {
          HalfUpMonotone(100 * q1, E27, 100 * q2, E27);
        }
      } else if p1 >= 10 * a1 {
        MulLe(a2, a1, 10);
      } else if p2 < a2 {
      }
    }
  }
}
