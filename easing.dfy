/**
 * The two pure pieces of arithmetic in the component: the linear
 * interpolation `Lerp` and the quadratic slow-in/slow-out ease applied to
 * the journey fraction before interpolating.
 */
module Easing {

  function Min(a: real, b: real): real { if a <= b then a else b }
  function Max(a: real, b: real): real { if a <= b then b else a }

  /** `(1 - t) * p0 + t * p1`, the component's templated Lerp used on scalars. */
  function Lerp(p0: real, p1: real, t: real): (r: real)
    ensures t == 0.0 ==> r == p0
    ensures t == 1.0 ==> r == p1
  {
    (1.0 - t) * p0 + t * p1
  }

  /** For a parameter in [0, 1] the interpolated value lies between the two end points. */
  lemma LerpBetween(p0: real, p1: real, t: real)
    requires 0.0 <= t <= 1.0
    ensures Min(p0, p1) <= Lerp(p0, p1, t) <= Max(p0, p1)
  {
    assert Lerp(p0, p1, t) == p0 + t * (p1 - p0);
    if p0 <= p1 {
      ProductBounds(t, p1 - p0);
    } else {
      ProductBounds(t, p0 - p1);
      assert t * (p1 - p0) == -(t * (p0 - p1));
    }
  }

  /** For `t` in [0, 1] and `d >= 0`, `t * d` lies in [0, d]. */
  lemma ProductBounds(t: real, d: real)
    requires 0.0 <= t <= 1.0 && 0.0 <= d
    ensures 0.0 <= t * d <= d
  {
  }

  /** The ease's denominator as the source writes it: `2 * (f*f - f) + 1`. */
  function EaseDenominator(f: real): real
  {
    2.0 * (f * f - f) + 1.0
  }

  /** The denominator is the sum of squares `f^2 + (1 - f)^2`, hence never zero. */
  lemma EaseDenominatorPositive(f: real)
    ensures EaseDenominator(f) == f * f + (1.0 - f) * (1.0 - f)
    ensures EaseDenominator(f) > 0.0
  {
  }

  /**
   * The slow-in/slow-out ease `f^2 / (2 * (f^2 - f) + 1)`. The result stays
   * in [0, 1] for every real fraction, not just for fractions in [0, 1].
   */
  function SlowInOut(f: real): (e: real)
    ensures 0.0 <= e <= 1.0
    ensures f == 0.0 ==> e == 0.0
    ensures f == 1.0 ==> e == 1.0
  {
    var sqt := f * f;
    EaseDenominatorPositive(f);
    QuotientBounds(sqt, EaseDenominator(f));
    sqt / EaseDenominator(f)
  }

  /** A quotient of a non-negative numerator by a denominator at least as large lies in [0, 1]. */
  lemma QuotientBounds(n: real, d: real)
    requires 0.0 <= n <= d && d > 0.0
    ensures 0.0 <= n / d <= 1.0
  {
  }

  /** The ease is symmetric about the middle of the journey: `e(1 - f) == 1 - e(f)`. */
  lemma SlowInOutSymmetric(f: real)
    ensures SlowInOut(1.0 - f) == 1.0 - SlowInOut(f)
  {
  }

  /** Over one segment (fractions in [0, 1]) the ease never moves backwards. */
  lemma SlowInOutMonotone(a: real, b: real)
    requires 0.0 <= a <= b <= 1.0
    ensures SlowInOut(a) <= SlowInOut(b)
  {
    EaseDenominatorPositive(a);
    EaseDenominatorPositive(b);
    var da, db := EaseDenominator(a), EaseDenominator(b);
    // a(1 - b) <= b(1 - a) because their difference is b - a.
    var u, v := a * (1.0 - b), b * (1.0 - a);
    assert v - u == b - a;
    assert 0.0 <= u by { ProductBounds(a, 1.0 - b); }
    SquareMonotone(u, v);
    assert u * u == (a * a) * ((1.0 - b) * (1.0 - b));
    assert v * v == (b * b) * ((1.0 - a) * (1.0 - a));
    // Cross-multiplied: a^2 * db <= b^2 * da.
    assert (a * a) * db == (a * a) * (b * b) + u * u;
    assert (b * b) * da == (b * b) * (a * a) + v * v;
    CrossMultiply(a * a, da, b * b, db);
  }

  /**
   * Outside [0, 1] the ease turns back: it falls as a negative fraction
   * rises towards 0, ...
   */
  lemma SlowInOutDecreasingBelowZero(a: real, b: real)
    requires a <= b <= 0.0
    ensures SlowInOut(b) <= SlowInOut(a)
  {
    EaseDenominatorPositive(a);
    EaseDenominatorPositive(b);
    var da, db := EaseDenominator(a), EaseDenominator(b);
    var u, v := -a * (1.0 - b), -b * (1.0 - a);
    assert u - v == b - a;
    assert 0.0 <= v;
    SquareMonotone(v, u);
    assert u * u == (a * a) * ((1.0 - b) * (1.0 - b));
    assert v * v == (b * b) * ((1.0 - a) * (1.0 - a));
    assert (b * b) * da == (b * b) * (a * a) + v * v;
    assert (a * a) * db == (a * a) * (b * b) + u * u;
    CrossMultiply(b * b, db, a * a, da);
  }

  /** ... and it falls again as a fraction past 1 keeps growing. */
  lemma SlowInOutDecreasingAboveOne(a: real, b: real)
    requires 1.0 <= a <= b
    ensures SlowInOut(b) <= SlowInOut(a)
  {
    EaseDenominatorPositive(a);
    EaseDenominatorPositive(b);
    var da, db := EaseDenominator(a), EaseDenominator(b);
    var u, v := b * (a - 1.0), a * (b - 1.0);
    assert v - u == b - a;
    assert 0.0 <= u;
    SquareMonotone(u, v);
    assert u * u == (b * b) * ((1.0 - a) * (1.0 - a));
    assert v * v == (a * a) * ((1.0 - b) * (1.0 - b));
    assert (b * b) * da == (b * b) * (a * a) + u * u;
    assert (a * a) * db == (a * a) * (b * b) + v * v;
    CrossMultiply(b * b, db, a * a, da);
  }

  /** The ease is 0 only at a fraction of exactly 0: everywhere else it is above 0. */
  lemma SlowInOutPositive(f: real)
    requires f != 0.0
    ensures SlowInOut(f) > 0.0
  {
    var d := EaseDenominator(f);
    assert d > 0.0 by {
      EaseDenominatorPositive(f);
    }
    if f > 0.0 {
      ProductQuotientPositive(f, f, d);
    } else {
      ProductQuotientPositive(-f, -f, d);
    }
  }

  /** A product of two positive numbers divided by a positive number is positive. */
  lemma ProductQuotientPositive(x: real, y: real, d: real)
    requires x > 0.0 && y > 0.0 && d > 0.0
    ensures x * y / d > 0.0
  {
  }

  /** The ease reaches 1 only at a fraction of exactly 1: everywhere else it is below 1. */
  lemma SlowInOutBelowOne(f: real)
    requires f != 1.0
    ensures SlowInOut(f) < 1.0
  {
    SlowInOutSymmetric(f);
    SlowInOutPositive(1.0 - f);
  }

  lemma SquareMonotone(u: real, v: real)
    requires 0.0 <= u <= v
    ensures u * u <= v * v
  {
  }

  /** `n1 / d1 <= n2 / d2` follows from `n1 * d2 <= n2 * d1` for positive denominators. */
  lemma CrossMultiply(n1: real, d1: real, n2: real, d2: real)
    requires d1 > 0.0 && d2 > 0.0
    requires n1 * d2 <= n2 * d1
    ensures n1 / d1 <= n2 / d2
  {
  }
}
