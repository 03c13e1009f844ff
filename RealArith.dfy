/** Facts about real arithmetic used by the classifier and the card. The signal
    code compares Euclidean lengths (`Math.hypot`); the model compares squared
    lengths instead, and HypotComparison is why that is the same test. */
module RealArith {

  lemma PositiveProduct(a: real, b: real)
    requires a > 0.0 && b > 0.0
    ensures a * b > 0.0
  {
  }

  lemma NonNegativeProduct(a: real, b: real)
    requires a >= 0.0 && b >= 0.0
    ensures a * b >= 0.0
  {
  }

  lemma SquareNonNegative(d: real)
    ensures d * d >= 0.0
    ensures d != 0.0 ==> d * d > 0.0
  {
    if d < 0.0 {
      assert d * d == (-d) * (-d);
      PositiveProduct(-d, -d);
    }
  }

  /** A fraction t in [0, 1] of the gap b - a lies between 0 and the gap. */
  lemma FractionOfGap(a: real, b: real, t: real)
    requires 0.0 <= t <= 1.0
    ensures a <= b ==> 0.0 <= (b - a) * t <= b - a
    ensures b <= a ==> b - a <= (b - a) * t <= 0.0
  {
    if a <= b {
      NonNegativeProduct(b - a, t);
      NonNegativeProduct(b - a, 1.0 - t);
      assert (b - a) * (1.0 - t) == (b - a) - (b - a) * t;
    } else {
      NonNegativeProduct(a - b, t);
      NonNegativeProduct(a - b, 1.0 - t);
      assert (a - b) * t == -((b - a) * t);
      assert (a - b) * (1.0 - t) == (a - b) + (b - a) * t;
    }
  }

  /** For non-negative reals, a strict comparison is kept by squaring. */
  lemma SquareMonotone(a: real, b: real)
    requires a >= 0.0 && b >= 0.0
    ensures a < b <==> a * a < b * b
  {
    if a < b {
      NonNegativeProduct(a, b - a);
      PositiveProduct(b, b - a);
      assert a * b - a * a == a * (b - a);
      assert b * b - a * b == b * (b - a);
    } else {
      NonNegativeProduct(b, a - b);
      NonNegativeProduct(a, a - b);
      assert b * a - b * b == b * (a - b);
      assert a * a - b * a == a * (a - b);
    }
  }

  /** If d and e are the lengths `hypot` returns for squared lengths dd and ee, then
      `d < k * e` holds exactly when `dd < k * k * ee`, and `d > k * e` exactly when
      `dd > k * k * ee`, for any non-negative ratio k. */
  lemma HypotComparison(d: real, dd: real, e: real, ee: real, k: real)
    requires d >= 0.0 && d * d == dd
    requires e >= 0.0 && e * e == ee
    requires k >= 0.0
    ensures d < k * e <==> dd < k * k * ee
    ensures d > k * e <==> dd > k * k * ee
  {
    assert k * e >= 0.0;
    assert (k * e) * (k * e) == k * k * ee;
    SquareMonotone(d, k * e);
    SquareMonotone(k * e, d);
  }
}
