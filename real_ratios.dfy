/** Facts about dividing by a positive real, used by the geometry and progress computations. */
module RealRatios {
  lemma ProductPositive(x: real, y: real)
    requires x > 0.0 && y > 0.0
    ensures x * y > 0.0
  {
  }

  /** Dividing by a positive real: the quotient times the divisor is the dividend, and bounds carry over. */
  lemma RatioBounds(a: real, d: real)
    requires d > 0.0
    ensures a / d * d == a
    ensures a <= 0.0 ==> a / d <= 0.0
    ensures a >= d ==> a / d >= 1.0
    ensures 0.0 <= a ==> 0.0 <= a / d
    ensures a <= d ==> a / d <= 1.0
  {
    var q := a / d;
    assert q * d == a;
    if q > 0.0 {
      ProductPositive(q, d);
    }
    if q < 0.0 {
      ProductPositive(-q, d);
    }
    if q > 1.0 {
      ProductPositive(q - 1.0, d);
    }
    if q < 1.0 {
      ProductPositive(1.0 - q, d);
    }
  }

  /** Dividing by a positive real keeps the order. */
  lemma RatioMonotone(a: real, b: real, d: real)
    requires a <= b && d > 0.0
    ensures a / d <= b / d
  {
    var qa := a / d;
    var qb := b / d;
    assert qa * d == a && qb * d == b;
    if qa > qb {
      ProductPositive(qa - qb, d);
    }
  }
}
