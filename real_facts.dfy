/** Small facts of real arithmetic used by the estimator and utility proofs.
    Each takes the caller's terms as parameters, so the facts can be applied to
    any expression without the solver re-deriving them. */
module RealFacts {

  /** A product of two positive numbers is positive. */
  lemma ProductPositive(a: real, b: real, p: real)
    requires a > 0.0 && b > 0.0 && p == a * b
    ensures p > 0.0
  {
  }

  /** Dividing by a positive number preserves order. */
  lemma QuotientMonotone(x1: real, x2: real, d: real, q1: real, q2: real)
    requires d > 0.0 && x1 <= x2 && q1 == x1 / d && q2 == x2 / d
    ensures q1 <= q2
  {
    assert q1 * d == x1;
    assert q2 * d == x2;
    assert (q2 - q1) * d == x2 - x1;
  }

  /** A quotient of a number by a larger positive number lies in [0, 1). */
  lemma QuotientBelowOne(x: real, d: real, q: real)
    requires 0.0 <= x < d && q == x / d
    ensures 0.0 <= q < 1.0
  {
    assert q * d == x;
  }

  /** Multiplying back by the divisor recovers the dividend. */
  lemma QuotientTimesDivisor(x: real, d: real, q: real)
    requires d != 0.0 && q == x / d
    ensures q * d == x
  {
  }
}
