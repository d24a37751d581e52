/** Nonlinear facts, kept apart from the proofs that use them. */
module Arithmetic {
  lemma ProductSign(a: int, b: int)
    requires a >= 0 && b >= 0
    ensures a * b >= 0
  {
  }

  lemma ProductMonotone(a: int, a': int, b: int)
    requires a <= a' && b >= 0
    ensures a * b <= a' * b
  {
    ProductSign(a' - a, b);
    assert (a' - a) * b == a' * b - a * b;
  }

  /** Quotient and remainder are determined by their defining equation. */
  lemma DivisionUnique(x: int, b: int, q: int, r: int)
    requires 0 <= r < b && x == q * b + r
    ensures x / b == q && x % b == r
  {
    var q', r' := x / b, x % b;
    assert x == q' * b + r' && 0 <= r' < b;
    assert (q + 1) * b == q * b + b && (q' + 1) * b == q' * b + b;
    if q' > q {
      ProductMonotone(q + 1, q', b);
    } else if q' < q {
      ProductMonotone(q' + 1, q, b);
    }
  }
}
