/** Positions in tables flattened row by row. */
module Arithmetic {

  lemma MulMonotone(a: nat, b: nat, n: nat)
    requires a <= b
    ensures a * n <= b * n
  {
  }

  /** Quotient and remainder are determined by the decomposition. */
  lemma DivUnique(x: nat, n: nat, q: nat, r: nat)
    requires x == q * n + r && r < n
    ensures x / n == q && x % n == r
  {
    var p, s := x / n, x % n;
    assert x == p * n + s && s < n;
    if p < q {
      MulMonotone(p + 1, q, n);
    } else if q < p {
      MulMonotone(q + 1, p, n);
    }
  }
}
