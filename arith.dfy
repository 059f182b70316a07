/** Facts about products of natural numbers used to index row-major enumerations. */
module Arith {

  /** An index below `a * p` has its quotient by `p` below `a`. */
  lemma DivBelow(k: nat, a: nat, p: nat)
    requires k < a * p
    ensures p > 0 && 0 <= k / p < a
    ensures k == (k / p) * p + k % p && k % p < p
  {
    if k / p >= a {
      MulLe(a, k / p, p);
    }
  }

  lemma MulSucc(q: int, p: int)
    ensures (q + 1) * p == q * p + p
  {
  }

  lemma MulLe(x: nat, y: nat, p: nat)
    requires x <= y
    ensures x * p <= y * p
  {
  }

  /**
   * Position `e` of block `d` in `n` blocks of `p`: it lies inside the `n`
   * blocks, and inside the first `n - 1` of them unless `d` is the last one.
   */
  lemma BlockIndex(d: nat, e: nat, n: nat, p: nat)
    requires d < n && e < p
    ensures d * p + e < n * p
    ensures n * p == (n - 1) * p + p
    ensures d < n - 1 ==> d * p + e < (n - 1) * p
  {
    MulSucc(d, p);
    MulSucc(n - 1, p);
    if d < n - 1 {
      MulLe(d + 1, n - 1, p);
    } else {
      MulLe(d + 1, n, p);
    }
  }
}
