/** Quotients and minima, as the loops over batches and chunks need them. */
module Arithmetic {
  /** Go's min. */
  function Least(a: int, b: int): int {
    if a < b then a else b
  }

  lemma OneMore(k: int, n: int)
    ensures (k + 1) * n == k * n + n
  {
  }

  /** The number of pieces of at most d that n makes. */
  function CeilDiv(n: nat, d: nat): nat
    requires d > 0
  {
    (n + d - 1) / d
  }

  lemma CeilDivFirst(n: nat, d: nat)
    requires n <= d && 0 < d
    ensures CeilDiv(n, d) == if n == 0 then 0 else 1
  {
  }

  lemma CeilDivStep(n: nat, d: nat)
    requires 0 < d <= n
    ensures CeilDiv(n, d) == 1 + CeilDiv(n - d, d)
  {
    var q, r := (n - 1) / d, (n - 1) % d;
    assert n - 1 + d == d * (q + 1) + r;
    QuotientUnique(n - 1 + d, d, q + 1, r);
  }

  lemma QuotientUnique(a: int, d: nat, q: int, r: int)
    requires 0 <= r < d && a == d * q + r
    ensures a / d == q
  {
    var q', r' := a / d, a % d;
    assert d * (q' - q) == r - r';
    if q' > q {
      MulAtLeast(d, q' - q);
    } else if q' < q {
      MulAtLeast(d, q - q');
    }
  }

  lemma MulAtLeast(d: nat, k: nat)
    requires k >= 1
    ensures d * k >= d
  {
  }
}
