/** Small facts about products and quotients, used where geometry and scores are compared. */
module Arithmetic {

  lemma ScaleOrder(a: int, b: int, s: nat)
    ensures a <= b ==> a * s <= b * s
  {
    assert b * s - a * s == (b - a) * s;
  }

  lemma QuotientBounds(n: int, d: int)
    requires d > 0
    ensures (n / d) * d <= n < (n / d) * d + d
  {
  }

  lemma QuotientAtLeast(q: int, n: int, d: nat)
    requires d > 0 && q * d <= n
    ensures q <= n / d
  {
    QuotientBounds(n, d);
    ScaleOrder(n / d + 1, q, d);
    assert (n / d + 1) * d == (n / d) * d + d;
  }

  lemma QuotientBelow(n: int, d: nat, q: int)
    requires d > 0 && n < q * d
    ensures n / d < q
  {
    QuotientBounds(n, d);
    ScaleOrder(q, n / d, d);
  }

  lemma QuotientIs(n: int, d: nat, q: int)
    requires d > 0 && q * d <= n < q * d + d
    ensures n / d == q && n % d == n - q * d
  {
    QuotientAtLeast(q, n, d);
    assert (q + 1) * d == q * d + d;
    QuotientBelow(n, d, q + 1);
  }

  lemma ScaleReal(x: real, y: real, k: real)
    requires k >= 0.0
    ensures x <= y ==> x * k <= y * k
  {
    assert y * k - x * k == (y - x) * k;
  }

  lemma ScaleRealStrictly(x: real, y: real, k: real)
    requires k > 0.0 && x < y
    ensures x * k < y * k
  {
    assert y * k - x * k == (y - x) * k;
    assert (y - x) * k > 0.0;
  }

  lemma QuotientAtMost(x: real, d: real, q: real, r: real)
    requires d > 0.0 && r * d == x
    ensures r <= q <==> x <= q * d
  {
    if q < r { ScaleRealStrictly(q, r, d); } else if r < q { ScaleRealStrictly(r, q, d); }
  }

  /** A quotient is at most `q` exactly when the dividend is at most `q` times the divisor. */
  lemma QuotientAtMostIff(x: real, d: real, q: real)
    requires d > 0.0
    ensures x / d <= q <==> x <= q * d
  {
    QuotientAtMost(x, d, q, x / d);
  }

  lemma QuotientOfSum(x: real, y: real, d: real)
    requires d > 0.0
    ensures (x + y) / d == x / d + y / d
  {
  }
}
