/** The few facts about products and quotients that the linear solver does not find by itself. */
module Arithmetic {

  lemma MulMonotone(a: int, b: int, k: int)
    requires a <= b && 0 <= k
    ensures a * k <= b * k
  {
  }

  lemma MulStrict(a: int, b: int, k: int)
    requires a < b && 0 < k
    ensures a * k < b * k
  {
  }

  lemma MulPositive(a: int, b: int)
    requires 0 < a && 0 < b
    ensures 0 < a * b
  {
  }

  /** Positive factors do not change a sign. */
  lemma SameSign(x: int, k: int, y: int, l: int)
    requires k > 0 && l > 0 && x * k == y * l
    ensures (x < 0 <==> y < 0) && (x == 0 <==> y == 0)
  {
    if x < 0 { MulStrict(x, 0, k); }
    if x > 0 { MulStrict(0, x, k); }
    if y < 0 { MulStrict(y, 0, l); }
    if y > 0 { MulStrict(0, y, l); }
  }

  lemma DivisionBounds(n: int, d: int)
    requires d > 0
    ensures (n / d) * d <= n < (n / d + 1) * d
  {
  }

  /** A quotient is the only number whose multiple brackets the dividend. */
  lemma DivisionUnique(n: int, d: int, q: int)
    requires d > 0 && q * d <= n < (q + 1) * d
    ensures n / d == q
  {
    DivisionBounds(n, d);
    if n / d < q { MulMonotone(n / d + 1, q, d); }
    if n / d > q { MulMonotone(q + 1, n / d, d); }
  }

  lemma HundredSplit(h: nat, x: int)
    ensures (h / 100) * (100 * x) + (h % 100) * x == h * x
  {
    assert h == 100 * (h / 100) + h % 100;
    var q, r := h / 100, h % 100;
    assert (100 * q + r) * x == q * (100 * x) + r * x;
  }

  lemma MulAssoc(a: int, b: int, c: int)
    ensures (a * b) * c == a * (b * c)
  {
  }

  /** Placing a decimal point: digits `i` before it and `n` after, at scale `a`, then `b` more places. */
  lemma Rescale(i: int, n: int, a: int, b: int)
    ensures (i * (a * b) + n * b) * a == (i * a + n) * (a * b)
    ensures (-(i * (a * b) + n * b)) * a == (-(i * a + n)) * (a * b)
  {
    var x := i * a + n;
    MulAssoc(i, a, b);
    assert i * (a * b) + n * b == x * b;
    MulAssoc(x, b, a);
    assert (-(x * b)) * a == -((x * b) * a);
    assert (-x) * (a * b) == -(x * (a * b));
  }
}
