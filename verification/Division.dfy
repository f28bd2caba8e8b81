/** Integer division by a positive number, and rounding up. */
module Division {

  function Ceil(x: real): int { -((-x).Floor) }

  lemma MulMonotone(a: int, b: int, d: int)
    requires a <= b && d > 0
    ensures a * d <= b * d
  {
    assert (b - a) * d >= 0;
  }

  lemma DivBelow(a: int, n: int, d: int)
    requires d > 0 && a < n * d
    ensures a / d < n
  {
    assert a == (a / d) * d + a % d;
    if n <= a / d { MulMonotone(n, a / d, d); }
  }

  lemma DivAtLeast(a: int, n: int, d: int)
    requires d > 0 && n * d <= a
    ensures n <= a / d
  {
    assert a == (a / d) * d + a % d;
    if a / d < n { MulMonotone(a / d + 1, n, d); }
  }

  lemma QuotientIs(a: int, d: int, q: int)
    requires d > 0 && q * d <= a < q * d + d
    ensures a / d == q
  {
    DivBelow(a, q + 1, d);
    DivAtLeast(a, q, d);
  }

  lemma QuotientOfProduct(n: int, d: int)
    requires d > 0
    ensures (n * d) / d == n
  {
    QuotientIs(n * d, d, n);
  }

  lemma DivLess(a: int, b: int, d: int)
    requires d > 0
    ensures b / d < a / d ==> b < a
  {
    if b / d < a / d { MulMonotone(b / d + 1, a / d, d); }
  }

  lemma DivMonotone(a: int, b: int, d: int)
    requires a <= b && d > 0
    ensures a / d <= b / d
  {
    DivLess(a, b, d);
  }

  lemma DivNotNegative(a: int, d: int)
    requires a >= 0 && d > 0
    ensures a / d >= 0
  {}

  /** Rounding the difference down loses one more where the remainder wraps. */
  lemma QuotientOfDifference(a: int, b: int, d: int)
    requires d > 0
    ensures (b - a) / d == b / d - a / d - (if b % d < a % d then 1 else 0)
  {
    Distribute(b / d, a / d, d);
    QuotientIs(b - a, d, b / d - a / d - if b % d < a % d then 1 else 0);
  }

  lemma AtMostQuotient(q: int, a: int, d: int)
    requires d > 0
    ensures q <= a / d <==> q * d <= a
  {
    if q * d <= a { DivAtLeast(a, q, d); } else { DivBelow(a, q, d); }
  }

  lemma Rounded(a: int, d: int)
    requires d > 0
    ensures a / d * d == a - a % d
  {}

  lemma QuotientsDiffer(a: int, x: int, high: int, d: int)
    requires d > 0
    ensures x / d - a / d <= (high - a) / d <==> x - x % d <= high - a % d
  {
    AtMostQuotient(x / d - a / d, high - a, d);
    Distribute(x / d, a / d, d);
    Rounded(x, d);
    Rounded(a, d);
  }

  lemma Distribute(a: int, b: int, d: int)
    ensures (a - b) * d == a * d - b * d
  {}
}
