/** Nonlinear facts the other modules need, one step at a time. */
module Arithmetic {

  lemma MulMonotone(a: int, b: int, d: nat)
    requires a <= b
    ensures a * d <= b * d
  {}

  lemma DivMonotone(x: int, y: int, d: int)
    requires d > 0 && 0 <= x <= y
    ensures x / d <= y / d
  {
    var q, p := x / d, y / d;
    assert x == q * d + x % d && y == p * d + y % d;
    assert (p + 1) * d == p * d + d;
    if q > p {
      MulMonotone(p + 1, q, d);
    }
  }

  lemma DivStrict(x: int, y: int, d: int)
    requires d > 0 && 0 <= x && x + 2 * d <= y
    ensures x / d < y / d
  {
    var q, p := x / d, y / d;
    assert x == q * d + x % d && y == p * d + y % d;
    if q >= p {
      MulMonotone(p, q, d);
    }
  }

  lemma QuotientAtMost(x: nat, d: int, n: int)
    requires d > 0
    ensures x / d <= n <==> x < (n + 1) * d
  {
    var q := x / d;
    assert x == q * d + x % d;
    assert (q + 1) * d == q * d + d;
    if q <= n { MulMonotone(q + 1, n + 1, d); } else { MulMonotone(n + 1, q, d); }
  }

  lemma TimesOneMore(x: real, k: nat)
    ensures x * (k + 1) as real == x * k as real + x
  {
    assert (k + 1) as real == k as real + 1.0;
  }

  lemma QuotientBounds(x: real, lo: real, hi: real, d: real)
    requires d > 0.0 && lo * d <= x <= hi * d
    ensures lo <= x / d <= hi
  {
    var q := x / d;
    assert q * d == x;
    assert (q - lo) * d >= 0.0 && (hi - q) * d >= 0.0;
  }

  lemma TimesMonotone(a: real, b: real, d: real)
    requires a <= b && d > 0.0
    ensures a * d <= b * d
  {}

  lemma TimesStrict(a: real, b: real, d: real)
    requires a < b && d > 0.0
    ensures a * d < b * d
  {}

  lemma DivTimes(x: real, d: real)
    requires d > 0.0
    ensures x / d * d == x
  {}

  lemma PlusOneTimes(r: real, d: real)
    ensures (r + 1.0) * d == r * d + d
  {}
}
