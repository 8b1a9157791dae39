/** Byte counts for people: the scaling loop, in int64. */
module HumanBytes {
  import opened GoNumbers
  import opened Arithmetic

  /** Plain bytes, or b / div with the unit "KMGTPE"[exp]. */
  datatype Text = Plain(b: int64) | Scaled(b: int64, div: int64, exp: nat)

  const UNITS := "KMGTPE"

  function Pow1024(k: nat): int { if k == 0 then 1 else 1024 * Pow1024(k - 1) }

  lemma {:induction false} PowMonotone(j: nat, k: nat)
    requires j <= k
    ensures 1 <= Pow1024(j) <= Pow1024(k)
    decreases k
  {
    if j < k {
      PowMonotone(j, k - 1);
    } else if j > 0 {
      PowMonotone(j - 1, k - 1);
    }
  }

  /** Only exponents up to 5 fit under 2^63. */
  lemma ExponentBound(k: nat)
    requires Pow1024(k + 1) < TWO_63
    ensures k <= 5
  {
    assert Pow1024(3) == 0x4000_0000;
    assert Pow1024(5) == 0x4_0000_0000_0000;
    assert Pow1024(7) == 0x40_0000_0000_0000_0000;
    if k > 5 {
      PowMonotone(7, k + 1);
    }
  }

  lemma ScaleStep(b: int, n: nat, div: nat)
    requires n * div <= b < (n + 1) * div
    ensures (n / 1024) * (1024 * div) <= b < (n / 1024 + 1) * (1024 * div)
    ensures n >= 1024 ==> 1024 * div <= b
  {
    var q := n / 1024;
    MulMonotone(1024 * q, n, div);
    MulMonotone(n + 1, 1024 * (q + 1), div);
    assert (1024 * q) * div == q * (1024 * div);
    assert (1024 * (q + 1)) * div == (q + 1) * (1024 * div);
    if n >= 1024 { MulMonotone(1024, n, div); }
  }

  /** The unit chosen is the greatest that does not exceed b, its index is inside the table,
      and no multiplication overflows. */
  method HumanBytes(b: int64) returns (r: Text)
    ensures b < 1024 ==> r == Plain(b)
    ensures b >= 1024 ==>
              r.Scaled? && r.b == b && r.exp < |UNITS|
              && r.div == Pow1024(r.exp + 1) && r.div <= b < 1024 * r.div
  {
    if b < 1024 { return Plain(b); }
    var div: int64, exp: nat := 1024, 0;
    var n := b / 1024;
    assert Pow1024(0) == 1;
    while n >= 1024
      invariant 1 <= n && 0 < div <= b
      invariant div == Pow1024(exp + 1)
      invariant n * div <= b < (n + 1) * div
    {
      ScaleStep(b, n, div);
      div := div * 1024;
      exp := exp + 1;
      n := n / 1024;
    }
    MulMonotone(n + 1, 1024, div);
    ExponentBound(exp);
    return Scaled(b, div, exp);
  }

  /** No other exponent would do. */
  lemma {:induction false} UnitUnique(b: int, j: nat, k: nat)
    requires Pow1024(j + 1) <= b < Pow1024(j + 2) && Pow1024(k + 1) <= b < Pow1024(k + 2)
    ensures j == k
  {
    if j < k { PowMonotone(j + 2, k + 1); }
    if k < j { PowMonotone(k + 2, j + 1); }
  }
}
