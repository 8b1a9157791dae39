/** Go's fixed-width integers and conversions, written out where they matter:
    two's-complement wrap-around, division and remainder that truncate toward
    zero, and float-to-integer conversion that drops the fraction.
    Floating-point numbers themselves are exact reals. */
module GoNumbers {

  const TWO_63: int := 0x8000_0000_0000_0000
  const TWO_64: int := 0x1_0000_0000_0000_0000

  type uint64 = x: int | 0 <= x < TWO_64
  type int64 = x: int | -TWO_63 <= x < TWO_63

  /** The signed 64-bit value that shares its low 64 bits with x. */
  function Int64(x: int): (r: int64)
    ensures (x - r) % TWO_64 == 0
  {
    var low := x % TWO_64;
    if low < TWO_63 then low else low - TWO_64
  }

  lemma Int64Exact(x: int)
    ensures Int64(x) == x <==> -TWO_63 <= x < TWO_63
  {}

  lemma Int64Congruent(x: int, y: int)
    requires (x - y) % TWO_64 == 0
    ensures Int64(x) == Int64(y)
  {
    var k := (x - y) / TWO_64;
    assert x == y + k * TWO_64;
    assert x % TWO_64 == y % TWO_64;
  }

  function Add64(x: int, y: int): int64 { Int64(x + y) }
  function Sub64(x: int, y: int): int64 { Int64(x - y) }
  function Mul64(x: int, y: int): int64 { Int64(x * y) }

  /** Unsigned addition modulo 2^64. */
  function AddU64(x: uint64, y: uint64): uint64 { (x + y) % TWO_64 }

  /** Go's integer division and remainder. */
  function Quo(a: int, b: int): int
    requires b > 0
  {
    if a >= 0 then a / b else -((-a) / b)
  }

  function Rem(a: int, b: int): int
    requires b > 0
  {
    if a >= 0 then a % b else -((-a) % b)
  }

  /** Quotient and remainder make up a, and the remainder is smaller than b and has a's sign. */
  lemma {:induction false} QuoRem(a: int, b: int)
    requires b > 0
    ensures a == b * Quo(a, b) + Rem(a, b) && -b < Rem(a, b) < b
    ensures if a >= 0 then Rem(a, b) >= 0 else Rem(a, b) <= 0
  {
    if a < 0 {
      var q := (-a) / b;
      assert -a == b * q + (-a) % b;
      assert b * -q == -(b * q);
    }
  }

  /** int(x) of a float: the fraction is dropped. */
  function Trunc(x: real): int {
    if x >= 0.0 then x.Floor else -((-x).Floor)
  }

  /** k is x without its fraction: the next integer towards zero. */
  predicate DropsFraction(x: real, k: int) {
    if x >= 0.0 then k as real <= x < k as real + 1.0 else k as real - 1.0 < x <= k as real
  }

  lemma {:induction false} TruncIff(x: real, k: int)
    ensures Trunc(x) == k <==> DropsFraction(x, k)
  {
    var y := if x >= 0.0 then x else -x;
    assert y.Floor as real <= y < y.Floor as real + 1.0;
  }
}
