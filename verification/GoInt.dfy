/** Go's 64-bit signed integers: wrap-around and left shifts of the constant 1. */
module GoInt {
  const TWO_63: int := 0x8000_0000_0000_0000
  const TWO_64: int := 0x1_0000_0000_0000_0000

  /** The int64 that a mathematically exact result `x` is truncated to. */
  function Wrap64(x: int): (r: int)
    ensures -TWO_63 <= r < TWO_63
    ensures -TWO_63 <= x < TWO_63 ==> r == x
  {
    (x + TWO_63) % TWO_64 - TWO_63
  }

  function Pow2(n: nat): (r: nat)
    ensures r >= 1
  {
    if n == 0 then 1 else 2 * Pow2(n - 1)
  }

  /** Go's `1 << uint(n)` at type int64: shifting by 64 or more gives 0. */
  function Shl1(n: nat): int {
    if n < 64 then Wrap64(Pow2(n)) else 0
  }

  function Min(a: int, b: int): int {
    if a <= b then a else b
  }

  lemma {:induction false} Pow2Monotonic(a: nat, b: nat)
    requires a <= b
    ensures Pow2(a) <= Pow2(b)
    decreases b
  {
    if a < b {
      Pow2Monotonic(a, b - 1);
    }
  }

  lemma {:induction false} Pow2Split(a: nat, b: nat)
    ensures Pow2(a + b) == Pow2(a) * Pow2(b)
    decreases b
  {
    if b > 0 {
      Pow2Split(a, b - 1);
      assert Pow2(a + b) == 2 * Pow2(a + (b - 1));
    }
  }

  lemma Pow2Table()
    ensures Pow2(5) == 32 && Pow2(6) == 64 && Pow2(11) == 2048
    ensures Pow2(33) == 0x2_0000_0000
    ensures Pow2(44) == 0x1000_0000_0000
    ensures Pow2(55) == 0x80_0000_0000_0000
  {
    assert Pow2(5) == 32;
    Pow2Split(5, 6);
    Pow2Split(11, 11);
    Pow2Split(22, 11);
    Pow2Split(33, 11);
    Pow2Split(44, 11);
  }

  /** Truncating early does not change the final truncation of a product. */
  lemma Wrap64Congruent(x: int, k: int)
    ensures Wrap64(x + k * TWO_64) == Wrap64(x)
  {
    var y := x + TWO_63;
    var q, r := y / TWO_64, y % TWO_64;
    assert y + k * TWO_64 == (q + k) * TWO_64 + r;
    assert (y + k * TWO_64) % TWO_64 == r by {
      DivModUnique(y + k * TWO_64, q + k, r);
    }
  }

  lemma DivModUnique(a: int, q: int, r: int)
    requires a == q * TWO_64 + r && 0 <= r < TWO_64
    ensures a % TWO_64 == r
  {
  }

  lemma Wrap64Mul(x: int, m: int)
    ensures Wrap64(Wrap64(x) * m) == Wrap64(x * m)
  {
    var k := (x + TWO_63) / TWO_64;
    assert Wrap64(x) == x - k * TWO_64;
    assert Wrap64(x) * m == x * m + (-k * m) * TWO_64 by {
      assert (x - k * TWO_64) * m == x * m - (k * TWO_64) * m;
      assert (k * TWO_64) * m == (k * m) * TWO_64;
    }
    Wrap64Congruent(x * m, -k * m);
  }
}
