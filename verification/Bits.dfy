/** Powers of two, products and alignment. */
module Bits {

  function Pow2(n: nat): (r: nat)
    ensures r >= 1
  {
    if n == 0 then 1 else 2 * Pow2(n - 1)
  }

  /** A product of two unknowns. */
  function Times(a: nat, b: nat): nat {
    a * b
  }

  lemma Associate(a: nat, b: nat, c: nat)
    ensures Times(Times(a, b), c) == Times(a, Times(b, c))
  {
  }

  lemma Distribute(a: nat, b: nat, c: nat)
    ensures Times(a + b, c) == Times(a, c) + Times(b, c)
  {
  }

  lemma Grow(a: nat, b: nat, c: nat)
    requires a <= b
    ensures Times(a, c) <= Times(b, c) && Times(c, a) <= Times(c, b)
    ensures a < b && c >= 1 ==> Times(a, c) < Times(b, c)
  {
    var k := b - a;
    assert (a + k) * c == a * c + k * c;
    assert c * (a + k) == c * a + c * k;
    assert k >= 1 && c >= 1 ==> k * c >= 1;
  }

  lemma {:induction false} PowAdd(a: nat, b: nat)
    ensures Pow2(a + b) == Times(Pow2(a), Pow2(b))
    decreases b
  {
    if b > 0 {
      PowAdd(a, b - 1);
      assert Pow2(a + b) == 2 * Pow2(a + (b - 1));
      Doubled(Pow2(a), Pow2(b - 1));
    }
  }

  lemma Doubled(a: nat, b: nat)
    ensures Times(a, 2 * b) == 2 * Times(a, b)
  {
  }

  lemma {:induction false} PowGrows(a: nat, b: nat)
    requires a <= b
    ensures Pow2(a) <= Pow2(b)
    decreases b
  {
    if a < b {
      PowGrows(a, b - 1);
    }
  }

  lemma PowsOfTen()
    ensures Pow2(10) == 0x400 && Pow2(20) == 0x10_0000 && Pow2(21) == 0x20_0000 && Pow2(24) == 0x100_0000
    ensures Pow2(30) == 0x4000_0000 && Pow2(31) == 0x8000_0000 && Pow2(32) == 0x1_0000_0000
  {
    assert Pow2(5) == 32 && Pow2(4) == 16;
    PowAdd(5, 5);
    PowAdd(10, 10);
    PowAdd(20, 4);
    PowAdd(20, 10);
    assert Pow2(21) == 2 * Pow2(20) && Pow2(31) == 2 * Pow2(30) && Pow2(32) == 2 * Pow2(31);
  }

  function Distance(a: int, b: int): nat {
    if a < b then b - a else a - b
  }

  /** The next multiple of 256. */
  function AlignUp(x: nat): (r: nat)
    ensures x <= r < x + 256 && r % 256 == 0
  {
    (x + 255) / 256 * 256
  }

  lemma Monotone(a: nat, b: nat, c: nat)
    requires a <= b
    ensures a * c <= b * c && c * a <= c * b
  {
    assert b * c == a * c + (b - a) * c;
  }
}
