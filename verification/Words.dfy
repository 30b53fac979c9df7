/** Machine words. */
module Words {
  // A `std::size_t` has 64 bits.
  const SIZE: nat := 0x1_0000_0000_0000_0000

  function Pow2(n: nat): nat { if n == 0 then 1 else 2 * Pow2(n - 1) }

  lemma FourMore(n: nat)
    ensures Pow2(n + 4) == 16 * Pow2(n)
  {
    assert Pow2(n + 4) == 2 * Pow2(n + 3) == 4 * Pow2(n + 2) == 8 * Pow2(n + 1);
  }

  lemma SixteenMore(n: nat)
    ensures Pow2(n + 16) == 0x1_0000 * Pow2(n)
  {
    FourMore(n);
    FourMore(n + 4);
    FourMore(n + 8);
    FourMore(n + 12);
  }

  lemma SizeIs()
    ensures SIZE == Pow2(64) == 0x1_0000_0000_0000_0000
  {
    SixteenMore(0);
    SixteenMore(16);
    SixteenMore(32);
    SixteenMore(48);
    assert Pow2(0) == 1;
  }

  // What is left of a sum or a difference.
  function Wrap(v: int): nat { v % SIZE }

  // Adding and subtracting 1 commute with wrapping.
  lemma Around(v: int)
    ensures Wrap(Wrap(v) + 1) == Wrap(v + 1)
    ensures Wrap(Wrap(v) - 1) == Wrap(v - 1)
  {
    var q: int, r: int := v / SIZE, Wrap(v);
    assert v == q * SIZE + r;
    WrapIs(v + 1, if r + 1 == SIZE then q + 1 else q, if r + 1 == SIZE then 0 else r + 1);
    WrapIs(r + 1, if r + 1 == SIZE then 1 else 0, if r + 1 == SIZE then 0 else r + 1);
    WrapIs(v - 1, if r == 0 then q - 1 else q, if r == 0 then SIZE - 1 else r - 1);
    WrapIs(r - 1, if r == 0 then -1 else 0, if r == 0 then SIZE - 1 else r - 1);
  }

  lemma WrapIs(v: int, q: int, r: int)
    requires v == q * SIZE + r && 0 <= r < SIZE
    ensures Wrap(v) == r
  {
    var k := v / SIZE - q;
    assert k * SIZE == r - Wrap(v);
  }
}
