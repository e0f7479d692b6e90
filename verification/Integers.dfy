/** The ranges of the source's integer types, and the two's complement conversions into them. */
module Integers {
  const INT_MAX: int := 0x7fff_ffff
  const LLONG_MAX: int := 0x7fff_ffff_ffff_ffff
  const SIZE_MAX: nat := 0xffff_ffff_ffff_ffff

  function Wrap32(x: int): int {
    if -INT_MAX - 1 <= x <= INT_MAX then x
    else (x + INT_MAX + 1) % 0x1_0000_0000 - INT_MAX - 1
  }

  function Wrap64(x: int): int {
    if -LLONG_MAX - 1 <= x <= LLONG_MAX then x
    else (x + LLONG_MAX + 1) % 0x1_0000_0000_0000_0000 - LLONG_MAX - 1
  }

  lemma {:induction false} WrapExact(x: nat)
    ensures Wrap32(x) == x <==> x <= INT_MAX
  {
  }

  /** Both keep the number modulo the size of the type, within its range. */
  lemma {:induction false} WrapsExactly(x: int)
    ensures -0x8000_0000 <= Wrap32(x) < 0x8000_0000 && (x - Wrap32(x)) % 0x1_0000_0000 == 0
    ensures -0x8000_0000_0000_0000 <= Wrap64(x) < 0x8000_0000_0000_0000
    ensures (x - Wrap64(x)) % 0x1_0000_0000_0000_0000 == 0
  {
    var k := WrapShifts(x);
    var l := (x + LLONG_MAX + 1) / 0x1_0000_0000_0000_0000;
    assert Wrap64(x) == x - 0x1_0000_0000_0000_0000 * l;
  }

  lemma {:induction false} WrapShifts(x: int) returns (k: int)
    ensures Wrap32(x) == x - 0x1_0000_0000 * k
    ensures -INT_MAX - 1 <= Wrap32(x) <= INT_MAX
  {
    k := (x + INT_MAX + 1) / 0x1_0000_0000;
  }

  lemma {:induction false} WrapAdds(a: int, b: int)
    ensures Wrap32(Wrap32(a) + Wrap32(b)) == Wrap32(a + b)
  {
    var i := WrapShifts(a);
    var j := WrapShifts(b);
    var k := WrapShifts(a + b);
    var l := WrapShifts(Wrap32(a) + Wrap32(b));
    assert Wrap32(Wrap32(a) + Wrap32(b)) - Wrap32(a + b) == 0x1_0000_0000 * (k - i - j - l);
  }
}
