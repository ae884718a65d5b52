// `uint32_t` arithmetic as C performs it: every product and sum is
// reduced modulo 2^32.
module Uint32 {

  const MODULUS: int := 0x1_0000_0000

  /** The values of a `uint32_t`. */
  type U32 = x: int | 0 <= x < 0x1_0000_0000

  /** The `uint32_t` a mathematical result wraps around to. */
  function Wrap(x: int): (w: U32)
    ensures (x - w) % MODULUS == 0
  {
    x % MODULUS
  }

  /** Wrapping each operand of a sum first does not change the wrapped sum. */
  lemma WrapAdd(a: int, b: int)
    ensures Wrap(Wrap(a) + Wrap(b)) == Wrap(a + b)
  {
    var qa := a / MODULUS;
    var qb := b / MODULUS;
    assert a == qa * MODULUS + Wrap(a);
    assert b == qb * MODULUS + Wrap(b);
    assert a + b == (qa + qb) * MODULUS + (Wrap(a) + Wrap(b));
    ShiftWrap(Wrap(a) + Wrap(b), qa + qb);
  }

  /** A sum whose running value was already wrapped wraps to the same value. */
  lemma WrapAddLeft(a: int, b: int)
    ensures Wrap(Wrap(a) + b) == Wrap(a + b)
  {
    WrapAdd(a, b);
    WrapAdd(Wrap(a), b);
    ShiftWrap(a % MODULUS, 0);
    assert Wrap(Wrap(a)) == Wrap(a);
  }

  /** Adding a multiple of the modulus does not change the wrapped value. */
  lemma ShiftWrap(x: int, q: int)
    ensures Wrap(q * MODULUS + x) == Wrap(x)
  {
    var r := Wrap(x);
    var qx := x / MODULUS;
    assert x == qx * MODULUS + r;
    assert q * MODULUS + x == (q + qx) * MODULUS + r;
    DivModUnique(q * MODULUS + x, q + qx, r);
  }

  /** Euclidean division by the modulus has one quotient and one remainder. */
  lemma DivModUnique(x: int, q: int, r: int)
    requires 0 <= r < MODULUS && x == q * MODULUS + r
    ensures x % MODULUS == r
  {
    var q2 := x / MODULUS;
    var r2 := x % MODULUS;
    assert x == q2 * MODULUS + r2;
    assert (q - q2) * MODULUS == r2 - r;
  }
}
