/** Python's `<<` and `|` on non-negative integers, as used to assemble a
    wide value from 8-bit bytes or 16-bit register words. */
module Bits {

  function Pow2(k: nat): (r: nat)
    ensures r >= 1
  {
    if k == 0 then 1 else 2 * Pow2(k - 1)
  }

  /** `a << k` */
  function Shl(a: nat, k: nat): nat
  {
    a * Pow2(k)
  }

  /** `a | b`, bit by bit from the least significant end. */
  function BitOr(a: nat, b: nat): nat
    decreases a + b
  {
    if a == 0 && b == 0 then 0
    else 2 * BitOr(a / 2, b / 2) + (if a % 2 == 1 || b % 2 == 1 then 1 else 0)
  }

  lemma {:induction false} OrZero(a: nat)
    ensures BitOr(a, 0) == a
  {
    if a != 0 {
      OrZero(a / 2);
    }
  }

  /** When `lo` fits in `k` bits, `(hi << k) | lo` is `hi * 2^k + lo`: the
      two operands have no bit in common. */
  lemma {:induction false} OrOfShifted(hi: nat, lo: nat, k: nat)
    requires lo < Pow2(k)
    ensures BitOr(Shl(hi, k), lo) == Shl(hi, k) + lo
  {
    if k == 0 {
      OrZero(hi);
    } else {
      var h := hi * Pow2(k);
      assert h == 2 * (hi * Pow2(k - 1));
      assert h / 2 == hi * Pow2(k - 1) && h % 2 == 0;
      OrOfShifted(hi, lo / 2, k - 1);
      if h != 0 || lo != 0 {
        assert BitOr(h, lo) == 2 * BitOr(h / 2, lo / 2) + (if lo % 2 == 1 then 1 else 0);
      }
    }
  }
}
