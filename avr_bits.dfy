/**
 * Bit-level view of the 8-bit I/O registers of the AVR, as the firmware
 * manipulates them with `|=`, `&= ~` and `1 << n`.
 */
module AvrBits {

  /** Bit `q` (0 is the least significant) of a register value. */
  predicate Bit(x: bv8, q: nat)
    requires q < 8
  {
    x & (1 << q) != 0
  }

  /** Bit `q` of `x & m` is set iff it is set in both. */
  lemma AndBits(x: bv8, m: bv8)
    ensures forall q :: 0 <= q < 8 ==> (Bit(x & m, q) <==> Bit(x, q) && Bit(m, q))
  {
  }

  /** Bit `q` of `x | m` is set iff it is set in either. */
  lemma OrBits(x: bv8, m: bv8)
    ensures forall q :: 0 <= q < 8 ==> (Bit(x | m, q) <==> Bit(x, q) || Bit(m, q))
  {
  }

  /** `x | (1 << p)`: bit `p` becomes 1, every other bit keeps its value. */
  function SetBit(x: bv8, p: nat): (r: bv8)
    requires p < 8
    ensures forall q :: 0 <= q < 8 ==> (Bit(r, q) <==> q == p || Bit(x, q))
  {
    x | (1 << p)
  }

  /**
   * `x & ~(1 << p)`: bit `p` becomes 0, every other bit keeps its value.
   * As in C, the mask is the low byte of the 16-bit `int` `~(1 << p)`.
   */
  function ClearBit(x: bv8, p: nat): (r: bv8)
    requires p < 8
    ensures forall q :: 0 <= q < 8 ==> (Bit(r, q) <==> q != p && Bit(x, q))
  {
    AndBits(x, IntInvMaskLowByte(p));
    x & IntInvMaskLowByte(p)
  }

  /**
   * The low byte of `1 << p` computed as a 16-bit AVR `int` (the operand
   * type of the shift in `PORTA |= (1 << pin)`). Shifting by 16 or more is
   * undefined in C, so `p < 16`; for `8 <= p < 16` the low byte is 0.
   */
  function IntMaskLowByte(p: nat): (m: bv8)
    requires p < 16
    ensures forall q :: 0 <= q < 8 ==> (Bit(m, q) <==> q == p)
  {
    (((1 as bv16) << p) & 0xFF) as bv8
  }

  /** The low byte of `~(1 << p)` computed as a 16-bit AVR `int`. */
  function IntInvMaskLowByte(p: nat): (m: bv8)
    requires p < 16
    ensures forall q :: 0 <= q < 8 ==> (Bit(m, q) <==> q != p)
  {
    ((!((1 as bv16) << p)) & 0xFF) as bv8
  }
}
