/**
 * Bit-level reading and writing of 32-bit registers, in the forms the driver
 * uses: `(r >> k) & 1` to read a flag, `r |= (1 << k)` to set it,
 * `r &= ~(1 << k)` to clear it, and "clear the field, then OR the value in"
 * to program a multi-bit field. Bit positions and field widths are `bv32`
 * values below 32, so that every shift is a plain bit-vector shift.
 */
module Bits {

  /** Bit `k` of `r`, read as `(r >> k) & 1`. */
  predicate Bit(r: bv32, k: bv32)
    requires k < 32
  {
    (r >> k) & 1 == 1
  }

  /** The one-bit mask `1 << k`. */
  function BitMask(k: bv32): bv32
    requires k < 32
  {
    1 << k
  }

  /** `a` and `b` agree on every bit that is clear in `m`. */
  predicate SameExcept(a: bv32, b: bv32, m: bv32)
  {
    a & !m == b & !m
  }

  /** `r` with bit `k` set, as `r | (1 << k)`. */
  function SetBit(r: bv32, k: bv32): bv32
    requires k < 32
  {
    r | (1 << k)
  }

  /** `r` with bit `k` cleared, as `r & ~(1 << k)`. */
  function ClearBit(r: bv32, k: bv32): bv32
    requires k < 32
  {
    r & !(1 << k)
  }

  /** Setting bit `k` makes it read 1 and changes no other bit. */
  lemma SetBitReads(r: bv32, k: bv32)
    requires k < 32
    ensures Bit(SetBit(r, k), k)
    ensures SameExcept(r, SetBit(r, k), BitMask(k))
  {
  }

  /** Clearing bit `k` makes it read 0 and changes no other bit. */
  lemma ClearBitReads(r: bv32, k: bv32)
    requires k < 32
    ensures !Bit(ClearBit(r, k), k)
    ensures SameExcept(r, ClearBit(r, k), BitMask(k))
  {
  }

  /** The `w` low-order ones. */
  function Mask(w: bv32): bv32
    requires w < 32
  {
    (1 << w) - 1
  }

  /** A `w`-bit field that starts at bit `lo` lies inside the register. */
  predicate FieldFits(lo: bv32, w: bv32)
  {
    w < 32 && lo <= 32 - w
  }

  /** The mask of the `w`-bit field at `lo`, `mask << lo`. */
  function FieldMask(lo: bv32, w: bv32): bv32
    requires FieldFits(lo, w)
  {
    Mask(w) << lo
  }

  /** The `w`-bit field of `r` at `lo`, read as `(r >> lo) & mask`. */
  function Field(r: bv32, lo: bv32, w: bv32): bv32
    requires FieldFits(lo, w)
  {
    (r >> lo) & Mask(w)
  }

  /**
   * `r` with its `w`-bit field at `lo` programmed to `v`: the field is
   * cleared and the value, shifted into place, is ORed in. What it means at
   * each field the driver writes is proved in RccSpec, at that field's
   * fixed position.
   */
  function WithField(r: bv32, lo: bv32, w: bv32, v: bv32): bv32
    requires FieldFits(lo, w) && v <= Mask(w)
  {
    (r & !FieldMask(lo, w)) | ((v << lo) & FieldMask(lo, w))
  }

  /** Two writes in a row change at most the bits of both masks. */
  lemma SameExceptTrans(a: bv32, b: bv32, c: bv32, m1: bv32, m2: bv32)
    requires SameExcept(a, b, m1) && SameExcept(b, c, m2)
    ensures SameExcept(a, c, m1 | m2)
  {
  }

  /** Clearing a bit just set is clearing it. */
  lemma ClearAfterSet(r: bv32, k: bv32)
    requires k < 32
    ensures ClearBit(SetBit(r, k), k) == ClearBit(r, k)
  {
  }

  /** Clearing bit `k` leaves `r` as it is exactly when the bit already reads 0. */
  lemma ClearBitNoop(r: bv32, k: bv32)
    requires k < 32
    ensures ClearBit(r, k) == r <==> !Bit(r, k)
  {
  }

  /** Setting bit `k` leaves `r` as it is exactly when the bit already reads 1. */
  lemma SetBitNoop(r: bv32, k: bv32)
    requires k < 32
    ensures SetBit(r, k) == r <==> Bit(r, k)
  {
  }
}
