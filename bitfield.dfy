/**
 * The register bitfield arithmetic shared by the drivers: a field is named by
 * its highest bit `firstBit` and its width `length`, so it occupies bits
 * `firstBit - length + 1 .. firstBit` of one 8-bit register. All operations
 * are computed in 8 bits, as the C code stores every intermediate in a
 * `uint8_t`.
 */
module Bitfield {
  import opened Bytes

  /** A field that lies inside one byte: at least one bit wide, at most bit 7. */
  predicate ValidField(firstBit: Byte, length: Byte)
  {
    firstBit < 8 && 1 <= length <= firstBit + 1
  }

  /** `shift = firstBit - length + 1`: the position of the field's lowest bit. */
  function FieldShift(firstBit: Byte, length: Byte): (shift: Byte)
    requires ValidField(firstBit, length)
    ensures shift < 8 && shift + length == firstBit + 1
  {
    (firstBit - length) + 1
  }

  /** Whether bit `position` of `reg` is set: `reg & (1 << position)`, read as a `bool`. */
  function BitAt(reg: Byte, position: Byte): bool
    requires position < 8
  {
    reg & (1 << position) != 0
  }

  /** The `length` low-order ones, `(1 << length) - 1`. */
  function LowOnes(length: Byte): (m: Byte)
    requires 1 <= length <= 8
    ensures forall i: Byte :: i < 8 ==> (BitAt(m, i) <==> i < length)
  {
    (1 << length) - 1
  }

  /** `mask = ((1 << length) - 1) << shift`: ones exactly on the field's bits. */
  function FieldMask(firstBit: Byte, length: Byte): (mask: Byte)
    requires ValidField(firstBit, length)
    ensures forall i: Byte :: i < 8 ==>
      (BitAt(mask, i) <==> FieldShift(firstBit, length) <= i <= firstBit)
  {
    LowOnes(length) << FieldShift(firstBit, length)
  }

  /** What `_readBits` stores in `*bits`: the field moved down to bit 0. */
  function ReadBitsValue(reg: Byte, firstBit: Byte, length: Byte): (bits: Byte)
    requires ValidField(firstBit, length)
    ensures bits >> length == 0
    ensures forall i: Byte :: i < length ==>
      BitAt(bits, i) == BitAt(reg, i + FieldShift(firstBit, length))
  {
    (reg & FieldMask(firstBit, length)) >> FieldShift(firstBit, length)
  }

  /**
   * The byte `_writeBits` writes back: the register with the field's bits
   * cleared and `bits`, shifted into place and clamped to the mask, OR-ed in.
   */
  function WriteBitsValue(reg: Byte, bits: Byte, firstBit: Byte, length: Byte): (r: Byte)
    requires ValidField(firstBit, length)
    ensures r & !FieldMask(firstBit, length) == reg & !FieldMask(firstBit, length)
    ensures ReadBitsValue(r, firstBit, length) == bits & LowOnes(length)
  {
    var mask := FieldMask(firstBit, length);
    (reg & !mask) | ((bits << FieldShift(firstBit, length)) & mask)
  }

  /** The byte `_writeBit` writes back: bit `position` set or cleared. */
  function WriteBitValue(reg: Byte, bit: bool, position: Byte): (r: Byte)
    requires position < 8
    ensures BitAt(r, position) == bit
    ensures forall i: Byte :: i < 8 && i != position ==> BitAt(r, i) == BitAt(reg, i)
  {
    if bit then reg | (1 << position) else reg & !(1 << position)
  }

  /** Writing a field leaves every bit outside it, one by one, as it was. */
  lemma {:induction false} WriteBitsKeepsOtherBits(reg: Byte, bits: Byte, firstBit: Byte, length: Byte, i: Byte)
    requires ValidField(firstBit, length)
    requires i < 8 && !(FieldShift(firstBit, length) <= i <= firstBit)
    ensures BitAt(WriteBitsValue(reg, bits, firstBit, length), i) == BitAt(reg, i)
  {
    var mask := FieldMask(firstBit, length);
    var r := WriteBitsValue(reg, bits, firstBit, length);
    assert !BitAt(mask, i);
    assert r & !mask == reg & !mask;
    KeptBit(r, reg, mask, i);
  }

  /** Two bytes that agree outside `mask` agree on every bit that `mask` does not cover. */
  lemma KeptBit(a: Byte, b: Byte, mask: Byte, i: Byte)
    requires i < 8 && !BitAt(mask, i)
    requires a & !mask == b & !mask
    ensures BitAt(a, i) == BitAt(b, i)
  {
  }
}
