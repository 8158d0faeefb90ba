/**
 * Machine integers shared by the drivers: 8-bit register values and the
 * signed 16-bit axis samples that both sensors deliver as byte pairs.
 */
module Bytes {

  /** An 8-bit register value (C `uint8_t`). */
  type Byte = bv8

  /** A C `int16_t`. */
  type Int16 = x: int | -0x8000 <= x < 0x8000

  /**
   * The 16-bit word `(hi << 8) | lo` that both drivers assemble from a
   * register pair before reinterpreting it as `int16_t`.
   */
  function Word(hi: Byte, lo: Byte): (w: bv16)
    ensures w as int == hi as int * 256 + lo as int
  {
    OrIsSum(hi, lo);
    ((hi as bv16) << 8) | (lo as bv16)
  }

  /** The high byte shifted up and the low byte occupy disjoint bits, so OR-ing them adds them. */
  lemma OrIsSum(hi: Byte, lo: Byte)
    ensures (((hi as bv16) << 8) | (lo as bv16)) as int == hi as int * 256 + lo as int
  {
  }

  /** The C conversion of an unsigned 16-bit value to `int16_t` (two's complement). */
  function Signed16(w: int): (v: Int16)
    requires 0 <= w < 0x1_0000
    ensures v as int % 0x1_0000 == w
    ensures v < 0 <==> w >= 0x8000
  {
    if w < 0x8000 then w else w - 0x1_0000
  }

  /** A signed sample sent high byte first: `(int16_t)((hi << 8) | lo)`. */
  function Int16Of(hi: Byte, lo: Byte): (v: Int16)
    ensures v as int % 0x1_0000 == hi as int * 256 + lo as int
    ensures v < 0 <==> hi as int >= 0x80
  {
    Signed16(Word(hi, lo) as int)
  }

  /** The high byte of the two's-complement encoding of `v`. */
  function HighByte(v: Int16): (b: Byte)
    ensures b as int == (v as int % 0x1_0000) / 256
  {
    ByteOfInt((v as int % 0x1_0000) / 256)
  }

  /** The low byte of the two's-complement encoding of `v`. */
  function LowByte(v: Int16): (b: Byte)
    ensures b as int == v as int % 256
  {
    ByteOfInt(v as int % 256)
  }

  /** The byte whose unsigned value is `n`, built from its two nibbles. */
  function ByteOfInt(n: int): (b: Byte)
    requires 0 <= n < 256
    ensures b as int == n
  {
    (NibbleOfInt(n / 16) << 4) | NibbleOfInt(n % 16)
  }

  function NibbleOfInt(n: int): (b: Byte)
    requires 0 <= n < 16
    ensures b as int == n && b < 16
  {
    n as bv8
  }

  /** Decoding the encoding of a sample gives the sample back. */
  lemma {:induction false} DecodeEncode(v: Int16)
    ensures Int16Of(HighByte(v), LowByte(v)) == v
  {
    var m := v as int % 0x1_0000;
    var hi, lo := HighByte(v), LowByte(v);
    assert Word(hi, lo) as int == m by {
      SplitWord(v as int);
    }
    assert Signed16(m) == v by {
      SignedOfResidue(v);
    }
  }

  /** Integer fact: an `int16_t` is the two's-complement reading of its residue mod 2^16. */
  lemma SignedOfResidue(v: Int16)
    ensures Signed16(v as int % 0x1_0000) == v
  {
  }

  /** Encoding a decoded register pair gives the same two bytes back. */
  lemma {:induction false} EncodeDecode(hi: Byte, lo: Byte)
    ensures HighByte(Int16Of(hi, lo)) == hi
    ensures LowByte(Int16Of(hi, lo)) == lo
  {
    var v := Int16Of(hi, lo);
    var h, l := HighByte(v), LowByte(v);
    assert h as int == hi as int && l as int == lo as int by {
      JoinWord(v as int, hi as int, lo as int);
    }
    assert h == hi by { ByteIntInjective(h, hi); }
    assert l == lo by { ByteIntInjective(l, lo); }
  }

  /** Integer fact: a value's residue mod 2^16 is its high byte times 256 plus its low byte. */
  lemma SplitWord(v: int)
    ensures (v % 0x1_0000) / 256 * 256 + v % 256 == v % 0x1_0000
  {
    var m, q := v % 0x1_0000, v / 0x1_0000;
    assert v == (q * 256 + m / 256) * 256 + m % 256;
    DivModUnique(v, q * 256 + m / 256, m % 256);
  }

  /** Integer fact: the residue mod 2^16 determines both bytes. */
  lemma JoinWord(v: int, hi: int, lo: int)
    requires 0 <= hi < 256 && 0 <= lo < 256
    requires v % 0x1_0000 == hi * 256 + lo
    ensures (v % 0x1_0000) / 256 == hi && v % 256 == lo
  {
    var q := v / 0x1_0000;
    assert v == (q * 256 + hi) * 256 + lo;
    DivModUnique(v, q * 256 + hi, lo);
    DivModUnique(hi * 256 + lo, hi, lo);
  }

  /** Integer fact: division by 256 is determined by a quotient and a remainder in range. */
  lemma DivModUnique(n: int, q: int, r: int)
    requires 0 <= r < 256 && n == q * 256 + r
    ensures n / 256 == q && n % 256 == r
  {
  }

  /** Two bytes with the same unsigned value are equal. */
  lemma ByteIntInjective(a: Byte, b: Byte)
    requires a as int == b as int
    ensures a == b
  {
  }
}
