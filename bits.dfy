/**
 * Integer widths of the emulator. A register or bus byte is a C `uint8_t`
 * and is modelled as `bv8`; a program counter or bus address is a
 * `uint16_t` and is modelled as an `int` in [0, 0x10000). Arithmetic that C
 * performs after integer promotion is done on `int` here and truncated back
 * explicitly with `Low` or `Wrap16`, so every wrap-around of the source is
 * visible in the model. A byte computed and stored straight back into a
 * `uint8_t` (`X++`, `SP--`, `readPrim(_cpu) - 1`) is computed with `bv8`
 * arithmetic, which wraps modulo 256 exactly as that store does.
 */
module Bits {

  /** Values of a C `uint16_t`. */
  type u16 = x: int | 0 <= x < 0x1_0000

  /** A value below 256 converts to the byte with that value. */
  lemma ByteValue(n: int)
    requires 0 <= n < 0x100
    ensures (n as bv8) as int == n
  {
    assert n as bv8 == (n as bv16) as bv8;
  }

  /** Conversion of a C integer to `uint8_t`: the value modulo 256. */
  function Low(v: int): (b: bv8)
    ensures b as int == v % 0x100
  {
    ByteValue(v % 0x100);
    (v % 0x100) as bv8
  }

  /**
   * Conversion of a C integer to `uint16_t`: the value modulo 65536. A
   * value in range is kept, and one that overflows or underflows the range
   * by less than 65536 moves back by one period.
   */
  function Wrap16(v: int): (w: u16)
    ensures 0 <= v < 0x1_0000 ==> w == v
    ensures 0x1_0000 <= v < 0x2_0000 ==> w == v - 0x1_0000
    ensures -0x1_0000 <= v < 0 ==> w == v + 0x1_0000
  {
    v % 0x1_0000
  }

  /**
   * `lo | (hi << 8)` on promoted bytes. The two operands have no bit in
   * common, so the or is the sum `lo + 256 * hi`.
   */
  function Word(lo: bv8, hi: bv8): (w: u16)
    ensures w % 0x100 == lo as int
    ensures w / 0x100 == hi as int
  {
    lo as int + 0x100 * hi as int
  }

  /** Two bytes are equal exactly when their values are. */
  lemma ByteEquality(p: bv8, q: bv8)
    ensures (p == q) == (p as int == q as int)
  {
  }

  /** Bit 7 of a byte is set exactly when its value is at least 0x80. */
  lemma HighBit(b: bv8)
    ensures (b & 0x80 != 0) == (b as int >= 0x80)
  {
  }

  /** `(int8_t)b`: the two's-complement reading of a byte. */
  function Signed(b: bv8): (r: int)
    ensures -0x80 <= r < 0x80
    ensures (r < 0) == (b & 0x80 != 0)
    ensures r % 0x100 == b as int
  {
    if b & 0x80 != 0 then b as int - 0x100 else b as int
  }
}
