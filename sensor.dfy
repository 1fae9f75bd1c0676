/**
 * Decoding one 16-bit accelerometer reading from its two register bytes
 * (`read_raw_data`). The bus reads are not modelled: the high byte (register
 * `addr`) and the low byte (register `addr + 1`) are parameters. The
 * InvenSense MPU-6050 register map stores each ACCEL_xOUT_H/L pair
 * big-endian, in two's complement, at registers 59-64 (0x3B-0x40).
 */
module Sensor {

  type Byte = b: int | 0 <= b < 256

  function Pow2(k: nat): (p: nat)
    ensures p >= 1
  {
    if k == 0 then 1 else 2 * Pow2(k - 1)
  }

  /** Python's `a << k` on a non-negative integer, one place at a time: multiplication by 2^k. */
  function ShiftLeft(a: nat, k: nat): (r: nat)
    ensures r == a * Pow2(k)
  {
    if k == 0 then a else 2 * ShiftLeft(a, k - 1)
  }

  /** Python's `a | b` on non-negative integers, one bit at a time from the lowest. */
  function BitOr(a: nat, b: nat): (r: nat)
    ensures a <= r && b <= r && r <= a + b
    decreases a + b
  {
    if a == 0 then b
    else if b == 0 then a
    else 2 * BitOr(a / 2, b / 2) + (if a % 2 == 1 || b % 2 == 1 then 1 else 0)
  }

  /** OR-ing a value below 2^k into a multiple of 2^k is addition: the bits do not overlap. */
  lemma {:induction false} BitOrDisjoint(a: nat, b: nat, k: nat)
    requires b < Pow2(k)
    ensures BitOr(ShiftLeft(a, k), b) == ShiftLeft(a, k) + b
  {
    var shifted := ShiftLeft(a, k);
    if k > 0 && shifted != 0 && b != 0 {
      assert shifted == 2 * ShiftLeft(a, k - 1);
      assert shifted / 2 == ShiftLeft(a, k - 1) && shifted % 2 == 0;
      BitOrDisjoint(a, b / 2, k - 1);
    }
  }

  /** `read_raw_data`'s `(high << 8) | low`. */
  function Combine(high: Byte, low: Byte): (value: int)
    ensures value == high * 256 + low
    ensures 0 <= value < 65536
  {
    assert Pow2(8) == 256;
    BitOrDisjoint(high, low, 8);
    BitOr(ShiftLeft(high, 8), low)
  }

  /**
   * The reading the register map defines: the high byte is signed (its top
   * bit weighs -2^15), the low byte unsigned.
   */
  function TwosComplement(high: Byte, low: Byte): int {
    (if high < 128 then high else high - 256) * 256 + low
  }

  /** `read_raw_data` as written: only values above 32768 are made negative. */
  function ReadRawAsWritten(high: Byte, low: Byte): (value: int)
    ensures -32767 <= value <= 32768
    ensures Combine(high, low) <= 32768 ==> value == Combine(high, low)
    ensures Combine(high, low) > 32768 ==> value == Combine(high, low) - 65536 < 0
  {
    var value := Combine(high, low);
    if value > 32768 then value - 65536 else value
  }

  /** The bytes 0x80 0x00 decode to +32768, where two's complement reads -32768. */
  lemma AsWrittenMisreadsMinimum()
    ensures ReadRawAsWritten(0x80, 0x00) == 32768
    ensures TwosComplement(0x80, 0x00) == -32768
  {
  }

  /** On every other byte pair the code as written agrees with two's complement. */
  lemma AsWrittenAgreesElsewhere(high: Byte, low: Byte)
    ensures ReadRawAsWritten(high, low) == TwosComplement(high, low) <==> !(high == 0x80 && low == 0x00)
  {
  }

  /** The two branches have disjoint ranges, so distinct byte pairs decode to distinct values. */
  lemma AsWrittenInjective(h1: Byte, l1: Byte, h2: Byte, l2: Byte)
    requires ReadRawAsWritten(h1, l1) == ReadRawAsWritten(h2, l2)
    ensures h1 == h2 && l1 == l2
  {
  }

  /** `read_raw_data` with the sign test the register format needs (`>= 32768`). */
  function ReadRaw(high: Byte, low: Byte): (value: int)
    ensures -32768 <= value < 32768
    ensures value == TwosComplement(high, low)
  {
    var value := Combine(high, low);
    if value >= 32768 then value - 65536 else value
  }

  /** The register bytes that hold a signed 16-bit value. */
  function Encode(value: int): (bytes: (Byte, Byte))
    requires -32768 <= value < 32768
  {
    var unsigned := if value < 0 then value + 65536 else value;
    (unsigned / 256, unsigned % 256)
  }

  /** Decoding inverts encoding on the whole 16-bit range ... */
  lemma DecodeEncode(value: int)
    requires -32768 <= value < 32768
    ensures ReadRaw(Encode(value).0, Encode(value).1) == value
  {
  }

  /** ... and encoding inverts decoding on every byte pair. */
  lemma EncodeDecode(high: Byte, low: Byte)
    ensures Encode(ReadRaw(high, low)) == (high, low)
  {
  }
}
