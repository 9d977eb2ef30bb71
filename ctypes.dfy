/** Fixed-width C integer types used by the drivers, with their conversions
    written out: bytes as 8-bit vectors (the code shifts and masks them), the
    unsigned widths as newtypes (so that every arithmetic result is checked to
    fit), and the signed reinterpretations performed by `(int8_t)` and
    `(int16_t)` casts. */
module CTypes {

  /** `uint8_t` as a bit pattern: the code combines bytes with `<<`, `|` and `&`. */
  type byte = bv8

  /** `uint8_t` used as a counter. */
  newtype uint8 = x: int | 0 <= x < 0x100

  /** `uint32_t`: every `+` and `-` on it must stay in range, so a proof that
      a method verifies is a proof that it never wraps around. */
  newtype uint32 = x: int | 0 <= x < 0x1_0000_0000

  /** The value ranges of the calibration struct fields of BMP390_sim.c. */
  type uint16 = x: int | 0 <= x < 0x1_0000
  type int16 = x: int | -0x8000 <= x < 0x8000
  type int8 = x: int | -0x80 <= x < 0x80

  /** 2^n. */
  function Pow2(n: nat): (r: nat)
    ensures r > 0
  {
    if n == 0 then 1 else 2 * Pow2(n - 1)
  }

  /** 2^(a+b) = 2^a * 2^b. */
  lemma {:induction false} Pow2Add(a: nat, b: nat)
    ensures Pow2(a + b) == Pow2(a) * Pow2(b)
  {
    if a > 0 {
      Pow2Add(a - 1, b);
    }
  }

  /** The powers of two of one and two bytes. */
  lemma Pow2Bytes()
    ensures Pow2(8) == 256 && Pow2(16) == 65536
  {
    assert Pow2(8) == 256;
    Pow2Add(8, 8);
  }

  /** The powers of two that appear as literals in the drivers. */
  lemma Pow2Literals()
    ensures Pow2(6) == 64 && Pow2(8) == 256 && Pow2(14) == 16384 && Pow2(15) == 32768
    ensures Pow2(16) == 65536 && Pow2(20) == 1048576 && Pow2(24) == 16777216
    ensures Pow2(29) == 536870912 && Pow2(30) == 1073741824
    ensures Pow2(32) == 4294967296 && Pow2(37) == 137438953472
    ensures Pow2(48) == 281474976710656 && Pow2(65) == 36893488147419103232
  {
    assert Pow2(1) == 2 && Pow2(4) == 16 && Pow2(5) == 32 && Pow2(6) == 64 && Pow2(8) == 256;
    assert Pow2(14) == 16384 by { Pow2Add(8, 6); }
    assert Pow2(15) == 32768 by { Pow2Add(14, 1); }
    assert Pow2(16) == 65536 by { Pow2Add(8, 8); }
    assert Pow2(20) == 1048576 by { Pow2Add(16, 4); }
    assert Pow2(24) == 16777216 by { Pow2Add(16, 8); }
    assert Pow2(29) == 536870912 by { Pow2Add(14, 15); }
    assert Pow2(30) == 1073741824 by { Pow2Add(15, 15); }
    assert Pow2(32) == 4294967296 by { Pow2Add(16, 16); }
    assert Pow2(37) == 137438953472 by { Pow2Add(32, 5); }
    assert Pow2(48) == 281474976710656 by { Pow2Add(32, 16); }
    assert Pow2(64) == 18446744073709551616 by { Pow2Add(32, 32); }
    assert Pow2(65) == 36893488147419103232 by { Pow2Add(64, 1); }
  }

  /** `(int8_t)b`: the byte's bit pattern read as two's complement. The
      result is the unique value in [-128, 128) congruent to b modulo 256. */
  function Int8(b: byte): (r: int8)
    ensures r % 256 == b as int
    ensures r >= 0 <==> b < 0x80
  {
    if b < 0x80 then b as int else b as int - 256
  }

  /** `(int16_t)v` for a 16-bit pattern v: the unique value in
      [-32768, 32768) congruent to v modulo 65536. */
  function Int16(v: uint16): (r: int16)
    ensures r % 65536 == v
    ensures r >= 0 <==> v < 0x8000
  {
    if v < 0x8000 then v else v - 0x1_0000
  }

  /** Conversion of a C `int` to `uint32_t` (modulo 2^32). */
  function ToUint32(x: int): (r: int)
    ensures 0 <= r < 0x1_0000_0000
    ensures (r - x) % 0x1_0000_0000 == 0
  {
    x % 0x1_0000_0000
  }

  /** Storing a value in a `uint16_t` field (modulo 2^16). */
  function ToUint16(x: int): (r: uint16)
    ensures (r - x) % 0x1_0000 == 0
  {
    x % 0x1_0000
  }
}
