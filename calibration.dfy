/** The BMP390 calibration decoder: 21 register bytes (addresses 0x31..0x45)
    become 14 raw integer fields, which are then quantised into the working
    coefficients of the compensation formulas. */
module Calibration {
  import opened CTypes

  /** The 14 raw register fields, as the integers the C code holds in its
      local `uint16_t`/`int16_t`/`int8_t` variables. BMP390_sim.c keeps its
      calibration struct in exactly this form. */
  datatype RawCalib = RawCalib(
    t1: int, t2: int, t3: int,
    p1: int, p2: int, p3: int, p4: int, p5: int, p6: int,
    p7: int, p8: int, p9: int, p10: int, p11: int)

  /** The quantised coefficients `par_t1` .. `par_p11`. */
  datatype Coefficients = Coefficients(
    t1: real, t2: real, t3: real,
    p1: real, p2: real, p3: real, p4: real, p5: real, p6: real,
    p7: real, p8: real, p9: real, p10: real, p11: real)

  /** Every raw field lies in the range of its declared C type. */
  predicate WellFormed(r: RawCalib) {
    && 0 <= r.t1 < 0x1_0000 && 0 <= r.t2 < 0x1_0000 && -0x80 <= r.t3 < 0x80
    && -0x8000 <= r.p1 < 0x8000 && -0x8000 <= r.p2 < 0x8000
    && -0x80 <= r.p3 < 0x80 && -0x80 <= r.p4 < 0x80
    && 0 <= r.p5 < 0x1_0000 && 0 <= r.p6 < 0x1_0000
    && -0x80 <= r.p7 < 0x80 && -0x80 <= r.p8 < 0x80
    && -0x8000 <= r.p9 < 0x8000 && -0x80 <= r.p10 < 0x80 && -0x80 <= r.p11 < 0x80
  }

  /** `(uint16_t)(hi << 8) | lo`: a little-endian 16-bit field, lower address first. */
  function U16(lo: byte, hi: byte): (r: uint16)
    ensures r == lo as int + 256 * hi as int
  {
    (((hi as bv16) << 8) | lo as bv16) as int
  }

  /** The field extraction of `bmp390_parse_calib_data`. For the signed 16-bit
      fields the C code casts `hi << 8` to `int16_t` before OR-ing in `lo`;
      since the low byte of that value is zero, this is the two's-complement
      reading of the whole 16-bit pattern, which is how it is written here. */
  function ParseRaw(reg: seq<byte>): (r: RawCalib)
    requires |reg| >= 21
    ensures WellFormed(r)
  {
    RawCalib(
      t1 := U16(reg[0], reg[1]),
      t2 := U16(reg[2], reg[3]),
      t3 := Int8(reg[4]),
      p1 := Int16(U16(reg[5], reg[6])),
      p2 := Int16(U16(reg[7], reg[8])),
      p3 := Int8(reg[9]),
      p4 := Int8(reg[10]),
      p5 := U16(reg[11], reg[12]),
      p6 := U16(reg[13], reg[14]),
      p7 := Int8(reg[15]),
      p8 := Int8(reg[16]),
      p9 := Int16(U16(reg[17], reg[18])),
      p10 := Int8(reg[19]),
      p11 := Int8(reg[20]))
  }

  /** The quantisation step of `bmp390_parse_calib_data`: each raw field
      divided by its literal; par_p1 and par_p2 subtract the bias 16384 first.
      The two divisors below one make par_t1 and par_p5 multiples of their
      raw fields. */
  function Quantize(r: RawCalib): (c: Coefficients)
    ensures c.t1 == 256.0 * r.t1 as real && c.p5 == 8.0 * r.p5 as real
  {
    Coefficients(
      t1 := r.t1 as real / 0.00390625,
      t2 := r.t2 as real / 1073741824.0,
      t3 := r.t3 as real / 281474976710656.0,
      p1 := (r.p1 as real - 16384.0) / 1048576.0,
      p2 := (r.p2 as real - 16384.0) / 536870912.0,
      p3 := r.p3 as real / 4294967296.0,
      p4 := r.p4 as real / 137438953472.0,
      p5 := r.p5 as real / 0.125,
      p6 := r.p6 as real / 64.0,
      p7 := r.p7 as real / 256.0,
      p8 := r.p8 as real / 32768.0,
      p9 := r.p9 as real / 281474976710656.0,
      p10 := r.p10 as real / 281474976710656.0,
      p11 := r.p11 as real / 36893488147419103232.0)
  }

  /** The temperature divisors are the powers of two 2^30 and 2^48 of the
      Bosch formula. */
  lemma QuantizeTemperatureDivisors(r: RawCalib)
    ensures var c := Quantize(r);
      && c.t2 == r.t2 as real / Pow2(30) as real
      && c.t3 == r.t3 as real / Pow2(48) as real
  {
    Pow2Literals();
  }

  /** The sensitivity divisors are powers of two, and par_p1, par_p2 subtract
      the bias 2^14 first. */
  lemma QuantizeSensitivityDivisors(r: RawCalib)
    ensures var c := Quantize(r);
      && c.p1 == (r.p1 - Pow2(14)) as real / Pow2(20) as real
      && c.p2 == (r.p2 - Pow2(14)) as real / Pow2(29) as real
      && c.p3 == r.p3 as real / Pow2(32) as real
      && c.p4 == r.p4 as real / Pow2(37) as real
  {
    Pow2Literals();
  }

  /** The divisors of the offset coefficients par_p6 .. par_p8 are powers of
      two. */
  lemma QuantizeOffsetDivisors(r: RawCalib)
    ensures var c := Quantize(r);
      && c.p6 == r.p6 as real / Pow2(6) as real
      && c.p7 == r.p7 as real / Pow2(8) as real
      && c.p8 == r.p8 as real / Pow2(15) as real
  {
    Pow2Literals();
  }

  /** The divisors of the higher-order pressure coefficients par_p9 ..
      par_p11 are powers of two. */
  lemma QuantizeCorrectionDivisors(r: RawCalib)
    ensures var c := Quantize(r);
      && c.p9 == r.p9 as real / Pow2(48) as real
      && c.p10 == r.p10 as real / Pow2(48) as real
      && c.p11 == r.p11 as real / Pow2(65) as real
  {
    Pow2Literals();
  }

  /** The whole decoder: bytes to coefficients. */
  function Decode(reg: seq<byte>): (c: Coefficients)
    requires |reg| >= 21
  {
    Quantize(ParseRaw(reg))
  }

  /** Recovers the raw fields from the coefficients (the inverse of Quantize). */
  function Unquantize(c: Coefficients): (r: RawCalib) {
    RawCalib(
      t1 := (c.t1 / 256.0).Floor,
      t2 := (c.t2 * 1073741824.0).Floor,
      t3 := (c.t3 * 281474976710656.0).Floor,
      p1 := (c.p1 * 1048576.0).Floor + 16384,
      p2 := (c.p2 * 536870912.0).Floor + 16384,
      p3 := (c.p3 * 4294967296.0).Floor,
      p4 := (c.p4 * 137438953472.0).Floor,
      p5 := (c.p5 / 8.0).Floor,
      p6 := (c.p6 * 64.0).Floor,
      p7 := (c.p7 * 256.0).Floor,
      p8 := (c.p8 * 32768.0).Floor,
      p9 := (c.p9 * 281474976710656.0).Floor,
      p10 := (c.p10 * 281474976710656.0).Floor,
      p11 := (c.p11 * 36893488147419103232.0).Floor)
  }

  /** Quantisation loses nothing: every raw field can be recovered exactly
      from its coefficient, so two different register images never decode to
      the same coefficients unless their raw fields agree. */
  lemma QuantizeIsLossless(r: RawCalib)
    ensures Unquantize(Quantize(r)) == r
  {
    var c := Quantize(r);
    assert c.t1 / 256.0 == r.t1 as real;
    assert c.p5 / 8.0 == r.p5 as real;
  }

  /** A field of the register map: its first byte, its width in bytes, and
      whether the C code reads it as signed. */
  datatype FieldSpec = FieldSpec(offset: nat, width: nat, signed: bool)

  /** The register map of the 21-byte block, in field order t1, t2, t3,
      p1 .. p11. */
  const Layout: seq<FieldSpec> := [
    FieldSpec(0, 2, false), FieldSpec(2, 2, false), FieldSpec(4, 1, true),
    FieldSpec(5, 2, true), FieldSpec(7, 2, true), FieldSpec(9, 1, true),
    FieldSpec(10, 1, true), FieldSpec(11, 2, false), FieldSpec(13, 2, false),
    FieldSpec(15, 1, true), FieldSpec(16, 1, true), FieldSpec(17, 2, true),
    FieldSpec(19, 1, true), FieldSpec(20, 1, true)]

  /** The raw fields in register-map order. */
  function Fields(r: RawCalib): (s: seq<int>)
    ensures |s| == |Layout|
  {
    [r.t1, r.t2, r.t3, r.p1, r.p2, r.p3, r.p4, r.p5, r.p6, r.p7, r.p8, r.p9, r.p10, r.p11]
  }

  /** The little-endian unsigned value of `width` bytes starting at `offset`. */
  function LittleEndian(reg: seq<byte>, offset: nat, width: nat): (v: nat)
    requires offset + width <= |reg|
    decreases width
  {
    if width == 0 then 0
    else reg[offset] as nat + 256 * LittleEndian(reg, offset + 1, width - 1)
  }

  /** A generic, table-driven reading of one field: little-endian bytes,
      then two's complement if the field is signed. */
  function Extract(reg: seq<byte>, f: FieldSpec): (v: int)
    requires f.offset + f.width <= |reg|
  {
    var u := LittleEndian(reg, f.offset, f.width);
    if f.signed && 2 * u >= Pow2(8 * f.width) then u - Pow2(8 * f.width) else u
  }

  /** Byte i of the block lies in field f. */
  predicate Covers(f: FieldSpec, i: int) {
    f.offset <= i < f.offset + f.width
  }

  /** Each of the 21 bytes belongs to exactly one field, so the decoder reads
      every byte and none twice. */
  lemma EachByteInExactlyOneField(i: int)
    requires 0 <= i < 21
    ensures exists k :: 0 <= k < |Layout| && Covers(Layout[k], i)
    ensures forall k, j :: 0 <= k < |Layout| && 0 <= j < |Layout| && Covers(Layout[k], i) && Covers(Layout[j], i) ==> k == j
  {
    var k := if i < 2 then 0 else if i < 4 then 1 else if i < 5 then 2 else if i < 7 then 3
      else if i < 9 then 4 else if i < 10 then 5 else if i < 11 then 6 else if i < 13 then 7
      else if i < 15 then 8 else if i < 16 then 9 else if i < 17 then 10 else if i < 19 then 11
      else if i < 20 then 12 else 13;
    assert Covers(Layout[k], i);
  }

  /** A two-byte unsigned field read by the table is the decoder's U16. */
  lemma ExtractUnsigned16(reg: seq<byte>, o: nat)
    requires o + 2 <= |reg|
    ensures Extract(reg, FieldSpec(o, 2, false)) == U16(reg[o], reg[o + 1])
  {
    assert LittleEndian(reg, o, 2) == reg[o] as int + 256 * reg[o + 1] as int;
  }

  /** A two-byte signed field read by the table is the decoder's Int16 of U16. */
  lemma ExtractSigned16(reg: seq<byte>, o: nat)
    requires o + 2 <= |reg|
    ensures Extract(reg, FieldSpec(o, 2, true)) == Int16(U16(reg[o], reg[o + 1]))
  {
    Pow2Bytes();
    assert LittleEndian(reg, o, 2) == reg[o] as int + 256 * reg[o + 1] as int;
  }

  /** A one-byte signed field read by the table is the decoder's Int8. */
  lemma ExtractSigned8(reg: seq<byte>, o: nat)
    requires o + 1 <= |reg|
    ensures Extract(reg, FieldSpec(o, 1, true)) == Int8(reg[o])
  {
    Pow2Bytes();
    assert LittleEndian(reg, o, 1) == reg[o] as int;
  }

  /** The first seven fields (t1 .. p4) of the decoder agree with the
      table-driven reading. */
  lemma LowFieldsMatchLayout(reg: seq<byte>, k: nat)
    requires |reg| >= 21 && k < 7
    ensures Fields(ParseRaw(reg))[k] == Extract(reg, Layout[k])
  {
    if k == 0 { ExtractUnsigned16(reg, 0); }
    else if k == 1 { ExtractUnsigned16(reg, 2); }
    else if k == 2 { ExtractSigned8(reg, 4); }
    else if k == 3 { ExtractSigned16(reg, 5); }
    else if k == 4 { ExtractSigned16(reg, 7); }
    else if k == 5 { ExtractSigned8(reg, 9); }
    else { ExtractSigned8(reg, 10); }
  }

  /** The last seven fields (p5 .. p11) of the decoder agree with the
      table-driven reading. */
  lemma HighFieldsMatchLayout(reg: seq<byte>, k: nat)
    requires |reg| >= 21 && 7 <= k < 14
    ensures Fields(ParseRaw(reg))[k] == Extract(reg, Layout[k])
  {
    if k == 7 { ExtractUnsigned16(reg, 11); }
    else if k == 8 { ExtractUnsigned16(reg, 13); }
    else if k == 9 { ExtractSigned8(reg, 15); }
    else if k == 10 { ExtractSigned8(reg, 16); }
    else if k == 11 { ExtractSigned16(reg, 17); }
    else if k == 12 { ExtractSigned8(reg, 19); }
    else { ExtractSigned8(reg, 20); }
  }

  /** The hand-written shifts and casts of the decoder agree, field by field,
      with the table-driven reading of the register map. */
  lemma ParseRawMatchesLayout(reg: seq<byte>)
    requires |reg| >= 21
    ensures forall k :: 0 <= k < |Layout| ==>
      Layout[k].offset + Layout[k].width <= |reg| && Fields(ParseRaw(reg))[k] == Extract(reg, Layout[k])
  {
    forall k | 0 <= k < |Layout|
      ensures Fields(ParseRaw(reg))[k] == Extract(reg, Layout[k])
    {
      if k < 7 {
        LowFieldsMatchLayout(reg, k);
      } else {
        HighFieldsMatchLayout(reg, k);
      }
    }
  }

  /** The example register image of Bmp390_sim1.c. */
  const ExampleBytes: seq<byte> := [
    0xCB, 0x68, 0x68, 0x66, 0x03, 0xE9, 0xBE, 0x71, 0xD5, 0x07, 0x05,
    0xFF, 0x9F, 0xFF, 0x9F, 0x0F, 0xFE, 0x00, 0xE0, 0xE0, 0xEB]

  /** The same image as written out in BMP390_reverse_cal.c's main. */
  const ReverseCalBytes: seq<byte> := [
    0xCB, 0x68, 0x68, 0x66, 0x03,
    0xE9, 0xBE, 0x71, 0xD5, 0x07, 0x05,
    0xFF, 0x9F, 0xFF, 0x9F, 0x0F, 0xFE,
    0x00, 0xE0, 0xE0, 0xEB]

  /** The example bytes decode to the values the source's comments give,
      including the negative ones produced by the signed reinterpretation. */
  lemma ExampleDecodes()
    ensures ParseRaw(ExampleBytes) ==
      RawCalib(26827, 26216, 3, -16663, -10895, 7, 5, 40959, 40959, 15, -2, -8192, -32, -21)
    ensures Decode(ExampleBytes).t1 == 6867712.0
    ensures ReverseCalBytes == ExampleBytes
  {
    var b := ExampleBytes;
    assert U16(b[0], b[1]) == 26827;
    assert U16(b[5], b[6]) == 48873;
    assert U16(b[7], b[8]) == 54641;
    assert U16(b[17], b[18]) == 57344;
  }
}
