/** The forward compensation engine of Bmp390_sim1.c (copied unchanged into
    BMP390_reverse_cal.c): raw temperature and pressure ADC samples become
    degrees Celsius and Pascals. Temperature compensation leaves its result in
    the `t_lin` slot of the calibration record, and pressure compensation
    reads it from there. Arithmetic on `double` is modelled on `real`. */
module Compensation {
  import opened CTypes
  import opened Calibration

  /** `bmp390_calib_data`: the 14 quantised coefficients, written once by the
      decoder, and the mutable `t_lin` slot. */
  class CalibData {
    var par: Coefficients
    var tLin: real

    constructor (par: Coefficients, tLin: real)
      ensures this.par == par && this.tLin == tLin
    {
      this.par := par;
      this.tLin := tLin;
    }
  }

  /** `bmp390_uncomp_data`: one raw sample pair. */
  datatype UncompData = UncompData(pressure: uint32, temperature: uint32)

  /** `bmp390_data`: one compensated reading. */
  datatype Reading = Reading(temperature: real, pressure: real)

  /** b^n, multiplying from the left as the loop of `pow_bmp3` does. */
  function Pow(b: real, n: nat): real {
    if n == 0 then 1.0 else Pow(b, n - 1) * b
  }

  /** The two powers the pressure formula uses. */
  lemma PowSquareCube(b: real)
    ensures Pow(b, 2) == b * b && Pow(b, 3) == b * b * b
  {
    assert Pow(b, 1) == b;
    assert Pow(b, 2) == b * b;
  }

  /** `pow_bmp3`: the loop runs `power` times with a `uint8_t` counter that
      never overflows, and the result is base^power. */
  method PowBmp3(base: real, power: uint8) returns (result: real)
    ensures result == Pow(base, power as nat)
    ensures power == 0 ==> result == 1.0
  {
    result := 1.0;
    var i: uint8 := 0;
    while i < power
      invariant i <= power
      invariant result == Pow(base, i as nat)
    {
      result := result * base;
      i := i + 1;
    }
  }

  /** The temperature the Bosch formula gives for a raw sample: a quadratic in
      (uncompTemp - par_t1) with weights par_t2 and par_t3. */
  function Temperature(c: Coefficients, uncompTemp: int): (t: real)
    ensures uncompTemp as real == c.t1 ==> t == 0.0
  {
    var d1 := uncompTemp as real - c.t1;
    var d2 := d1 * c.t2;
    d2 + (d1 * d1) * c.t3
  }

  /** The offset term: a cubic in t_lin around par_p5. */
  function Offset(c: Coefficients, tLin: real): real {
    c.p5 + c.p6 * tLin + c.p7 * Pow(tLin, 2) + c.p8 * Pow(tLin, 3)
  }

  /** The sensitivity term: a cubic in t_lin around par_p1. */
  function Sensitivity(c: Coefficients, tLin: real): real {
    c.p1 + c.p2 * tLin + c.p3 * Pow(tLin, 2) + c.p4 * Pow(tLin, 3)
  }

  /** The pressure the Bosch formula gives for a raw sample and the current
      t_lin: offset, plus sensitivity times the sample, plus the quadratic and
      cubic corrections in the sample. With a zero sample only the offset is
      left. */
  function Pressure(c: Coefficients, tLin: real, uncompPress: int): (p: real)
    ensures uncompPress == 0 ==>
      p == c.p5 + c.p6 * tLin + c.p7 * tLin * tLin + c.p8 * tLin * tLin * tLin
  {
    var u := uncompPress as real;
    PowSquareCube(tLin);
    PowSquareCube(u);
    Offset(c, tLin) + u * Sensitivity(c, tLin) + Pow(u, 2) * (c.p9 + c.p10 * tLin) + Pow(u, 3) * c.p11
  }

  /** The explicit data flow of one sample pair: temperature first, its
      linearisation value fed straight into pressure. */
  function Compensate(c: Coefficients, s: UncompData): (r: Reading)
    ensures r.pressure == Pressure(c, r.temperature, s.pressure as int)
  {
    var t := Temperature(c, s.temperature as int);
    Reading(t, Pressure(c, t, s.pressure as int))
  }

  /** `bmp390_parse_calib_data`: fills all 14 coefficients of the record from
      the first 21 bytes and leaves `t_lin` alone. */
  method ParseCalibData(regData: seq<byte>, calib: CalibData)
    requires |regData| >= 21
    modifies calib`par
    ensures calib.par == Decode(regData)
    ensures calib.tLin == old(calib.tLin)
  {
    var raw := ParseRaw(regData);
    calib.par := Quantize(raw);
  }

  /** `bmp390_compensate_temperature`: writes t_lin and returns the same
      value; the coefficients are not touched. */
  method CompensateTemperature(uncompTemp: uint32, calib: CalibData) returns (t: real)
    modifies calib`tLin
    ensures calib.tLin == t
    ensures t == Temperature(calib.par, uncompTemp as int)
  {
    var d1 := uncompTemp as real - calib.par.t1;
    var d2 := d1 * calib.par.t2;
    calib.tLin := d2 + (d1 * d1) * calib.par.t3;
    t := calib.tLin;
  }

  /** `bmp390_compensate_pressure`: reads the record (a `const` parameter in
      the source, so no modifies clause here) and evaluates the formula at
      the stored t_lin. */
  method CompensatePressure(uncompPress: uint32, calib: CalibData) returns (p: real)
    ensures p == Pressure(calib.par, calib.tLin, uncompPress as int)
  {
    var c, tLin := calib.par, calib.tLin;
    var t2 := PowBmp3(tLin, 2);
    var t3 := PowBmp3(tLin, 3);
    var partialOut1 := c.p5 + c.p6 * tLin + c.p7 * t2 + c.p8 * t3;
    var u := uncompPress as real;
    var partialOut2 := u * (c.p1 + c.p2 * tLin + c.p3 * t2 + c.p4 * t3);
    var u2 := PowBmp3(u, 2);
    var u3 := PowBmp3(u, 3);
    var partialData4 := u2 * (c.p9 + c.p10 * tLin) + u3 * c.p11;
    p := partialOut1 + partialOut2 + partialData4;
  }

  /** `bmp390_get_sensor_data`: temperature before pressure, so the reported
      temperature is the t_lin left in the record, and the pressure is the one
      computed from that same sample's t_lin. The reading does not depend on
      whatever t_lin the record held before the call. */
  method GetSensorData(uncomp: UncompData, calib: CalibData) returns (comp: Reading)
    modifies calib`tLin
    ensures comp.temperature == calib.tLin
    ensures comp == Compensate(calib.par, uncomp)
  {
    var t := CompensateTemperature(uncomp.temperature, calib);
    var p := CompensatePressure(uncomp.pressure, calib);
    comp := Reading(t, p);
  }

  /** Multiplying an inequality by a non-negative factor keeps it. */
  lemma ScaleInequality(x: real, y: real, z: real)
    requires x >= 0.0 && y >= z
    ensures x * y >= x * z
  {
    assert x * y - x * z == x * (y - z);
  }

  /** Over the raw samples the temperature is strictly increasing whenever
      par_t2 > 2 * par_t1 * par_t3 and par_t3 >= 0: the difference
      T(v) - T(u) factors as (v - u) * (par_t2 + par_t3 * (u + v - 2 par_t1)). */
  lemma TemperatureIncreasing(c: Coefficients, u: int, v: int)
    requires c.t3 >= 0.0 && c.t2 > 2.0 * c.t1 * c.t3
    requires 0 <= u < v
    ensures Temperature(c, u) < Temperature(c, v)
  {
    var a, b := u as real - c.t1, v as real - c.t1;
    var k := c.t2 + c.t3 * (a + b);
    assert Temperature(c, v) - Temperature(c, u) == (b - a) * k by {
      assert Temperature(c, v) == b * c.t2 + (b * b) * c.t3;
      assert Temperature(c, u) == a * c.t2 + (a * a) * c.t3;
    }
    assert a + b >= -2.0 * c.t1;
    ScaleInequality(c.t3, a + b, -2.0 * c.t1);
    assert k > 0.0;
    assert b - a > 0.0;
  }

  /** One raw step changes the temperature by par_t2 + par_t3 * (2u + 1 -
      2 par_t1). */
  lemma TemperatureStep(c: Coefficients, u: int)
    ensures Temperature(c, u + 1) - Temperature(c, u) == c.t2 + c.t3 * (2.0 * u as real + 1.0 - 2.0 * c.t1)
  {
    var a := u as real - c.t1;
    assert Temperature(c, u + 1) == (a + 1.0) * c.t2 + ((a + 1.0) * (a + 1.0)) * c.t3;
    assert Temperature(c, u) == a * c.t2 + (a * a) * c.t3;
  }

  /** The example calibration of Bmp390_sim1.c meets the condition of
      TemperatureIncreasing. */
  lemma ExampleTemperatureCondition()
    ensures var c := Decode(ExampleBytes); c.t3 >= 0.0 && c.t2 > 2.0 * c.t1 * c.t3
  {
    ExampleDecodes();
  }

  /** The difference of a cubic a*x + q*x^2 + k*x^3 at y and at x has the
      factor y - x. */
  lemma CubicDifference(x: real, y: real, a: real, q: real, k: real)
    ensures (y * a + (y * y) * q + (y * y * y) * k) - (x * a + (x * x) * q + (x * x * x) * k)
      == (y - x) * (a + q * (x + y) + k * (x * x + x * y + y * y))
  {
    assert y * y - x * x == (y - x) * (x + y);
    assert y * y * y - x * x * x == (y - x) * (x * x + x * y + y * y);
    assert (y * y) * q - (x * x) * q == (y * y - x * x) * q;
    assert (y * y * y) * k - (x * x * x) * k == (y * y * y - x * x * x) * k;
  }

  /** A cubic a*x + q*x^2 + k*x^3 with a < 0 and q, k <= 0 falls strictly
      over the non-negative reals. */
  lemma CubicDecreasing(x: real, y: real, a: real, q: real, k: real)
    requires 0.0 <= x < y && a < 0.0 && q <= 0.0 && k <= 0.0
    ensures x * a + (x * x) * q + (x * x * x) * k > y * a + (y * y) * q + (y * y * y) * k
  {
    CubicDifference(x, y, a, q, k);
    var m := a + q * (x + y) + k * (x * x + x * y + y * y);
    ScaleInequality(x + y, -q, 0.0);
    ScaleInequality(x * x + x * y + y * y, -k, 0.0);
    assert m < 0.0;
    assert (y - x) * m < 0.0;
  }

  /** Over the raw samples the pressure at a fixed t_lin is strictly
      decreasing whenever its sensitivity is negative and its quadratic and
      cubic weights are not positive: P(v) - P(u) factors as (v - u) * (S +
      Q * (u + v) + K * (u^2 + uv + v^2)). */
  lemma PressureDecreasing(c: Coefficients, tLin: real, u: int, v: int)
    requires Sensitivity(c, tLin) < 0.0 && c.p9 + c.p10 * tLin <= 0.0 && c.p11 <= 0.0
    requires 0 <= u < v
    ensures Pressure(c, tLin, u) > Pressure(c, tLin, v)
  {
    var x, y := u as real, v as real;
    var sens, q, k := Sensitivity(c, tLin), c.p9 + c.p10 * tLin, c.p11;
    PowSquareCube(x);
    PowSquareCube(y);
    assert Pressure(c, tLin, v) == Offset(c, tLin) + (y * sens + (y * y) * q + (y * y * y) * k);
    assert Pressure(c, tLin, u) == Offset(c, tLin) + (x * sens + (x * x) * q + (x * x * x) * k);
    CubicDecreasing(x, y, sens, q, k);
  }

  /** Pressure coefficients whose sensitivity stays negative and whose
      quadratic and cubic weights stay negative for every t_lin between 0
      and 40 degrees: those of the example calibration of Bmp390_sim1.c. */
  lemma FallingPressureCoefficients(c: Coefficients, tLin: real)
    requires c.p1 == -33047.0 / 1048576.0 && c.p2 == -27279.0 / 536870912.0
    requires c.p3 == 7.0 / 4294967296.0 && c.p4 == 5.0 / 137438953472.0
    requires c.p9 == -8192.0 / 281474976710656.0 && c.p10 == -32.0 / 281474976710656.0
    requires c.p11 == -21.0 / 36893488147419103232.0
    requires 0.0 <= tLin <= 40.0
    ensures Sensitivity(c, tLin) < 0.0 && c.p9 + c.p10 * tLin <= 0.0 && c.p11 <= 0.0
  {
    PowSquareCube(tLin);
    ScaleInequality(tLin, 40.0, tLin);
    ScaleInequality(40.0, 40.0, tLin);
    assert tLin * tLin <= 1600.0;
    ScaleInequality(tLin * tLin, 40.0, tLin);
    ScaleInequality(1600.0, 40.0, tLin);
    assert tLin * tLin * tLin <= 64000.0;
    ScaleInequality(c.p3, 1600.0, tLin * tLin);
    ScaleInequality(c.p4, 64000.0, tLin * tLin * tLin);
    ScaleInequality(-c.p2, tLin, 0.0);
    ScaleInequality(-c.p10, tLin, 0.0);
  }

  /** On the example calibration of Bmp390_sim1.c, for any t_lin between 0
      and 40 degrees, the compensated pressure falls as the raw sample
      rises. */
  lemma ExamplePressureFalls(tLin: real, u: int, v: int)
    requires 0.0 <= tLin <= 40.0 && 0 <= u < v
    ensures var c := Decode(ExampleBytes); Pressure(c, tLin, u) > Pressure(c, tLin, v)
  {
    ExampleDecodes();
    FallingPressureCoefficients(Decode(ExampleBytes), tLin);
    PressureDecreasing(Decode(ExampleBytes), tLin, u, v);
  }

  /** The example temperature at half scale lies between 37 and 38 degrees. */
  lemma ExampleTemperatureAtHalfScale()
    ensures var c := Decode(ExampleBytes); 37.0 < Temperature(c, 8388608) < 38.0
  {
    ExampleDecodes();
    var c := Decode(ExampleBytes);
    assert c.t1 == 6867712.0 && c.t2 == 26216.0 / 1073741824.0 && c.t3 == 3.0 / 281474976710656.0;
  }
}
