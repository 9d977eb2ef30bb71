/** The older simulator of BMP390_sim.c. Its calibration struct holds the raw
    register fields unscaled, its formulas are the integer-scaled variant of
    the Bosch compensation evaluated in `double`, and the linearised
    temperature lives in a file-level global `t_lin` that temperature
    compensation writes and pressure compensation reads. The global is the
    field of a `Simulator` object here. */
module LegacySimulator {
  import opened CTypes
  import opened Calibration
  import opened Compensation

  /** The linearised temperature the integer-scaled formula computes
      (`partial_data6`): a quadratic in uncompTemp - 256 * par_t1. The
      subtraction is done in `double`, so it never wraps. */
  function LegacyTLin(calib: RawCalib, uncompTemp: int): real {
    var d1 := uncompTemp as real - 256.0 * calib.t1 as real;
    var d2 := calib.t2 as real * d1;
    var d3 := d1 * d1;
    var d4 := d3 * calib.t3 as real;
    var d5 := d2 * 262144.0 + d4;
    d5 / 4294967296.0
  }

  /** The offset term: par_p5 scaled by 2^47 plus the t_lin corrections. */
  function LegacyOffset(calib: RawCalib, tLin: real): real {
    var d3 := (tLin * tLin / 64.0 * tLin) / 256.0;
    calib.p5 as real * 140737488355328.0 + calib.p8 as real * d3
      + calib.p7 as real * (tLin * tLin) * 16.0 + calib.p6 as real * tLin * 4194304.0
  }

  /** The sensitivity term: par_p1 - 16384 scaled by 2^46 plus the t_lin
      corrections. */
  function LegacySensitivity(calib: RawCalib, tLin: real): real {
    var d3 := (tLin * tLin / 64.0 * tLin) / 256.0;
    (calib.p1 as real - 16384.0) * 70368744177664.0 + calib.p4 as real * d3
      + calib.p3 as real * (tLin * tLin) * 4.0 + (calib.p2 as real - 16384.0) * tLin * 2097152.0
  }

  /** The pressure of the integer-scaled formula for a raw sample at a given
      t_lin. Every term except the offset has the sample as a factor, so a
      zero sample leaves offset / (4 * 25600). */
  function LegacyPressure(calib: RawCalib, tLin: real, uncompPress: int): (p: real)
    ensures uncompPress == 0 ==> p == LegacyOffset(calib, tLin) / (4.0 * 25600.0)
  {
    var u := uncompPress as real;
    var sens := LegacySensitivity(calib, tLin) / 16777216.0 * u;
    var lin := (calib.p10 as real * tLin + 65536.0 * calib.p9 as real) * u / 8192.0 / 512.0;
    var cube := calib.p11 as real * (u * u) / 65536.0 * u / 128.0;
    (LegacyOffset(calib, tLin) / 4.0 + sens + lin + cube) / 25600.0
  }

  /** The translation unit's state: `static double t_lin = 0.0`. */
  class Simulator {
    var tLin: real

    constructor ()
      ensures tLin == 0.0
    {
      tLin := 0.0;
    }

    /** `bmp390_compensate_temperature`: stores `partial_data6` in the global
        and returns a hundredth of it. The result depends on the sample and
        par_t1..par_t3 only, not on the t_lin held before the call. */
    method CompensateTemperature(uncompTemp: uint32, calib: RawCalib) returns (t: real)
      modifies this
      ensures tLin == LegacyTLin(calib, uncompTemp as int)
      ensures t == LegacyTLin(calib, uncompTemp as int) / 100.0 && tLin == 100.0 * t
    {
      var partialData1 := uncompTemp as real - 256.0 * calib.t1 as real;
      var partialData2 := calib.t2 as real * partialData1;
      var partialData3 := partialData1 * partialData1;
      var partialData4 := partialData3 * calib.t3 as real;
      var partialData5 := partialData2 * 262144.0 + partialData4;
      var partialData6 := partialData5 / 4294967296.0;
      tLin := partialData6;
      t := partialData6 / 100.0;
    }

    /** `bmp390_compensate_pressure`: reads the global and the struct and
        writes neither (no modifies clause), evaluating the formula at the
        current t_lin. */
    method CompensatePressure(uncompPress: uint32, calib: RawCalib) returns (p: real)
      ensures p == LegacyPressure(calib, tLin, uncompPress as int)
    {
      var u := uncompPress as real;
      var partialData1 := tLin * tLin;
      var partialData2 := partialData1 / 64.0;
      var partialData3 := (partialData2 * tLin) / 256.0;
      var partialData4 := calib.p8 as real * partialData3;
      var partialData5 := (calib.p7 as real * partialData1) * 16.0;
      var partialData6 := (calib.p6 as real * tLin) * 4194304.0;
      var offset := calib.p5 as real * 140737488355328.0 + partialData4 + partialData5 + partialData6;
      partialData2 := calib.p4 as real * partialData3;
      partialData4 := (calib.p3 as real * partialData1) * 4.0;
      partialData5 := (calib.p2 as real - 16384.0) * tLin * 2097152.0;
      var sensitivity := (calib.p1 as real - 16384.0) * 70368744177664.0 + partialData2 + partialData4 + partialData5;
      partialData1 := (sensitivity / 16777216.0) * u;
      partialData2 := calib.p10 as real * tLin;
      partialData3 := partialData2 + 65536.0 * calib.p9 as real;
      partialData4 := (partialData3 * u) / 8192.0;
      partialData5 := partialData4 / 512.0;
      partialData6 := u * u;
      partialData2 := (calib.p11 as real * partialData6) / 65536.0;
      partialData3 := (partialData2 * u) / 128.0;
      partialData4 := (offset / 4.0) + partialData1 + partialData5 + partialData3;
      p := partialData4 / 25600.0;
    }

    /** `bmp390_get_sensor_data`: temperature first, so the pressure is
        computed from the t_lin of the same sample, whatever the global held
        before. */
    method GetSensorData(uncomp: UncompData, calib: RawCalib) returns (comp: Reading)
      modifies this
      ensures tLin == LegacyTLin(calib, uncomp.temperature as int)
      ensures comp.temperature == tLin / 100.0
      ensures comp.pressure == LegacyPressure(calib, tLin, uncomp.pressure as int)
    {
      var t := CompensateTemperature(uncomp.temperature, calib);
      var p := CompensatePressure(uncomp.pressure, calib);
      comp := Reading(t, p);
    }
  }

  /** The global t_lin is 2^16 times the temperature of the floating-point
      formula of Bmp390_sim1.c on the quantised coefficients of the same raw
      fields. */
  lemma LegacyTLinIsScaledTemperature(calib: RawCalib, uncompTemp: int)
    ensures LegacyTLin(calib, uncompTemp) == 65536.0 * Temperature(Quantize(calib), uncompTemp)
  {
    var c := Quantize(calib);
    var d := uncompTemp as real - 256.0 * calib.t1 as real;
    assert uncompTemp as real - c.t1 == d;
    calc {
      65536.0 * Temperature(c, uncompTemp);
      65536.0 * (d * (calib.t2 as real / 1073741824.0) + (d * d) * (calib.t3 as real / 281474976710656.0));
      (calib.t2 as real * d * 262144.0 + d * d * calib.t3 as real) / 4294967296.0;
      LegacyTLin(calib, uncompTemp);
    }
  }

  /** As written, the temperature BMP390_sim.c reports is t_lin / 100, which
      is 655.36 times the temperature in degrees Celsius. */
  lemma LegacyTemperatureIsScaled(calib: RawCalib, uncompTemp: int)
    ensures LegacyTLin(calib, uncompTemp) / 100.0 == 655.36 * Temperature(Quantize(calib), uncompTemp)
  {
    LegacyTLinIsScaledTemperature(calib, uncompTemp);
  }

  /** The intended temperature in degrees Celsius: t_lin / 2^16, which
      agrees with the formula of Bmp390_sim1.c. */
  function CorrectedTemperature(calib: RawCalib, uncompTemp: int): (t: real)
    ensures t == Temperature(Quantize(calib), uncompTemp)
  {
    LegacyTLinIsScaledTemperature(calib, uncompTemp);
    LegacyTLin(calib, uncompTemp) / 65536.0
  }

  /** `0xFFFFFFFF & x` for a C `int` x, stored in a `uint16_t` field. The
      literal is `unsigned int`, so x is first converted to `uint32_t`; a
      mask of 32 ones then keeps every bit of that value, and the store keeps
      its low 16 bits. The stored value is x modulo 2^16. */
  function MaskedUint16(x: int): (r: uint16)
    requires -0x8000_0000 <= x < 0x8000_0000
    ensures r == x % 0x1_0000
  {
    var w := ToUint32(x);
    assert w == if x < 0 then x + 0x1_0000_0000 else x;
    ToUint16(w)
  }

  /** The example calibration initialiser of `main`. */
  const LegacyExample: RawCalib := RawCalib(
    t1 := 26811, t2 := 26184, t3 := 3,
    p1 := -16647, p2 := -10879, p3 := 7, p4 := 5,
    p5 := MaskedUint16(-94), p6 := MaskedUint16(-7),
    p7 := 15, p8 := -2, p9 := -8192, p10 := -32, p11 := -21)

  /** The two masked initialisers store 65442 and 65529, and every field is
      in the range of its declared type. */
  lemma LegacyExampleValues()
    ensures LegacyExample.p5 == 65442 && LegacyExample.p6 == 65529
    ensures WellFormed(LegacyExample)
  {
  }

  /** On the example calibration and the first example sample
      (uncomp_temp = 8388608), the reported temperature is above 24000,
      while the corrected one is about 37.2 degrees Celsius. */
  lemma LegacyExampleTemperature()
    ensures LegacyTLin(LegacyExample, 8388608) / 100.0 > 24000.0
    ensures 37.0 < CorrectedTemperature(LegacyExample, 8388608) < 38.0
  {
    LegacyExampleValues();
    assert LegacyTLin(LegacyExample, 8388608) == 159828019659.0 / 65536.0;
  }
}
