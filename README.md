# BMP390 compensation and HD44780 LCD driver, modelled in Dafny

This project models the arithmetic core of a Bosch BMP390 barometric sensor
simulator and the byte encoder of an HD44780 character-LCD driver.

- **Calibration decoder** (`calibration.dfy`, module `Calibration`). It turns
  the 21 calibration register bytes (addresses 0x31..0x45) into 14 raw
  little-endian fields. Some are unsigned 16-bit, some signed 16-bit, some
  signed 8-bit. It then quantises them into the working coefficients
  `par_t1` .. `par_p11`. The field extraction is proved equal to a
  table-driven reading of the register map. The quantisation is proved
  lossless.
- **Forward compensation** of `Bmp390_sim1.c` (`compensation.dfy`, module
  `Compensation`). It works on a calibration record (`class CalibData`) with
  a mutable `t_lin` slot. Temperature compensation writes that slot and
  pressure compensation reads it. The contracts say what is written and read
  and in which order. `pow_bmp3` is a counted loop proved to compute b^n.
- **Reverse calculator** of `BMP390_reverse_cal.c` (`inverse_search.dfy`,
  module `InverseSearch`). Two bisections over the raw ADC range
  [0, 2^24 - 1] use `uint32_t` indices and stop early on a tolerance. The
  model proves:
  - the index arithmetic never overflows;
  - each search makes at most 24 probes;
  - the result is always a probed midpoint in [1, 2^24 - 2];
  - the result either meets the tolerance or is an end of a final interval
    of width one;
  - the side effect on `t_lin` is as stated.

  Given monotonicity, an exhausted search means no interior sample meets the
  tolerance. Monotonicity of temperature is proved under a condition on the
  coefficients, and the example calibration meets that condition. On that
  calibration the temperature search always lands within 0.01 degrees for a
  target between T(1) and T(2^24 - 2). For t_lin between 0 and 40 degrees
  the example pressure, by contrast, falls as the raw sample rises, so a
  pressure search at such a t_lin that misses the tolerance ends next to an
  edge of the range.
- **Older simulator** `BMP390_sim.c` (`legacy_simulator.dfy`, module
  `LegacySimulator`). It keeps `t_lin` in a file-level global, which is the
  field of a `Simulator` object here. It uses the integer-scaled formulas on
  unscaled raw fields.
- **HD44780 driver through an I2C port expander** (`lcd_driver.dfy`, module
  `LcdDriver`).
  - `LcdWriteByte` appends to a byte trace.
  - `LcdWrite` is proved to send four bytes. The display decodes those bytes
    back to the register select and the value, with enable pulsed for each
    nibble.
  - `LcdPuts` is a loop proved to send the line address and then one frame
    per character before the first NUL.
  - `LcdInit` is proved to send exactly the attention and setup stream when
    the result of its first send is zero, and a single byte when that result
    is nonzero.

`ctypes.dfy` (module `CTypes`) holds the fixed-width C types. Unsigned
counters and indices are newtypes, so every arithmetic step is checked to
stay in range. Bytes are `bv8`. The two's-complement casts `(int8_t)` and
`(int16_t)` are written out.

`BMP390_reverse_cal.c` does not get separate definitions for four pieces,
because each matches `Bmp390_sim1.c` term for term:

| piece | BMP390_reverse_cal.c | Bmp390_sim1.c |
|---|---|---|
| `pow_bmp3` | lines 127-134 | lines 46-53 |
| `compensate_temperature` | lines 136-142 | lines 117-127 |
| `compensate_pressure` | lines 144-166 | lines 132-160 |
| inline decoder in `main` | lines 306-334 | lines 82-111 |

These copies are modelled by the same definitions. `Calibration.ExampleDecodes`
states that the two example register images are equal.

`par_p9` is read from bytes 17 and 18 (registers 0x42, 0x43), lower address
first (Bmp390_sim1.c:93, BMP390_reverse_cal.c:317).

Arithmetic on `double` in the compensation formulas is modelled on `real`.
The decoder is the exception. Its numerators are small integers divided by
exact powers of two, so the real values are the values the C code computes.
For these two operations, the C code subtracts in `double`, so a raw sample
below the bias never wraps:

- `uncomp_temp - par_t1` in `Bmp390_sim1.c`;
- `uncomp_temp - 256.0 * par_t1` in `BMP390_sim.c`.

## Model

| member | source | states |
|---|---|---|
| CTypes.Int8 | Bmp390_sim1.c:84 | `(int8_t)b` is the value in [-128, 128) congruent to b modulo 256, negative exactly when b >= 0x80 |
| CTypes.Int16 | Bmp390_sim1.c:85-86 | `(int16_t)` of a 16-bit pattern v is the value in [-32768, 32768) congruent to v modulo 65536, negative exactly when v >= 0x8000 |
| Calibration.U16 | Bmp390_sim1.c:82-83 | `(hi << 8) \| lo` is lo + 256 * hi: lower address first |
| Calibration.ParseRaw | Bmp390_sim1.c:81-95 | any 21 bytes decode (total), and every raw field lies in the range of its declared C type |
| Calibration.ParseRawMatchesLayout | Bmp390_sim1.c:82-95 | field by field, the hand-written shifts and casts equal a generic little-endian, two's-complement reading of the register map (offset, width, signedness) |
| Calibration.LowFieldsMatchLayout | Bmp390_sim1.c:82-88 | par_t1 .. par_p4, as the decoder extracts them, equal the table-driven reading of their register-map entries |
| Calibration.HighFieldsMatchLayout | Bmp390_sim1.c:89-95 | par_p5 .. par_p11, as the decoder extracts them, equal the table-driven reading of their register-map entries |
| Calibration.EachByteInExactlyOneField | Bmp390_sim1.c:82-95 | each of the 21 bytes belongs to exactly one field of the register map, so the decoder reads every byte once |
| Calibration.Quantize | Bmp390_sim1.c:98-111 | par_t1 = 256 * raw and par_p5 = 8 * raw (the two divisors below one) |
| Calibration.QuantizeTemperatureDivisors | Bmp390_sim1.c:99-100 | par_t2 and par_t3 are their raw fields divided by 2^30 and 2^48 |
| Calibration.QuantizeSensitivityDivisors | Bmp390_sim1.c:101-104 | par_p1 and par_p2 subtract the bias 2^14 and divide by 2^20 and 2^29; par_p3 and par_p4 divide by 2^32 and 2^37 |
| Calibration.QuantizeOffsetDivisors | Bmp390_sim1.c:106-108 | par_p6, par_p7 and par_p8 are their raw fields divided by 2^6, 2^8 and 2^15 |
| Calibration.QuantizeCorrectionDivisors | Bmp390_sim1.c:109-111 | par_p9 and par_p10 are their raw fields divided by 2^48, and par_p11 by 2^65 |
| Calibration.QuantizeIsLossless | Bmp390_sim1.c:98-111 | quantisation is injective: the raw fields are recovered exactly from the coefficients |
| Calibration.ExampleDecodes | Bmp390_sim1.c:247-262 | the example bytes give par_t1 = 26827, par_p1 = -16663, par_p2 = -10895, par_p8 = -2, par_p9 = -8192, par_p11 = -21 and the other values of the source's comments; the image in BMP390_reverse_cal.c:297-302 is the same |
| Compensation.PowBmp3 | Bmp390_sim1.c:46-53 | the `uint8_t` loop never overflows its counter and returns base^power; power 0 gives 1 |
| Compensation.Temperature | Bmp390_sim1.c:119-123 | the temperature is zero when the raw sample equals par_t1 (its partner is TemperatureIncreasing) |
| Compensation.TemperatureIncreasing | Bmp390_sim1.c:117-127 | for par_t3 >= 0 and par_t2 > 2 * par_t1 * par_t3 the compensated temperature strictly increases in the raw sample |
| Compensation.TemperatureStep | Bmp390_sim1.c:119-123 | one raw step changes the temperature by par_t2 + par_t3 * (2u + 1 - 2 par_t1) |
| Compensation.ExampleTemperatureCondition | Bmp390_sim1.c:247-265 | the example calibration meets the condition of TemperatureIncreasing |
| Compensation.Pressure | Bmp390_sim1.c:141-159 | with a zero raw sample the pressure is par_p5 + par_p6 t + par_p7 t^2 + par_p8 t^3 for t = t_lin |
| Compensation.PressureDecreasing | Bmp390_sim1.c:141-159 | at a fixed t_lin, a negative sensitivity and non-positive quadratic and cubic weights make the pressure strictly fall as the raw sample rises |
| Compensation.FallingPressureCoefficients | Bmp390_sim1.c:101-111 | with the example's quantised pressure coefficients and any t_lin in [0, 40], the sensitivity is negative and the quadratic and cubic weights are not positive |
| Compensation.ExamplePressureFalls | Bmp390_sim1.c:141-159 | on the example calibration, for any t_lin in [0, 40], the pressure strictly falls as the raw sample rises |
| Compensation.ExampleTemperatureAtHalfScale | Bmp390_sim1.c:119-123 | on the example calibration the temperature of raw 8388608 lies between 37 and 38 degrees |
| Compensation.Compensate | Bmp390_sim1.c:174-180 | the reading's pressure is the pressure formula evaluated at the reading's own temperature |
| Compensation.ParseCalibData | Bmp390_sim1.c:63-112 | requires the 21 bytes; writes all 14 coefficients (the decoded values) and leaves t_lin unchanged |
| Compensation.CompensateTemperature | Bmp390_sim1.c:117-127 | writes t_lin (and only t_lin) and returns exactly the value written, the temperature formula of the sample |
| Compensation.CompensatePressure | Bmp390_sim1.c:132-160 | changes nothing (const record) and returns the pressure formula at the stored t_lin |
| Compensation.GetSensorData | Bmp390_sim1.c:174-180 | the reported temperature equals the t_lin left in the record, and the pressure is computed from that same t_lin; the result does not depend on the previous t_lin |
| InverseSearch.Abs | BMP390_reverse_cal.c:193 | `fabs`: non-negative and equal to x or -x |
| InverseSearch.HalvingStep | BMP390_reverse_cal.c:189-190 | while high - low > 1 and high - low <= 2^n, the midpoint lies strictly between low and high and both halves are at most 2^(n-1) wide |
| InverseSearch.LastProbeIsAnEnd | BMP390_reverse_cal.c:189-204 | when the loop stops on an interval of width one whose ends are a low end and a high end, the last probe is one of them, so the search is exhausted at it |
| InverseSearch.MissedAppend | BMP390_reverse_cal.c:193-195 | a further probe inside the range that missed the tolerance keeps "every probe missed" |
| InverseSearch.SearchStarts | BMP390_reverse_cal.c:183-187 | the loop starts on [0, 2^24 - 1] with no probes, which satisfies the loop invariant |
| InverseSearch.SearchStep | BMP390_reverse_cal.c:189-201 | a probe at the midpoint lies strictly inside the interval and the ADC range; a hit gives the search result, and a miss moves the lower end up (value below the target) or the upper end down (otherwise), keeping the invariant with one more probe |
| InverseSearch.SearchEnds | BMP390_reverse_cal.c:189-204 | a loop that stops on an interval of width one has its result: the search ran out at the last probe |
| InverseSearch.ReverseCalcTemperature | BMP390_reverse_cal.c:180-205 | low + high never exceeds uint32_t; the ghost list of probed midpoints has 1 to 24 entries, all in [1, 2^24 - 2], every one but the last missing the 0.01 tolerance; the result is the last probe; it meets the tolerance, or it and a neighbour are the final low end (a probe below the target, or 0) and high end (a probe at or above it, or 2^24 - 1); t_lin holds the temperature of the result and the coefficients are unchanged |
| InverseSearch.ReverseCalcPressure | BMP390_reverse_cal.c:214-239 | the same probe list and end conditions with tolerance 10.0, using the t_lin held on entry; the record is not modified |
| InverseSearch.ReverseCalcSample | BMP390_reverse_cal.c:355-359 | the returned temperature sample is a result of the temperature search for the temperature target, the pressure search runs with the t_lin that search left (the temperature of that sample), and the returned pressure sample is a result of the pressure search for that forward function |
| InverseSearch.ExhaustedSearchHasNoInteriorSolution | BMP390_reverse_cal.c:189-204 | if the forward function does not decrease and the search ran out, no raw value strictly inside the range meets the tolerance |
| InverseSearch.ExampleTemperatureSearchIsComplete | BMP390_reverse_cal.c:180-205 | on the example calibration, a temperature search result meets the tolerance or no interior raw value does |
| InverseSearch.SmallTemperatureStep | BMP390_reverse_cal.c:180-205 | with the example's temperature coefficients one raw step raises the temperature by less than 0.02, twice the tolerance |
| InverseSearch.ExampleTemperatureStep | BMP390_reverse_cal.c:180-205 | the decoded example calibration has those coefficients, so its temperature step is below 0.02 |
| InverseSearch.ExampleTemperatureSearchCannotRunOut | BMP390_reverse_cal.c:189-204 | on the example calibration, for a target between T(1) and T(2^24 - 2), the temperature search cannot run out at an interior probe |
| InverseSearch.ExampleTemperatureSearchHits | BMP390_reverse_cal.c:180-205 | the inverse round trip on the example calibration: for a target between T(1) and T(2^24 - 2) the returned sample compensates to within 0.01 degrees of the target |
| InverseSearch.ExampleSampleTemperatureHits | BMP390_reverse_cal.c:355-359 | on the example calibration, the temperature sample one test case of the main loop reports for a target between T(1) and T(2^24 - 2) compensates to within 0.01 degrees of that target |
| InverseSearch.ExamplePressureSearchEndsAtAnEdge | BMP390_reverse_cal.c:214-239 | on the example calibration with t_lin in [0, 40], a pressure search result that misses the 10 Pa tolerance is 1 or 2^24 - 2, because the pressure falls while the bisection assumes it rises |
| LegacySimulator.LegacyPressure | BMP390_sim.c:96-120 | with a zero raw sample the pressure is offset / (4 * 25600) |
| LegacySimulator.Simulator.constructor | BMP390_sim.c:41 | the global t_lin starts at 0.0 |
| LegacySimulator.Simulator.CompensateTemperature | BMP390_sim.c:50-74 | stores the integer-scaled linearisation in the global and returns a hundredth of it; the result depends on the sample and par_t1..par_t3, not on the previous t_lin |
| LegacySimulator.Simulator.CompensatePressure | BMP390_sim.c:83-123 | writes neither the global nor the struct and evaluates the formula at the current global t_lin |
| LegacySimulator.Simulator.GetSensorData | BMP390_sim.c:148-157 | temperature first: the pressure uses the t_lin of the same raw temperature, and the reported temperature is that t_lin / 100 |
| LegacySimulator.LegacyTLinIsScaledTemperature | BMP390_sim.c:60-68 | the global t_lin is 2^16 times the Bmp390_sim1.c temperature of the quantised coefficients of the same raw fields |
| LegacySimulator.LegacyTemperatureIsScaled | BMP390_sim.c:71 | the returned temperature is 655.36 times the temperature in degrees Celsius |
| LegacySimulator.CorrectedTemperature | BMP390_sim.c:71 | t_lin / 2^16 equals the Bmp390_sim1.c temperature |
| LegacySimulator.MaskedUint16 | BMP390_sim.c:200-201 | `0xFFFFFFFF & x` for a C `int` x, stored in a `uint16_t`, is x modulo 2^16 |
| LegacySimulator.LegacyExampleValues | BMP390_sim.c:192-207 | the initialisers of par_p5 and par_p6 store 65442 and 65529, and every field fits its type |
| LegacySimulator.LegacyExampleTemperature | BMP390_sim.c:192-213 | for the first example sample (8388608) the returned temperature exceeds 24000 while the corrected one lies between 37 and 38 degrees Celsius |
| LcdDriver.ControlMasks | Lcd_deiver.c:23-31 | the masks used for the frames are `BV(LCD_RS)`, `BV(LCD_RW)`, `BV(LCD_EN)`, `BV(LCD_BL)`, namely 0x01, 0x02, 0x04, 0x08 |
| LcdDriver.WriteFrame | Lcd_deiver.c:42-52 | `LcdWrite` sends exactly four bytes |
| LcdDriver.ReadWriteFrame | Lcd_deiver.c:43-51 | round trip: (byte1 & 0xF0) \| (byte3 >> 4) gives back val, and register select is high exactly when rs is not LCD_CMD |
| LcdDriver.WriteFrameControlLines | Lcd_deiver.c:44-51 | enable is high in bytes 1 and 3 and low in 2 and 4, the backlight is on in all four, read/write never, register select in all four exactly when rs is not LCD_CMD, and each enable-low byte is the previous byte with enable dropped |
| LcdDriver.FrameStrobed | Lcd_deiver.c:45-51 | every nibble of a frame is latched by a high-then-low enable pair |
| LcdDriver.Strlen | Lcd_deiver.c:103 | the index of the first NUL |
| LcdDriver.DataFramesShape | Lcd_deiver.c:103-104 | the data frames of a string are 4 bytes per character, frame k carrying character k |
| LcdDriver.DataFramesStrobed | Lcd_deiver.c:103-104 | the data frames are strobed nibble by nibble |
| LcdDriver.PutsStream | Lcd_deiver.c:99-105 | `LcdPuts` sends 4 * (1 + strlen) bytes, strobed; the display reads the line address as a command and then each character before the NUL, in order, as data |
| LcdDriver.CharFrameReads | Lcd_deiver.c:103-104 | frame k after the line command reads back as character k with RS high |
| LcdDriver.InitStreamBytes | Lcd_deiver.c:61-93 | the setup stream is 0x34,0x30 three times, 0x24,0x20, 0x28, then the frames of 0x08, 0x01, 0x06 and 0x0C as commands |
| LcdDriver.InitStreamNotStrobed | Lcd_deiver.c:85 | as written, the setup stream sends a nibble (the two-lines function set) without an enable pulse |
| LcdDriver.InitStreamCorrectedStrobed | Lcd_deiver.c:79-93 | with the two-lines function set sent as a command frame, every nibble of the setup stream is strobed |
| LcdDriver.Lcd.WriteByte | Lcd_deiver.c:38-40 | appends the byte to the bus trace |
| LcdDriver.Lcd.Write | Lcd_deiver.c:42-52 | appends exactly the frame of (rs, val) to the trace |
| LcdDriver.Lcd.Puts | Lcd_deiver.c:99-105 | requires a NUL in the string; appends the line-address command frame and then one data frame per character before the first NUL |
| LcdDriver.Lcd.Init | Lcd_deiver.c:55-96 | if the result of the first send is nonzero, only 0x34 goes out and the result is -1; if it is zero, the whole setup stream goes out and the result is 0 |
| LcdDriver.Lcd.InitCorrected | Lcd_deiver.c:55-96 | a negative first send result sends only 0x34 and gives -1; any other result sends the corrected setup stream and gives 0 |
| LcdDriver.InitOnAnsweringDisplay | Lcd_deiver.c:38-64 | as written, a fresh driver whose first send is taken (`i2c_master_send` returns 1) sends only 0x34 and reports -1 |
| LcdDriver.InitCorrectedOnAnsweringDisplay | Lcd_deiver.c:55-96 | corrected, the same driver sends the whole corrected setup stream, strobed throughout, and reports 0, the value the probe routine (lines 117-121) treats as ready |

## Left out

- `calculate_altitude` (Bmp390_sim1.c:165-169, BMP390_sim.c:131-139) is not modelled. It is a libm `pow` with a fractional exponent, which is floating-point numerics only.
- The printing functions and their °F, hPa and ft conversions are not modelled, because they are presentation only.
- The `main` drivers, `scanf` input, the third-party test table and its display are not modelled. They serve only as sources of the example inputs used in lemmas.
- IEEE-754 rounding of the compensation polynomials is not modelled. They are evaluated on `real`, and bit-exact agreement with `double` is not claimed.
- Monotonicity is not established in general. `ExhaustedSearchHasNoInteriorSolution` takes it as a hypothesis. For temperature it is proved under a condition on the coefficients.
- No search-completeness claim is made for pressure. On the example calibration the pressure falls as the raw sample rises (`Compensation.ExamplePressureFalls`), while the bisection assumes it rises. It is not established whether the example coefficients or the search direction is at fault, so this is stated as a lemma (`InverseSearch.ExamplePressureSearchEndsAtAnEdge`) and not as a finding.
- `InverseSearch.ReverseCalcPressure` is proved for whatever t_lin the record holds on entry. In `BMP390_reverse_cal.c` that slot is uninitialised until the first temperature search.
- The delays (`mdelay`, `__NOP`) are left out, because a trace records order, not timing.
- The kernel plumbing of Lcd_deiver.c (probe/remove, module init/exit, I2C adapter and client registration) is not modelled. It is foreign kernel code.
- `i2c_master_send` is not modelled. The kernel returns the number of bytes sent (here 1) or a negative error code. The result of the first send of `LcdInit` is a parameter, and `LcdDriver.Lcd.WriteByte` returns nothing, since the other results are ignored.
- `LcdDriver.Lcd.Puts`: its `int` index is modelled as unbounded, so strings longer than `INT_MAX` are not covered.
- gpio.c (a Linux character-device driver) and bash_shell.c (process control around libc) are not part of this model. Neither has self-contained logic of its own.
- The `LCD_LINE1`/`LCD_LINE2` addresses are constants only, because their callers are outside the modelled code.

## Findings

| source | as written | input that shows it | evidently intended | confidence | as-written member | corrected member |
|---|---|---|---|---|---|---|
| BMP390_sim.c:71 | returns the linearised temperature divided by 100 as degrees Celsius, although that value is 2^16 times the temperature | the calibration of lines 192-207 with raw temperature 8388608 returns about 24388 | the temperature should be t_lin / 2^16 (about 37.2 °C here), which is what Bmp390_sim1.c computes | not executed; high | LegacySimulator.LegacyTemperatureIsScaled | LegacySimulator.CorrectedTemperature |
| Lcd_deiver.c:85 | sends the function set for 4-bit, two-line mode as one raw byte 0x28 whose enable bit is clear, so the display never latches it and stays in one-line mode | any `LcdInit` whose first send result is zero: byte 8 of the stream is 0x28, preceded by 0x20 | send it as a command, like the instructions that follow it, so both nibbles are strobed | not executed; medium | LcdDriver.InitStreamNotStrobed | LcdDriver.Lcd.InitCorrected |
| Lcd_deiver.c:63 | treats any nonzero result of the first send as "display not ready" and returns -1, but the result is that of `i2c_master_send` (line 39), which is 1 when the byte was sent | a display that takes the first byte: `LcdInit` sends only 0x34 and returns -1, and the probe routine (lines 117-121) reports the LCD as unavailable | fail only on a negative error code and return 0 on success, as the probe routine expects | not executed; high | LcdDriver.InitOnAnsweringDisplay | LcdDriver.InitCorrectedOnAnsweringDisplay |

The code as written is modelled by `LegacySimulator.Simulator.CompensateTemperature` (first row) and `LcdDriver.Lcd.Init` (second and third rows). `LcdDriver.Lcd.InitCorrected` carries both corrections to `LcdInit`. Each comes with a concrete input:

- `LegacySimulator.LegacyExampleTemperature` gives the input for the first row.
- `LcdDriver.InitStreamBytes` gives the input for the second row.
- `LcdDriver.InitOnAnsweringDisplay` gives the input for the third row.

`LcdDriver.InitStreamCorrectedStrobed` proves the intended property of the corrected LCD setup stream, and `LcdDriver.InitCorrectedOnAnsweringDisplay` that the corrected `LcdInit` reports success on a display that takes the first byte.
