/** The reverse calculator of BMP390_reverse_cal.c: a bisection over the raw
    ADC interval [0, 2^24 - 1] that looks for a sample whose forward
    compensation lands within a tolerance of a target value. The facts about
    the search itself (bounds, no wrap-around, at most 24 probes, what the
    interval ends mean) hold whatever the forward function is; they are stated
    for an arbitrary `f: int -> real` and instantiated with the temperature and
    pressure compensations. */
module InverseSearch {
  import opened CTypes
  import opened Calibration
  import opened Compensation

  /** The top of the searched interval, the 24-bit maximum. */
  const AdcMax: int := 16777215

  /** The early-exit tolerances of the two searches. */
  const TemperatureTolerance: real := 0.01
  const PressureTolerance: real := 10.0

  /** `fabs`. */
  function Abs(x: real): (r: real)
    ensures r >= 0.0 && (r == x || r == -x)
  {
    if x < 0.0 then -x else x
  }

  /** Probe m reproduces the target within the tolerance (the early exit). */
  predicate Hit(f: int -> real, target: real, tol: real, m: int) {
    Abs(f(m) - target) < tol
  }

  /** p may be the lower end of the interval: the initial 0, or a probe that
      missed the tolerance with a value below the target. */
  predicate LowEnd(f: int -> real, target: real, tol: real, p: int) {
    p == 0 || (f(p) < target && !Hit(f, target, tol, p))
  }

  /** p may be the upper end of the interval: the initial 2^24 - 1, or a probe
      that missed the tolerance with a value at or above the target. */
  predicate HighEnd(f: int -> real, target: real, tol: real, p: int) {
    p == AdcMax || (f(p) >= target && !Hit(f, target, tol, p))
  }

  /** The search ran out: the last probe m and its neighbour are the two ends
      of an interval of width one, so m is adjacent to where f crosses the
      target (or to an end of the ADC range). */
  predicate Exhausted(f: int -> real, target: real, tol: real, m: int) {
    || (LowEnd(f, target, tol, m) && HighEnd(f, target, tol, m + 1))
    || (LowEnd(f, target, tol, m - 1) && HighEnd(f, target, tol, m))
  }

  /** f does not decrease over the ADC range: the assumption the bisection
      relies on and the source never checks. */
  ghost predicate NonDecreasing(f: int -> real) {
    forall u, v :: 0 <= u <= v <= AdcMax ==> f(u) <= f(v)
  }

  /** Every probe lies strictly inside the ADC range and missed the
      tolerance. */
  predicate Missed(f: int -> real, target: real, tol: real, probes: seq<int>) {
    forall i :: 0 <= i < |probes| ==> 1 <= probes[i] < AdcMax && !Hit(f, target, tol, probes[i])
  }

  /** One more probe that missed keeps Missed. */
  lemma MissedAppend(f: int -> real, target: real, tol: real, probes: seq<int>, m: int)
    requires Missed(f, target, tol, probes) && 1 <= m < AdcMax && !Hit(f, target, tol, m)
    ensures Missed(f, target, tol, probes + [m])
  {
    assert forall i :: 0 <= i < |probes| ==> (probes + [m])[i] == probes[i];
  }

  /** The width bound that gives termination within 24 probes: each probe
      leaves at most half (rounded up) of the interval. */
  lemma HalvingStep(low: int, high: int, n: nat)
    requires 0 <= low && high - low > 1 && high - low <= Pow2(n)
    ensures n >= 1
    ensures var mid := (low + high) / 2;
      low < mid < high && mid - low <= Pow2(n - 1) && high - mid <= Pow2(n - 1)
  {
    assert n != 0;
    assert Pow2(n) == 2 * Pow2(n - 1);
  }

  /** When the loop stops, the interval has width one and the last probe is
      one of its ends. */
  lemma LastProbeIsAnEnd(f: int -> real, target: real, tol: real, low: int, high: int, m: int)
    requires LowEnd(f, target, tol, low) && HighEnd(f, target, tol, high)
    requires high == low + 1 && (m == low || m == high)
    ensures Exhausted(f, target, tol, m)
  {
    if m == high {
      assert m - 1 == low;
    }
  }

  /** The invariant of the bisection loop after the probes so far: the
      interval [low, high] lies in the ADC range with a low end and a high
      end, its width is at most 2^(24 - number of probes), it is the whole
      range before the first probe, afterwards the last probe is one of its
      ends, and every probe missed. */
  predicate Searching(f: int -> real, target: real, tol: real, low: int, high: int, mid: int, probes: seq<int>) {
    && 0 <= low < high <= AdcMax
    && LowEnd(f, target, tol, low) && HighEnd(f, target, tol, high)
    && |probes| <= 24 && high - low <= Pow2(24 - |probes|)
    && (probes == [] ==> low == 0 && high == AdcMax)
    && (probes != [] ==> mid == probes[|probes| - 1] && (mid == low || mid == high))
    && Missed(f, target, tol, probes)
  }

  /** What a search returns: between 1 and 24 probes, all strictly inside the
      ADC range, every one but the last missed, the result is the last one,
      and it either meets the tolerance or the search ran out at it. */
  predicate Found(f: int -> real, target: real, tol: real, mid: int, probes: seq<int>) {
    && 1 <= |probes| <= 24 && mid == probes[|probes| - 1]
    && (forall i :: 0 <= i < |probes| ==> 1 <= probes[i] < AdcMax)
    && (forall i :: 0 <= i < |probes| - 1 ==> !Hit(f, target, tol, probes[i]))
    && (Hit(f, target, tol, mid) || Exhausted(f, target, tol, mid))
  }

  /** The loop starts on the whole ADC range with no probes. */
  lemma SearchStarts(f: int -> real, target: real, tol: real, mid: int)
    ensures Searching(f, target, tol, 0, AdcMax, mid, [])
  {
    Pow2Literals();
  }

  /** One probe at the midpoint m with value v: m lies strictly inside the
      interval and the ADC range; a hit ends the search, and a miss moves the
      lower end up to m if v is below the target and the upper end down to m
      otherwise. */
  lemma SearchStep(f: int -> real, target: real, tol: real, low: int, high: int, mid: int, probes: seq<int>, m: int, v: real)
    requires Searching(f, target, tol, low, high, mid, probes) && high - low > 1
    requires m == (low + high) / 2 && v == f(m)
    ensures low < m < high && 1 <= m < AdcMax
    ensures Abs(v - target) < tol ==> Found(f, target, tol, m, probes + [m])
    ensures !(Abs(v - target) < tol) ==>
      Searching(f, target, tol, if v < target then m else low, if v < target then high else m, m, probes + [m])
  {
    HalvingStep(low, high, 24 - |probes|);
    var q := probes + [m];
    assert forall i :: 0 <= i < |probes| ==> q[i] == probes[i];
    if !(Abs(v - target) < tol) {
      MissedAppend(f, target, tol, probes, m);
    }
  }

  /** A loop that stops on an interval of width one has found its result. */
  lemma SearchEnds(f: int -> real, target: real, tol: real, low: int, high: int, mid: int, probes: seq<int>)
    requires Searching(f, target, tol, low, high, mid, probes) && high - low <= 1
    ensures Found(f, target, tol, mid, probes)
  {
    LastProbeIsAnEnd(f, target, tol, low, high, mid);
  }

  /** If f does not decrease, a search that ran out leaves no raw value
      strictly inside the range that meets the tolerance: every value at or
      below the final lower end is further below the target than that end,
      and every value at or above the final upper end is further above it. */
  lemma ExhaustedSearchHasNoInteriorSolution(f: int -> real, target: real, tol: real, m: int)
    requires NonDecreasing(f)
    requires 0 < m < AdcMax && Exhausted(f, target, tol, m)
    ensures forall u :: 0 < u < AdcMax ==> !Hit(f, target, tol, u)
  {
    var lo := if LowEnd(f, target, tol, m) && HighEnd(f, target, tol, m + 1) then m else m - 1;
    assert LowEnd(f, target, tol, lo) && HighEnd(f, target, tol, lo + 1);
    forall u | 0 < u < AdcMax
      ensures !Hit(f, target, tol, u)
    {
      if u <= lo {
        assert f(u) <= f(lo);
      } else {
        assert f(lo + 1) <= f(u);
      }
    }
  }

  /** `reverse_calc_temperature`. Every probe goes through
      `compensate_temperature`, which overwrites t_lin, so on return t_lin
      holds the compensated value of the returned probe. The ghost `probes`
      lists the probed midpoints in order (see Found); the C variable `mid`
      starts uninitialised, modelled by `*`, and `low + high` never exceeds
      `uint32_t`. */
  method ReverseCalcTemperature(targetTempC: real, calib: CalibData) returns (mid: uint32, ghost probes: seq<int>)
    modifies calib`tLin
    ensures calib.tLin == Temperature(calib.par, mid as int)
    ensures var c := calib.par; Found((u: int) => Temperature(c, u), targetTempC, TemperatureTolerance, mid as int, probes)
  {
    ghost var c := calib.par;
    ghost var f := (u: int) => Temperature(c, u);
    var low: uint32 := 0;
    var high: uint32 := 16777215;
    mid := *;
    var tolerance := 0.01;
    probes := [];
    SearchStarts(f, targetTempC, tolerance, mid as int);
    while high - low > 1
      invariant Searching(f, targetTempC, tolerance, low as int, high as int, mid as int, probes)
      invariant calib.par == c
      invariant probes != [] ==> calib.tLin == f(mid as int)
      decreases high - low
    {
      ghost var m := (low as int + high as int) / 2;
      ghost var last := mid as int;
      mid := (low + high) / 2;
      var calcTemp := CompensateTemperature(mid, calib);
      SearchStep(f, targetTempC, tolerance, low as int, high as int, last, probes, m, calcTemp);
      probes := probes + [mid as int];
      if Abs(calcTemp - targetTempC) < tolerance {
        return;
      }
      if calcTemp < targetTempC {
        low := mid;
      } else {
        high := mid;
      }
    }
    SearchEnds(f, targetTempC, tolerance, low as int, high as int, mid as int, probes);
  }

  /** `reverse_calc_pressure`: the same search over `compensate_pressure`,
      which only reads the record, so every probe uses the t_lin the record
      held on entry and the record is left unchanged. */
  method ReverseCalcPressure(targetPressPa: real, calib: CalibData) returns (mid: uint32, ghost probes: seq<int>)
    ensures var c, t := calib.par, calib.tLin; Found((u: int) => Pressure(c, t, u), targetPressPa, PressureTolerance, mid as int, probes)
  {
    ghost var c, t := calib.par, calib.tLin;
    ghost var f := (u: int) => Pressure(c, t, u);
    var low: uint32 := 0;
    var high: uint32 := 16777215;
    mid := *;
    var tolerance := 10.0;
    probes := [];
    SearchStarts(f, targetPressPa, tolerance, mid as int);
    while high - low > 1
      invariant Searching(f, targetPressPa, tolerance, low as int, high as int, mid as int, probes)
      decreases high - low
    {
      ghost var m := (low as int + high as int) / 2;
      ghost var last := mid as int;
      mid := (low + high) / 2;
      var calcPress := CompensatePressure(mid, calib);
      SearchStep(f, targetPressPa, tolerance, low as int, high as int, last, probes, m, calcPress);
      probes := probes + [mid as int];
      if Abs(calcPress - targetPressPa) < tolerance {
        return;
      }
      if calcPress < targetPressPa {
        low := mid;
      } else {
        high := mid;
      }
    }
    SearchEnds(f, targetPressPa, tolerance, low as int, high as int, mid as int, probes);
  }

  /** One test case of the reverse calculator's main loop: the temperature
      search, then the pressure search on the same record. The pressure search
      therefore runs with the t_lin of the temperature search's last probe,
      which is the compensated value of the returned temperature sample. Both
      samples are results of their searches. */
  method ReverseCalcSample(targetTempC: real, targetPressPa: real, calib: CalibData)
    returns (tempAdc: uint32, pressAdc: uint32, ghost tempProbes: seq<int>, ghost pressProbes: seq<int>)
    modifies calib`tLin
    ensures calib.tLin == Temperature(calib.par, tempAdc as int)
    ensures var c := calib.par;
      Found((u: int) => Temperature(c, u), targetTempC, TemperatureTolerance, tempAdc as int, tempProbes)
    ensures var c := calib.par; var t := Temperature(c, tempAdc as int);
      Found((u: int) => Pressure(c, t, u), targetPressPa, PressureTolerance, pressAdc as int, pressProbes)
  {
    tempAdc, tempProbes := ReverseCalcTemperature(targetTempC, calib);
    pressAdc, pressProbes := ReverseCalcPressure(targetPressPa, calib);
  }

  /** With the example calibration the temperature search is complete:
      temperature is increasing over the ADC range, so a result of the search
      either lands within 0.01 degrees of the target or no raw value strictly
      inside the range does. */
  lemma ExampleTemperatureSearchIsComplete(target: real, m: int)
    requires var c := Decode(ExampleBytes); var f := (x: int) => Temperature(c, x);
      0 < m < AdcMax && (Hit(f, target, TemperatureTolerance, m) || Exhausted(f, target, TemperatureTolerance, m))
    ensures var c := Decode(ExampleBytes); var f := (x: int) => Temperature(c, x);
      Hit(f, target, TemperatureTolerance, m) || forall u :: 0 < u < AdcMax ==> !Hit(f, target, TemperatureTolerance, u)
  {
    var c := Decode(ExampleBytes);
    var f := (x: int) => Temperature(c, x);
    ExampleTemperatureCondition();
    forall x, y | 0 <= x <= y <= AdcMax
      ensures f(x) <= f(y)
    {
      if x < y {
        TemperatureIncreasing(c, x, y);
      }
    }
    if !Hit(f, target, TemperatureTolerance, m) {
      ExhaustedSearchHasNoInteriorSolution(f, target, TemperatureTolerance, m);
    }
  }

  /** For the temperature coefficients of the example calibration one raw
      step raises the temperature by less than twice the tolerance:
      T(u + 1) - T(u) = par_t2 + par_t3 * (2u + 1 - 2 par_t1), at most about
      2.5e-5 degrees. */
  lemma SmallTemperatureStep(c: Coefficients, u: int)
    requires c.t1 == 6867712.0 && c.t2 == 26216.0 / 1073741824.0 && c.t3 == 3.0 / 281474976710656.0
    requires 0 <= u < AdcMax
    ensures Temperature(c, u + 1) - Temperature(c, u) < 2.0 * TemperatureTolerance
  {
    TemperatureStep(c, u);
    var w := 2.0 * u as real + 1.0 - 2.0 * c.t1;
    assert w <= 19819005.0;
    ScaleInequality(c.t3, 19819005.0, w);
    assert c.t2 + c.t3 * 19819005.0 < 2.0 * TemperatureTolerance;
  }

  /** The example calibration has those coefficients. */
  lemma ExampleTemperatureStep(u: int)
    requires 0 <= u < AdcMax
    ensures var c := Decode(ExampleBytes);
      Temperature(c, u + 1) - Temperature(c, u) < 2.0 * TemperatureTolerance
  {
    ExampleDecodes();
    SmallTemperatureStep(Decode(ExampleBytes), u);
  }

  /** With the example calibration a search for a target between T(1) and
      T(2^24 - 2) cannot run out at an interior probe: the two ends of a
      final interval would have to lie at least 0.01 below and 0.01 above the
      target, one raw step apart, and no step is that large. */
  lemma ExampleTemperatureSearchCannotRunOut(target: real, m: int)
    requires var c := Decode(ExampleBytes);
      0 < m < AdcMax && Temperature(c, 1) <= target <= Temperature(c, AdcMax - 1)
    ensures var c := Decode(ExampleBytes);
      !Exhausted((x: int) => Temperature(c, x), target, TemperatureTolerance, m)
  {
    ExampleTemperatureStep(m - 1);
    ExampleTemperatureStep(m);
  }

  /** The inverse round trip on the example calibration: for every target
      between T(1) and T(2^24 - 2), the sample the temperature search returns
      compensates to within 0.01 degrees of the target. */
  lemma ExampleTemperatureSearchHits(target: real, m: int, probes: seq<int>)
    requires var c := Decode(ExampleBytes); var f := (x: int) => Temperature(c, x);
      Temperature(c, 1) <= target <= Temperature(c, AdcMax - 1) && Found(f, target, TemperatureTolerance, m, probes)
    ensures var c := Decode(ExampleBytes);
      Abs(Temperature(c, m) - target) < TemperatureTolerance
  {
    ExampleTemperatureSearchCannotRunOut(target, m);
  }

  /** With the example calibration and any t_lin between 0 and 40 degrees the
      pressure falls as the raw sample rises, while the bisection moves the
      lower end up when the probe is below the target. So a pressure search
      that does not land within 10 Pa on some probe can only end next to an
      edge of the ADC range, at 1 or at 2^24 - 2. */
  lemma ExamplePressureSearchEndsAtAnEdge(tLin: real, target: real, m: int, probes: seq<int>)
    requires var c := Decode(ExampleBytes);
      0.0 <= tLin <= 40.0 && Found((u: int) => Pressure(c, tLin, u), target, PressureTolerance, m, probes)
    ensures var c := Decode(ExampleBytes);
      Hit((u: int) => Pressure(c, tLin, u), target, PressureTolerance, m) || m == 1 || m == AdcMax - 1
  {
    ExamplePressureFalls(tLin, m - 1, m);
    ExamplePressureFalls(tLin, m, m + 1);
  }

  /** The reverse calculator's main loop on the example calibration: the
      temperature sample it reports for a target between T(1) and
      T(2^24 - 2) compensates to within 0.01 degrees of that target. */
  method ExampleSampleTemperatureHits(targetTempC: real, targetPressPa: real) returns (tempAdc: uint32)
    requires var c := Decode(ExampleBytes);
      Temperature(c, 1) <= targetTempC <= Temperature(c, AdcMax - 1)
    ensures Abs(Temperature(Decode(ExampleBytes), tempAdc as int) - targetTempC) < TemperatureTolerance
  {
    var calib := new CalibData(Decode(ExampleBytes), 0.0);
    var pressAdc: uint32;
    ghost var tempProbes: seq<int>, pressProbes: seq<int>;
    tempAdc, pressAdc, tempProbes, pressProbes := ReverseCalcSample(targetTempC, targetPressPa, calib);
    ExampleTemperatureSearchHits(targetTempC, tempAdc as int, tempProbes);
  }
}
