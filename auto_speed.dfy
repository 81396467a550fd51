/** The automatic speed curve: fan speed as a function of the feels-like
    temperature, over ten breakpoints from (20 °C, 0 rpm) to (38 °C, 250 rpm). */
module AutoSpeed {
  import opened Numeric
  import opened Interpolation

  /** The speed-versus-comfort table of calculateAutoRPM. */
  const AutoCurve: Curve := [
    Breakpoint(20.0, 0),
    Breakpoint(22.0, 40),
    Breakpoint(24.0, 80),
    Breakpoint(26.0, 110),
    Breakpoint(28.0, 140),
    Breakpoint(30.0, 170),
    Breakpoint(32.0, 200),
    Breakpoint(34.0, 220),
    Breakpoint(36.0, 240),
    Breakpoint(38.0, 250)
  ]

  lemma AutoCurveWellFormed()
    ensures WellFormed(AutoCurve)
    ensures |AutoCurve| == 10
    ensures AutoCurve[0] == Breakpoint(20.0, 0) && AutoCurve[9] == Breakpoint(38.0, 250)
  {
    StepwiseWellFormed(AutoCurve);
  }

  /** The specification of calculateAutoRPM: the curve's lookup. */
  function AutoRPM(feelsLike: real): (rpm: int)
    ensures 0 <= rpm <= 250
  {
    AutoCurveWellFormed();
    LookupBounds(AutoCurve, feelsLike);
    Lookup(AutoCurve, feelsLike)
  }

  /** calculateAutoRPM: the two flat guards, then a left-to-right scan for
      the bracketing pair. */
  method CalculateAutoRPM(feelsLike: real) returns (rpm: int)
    ensures rpm == AutoRPM(feelsLike)
    ensures 0 <= rpm <= 250
    ensures feelsLike <= 20.0 ==> rpm == 0
    ensures feelsLike >= 38.0 ==> rpm == 250
  {
    var table := AutoCurve;
    AutoCurveWellFormed();
    if feelsLike <= table[0].t {
      return table[0].rpm;
    }
    if feelsLike >= table[|table| - 1].t {
      return table[|table| - 1].rpm;
    }
    for i := 0 to |table| - 1
      invariant ScanFrom(table, feelsLike, i) == ScanFrom(table, feelsLike, 0)
    {
      var a, b := table[i], table[i + 1];
      if feelsLike >= a.t && feelsLike <= b.t {
        return Interp(a, b, feelsLike);
      }
    }
    return 0;
  }

  /** A warmer feels-like temperature never gives a slower fan. */
  lemma AutoRPMMonotone(x: real, y: real)
    requires x <= y
    ensures AutoRPM(x) <= AutoRPM(y)
  {
    AutoCurveWellFormed();
    LookupMonotone(AutoCurve, x, y);
  }

  /** Exactly at a breakpoint the table's own speed comes back. */
  lemma AutoRPMAtBreakpoints()
    ensures forall k :: 0 <= k < |AutoCurve| ==> AutoRPM(AutoCurve[k].t) == AutoCurve[k].rpm
  {
    AutoCurveWellFormed();
    forall k | 0 <= k < |AutoCurve|
      ensures AutoRPM(AutoCurve[k].t) == AutoCurve[k].rpm
    {
      LookupAtBreakpoint(AutoCurve, k);
    }
  }

  /** Between two neighbouring breakpoints the speed is their rounded linear
      interpolation. */
  lemma AutoRPMInterpolates(i: nat, x: real)
    requires i + 1 < |AutoCurve|
    requires AutoCurve[i].t <= x <= AutoCurve[i + 1].t
    ensures AutoCurve[i].rpm <= AutoRPM(x) <= AutoCurve[i + 1].rpm
    ensures AutoRPM(x) == RoundHalfUp(Line(AutoCurve[i], AutoCurve[i + 1], x))
  {
    AutoCurveWellFormed();
    LookupInSegment(AutoCurve, i, x);
    InterpMonotone(AutoCurve[i], AutoCurve[i + 1], x, x);
  }

  /** Feels-like 30 °C gives 170 rpm; 25 °C lies midway between 80 and 110
      and gives 95 rpm; 27.5 °C gives Math.round(132.5) = 133 rpm. */
  lemma AutoRPMExamples()
    ensures AutoRPM(30.0) == 170
    ensures AutoRPM(25.0) == 95
    ensures AutoRPM(27.5) == 133
  {
    AutoRPMAtBreakpoints();
    assert AutoCurve[5].t == 30.0;
    AutoRPMInterpolates(2, 25.0);
    AutoRPMInterpolates(3, 27.5);
  }
}
