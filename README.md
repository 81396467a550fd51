# CoolStream fan controller — verified model of the control core

This project is a Dafny model of the decision core of the CoolStream
dashboard, a browser dashboard that drives a fan motor. It models:

- the **comfort estimator** ("feels like"): a Celsius heat-index polynomial,
  blended with the raw temperature, clamped to [-20, 60] °C and rounded to
  one decimal;
- the **auto-speed curve**: a ten-breakpoint piecewise-linear lookup from
  the feels-like temperature to a fan speed in rpm;
- the **budget cap**: a cost ceiling (rupees per hour) and an electricity
  price (rupees per kWh) give a power allowance in watts, and a reverse scan
  of the fan's power table gives the fastest speed within that allowance;
- the **setpoint resolver and quantizer**: manual, auto or budget mode picks
  a target, which is rounded to a multiple of the step and clamped to
  [0, 250];
- the **publish gate**: a setpoint is sent to the motor only when it differs
  from the last one sent or the mode changed since then, and nothing happens
  while disconnected;
- the **energy meter**: each one-second tick integrates the motor's power
  into today's energy and recomputes today's cost;
- the **analytics history**: four parallel series capped at the newest 60
  samples;
- the three **chart insights**: average speed, average feels-like and the
  number of data points.

Modules, in dependency order:

- `Numeric`: Math.round, clamping, Option;
- `Comfort`;
- `Interpolation`: the generic curve lookup;
- `AutoSpeed`;
- `PowerBudget`;
- `Control`: the resolver, the quantizer and the `PublishGate` class;
- `Energy`: the `EnergyMeter` class;
- `History`;
- `Insights`.

The two search loops, `calculateAutoRPM` and `findMaxRPMForPower`, are
methods with loops. Each is proved equal to a recursive specification
function, and the lemmas are stated about those functions. The mutable
cells of the control effect and of the energy tick are the fields of two
classes, and their methods update those fields.

Arithmetic is exact (`real` and `int`). `Math.round(x)` is `Floor(x + 0.5)`,
which rounds halves up as JavaScript does.

Some behaviours of the code are easy to expect otherwise:

- Cost is not accumulated tick by tick. Each tick recomputes it as today's
  energy times the current price (src/App.js:269), so a price drop lowers
  the cost already shown (`Energy.PriceDropLowersCost`).
- The energy meter has no reset operation.
- The quantized speed is always a multiple of the step when the step
  divides 250. Otherwise the clamp after rounding can leave 250, which is
  not a multiple (`Control.ClampCanBreakMultiple`).
- A negative price with any ceiling ≥ 0 gives a power allowance ≤ 0 W and a
  cap of 0 (`PowerBudget.NegativePriceCapsAtZero`). A negative ceiling with a
  negative price gives a positive allowance, and the cap then depends on its
  size.

## Model

| member | source | states |
|---|---|---|
| Numeric.RoundHalfUp | src/App.js:58 | Math.round returns an integer within half a unit of x, and halves round up |
| Numeric.Clamp | src/App.js:32 | max(lo, min(hi, x)) lies in [lo, hi]; it is x when x is inside, and the nearest bound otherwise |
| Numeric.ClampInt | src/App.js:245 | the integer clamp max(0, min(250, n)) lies in the range; it is n when n is inside, and the nearest bound otherwise |
| Numeric.Min | src/App.js:240 | Math.min is at most both arguments and equals one of them |
| Comfort.BlendWeight | src/App.js:29 | the blend weight lies in [0, 1]; it is 0 exactly when T ≤ 15 and 1 exactly when T ≥ 27 |
| Comfort.RoundToTenth | src/App.js:33 | Math.round(x*10)/10 is a whole number of tenths within 0.05 of x, and it stays in [-20, 60] when x is in that range |
| Comfort.FeelsLike | src/App.js:13-34 | the feels-like value is always in [-20, 60] and is a whole number of tenths |
| Comfort.ColdIgnoresHumidity | src/App.js:28-33 | at or below 15 °C the result is the temperature, clamped and rounded, and does not depend on humidity |
| Comfort.HotIsHeatIndex | src/App.js:28-33 | at or above 27 °C the result is the heat index, clamped and rounded |
| Comfort.BlendBetween | src/App.js:29-30 | the blended value lies between T and HI, whichever order they are in |
| Comfort.Scenario25C50Percent | src/App.js:13-34 | the dashboard's start-up reading of 25 °C at 50 % feels like 25.7 °C |
| Comfort.Preset | src/App.js:284-296 | each of the four preset names gives its (temperature, humidity) reading within the slider ranges of 10–40 °C and 20–90 %; other names give none |
| Interpolation.SegmentOf | src/App.js:53-60 | every query inside the table's span lies in some segment [c[k].t, c[k+1].t] |
| Interpolation.InterpEnds | src/App.js:57-58 | the interpolation returns each endpoint's rpm exactly at that endpoint |
| Interpolation.LineOrdered | src/App.js:57-58 | inside a segment, the unrounded line is non-decreasing and stays between the two endpoint speeds |
| Interpolation.InterpMonotone | src/App.js:57-58 | inside a segment, the rounded interpolation is non-decreasing and stays between the two endpoint speeds |
| Interpolation.ScanFindsSegment | src/App.js:53-60 | the left-to-right scan returns the interpolation of the bracketing segment, even when x is a shared breakpoint that two segments contain |
| Interpolation.LookupInSegment | src/App.js:50-60 | anywhere in segment i, flat guards included, the lookup is that segment's interpolation |
| Interpolation.LookupAtBreakpoint | src/App.js:50-60 | each breakpoint's rpm is returned exactly at its input |
| Interpolation.LookupBounds | src/App.js:50-61 | the lookup stays between the first and last outputs |
| Interpolation.LookupMonotone | src/App.js:50-61 | the lookup is non-decreasing in the query |
| AutoSpeed.AutoCurveWellFormed | src/App.js:37-48 | the auto table has ten rows with inputs strictly increasing and speeds non-decreasing, from (20, 0) to (38, 250) |
| AutoSpeed.AutoRPM | src/App.js:36-62 | the auto speed is always in [0, 250] |
| AutoSpeed.CalculateAutoRPM | src/App.js:36-62 | the loop returns the curve lookup; the result is in [0, 250], 0 at or below 20 °C and 250 at or above 38 °C |
| AutoSpeed.AutoRPMMonotone | src/App.js:36-62 | a warmer feels-like temperature never gives a slower fan |
| AutoSpeed.AutoRPMAtBreakpoints | src/App.js:37-51 | at each breakpoint's temperature the auto speed is that breakpoint's rpm |
| AutoSpeed.AutoRPMInterpolates | src/App.js:53-59 | between neighbouring breakpoints, the speed is the rounded linear interpolation and lies between their speeds |
| AutoSpeed.AutoRPMExamples | src/App.js:36-62 | 30 °C gives 170 rpm, 25 °C gives 95 rpm, and 27.5 °C gives 133 rpm |
| PowerBudget.PowerLevelsAscending | src/App.js:69-77 | the power table's wattages strictly increase and its speeds are non-negative and non-decreasing |
| PowerBudget.MaxPowerFromCostRate | src/App.js:64-66 | the allowance costs exactly the ceiling per hour at the given price; it is non-negative for a positive price and non-negative ceiling, at most 0 for a negative price and non-negative ceiling, and negative for a negative price and positive ceiling |
| PowerBudget.BudgetCap | src/App.js:68-85 | the cap is always one of 0, 50, 80, 100, 150, 200 or 250 |
| PowerBudget.FindMaxRPMForPower | src/App.js:68-85 | the reverse loop returns the reverse scan; it gives 0 below 0.5 W and 250 from 10.6 W up |
| PowerBudget.ScanDownIsLevel | src/App.js:79-84 | the scan returns 0 or the speed of one of the scanned rows |
| PowerBudget.ScanDownHighest | src/App.js:79-84 | the scan returns the speed of the highest row whose wattage fits, and 0 when no row fits |
| PowerBudget.ScanDownBounded | src/App.js:79-84 | on an ascending table the scan over n rows is at most row n-1's speed |
| PowerBudget.ScanDownMonotone | src/App.js:79-84 | on an ascending table a larger allowance never lowers the scan's result |
| PowerBudget.BudgetCapMonotone | src/App.js:68-85 | a larger power allowance never gives a lower cap |
| PowerBudget.BudgetCapExamples | src/App.js:64-85 | 1 rupee per hour at 8 per kWh allows 125 W and a cap of 250; 5 W gives 100 |
| PowerBudget.NegativePriceCapsAtZero | src/App.js:64-85 | a negative price with any non-negative ceiling caps the fan at 0 |
| Control.TargetRPM | src/App.js:226-241 | manual mode gives the slider value and auto mode the auto speed; budget mode gives a value at most both the auto speed and the cap, and equal to one of them; outside manual mode the target is in [0, 250] |
| Control.Quantize | src/App.js:243-245 | the quantized speed is in [0, 250], and is a multiple of the step unless the clamp made it 250; it is always a multiple when the step divides 250 |
| Control.RoundedMultipleNear | src/App.js:245 | Math.round(t/step)*step is within half a step of t |
| Control.RoundedMultipleInRange | src/App.js:245 | when the step divides 250, a target in [0, 250] rounds to a multiple still in [0, 250] |
| Control.QuantizeNearest | src/App.js:245 | when the step divides 250, the clamp never fires for targets in [0, 250], and the result is a nearest multiple of the step |
| Control.QuantizeIdempotent | src/App.js:245 | when the step divides 250, quantizing twice equals quantizing once |
| Control.ClampCanBreakMultiple | src/App.js:245 | with step 7 a target of 250 quantizes to 250, which is not a multiple of 7 |
| Control.Setpoint | src/App.js:226-245 | the resolved and quantized setpoint is always in [0, 250] |
| Control.ResolveSetpoint | src/App.js:226-245 | the effect's resolver computes the setpoint, which is in [0, 250] and a multiple of 5 with the default step of 5 |
| Control.PublishGate.constructor | src/App.js:130-131 | a fresh gate has published nothing and remembers the starting mode; it shows 0 rpm commanded, the initial value at src/App.js:104 |
| Control.PublishGate.Step | src/App.js:223-258 | disconnected, nothing is published and nothing changes; connected, the setpoint is published iff nothing was published, the value differs or the mode changed; a publication records the value, the mode and the commanded speed; otherwise the state is unchanged; the commanded speed stays in [0, 250] |
| Control.NoRepublishOfSameSetpoint | src/App.js:248-256 | just after publishing q in a mode, the same q in the same mode keeps the gate shut |
| Control.ModeSwitchOpensGate | src/App.js:248-256 | a mode change opens the gate whatever the value |
| Control.RepeatedInputsPublishOnce | src/App.js:223-258 | on a fresh gate the first step publishes the setpoint, and the same inputs again publish nothing |
| Control.RepeatedInputsPublishNothing | src/App.js:248-256 | from any valid gate state, a second connected step with identical inputs publishes nothing, and the gate then holds the setpoint and the mode |
| Control.ModeSwitchRepublishes | src/App.js:223-258 | auto at 30 °C publishes 170; manual at 170 publishes 170 again because the mode changed; a disconnected step publishes nothing |
| Control.BudgetScenario | src/App.js:236-245 | budget mode at 1 rupee per hour and 8 per kWh with feels-like 30 °C publishes 170 rpm |
| Energy.Increment | src/App.js:264-268 | the tick's energy, times 1000 and the milliseconds per hour, is power × elapsed milliseconds; it is non-negative for non-negative power and elapsed time, and 0 for no elapsed time |
| Energy.IncrementAdditive | src/App.js:262-272 | splitting an interval at any instant gives the same total energy |
| Energy.EnergyOverTelescopes | src/App.js:262-272 | any sequence of ticks at constant power adds up to one increment over the whole span |
| Energy.EnergyMeter.constructor | src/App.js:129 | a fresh meter measures from its creation time, and starts at zero energy and cost, the initial values at src/App.js:109-110 |
| Energy.EnergyMeter.Tick | src/App.js:262-272 | the timestamp moves to now; energy grows by the tick's increment; cost becomes energy × current price; for non-negative power and forward time energy never decreases and stays ≥ 0; cost is ≥ 0 for a non-negative price |
| Energy.EnergyMeter.TickAll | src/App.js:262-274 | ticking at each instant of a sequence, at constant power, adds exactly the energy over those ticks, which equals one increment from the old timestamp to the last instant; the timestamp ends at the last instant; after a non-empty run the cost is energy × price, and an empty run changes neither energy nor cost; for non-negative power and instants that never go backwards, energy stays ≥ 0 |
| Energy.PriceDropLowersCost | src/App.js:268-272 | 10 W for an hour at 8 per kWh costs 0.08, and after the price falls to 4 a zero-length tick shows 0.04 |
| History.KeepLast | src/App.js:208 | slice(-n) has length min(len, n) and is the suffix of the input |
| History.Push | src/App.js:208-211 | after a push, the new sample is the newest entry and the length grows by one until it reaches 60 |
| History.PushDropsOldest | src/App.js:204-212 | a push keeps the newest 59 old samples in order and appends the new one, so the oldest goes first |
| History.UpdateAnalytics | src/App.js:201-214 | each of the four series gets its sample pushed, and series of equal length stay equal in length |
| History.PushAllKeepsLast | src/App.js:201-214 | after any sequence of pushes, the history is exactly the last 60 of everything pushed, in order |
| History.SixtyOnePushes | src/App.js:205-212 | after 61 pushes onto an empty history, the first sample is gone and the 61st is newest |
| Insights.SumWithin | src/components/AnalyticsChart.js:150 | the sum of n samples in [lo, hi] lies in [n·lo, n·hi] |
| Insights.MeanWithin | src/components/AnalyticsChart.js:150 | the mean of samples in [lo, hi] lies in [lo, hi] |
| Insights.AverageRPM | src/components/AnalyticsChart.js:149-151 | the average speed is 0 for an empty history and otherwise within half a unit of the mean |
| Insights.AverageRPMWithin | src/components/AnalyticsChart.js:149-151 | speeds in [0, 250] give an average speed in [0, 250] |
| Insights.AverageFeelsLike | src/components/AnalyticsChart.js:162-164 | the average feels-like is 0 for an empty history; otherwise it times the count equals the sum |
| Insights.AverageFeelsLikeWithin | src/components/AnalyticsChart.js:162-164 | feels-like samples in [-20, 60] average to a value in [-20, 60] |
| Insights.DataPoints | src/components/AnalyticsChart.js:174 | the data-point count is the number of time labels and, on parallel histories, the number of samples in each of the four series |
| Insights.DataPointsBounded | src/components/AnalyticsChart.js:174 | after an update there are at most 60 data points, and the empty history has none |

## Left out

- MQTT transport is not modelled: connection options, event handlers, subscribe and publish, teardown. It is network I/O through an external library. A publication is the value `PublishGate.Step` returns.
- The `motor/status` JSON is not parsed. The motor's reported power and actual speed are parameters.
- Clocks and timers become parameters: `Date.now()`, `toLocaleTimeString()`, `setInterval` and `clearInterval`. Each tick's `now` and each time label is supplied by the caller.
- React scheduling is not modelled, which covers `useState`, `useEffect` and `useCallback` dependencies. This includes the two one-line effects that recompute feels-like and push an analytics sample when their inputs change. JSX rendering, Chart.js configuration and the display-only components are out too.
- IEEE-754 floating point is not modelled. The polynomial, the ratios and the energy arithmetic are exact reals, and `toFixed`/`toString` display formatting is omitted.
- Environment variables are not parsed, neither the broker credentials nor the quantization step.
- Control.Quantize: requires a positive integer step, whereas the source takes whatever `Number()` makes of the environment variable.
- PowerBudget.MaxPowerFromCostRate: requires a nonzero price. At price 0 the source divides by zero and JavaScript yields Infinity or NaN, which the model does not represent.
- Control.TargetRPM: requires a nonzero price in budget mode, for the same reason.
- Control.PublishGate.Step: folds `client && connected` into a single `connected` flag, and requires a nonzero price when connected in budget mode.
- Comfort.Preset: looks up only the four table entries. A JavaScript object lookup would also find inherited keys such as "toString", but the preset buttons only ever pass the four names.
- Insights.AverageFeelsLike: states the mean before the one-decimal `toFixed(1)` display rounding.
