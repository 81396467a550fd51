/** The budget cap: a cost ceiling in rupees per hour and an electricity price
    in rupees per kWh give a power allowance in watts, and a reverse scan of
    the fan's power table gives the fastest speed that fits the allowance. */
module PowerBudget {

  /** One row of the fan's measured power table. */
  datatype PowerLevel = PowerLevel(rpm: int, watts: real)

  /** The power table of findMaxRPMForPower, slowest first. */
  const PowerLevels: seq<PowerLevel> := [
    PowerLevel(0, 0.5),
    PowerLevel(50, 1.5),
    PowerLevel(80, 2.4),
    PowerLevel(100, 3.5),
    PowerLevel(150, 5.6),
    PowerLevel(200, 7.9),
    PowerLevel(250, 10.6)
  ]

  /** Wattage strictly increasing and speed non-negative and non-decreasing
      from row to row. */
  predicate Ascending(levels: seq<PowerLevel>)
  {
    && (forall i, j :: 0 <= i < j < |levels| ==> levels[i].watts < levels[j].watts)
    && (forall i, j :: 0 <= i <= j < |levels| ==> 0 <= levels[i].rpm <= levels[j].rpm)
  }

  lemma PowerLevelsAscending()
    ensures Ascending(PowerLevels)
    ensures |PowerLevels| == 7
  {
    StepwiseAscending(PowerLevels);
  }

  /** Neighbouring rows in order are enough for an ascending table. */
  lemma StepwiseAscending(levels: seq<PowerLevel>)
    requires |levels| > 0 && 0 <= levels[0].rpm
    requires forall i :: 0 <= i < |levels| - 1 ==>
               levels[i].watts < levels[i + 1].watts && levels[i].rpm <= levels[i + 1].rpm
    ensures Ascending(levels)
  {
    forall i, j | 0 <= i < j < |levels|
      ensures levels[i].watts < levels[j].watts && levels[i].rpm <= levels[j].rpm
    {
      StepwiseOrdered(levels, i, j);
    }
    forall i | 0 <= i < |levels|
      ensures 0 <= levels[i].rpm
    {
      if i > 0 {
        StepwiseOrdered(levels, 0, i);
      }
    }
  }

  lemma {:induction false} StepwiseOrdered(levels: seq<PowerLevel>, i: nat, j: nat)
    requires i < j < |levels|
    requires forall k :: 0 <= k < |levels| - 1 ==>
               levels[k].watts < levels[k + 1].watts && levels[k].rpm <= levels[k + 1].rpm
    ensures levels[i].watts < levels[j].watts && levels[i].rpm <= levels[j].rpm
    decreases j - i
  {
    if i + 1 < j {
      StepwiseOrdered(levels, i, j - 1);
    }
  }

  /** calculateMaxPowerFromCostRate: the wattage whose hourly cost at the
      given price is exactly the ceiling. A zero price is excluded (the
      source divides by it). */
  function MaxPowerFromCostRate(costPerHour: real, pricePerKwh: real): (watts: real)
    requires pricePerKwh != 0.0
    ensures watts / 1000.0 * pricePerKwh == costPerHour
    ensures pricePerKwh > 0.0 && costPerHour >= 0.0 ==> watts >= 0.0
    ensures pricePerKwh < 0.0 && costPerHour > 0.0 ==> watts < 0.0
    ensures pricePerKwh < 0.0 && costPerHour >= 0.0 ==> watts <= 0.0
  {
    (costPerHour / pricePerKwh) * 1000.0
  }

  /** The reverse scan over the first n rows: the speed of the last row whose
      wattage fits, or 0 when none does. */
  function ScanDown(levels: seq<PowerLevel>, maxPowerWatts: real, n: nat): int
    requires n <= |levels|
  {
    if n == 0 then 0
    else if levels[n - 1].watts <= maxPowerWatts then levels[n - 1].rpm
    else ScanDown(levels, maxPowerWatts, n - 1)
  }

  /** The specification of findMaxRPMForPower. */
  function BudgetCap(maxPowerWatts: real): (rpm: int)
    ensures rpm in {0, 50, 80, 100, 150, 200, 250}
  {
    PowerLevelsAscending();
    ScanDownIsLevel(PowerLevels, maxPowerWatts, |PowerLevels|);
    ScanDown(PowerLevels, maxPowerWatts, |PowerLevels|)
  }

  /** findMaxRPMForPower: scan the table from the fastest row down and return
      the first speed whose wattage is within the allowance. */
  method FindMaxRPMForPower(maxPowerWatts: real) returns (rpm: int)
    ensures rpm == BudgetCap(maxPowerWatts)
    ensures maxPowerWatts < 0.5 ==> rpm == 0
    ensures maxPowerWatts >= 10.6 ==> rpm == 250
  {
    var levels := PowerLevels;
    var i := |levels| - 1;
    while i >= 0
      invariant -1 <= i < |levels|
      invariant ScanDown(levels, maxPowerWatts, i + 1) == ScanDown(levels, maxPowerWatts, |levels|)
    {
      if levels[i].watts <= maxPowerWatts {
        return levels[i].rpm;
      }
      i := i - 1;
    }
    return 0;
  }

  /** The scan returns 0 or one of the table's speeds. */
  lemma {:induction false} ScanDownIsLevel(levels: seq<PowerLevel>, w: real, n: nat)
    requires n <= |levels|
    ensures var r := ScanDown(levels, w, n);
            r == 0 || exists k :: 0 <= k < n && r == levels[k].rpm
  {
    if n > 0 && levels[n - 1].watts > w {
      ScanDownIsLevel(levels, w, n - 1);
    }
  }

  /** The scan returns the speed of the highest row whose wattage fits, and 0
      when no row fits. */
  lemma {:induction false} ScanDownHighest(levels: seq<PowerLevel>, w: real, n: nat)
    requires n <= |levels|
    ensures (forall k :: 0 <= k < n ==> levels[k].watts > w) ==> ScanDown(levels, w, n) == 0
    ensures forall k :: 0 <= k < n && levels[k].watts <= w &&
                        (forall j :: k < j < n ==> levels[j].watts > w)
                        ==> ScanDown(levels, w, n) == levels[k].rpm
  {
    if n > 0 && levels[n - 1].watts > w {
      ScanDownHighest(levels, w, n - 1);
    }
  }

  /** On an ascending table the scan is bounded by the speed of row n - 1. */
  lemma {:induction false} ScanDownBounded(levels: seq<PowerLevel>, w: real, n: nat)
    requires Ascending(levels) && 0 < n <= |levels|
    ensures 0 <= ScanDown(levels, w, n) <= levels[n - 1].rpm
  {
    if levels[n - 1].watts > w && n > 1 {
      ScanDownBounded(levels, w, n - 1);
    }
  }

  /** On an ascending table a larger allowance never gives a lower cap. */
  lemma {:induction false} ScanDownMonotone(levels: seq<PowerLevel>, w: real, w': real, n: nat)
    requires Ascending(levels) && n <= |levels| && w <= w'
    ensures ScanDown(levels, w, n) <= ScanDown(levels, w', n)
  {
    if n > 0 {
      if levels[n - 1].watts > w' {
        ScanDownMonotone(levels, w, w', n - 1);
      } else if levels[n - 1].watts > w {
        if n > 1 {
          ScanDownBounded(levels, w, n - 1);
        }
      }
    }
  }

  /** findMaxRPMForPower is non-decreasing in the allowance. */
  lemma BudgetCapMonotone(w: real, w': real)
    requires w <= w'
    ensures BudgetCap(w) <= BudgetCap(w')
  {
    PowerLevelsAscending();
    ScanDownMonotone(PowerLevels, w, w', |PowerLevels|);
  }

  /** A ceiling of 1 rupee per hour at 8 rupees per kWh allows 125 W, which
      covers even the fastest row: the cap is 250 rpm. An allowance of 5 W
      reaches the 3.5 W row: 100 rpm. */
  lemma BudgetCapExamples()
    ensures MaxPowerFromCostRate(1.0, 8.0) == 125.0
    ensures BudgetCap(125.0) == 250
    ensures BudgetCap(5.0) == 100
  {
    ScanDownHighest(PowerLevels, 5.0, |PowerLevels|);
    assert PowerLevels[3].watts <= 5.0;
  }

  /** A negative price with any non-negative ceiling allows no power at all. */
  lemma NegativePriceCapsAtZero(costPerHour: real, pricePerKwh: real)
    requires pricePerKwh < 0.0 && costPerHour >= 0.0
    ensures BudgetCap(MaxPowerFromCostRate(costPerHour, pricePerKwh)) == 0
  {
    var w := MaxPowerFromCostRate(costPerHour, pricePerKwh);
    PowerLevelsAscending();
    ScanDownHighest(PowerLevels, w, |PowerLevels|);
  }
}
