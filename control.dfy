/** The control step: resolve the target speed for the operating mode,
    quantize it, and publish it to the motor only when it differs from the
    last published value or the mode has changed since that publication. */
module Control {
  import opened Numeric
  import opened AutoSpeed
  import opened PowerBudget

  /** The operating mode chosen by the operator. */
  datatype Mode = Manual | Auto | Budget

  /** The highest speed the controller ever commands. */
  const MaxRPM: int := 250

  /** The target before quantization: the slider value in manual mode, the
      auto curve in auto mode, and in budget mode the auto curve capped by
      the fastest speed the cost ceiling pays for. Only budget mode divides
      by the price. */
  function TargetRPM(mode: Mode, feelsLike: real, manualRPM: int, costRate: real, price: real): (target: int)
    requires mode == Budget ==> price != 0.0
    ensures mode == Manual ==> target == manualRPM
    ensures mode == Auto ==> target == AutoRPM(feelsLike)
    ensures mode == Budget ==>
              && target <= AutoRPM(feelsLike)
              && target <= BudgetCap(MaxPowerFromCostRate(costRate, price))
              && (target == AutoRPM(feelsLike) || target == BudgetCap(MaxPowerFromCostRate(costRate, price)))
    ensures mode != Manual ==> 0 <= target <= MaxRPM
  {
    match mode
    case Manual => manualRPM
    case Auto => AutoRPM(feelsLike)
    case Budget => Min(AutoRPM(feelsLike), BudgetCap(MaxPowerFromCostRate(costRate, price)))
  }

  /** max(0, min(250, Math.round(target / step) * step)): a speed in
      [0, 250] that is a multiple of the step unless the upper clamp made it
      250. */
  function Quantize(target: int, step: int): (q: int)
    requires step > 0
    ensures 0 <= q <= MaxRPM
    ensures q == MaxRPM || q % step == 0
    ensures MaxRPM % step == 0 ==> q % step == 0
  {
    var k := RoundHalfUp(target as real / step as real);
    MultipleMod(k, step);
    ClampInt(k * step, 0, MaxRPM)
  }

  lemma MulMonotone(a: int, b: int, s: int)
    requires s > 0 && a <= b
    ensures a * s <= b * s
  {
    assert b * s - a * s == (b - a) * s;
  }

  lemma MultipleMod(k: int, s: int)
    requires s > 0
    ensures (k * s) % s == 0
  {
    var d, r := (k * s) / s, (k * s) % s;
    assert (k - d) * s == r;
    if k - d >= 1 {
      MulMonotone(1, k - d, s);
    } else if k - d <= -1 {
      MulMonotone(k - d, -1, s);
    }
  }

  lemma ScaleNear(t: real, x: real, kr: real, s: real)
    requires s > 0.0 && x * s == t && x - 0.5 < kr <= x + 0.5
    ensures t - 0.5 * s < kr * s <= t + 0.5 * s
  {
    var e := kr - x + 0.5;
    assert e * s > 0.0;
    assert e * s == kr * s - x * s + 0.5 * s;
    assert kr * s - t + 0.5 * s > 0.0;
    var d := x + 0.5 - kr;
    assert d * s >= 0.0;
    assert d * s == x * s + 0.5 * s - kr * s;
  }

  /** Math.round(t / s) * s lies within half a step of t. */
  lemma RoundedMultipleNear(target: int, step: int)
    requires step > 0
    ensures var m := RoundHalfUp(target as real / step as real) * step;
            2 * (m - target) <= step && 2 * (target - m) < step
  {
    var x, sr := target as real / step as real, step as real;
    var k := RoundHalfUp(x);
    ScaleNear(target as real, x, k as real, sr);
    assert (k * step) as real == k as real * sr;
  }

  lemma DivAtMost(a: real, b: real, s: real)
    requires s > 0.0 && a <= b * s
    ensures a / s <= b
  {
    assert b * s / s == b;
  }

  /** When the step divides 250, a target in [0, 250] rounds to a multiple
      of the step that is still in [0, 250]. */
  lemma RoundedMultipleInRange(target: int, step: int)
    requires step > 0 && MaxRPM % step == 0 && 0 <= target <= MaxRPM
    ensures 0 <= RoundHalfUp(target as real / step as real) * step <= MaxRPM
  {
    var s := step as real;
    var x := target as real / s;
    var k := RoundHalfUp(x);
    var m := MaxRPM / step;
    assert m * step == MaxRPM;
    assert (m * step) as real == m as real * s;
    DivAtMost(target as real, m as real, s);
    RoundHalfUpMonotone(0.0, x);
    RoundHalfUpMonotone(x, m as real);
    RoundHalfUpOfInt(0);
    RoundHalfUpOfInt(m);
    MulMonotone(0, k, step);
    MulMonotone(k, m, step);
  }

  /** When the step divides 250 and the target is already in [0, 250], the
      clamp never fires and the quantized speed is a nearest multiple of the
      step: within half a step of the target. */
  lemma QuantizeNearest(target: int, step: int)
    requires step > 0 && MaxRPM % step == 0 && 0 <= target <= MaxRPM
    ensures var q := Quantize(target, step);
            q == RoundHalfUp(target as real / step as real) * step &&
            2 * (q - target) <= step && 2 * (target - q) < step
  {
    RoundedMultipleInRange(target, step);
    RoundedMultipleNear(target, step);
  }

  /** Quantizing an already-quantized speed changes nothing when the step
      divides 250. */
  lemma QuantizeIdempotent(target: int, step: int)
    requires step > 0 && MaxRPM % step == 0
    ensures Quantize(Quantize(target, step), step) == Quantize(target, step)
  {
    var q := Quantize(target, step);
    var k := q / step;
    assert q == k * step;
    assert (k * step) as real == k as real * step as real;
    assert q as real / step as real == k as real;
    RoundHalfUpOfInt(k);
  }

  /** When the step does not divide 250 the upper clamp can leave a speed
      that is not a multiple of the step: with step 7, a target of 250
      rounds to 36 * 7 = 252 and is clamped back to 250. */
  lemma ClampCanBreakMultiple()
    ensures Quantize(250, 7) == 250 && 250 % 7 != 0
  {
    assert 35.5 <= 250.0 / 7.0 < 36.5;
    assert RoundHalfUp(250.0 / 7.0) == 36;
  }

  /** The speed the control step publishes for these inputs. */
  function Setpoint(mode: Mode, feelsLike: real, manualRPM: int, costRate: real, price: real, step: int): (q: int)
    requires step > 0 && (mode == Budget ==> price != 0.0)
    ensures 0 <= q <= MaxRPM
  {
    Quantize(TargetRPM(mode, feelsLike, manualRPM, costRate, price), step)
  }

  /** The resolver and quantizer of the control effect. */
  method ResolveSetpoint(mode: Mode, feelsLike: real, manualRPM: int, costRate: real, price: real, step: int)
    returns (quantized: int)
    requires step > 0 && (mode == Budget ==> price != 0.0)
    ensures quantized == Setpoint(mode, feelsLike, manualRPM, costRate, price, step)
    ensures 0 <= quantized <= MaxRPM
    ensures step == 5 ==> quantized % 5 == 0
  {
    var finalRPM := 0;
    var autoRPM := CalculateAutoRPM(feelsLike);
    if mode == Manual {
      finalRPM := manualRPM;
    } else if mode == Auto {
      finalRPM := autoRPM;
    }
    if mode == Budget {
      var maxPower := MaxPowerFromCostRate(costRate, price);
      var budgetCapRPM := FindMaxRPMForPower(maxPower);
      finalRPM := Min(autoRPM, budgetCapRPM);
    }
    quantized := Quantize(finalRPM, step);
  }

  /** The publish decision: nothing published yet, a different value, or a
      different mode from the one of the last publication. */
  predicate ShouldPublish(lastPublished: Option<int>, lastMode: Mode, quantized: int, mode: Mode)
  {
    lastPublished != Some(quantized) || lastMode != mode
  }

  /** The publish gate's mutable cells: the last published value (null until
      the first publication), the mode of that publication, and the speed
      shown as commanded. */
  class PublishGate {
    var lastPublished: Option<int>
    var lastMode: Mode
    var commandedRPM: int

    /** The commanded speed is the last published one, always in [0, 250]. */
    ghost predicate Valid()
      reads this
    {
      && 0 <= commandedRPM <= MaxRPM
      && (lastPublished.Some? ==> lastPublished.value == commandedRPM)
    }

    constructor (initialMode: Mode)
      ensures Valid()
      ensures lastPublished == None && lastMode == initialMode && commandedRPM == 0
    {
      lastPublished := None;
      lastMode := initialMode;
      commandedRPM := 0;
    }

    /** One run of the control effect. While disconnected nothing happens;
        otherwise the setpoint is resolved and published when the gate
        opens, and the result is the published value, if any. */
    method Step(mode: Mode, feelsLike: real, manualRPM: int, costRate: real, price: real, step: int, connected: bool)
      returns (published: Option<int>)
      requires Valid()
      requires step > 0 && (connected && mode == Budget ==> price != 0.0)
      modifies this
      ensures Valid()
      ensures !connected ==> published == None
      ensures connected ==>
                var q := Setpoint(mode, feelsLike, manualRPM, costRate, price, step);
                published == (if ShouldPublish(old(lastPublished), old(lastMode), q, mode) then Some(q) else None)
      ensures published.Some? ==>
                lastPublished == published && lastMode == mode && commandedRPM == published.value
      ensures published == None ==> unchanged(this)
    {
      if !connected {
        return None;
      }
      var quantized := ResolveSetpoint(mode, feelsLike, manualRPM, costRate, price, step);
      var modeChanged := lastMode != mode;
      if lastPublished != Some(quantized) || modeChanged {
        commandedRPM := quantized;
        lastPublished := Some(quantized);
        lastMode := mode;
        return Some(quantized);
      }
      return None;
    }
  }

  /** Right after a publication the same inputs do not open the gate. */
  lemma NoRepublishOfSameSetpoint(q: int, mode: Mode)
    ensures !ShouldPublish(Some(q), mode, q, mode)
  {
  }

  /** A mode switch opens the gate whatever the value. */
  lemma ModeSwitchOpensGate(last: Option<int>, lastMode: Mode, q: int, mode: Mode)
    requires lastMode != mode
    ensures ShouldPublish(last, lastMode, q, mode)
  {
  }

  /** On a fresh gate the first connected step publishes the setpoint, and
      repeating exactly the same inputs publishes nothing. */
  method RepeatedInputsPublishOnce(initialMode: Mode, mode: Mode, feelsLike: real, manualRPM: int,
                                   costRate: real, price: real, step: int)
    returns (first: Option<int>, second: Option<int>)
    requires step > 0 && (mode == Budget ==> price != 0.0)
    ensures first == Some(Setpoint(mode, feelsLike, manualRPM, costRate, price, step))
    ensures second == None
  {
    var gate := new PublishGate(initialMode);
    first := gate.Step(mode, feelsLike, manualRPM, costRate, price, step, true);
    second := gate.Step(mode, feelsLike, manualRPM, costRate, price, step, true);
  }

  /** From any gate state, running the connected step twice with identical
      inputs publishes nothing the second time: either the first run
      published the setpoint in this mode, or the gate already held it. */
  method RepeatedInputsPublishNothing(gate: PublishGate, mode: Mode, feelsLike: real, manualRPM: int,
                                      costRate: real, price: real, step: int)
    returns (first: Option<int>, second: Option<int>)
    requires gate.Valid()
    requires step > 0 && (mode == Budget ==> price != 0.0)
    modifies gate
    ensures gate.Valid()
    ensures second == None
    ensures gate.lastPublished == Some(Setpoint(mode, feelsLike, manualRPM, costRate, price, step))
    ensures gate.lastMode == mode
  {
    first := gate.Step(mode, feelsLike, manualRPM, costRate, price, step, true);
    second := gate.Step(mode, feelsLike, manualRPM, costRate, price, step, true);
  }

  /** Auto mode at feels-like 30 °C publishes 170; switching to manual mode
      with the slider at 170 publishes 170 again because the mode changed;
      losing the connection then publishes nothing. */
  method ModeSwitchRepublishes(costRate: real, price: real) returns (first: Option<int>, second: Option<int>, third: Option<int>)
    ensures first == Some(170) && second == Some(170) && third == None
  {
    var gate := new PublishGate(Manual);
    AutoRPMExamples();
    assert Quantize(170, 5) == 170 by {
      assert 170.0 / 5.0 == 34.0;
      RoundHalfUpOfInt(34);
    }
    first := gate.Step(Auto, 30.0, 0, costRate, price, 5, true);
    second := gate.Step(Manual, 30.0, 170, costRate, price, 5, true);
    third := gate.Step(Auto, 20.0, 0, costRate, price, 5, false);
  }

  /** Budget mode at 1 rupee per hour and 8 rupees per kWh with feels-like
      30 °C: the cap is 250 rpm, so the auto speed 170 goes through. */
  lemma BudgetScenario()
    ensures Setpoint(Budget, 30.0, 0, 1.0, 8.0, 5) == 170
  {
    AutoRPMExamples();
    BudgetCapExamples();
    assert TargetRPM(Budget, 30.0, 0, 1.0, 8.0) == 170;
    assert 170.0 / 5.0 == 34.0;
    RoundHalfUpOfInt(34);
  }
}
