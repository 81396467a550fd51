/** The energy accumulator driven by the one-second timer: it integrates the
    motor's reported power over the wall-clock time since the previous tick
    into today's energy in kWh, and recomputes today's cost as that energy at
    the current electricity price. Timestamps are milliseconds, supplied by
    the caller in place of the clock. */
module Energy {

  /** Milliseconds per hour, the divisor (1000 * 60 * 60) of the tick. */
  const MsPerHour: real := 3600000.0

  /** The energy in kWh drawn at a constant power (W) from `last` to `now`
      (ms): power * elapsedHours / 1000. */
  function Increment(power: real, last: int, now: int): (kwh: real)
    ensures kwh * 1000.0 * MsPerHour == power * (now - last) as real
    ensures power >= 0.0 && now >= last ==> kwh >= 0.0
    ensures now == last ==> kwh == 0.0
  {
    power * ((now - last) as real / MsPerHour) / 1000.0
  }

  /** Splitting an interval at any intermediate instant gives the same total
      energy at constant power: the tick rate does not change the result. */
  lemma IncrementAdditive(power: real, a: int, b: int, c: int)
    ensures Increment(power, a, b) + Increment(power, b, c) == Increment(power, a, c)
  {
    var x, y := (b - a) as real, (c - b) as real;
    assert (c - a) as real == x + y;
    assert power * (x + y) == power * x + power * y;
    var k := 1.0 / (1000.0 * MsPerHour);
    assert Increment(power, a, b) == power * x * k;
    assert Increment(power, b, c) == power * y * k;
    assert Increment(power, a, c) == power * (x + y) * k;
  }

  /** The energy after ticking at the given instants in order, all at one
      constant power, starting from `last`. */
  function EnergyOver(power: real, last: int, times: seq<int>): real
    decreases |times|
  {
    if times == [] then 0.0
    else Increment(power, last, times[0]) + EnergyOver(power, times[0], times[1..])
  }

  /** Any sequence of ticks at constant power adds up to one increment over
      the whole span. */
  lemma {:induction false} EnergyOverTelescopes(power: real, last: int, times: seq<int>)
    requires times != []
    ensures EnergyOver(power, last, times) == Increment(power, last, times[|times| - 1])
    decreases |times|
  {
    if |times| > 1 {
      EnergyOverTelescopes(power, times[0], times[1..]);
      IncrementAdditive(power, last, times[0], times[|times| - 1]);
    }
  }

  /** Tick instants that never go backwards, starting from `start`. */
  predicate Forward(start: int, times: seq<int>)
  {
    forall k :: 0 <= k < |times| ==> (if k == 0 then start else times[k - 1]) <= times[k]
  }

  /** The cells the tick overwrites: the previous tick's timestamp, today's
      energy and today's cost. */
  class EnergyMeter {
    var lastUpdate: int
    var todayEnergy: real
    var todayCost: real

    /** Today's energy is never negative. */
    ghost predicate Valid()
      reads this
    {
      todayEnergy >= 0.0
    }

    /** A meter created at `createdAt`: the first tick measures from there. */
    constructor (createdAt: int)
      ensures Valid()
      ensures lastUpdate == createdAt && todayEnergy == 0.0 && todayCost == 0.0
    {
      lastUpdate := createdAt;
      todayEnergy := 0.0;
      todayCost := 0.0;
    }

    /** The timer firing at each instant of `times` in turn, at a constant
        power and price: today's energy grows by the energy over those ticks,
        which is one increment over the whole span. */
    method TickAll(times: seq<int>, power: real, price: real)
      modifies this
      ensures todayEnergy == old(todayEnergy) + EnergyOver(power, old(lastUpdate), times)
      ensures times != [] ==>
                && lastUpdate == times[|times| - 1]
                && todayEnergy == old(todayEnergy) + Increment(power, old(lastUpdate), times[|times| - 1])
      ensures times == [] ==> lastUpdate == old(lastUpdate)
      ensures times != [] ==> todayCost == todayEnergy * price
      ensures times == [] ==> todayCost == old(todayCost) && todayEnergy == old(todayEnergy)
      ensures old(Valid()) && power >= 0.0 && Forward(old(lastUpdate), times) ==> Valid()
    {
      var i := 0;
      while i < |times|
        invariant 0 <= i <= |times|
        invariant todayEnergy + EnergyOver(power, lastUpdate, times[i..])
                  == old(todayEnergy) + EnergyOver(power, old(lastUpdate), times)
        invariant i == 0 ==> lastUpdate == old(lastUpdate)
        invariant i > 0 ==> lastUpdate == times[i - 1]
        invariant i > 0 ==> todayCost == todayEnergy * price
        invariant i == 0 ==> todayCost == old(todayCost) && todayEnergy == old(todayEnergy)
        invariant old(Valid()) && power >= 0.0 && Forward(old(lastUpdate), times) ==> Valid()
      {
        assert times[i..][1..] == times[i + 1..];
        Tick(times[i], power, price);
        i := i + 1;
      }
      if times != [] {
        EnergyOverTelescopes(power, old(lastUpdate), times);
      }
    }

    /** One timer tick at instant `now` with the motor's reported power and
        the current price. */
    method Tick(now: int, power: real, price: real)
      modifies this
      ensures lastUpdate == now
      ensures todayEnergy == old(todayEnergy) + Increment(power, old(lastUpdate), now)
      ensures todayCost == todayEnergy * price
      ensures power >= 0.0 && now >= old(lastUpdate) ==> old(todayEnergy) <= todayEnergy
      ensures old(Valid()) && power >= 0.0 && now >= old(lastUpdate) ==> Valid()
      ensures Valid() && price >= 0.0 ==> todayCost >= 0.0
    {
      var elapsedHours := (now - lastUpdate) as real / (1000.0 * 60.0 * 60.0);
      lastUpdate := now;
      var energyConsumed := power * elapsedHours;
      var newTodayEnergy := todayEnergy + energyConsumed / 1000.0;
      var newTodayCost := newTodayEnergy * price;
      todayEnergy := newTodayEnergy;
      todayCost := newTodayCost;
    }
  }

  /** Cost follows the current price, not the prices in force when the energy
      was drawn: 10 W for one hour at 8 per kWh costs 0.08; a zero-length
      tick after the price drops to 4 halves the cost to 0.04. */
  method PriceDropLowersCost() returns (before: real, after: real)
    ensures before == 0.08 && after == 0.04
  {
    var meter := new EnergyMeter(0);
    meter.Tick(3600000, 10.0, 8.0);
    before := meter.todayCost;
    meter.Tick(3600000, 10.0, 4.0);
    after := meter.todayCost;
  }
}
