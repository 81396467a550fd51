/** The comfort ("feels-like") estimator: a Celsius heat-index polynomial in
    temperature and relative humidity, blended with the raw temperature by a
    weight that ramps from 0 at 15 °C to 1 at 27 °C, clamped to [-20, 60] and
    rounded to one decimal. Arithmetic is exact; JavaScript's binary floating
    point is not modelled. */
module Comfort {
  import opened Numeric

  /** The heat-index polynomial HI(T, RH), T in °C and RH in %. */
  function HeatIndex(t: real, rh: real): real
  {
    -8.78469475556
    + 1.61139411 * t
    + 2.33854883889 * rh
    + -0.14611605 * t * rh
    + -0.012308094 * t * t
    + -0.0164248277778 * rh * rh
    + 0.002211732 * t * t * rh
    + 0.00072546 * t * rh * rh
    + -0.000003582 * t * t * rh * rh
  }

  /** The blend weight max(0, min(1, (T - 15) / 12)). */
  function BlendWeight(t: real): (w: real)
    ensures 0.0 <= w <= 1.0
    ensures t <= 15.0 <==> w == 0.0
    ensures t >= 27.0 <==> w == 1.0
  {
    Clamp((t - 15.0) / 12.0, 0.0, 1.0)
  }

  /** A value that is a whole number of tenths. */
  predicate IsTenth(x: real)
  {
    (x * 10.0).Floor as real == x * 10.0
  }

  /** Math.round(x * 10) / 10: the nearest tenth, halves rounded up. */
  function RoundToTenth(x: real): (r: real)
    ensures IsTenth(r)
    ensures x - 0.05 < r <= x + 0.05
    ensures -20.0 <= x <= 60.0 ==> -20.0 <= r <= 60.0
  {
    RoundHalfUp(x * 10.0) as real / 10.0
  }

  /** calculateFeelsLike: always a whole number of tenths within [-20, 60]. */
  function FeelsLike(t: real, rh: real): (r: real)
    ensures -20.0 <= r <= 60.0
    ensures IsTenth(r)
  {
    var w := BlendWeight(t);
    RoundToTenth(Clamp(t * (1.0 - w) + HeatIndex(t, rh) * w, -20.0, 60.0))
  }

  /** At or below 15 °C the heat index is fully suppressed: the result is the
      temperature itself, clamped and rounded, and humidity has no effect. */
  lemma ColdIgnoresHumidity(t: real, rh: real, rh': real)
    requires t <= 15.0
    ensures FeelsLike(t, rh) == RoundToTenth(Clamp(t, -20.0, 60.0))
    ensures FeelsLike(t, rh) == FeelsLike(t, rh')
  {
  }

  /** At or above 27 °C the heat index fully dominates. */
  lemma HotIsHeatIndex(t: real, rh: real)
    requires t >= 27.0
    ensures FeelsLike(t, rh) == RoundToTenth(Clamp(HeatIndex(t, rh), -20.0, 60.0))
  {
  }

  /** Inside the ramp the blended value lies between T and HI. */
  lemma BlendBetween(t: real, rh: real)
    ensures var b := t * (1.0 - BlendWeight(t)) + HeatIndex(t, rh) * BlendWeight(t);
            (t <= HeatIndex(t, rh) ==> t <= b <= HeatIndex(t, rh)) &&
            (HeatIndex(t, rh) <= t ==> HeatIndex(t, rh) <= b <= t)
  {
    var w, hi := BlendWeight(t), HeatIndex(t, rh);
    assert t * (1.0 - w) + hi * w == t + (hi - t) * w;
    if t <= hi {
      ScaleByWeight(hi - t, w);
    } else {
      ScaleByWeight(t - hi, w);
    }
  }

  lemma ScaleByWeight(d: real, w: real)
    requires d >= 0.0 && 0.0 <= w <= 1.0
    ensures 0.0 <= d * w <= d
  {
    assert d * w <= d * 1.0 by {
      assert d * (1.0 - w) >= 0.0;
    }
  }

  /** 25 °C at 50 % humidity: w = 5/6, HI(25, 50) = 25.888..., blended
      25.7407..., so the estimator reports 25.7 °C. */
  lemma Scenario25C50Percent()
    ensures FeelsLike(25.0, 50.0) == 25.7
  {
    var hi := HeatIndex(25.0, 50.0);
    assert hi == 25.88890924444;
    var w := BlendWeight(25.0);
    assert w == 10.0 / 12.0;
    var b := 25.0 * (1.0 - w) + hi * w;
    assert 257.0 <= b * 10.0 + 0.5 < 258.0;
    assert RoundHalfUp(b * 10.0) == 257;
  }

  /** handlePreset's table: each of the four preset names sets temperature
      and humidity together. Names outside the table give no reading here;
      the preset buttons only ever pass these four. */
  function Preset(name: string): (reading: Option<(real, real)>)
    ensures reading.Some? <==> name in {"sunny", "humid", "cool", "hot"}
    ensures reading.Some? ==> 10.0 <= reading.value.0 <= 40.0 && 20.0 <= reading.value.1 <= 90.0
  {
    if name == "sunny" then Some((32.0, 40.0))
    else if name == "humid" then Some((27.0, 80.0))
    else if name == "cool" then Some((20.0, 50.0))
    else if name == "hot" then Some((35.0, 60.0))
    else None
  }
}
