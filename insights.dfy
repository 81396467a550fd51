/** The three insight figures under the analytics chart: average speed,
    average feels-like temperature and the number of data points, each
    computed on demand from the history, with 0 for an empty history. The
    one-decimal display formatting of the feels-like average is left out. */
module Insights {
  import opened Numeric
  import opened History

  /** reduce((a, b) => a + b, 0): the left-to-right sum. */
  function Sum(s: seq<real>): real
  {
    if s == [] then 0.0 else Sum(s[..|s| - 1]) + s[|s| - 1]
  }

  /** sum / length, or 0 for an empty history. */
  function Mean(s: seq<real>): real
  {
    if |s| > 0 then Sum(s) / |s| as real else 0.0
  }

  /** Every sample lies in [lo, hi]. */
  predicate AllWithin(s: seq<real>, lo: real, hi: real)
  {
    forall i :: 0 <= i < |s| ==> lo <= s[i] <= hi
  }

  /** The sum of n samples in [lo, hi] lies in [n * lo, n * hi]. */
  lemma {:induction false} SumWithin(s: seq<real>, lo: real, hi: real)
    requires AllWithin(s, lo, hi)
    ensures |s| as real * lo <= Sum(s) <= |s| as real * hi
  {
    if s != [] {
      var init, last := s[..|s| - 1], s[|s| - 1];
      assert AllWithin(init, lo, hi);
      SumWithin(init, lo, hi);
      var n := |init| as real;
      assert Sum(s) == Sum(init) + last;
      assert |s| as real * lo <= Sum(s) by {
        assert |s| as real * lo == n * lo + lo;
      }
      assert Sum(s) <= |s| as real * hi by {
        assert |s| as real * hi == n * hi + hi;
      }
    }
  }

  /** The mean of samples in [lo, hi] lies in [lo, hi]. */
  lemma MeanWithin(s: seq<real>, lo: real, hi: real)
    requires |s| > 0 && AllWithin(s, lo, hi)
    ensures lo <= Mean(s) <= hi
  {
    SumWithin(s, lo, hi);
    var n := |s| as real;
    assert lo * n <= Sum(s) <= hi * n;
    assert Sum(s) / n * n == Sum(s);
  }

  /** Average RPM: Math.round of the mean speed, 0 for an empty history. */
  function AverageRPM(rpmHistory: seq<real>): (avg: int)
    ensures |rpmHistory| == 0 ==> avg == 0
    ensures |rpmHistory| > 0 ==> Mean(rpmHistory) - 0.5 < avg as real <= Mean(rpmHistory) + 0.5
  {
    if |rpmHistory| > 0 then RoundHalfUp(Sum(rpmHistory) / |rpmHistory| as real) else 0
  }

  /** Speeds in [0, 250] average to a speed in [0, 250]. */
  lemma AverageRPMWithin(rpmHistory: seq<real>)
    requires AllWithin(rpmHistory, 0.0, 250.0)
    ensures 0 <= AverageRPM(rpmHistory) <= 250
  {
    if |rpmHistory| > 0 {
      MeanWithin(rpmHistory, 0.0, 250.0);
      RoundHalfUpMonotone(0.0, Mean(rpmHistory));
      RoundHalfUpMonotone(Mean(rpmHistory), 250.0);
      RoundHalfUpOfInt(0);
      RoundHalfUpOfInt(250);
    }
  }

  /** Avg Feels Like: the mean feels-like value before display formatting. */
  function AverageFeelsLike(feelsLikeHistory: seq<real>): (avg: real)
    ensures |feelsLikeHistory| == 0 ==> avg == 0.0
    ensures |feelsLikeHistory| > 0 ==> avg * |feelsLikeHistory| as real == Sum(feelsLikeHistory)
  {
    Mean(feelsLikeHistory)
  }

  /** Feels-like samples, all in [-20, 60], average to a value in [-20, 60]. */
  lemma AverageFeelsLikeWithin(feelsLikeHistory: seq<real>)
    requires AllWithin(feelsLikeHistory, -20.0, 60.0)
    ensures -20.0 <= AverageFeelsLike(feelsLikeHistory) <= 60.0
  {
    if |feelsLikeHistory| > 0 {
      MeanWithin(feelsLikeHistory, -20.0, 60.0);
    }
  }

  /** Data Points: the number of time labels, which on parallel histories is
      the number of samples in every one of the four series. */
  function DataPoints(data: Analytics): (n: nat)
    ensures n == |data.timestamps|
    ensures Parallel(data) ==>
              n == |data.rpmHistory| == |data.feelsLikeHistory| == |data.costHistory|
  {
    |data.timestamps|
  }

  /** One update from any history leaves at most 60 data points, and the
      empty history has none. */
  lemma DataPointsBounded(prev: Analytics, now: string, feels: real, rpm: real, cost: real)
    ensures DataPoints(UpdateAnalytics(prev, now, feels, rpm, cost)) <= MaxDataPoints
    ensures DataPoints(EmptyAnalytics) == 0
  {
  }
}
