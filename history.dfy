/** The bounded analytics history: four parallel arrays (time labels,
    feels-like values, actual speeds, costs), each extended with the newest
    sample and cut back to its last 60 entries, so the oldest sample is the
    first to go. */
module History {

  /** maxDataPoints: one minute of one-per-second samples. */
  const MaxDataPoints: nat := 60

  /** The four histories the chart draws. */
  datatype Analytics = Analytics(
    timestamps: seq<string>,
    feelsLikeHistory: seq<real>,
    rpmHistory: seq<real>,
    costHistory: seq<real>)

  /** The empty history the dashboard starts with. */
  const EmptyAnalytics: Analytics := Analytics([], [], [], [])

  /** s.slice(-n) for n > 0: the last n elements, or all of s when shorter. */
  function KeepLast<T>(s: seq<T>, n: nat): (r: seq<T>)
    requires n > 0
    ensures |r| == if |s| <= n then |s| else n
    ensures r == s[|s| - |r|..]
  {
    if |s| <= n then s else s[|s| - n..]
  }

  /** r is prev with x pushed on: x is the newest entry, and the length grew
      by one unless the history was already full. */
  predicate PushedOnto<T(==)>(r: seq<T>, prev: seq<T>, x: T)
  {
    && |r| == (if |prev| < MaxDataPoints then |prev| + 1 else MaxDataPoints)
    && r[|r| - 1] == x
  }

  /** [...prev, x].slice(-60): the newest sample last, the oldest dropped
      first once the history is full. */
  function Push<T(==)>(prev: seq<T>, x: T): (r: seq<T>)
    ensures PushedOnto(r, prev, x)
  {
    KeepLast(prev + [x], MaxDataPoints)
  }

  /** A push keeps the newest 59 of the previous samples, in order, and puts
      the new one after them. */
  lemma PushDropsOldest<T>(prev: seq<T>, x: T)
    ensures Push(prev, x) == KeepLast(prev, MaxDataPoints - 1) + [x]
  {
    var t := prev + [x];
    if |t| > MaxDataPoints {
      var d := |t| - MaxDataPoints;
      assert t[d..] == prev[d..] + [x];
    }
  }

  /** All four histories have the same length. */
  predicate Parallel(a: Analytics)
  {
    && |a.feelsLikeHistory| == |a.timestamps|
    && |a.rpmHistory| == |a.timestamps|
    && |a.costHistory| == |a.timestamps|
  }

  /** updateAnalytics: push one sample onto each of the four histories. The
      time label is supplied by the caller in place of the clock. */
  function UpdateAnalytics(prev: Analytics, now: string, feels: real, rpm: real, cost: real): (next: Analytics)
    ensures PushedOnto(next.timestamps, prev.timestamps, now)
    ensures PushedOnto(next.feelsLikeHistory, prev.feelsLikeHistory, feels)
    ensures PushedOnto(next.rpmHistory, prev.rpmHistory, rpm)
    ensures PushedOnto(next.costHistory, prev.costHistory, cost)
    ensures Parallel(prev) ==> Parallel(next)
  {
    Analytics(
      Push(prev.timestamps, now),
      Push(prev.feelsLikeHistory, feels),
      Push(prev.rpmHistory, rpm),
      Push(prev.costHistory, cost))
  }

  /** The history after pushing every element of xs in order. */
  function PushAll<T(==)>(s: seq<T>, xs: seq<T>): seq<T>
    decreases |xs|
  {
    if xs == [] then s else PushAll(Push(s, xs[0]), xs[1..])
  }

  /** Whatever the sequence of pushes, the history holds exactly the last 60
      of everything pushed, in order. */
  lemma {:induction false} PushAllKeepsLast<T>(s: seq<T>, xs: seq<T>)
    requires |s| <= MaxDataPoints
    ensures PushAll(s, xs) == KeepLast(s + xs, MaxDataPoints)
    decreases |xs|
  {
    if xs != [] {
      PushAllKeepsLast(Push(s, xs[0]), xs[1..]);
      PushThenAppend(s, xs);
    }
  }

  /** Pushing the first of xs and then appending the rest keeps the same
      last 60 as appending all of xs to the whole previous history. */
  lemma PushThenAppend<T>(s: seq<T>, xs: seq<T>)
    requires xs != []
    ensures KeepLast(Push(s, xs[0]) + xs[1..], MaxDataPoints) == KeepLast(s + xs, MaxDataPoints)
  {
    var drop := PushIsSuffix(s, xs);
    KeepLastOfSuffix(s + xs, drop, MaxDataPoints);
  }

  /** Pushing the first of xs and appending the rest gives a suffix of
      s + xs that is either all of it or at least 60 long. */
  lemma PushIsSuffix<T>(s: seq<T>, xs: seq<T>) returns (drop: nat)
    requires xs != []
    ensures drop <= |s| + |xs| && (drop == 0 || |s| + |xs| - drop >= MaxDataPoints)
    ensures Push(s, xs[0]) + xs[1..] == (s + xs)[drop..]
  {
    var s' := Push(s, xs[0]);
    drop := |s| + 1 - |s'|;
    PushDropsOldest(s, xs[0]);
    assert s' == s[drop..] + [xs[0]];
    assert xs == [xs[0]] + xs[1..];
  }

  /** Cutting a prefix off first does not change the last n elements, as
      long as at least n elements remain. */
  lemma KeepLastOfSuffix<T>(t: seq<T>, d: nat, n: nat)
    requires n > 0
    requires d <= |t| && (d == 0 || |t| - d >= n)
    ensures KeepLast(t[d..], n) == KeepLast(t, n)
  {
    if d > 0 && |t| - d > n {
      assert t[d..][|t| - d - n..] == t[|t| - n..];
    }
  }

  /** After 61 pushes onto an empty history the first sample is gone and the
      61st is the newest. */
  lemma SixtyOnePushes<T>(xs: seq<T>)
    requires |xs| == 61
    ensures PushAll([], xs) == xs[1..]
    ensures |PushAll([], xs)| == MaxDataPoints
    ensures PushAll([], xs)[MaxDataPoints - 1] == xs[60]
  {
    PushAllKeepsLast([], xs);
    assert [] + xs == xs;
  }
}
