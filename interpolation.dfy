/** Piecewise-linear lookup over an ordered table of breakpoints: flat below
    the first breakpoint and above the last, and between two neighbouring
    breakpoints the linear interpolation, rounded with Math.round. The
    search scans the segments from the left and takes the first one whose
    closed interval contains the query. */
module Interpolation {
  import opened Numeric

  /** One (input, output) row of a speed curve. */
  datatype Breakpoint = Breakpoint(t: real, rpm: int)

  type Curve = seq<Breakpoint>

  /** At least two rows, inputs strictly increasing, outputs non-decreasing. */
  predicate WellFormed(c: Curve)
  {
    && |c| >= 2
    && (forall i, j :: 0 <= i < j < |c| ==> c[i].t < c[j].t)
    && (forall i, j :: 0 <= i <= j < |c| ==> c[i].rpm <= c[j].rpm)
  }

  /** Neighbouring rows in order are enough for a well-formed table. */
  lemma StepwiseWellFormed(c: Curve)
    requires |c| >= 2
    requires forall i :: 0 <= i < |c| - 1 ==> c[i].t < c[i + 1].t && c[i].rpm <= c[i + 1].rpm
    ensures WellFormed(c)
  {
    forall i, j | 0 <= i < j < |c|
      ensures c[i].t < c[j].t && c[i].rpm <= c[j].rpm
    {
      StepwiseOrdered(c, i, j);
    }
  }

  lemma {:induction false} StepwiseOrdered(c: Curve, i: nat, j: nat)
    requires i < j < |c|
    requires forall k :: 0 <= k < |c| - 1 ==> c[k].t < c[k + 1].t && c[k].rpm <= c[k + 1].rpm
    ensures c[i].t < c[j].t && c[i].rpm <= c[j].rpm
    decreases j - i
  {
    if i + 1 < j {
      StepwiseOrdered(c, i, j - 1);
    }
  }

  /** The unrounded line through a and b, a.rpm + ratio * (b.rpm - a.rpm). */
  function Line(a: Breakpoint, b: Breakpoint, x: real): real
    requires a.t < b.t
  {
    a.rpm as real + (x - a.t) / (b.t - a.t) * (b.rpm - a.rpm) as real
  }

  /** Math.round of the line: the interpolated speed between a and b. */
  function Interp(a: Breakpoint, b: Breakpoint, x: real): int
    requires a.t < b.t
  {
    RoundHalfUp(Line(a, b, x))
  }

  /** The left-to-right segment scan from segment i on; 0 when it runs off
      the end, as the source's fall-through return does. */
  function ScanFrom(c: Curve, x: real, i: nat): int
    requires WellFormed(c) && i < |c|
    decreases |c| - i
  {
    if i + 1 == |c| then 0
    else if c[i].t <= x <= c[i + 1].t then Interp(c[i], c[i + 1], x)
    else ScanFrom(c, x, i + 1)
  }

  /** The whole lookup: the two flat guards, then the scan. */
  function Lookup(c: Curve, x: real): int
    requires WellFormed(c)
  {
    if x <= c[0].t then c[0].rpm
    else if x >= c[|c| - 1].t then c[|c| - 1].rpm
    else ScanFrom(c, x, 0)
  }

  /** The index of the first segment from i on whose interval holds x. */
  function SegmentOf(c: Curve, x: real, i: nat): (k: nat)
    requires WellFormed(c) && i + 1 < |c|
    requires c[i].t <= x <= c[|c| - 1].t
    ensures i <= k && k + 1 < |c|
    ensures c[k].t <= x <= c[k + 1].t
    decreases |c| - i
  {
    if x <= c[i + 1].t then i else SegmentOf(c, x, i + 1)
  }

  lemma ScaledRatio(p: real, q: real, d: real, k: real)
    requires d > 0.0 && k >= 0.0 && 0.0 <= p <= q <= d
    ensures 0.0 <= p / d * k <= q / d * k <= k
  {
    assert 0.0 <= p / d <= q / d <= 1.0;
    assert q / d * k - p / d * k == (q / d - p / d) * k;
    assert k - q / d * k == (1.0 - q / d) * k;
  }

  /** The interpolation hits both endpoints exactly. */
  lemma InterpEnds(a: Breakpoint, b: Breakpoint)
    requires a.t < b.t
    ensures Interp(a, b, a.t) == a.rpm
    ensures Interp(a, b, b.t) == b.rpm
  {
    var d, k := b.t - a.t, (b.rpm - a.rpm) as real;
    assert (a.t - a.t) / d * k == 0.0;
    assert Line(a, b, a.t) == a.rpm as real;
    RoundHalfUpOfInt(a.rpm);
    assert (b.t - a.t) / d == 1.0;
    assert (b.t - a.t) / d * k == k;
    assert Line(a, b, b.t) == b.rpm as real;
    RoundHalfUpOfInt(b.rpm);
  }

  /** On its segment the line is non-decreasing and stays between the two
      endpoint outputs. */
  lemma LineOrdered(a: Breakpoint, b: Breakpoint, x: real, y: real)
    requires a.t < b.t && a.rpm <= b.rpm
    requires a.t <= x <= y <= b.t
    ensures a.rpm as real <= Line(a, b, x) <= Line(a, b, y) <= b.rpm as real
  {
    var d, k := b.t - a.t, (b.rpm - a.rpm) as real;
    var rx, ry := (x - a.t) / d * k, (y - a.t) / d * k;
    ScaledRatio(x - a.t, y - a.t, d, k);
    assert Line(a, b, x) == a.rpm as real + rx;
    assert Line(a, b, y) == a.rpm as real + ry;
  }

  /** On its segment the interpolation is non-decreasing and stays between
      the two endpoint outputs. */
  lemma InterpMonotone(a: Breakpoint, b: Breakpoint, x: real, y: real)
    requires a.t < b.t && a.rpm <= b.rpm
    requires a.t <= x <= y <= b.t
    ensures a.rpm <= Interp(a, b, x) <= Interp(a, b, y) <= b.rpm
  {
    LineOrdered(a, b, x, y);
    var vx, vy := Line(a, b, x), Line(a, b, y);
    RoundHalfUpMonotone(a.rpm as real, vx);
    RoundHalfUpMonotone(vx, vy);
    RoundHalfUpMonotone(vy, b.rpm as real);
    RoundHalfUpOfInt(a.rpm);
    RoundHalfUpOfInt(b.rpm);
  }

  lemma {:induction false} ScanFindsSegment(c: Curve, x: real, j: nat, i: nat)
    requires WellFormed(c) && j <= i && i + 1 < |c|
    requires c[i].t <= x <= c[i + 1].t
    ensures ScanFrom(c, x, j) == Interp(c[i], c[i + 1], x)
    decreases i - j
  {
    if j < i {
      if c[j].t <= x <= c[j + 1].t {
        // x lies in two segments only when it is their shared breakpoint
        assert x == c[j + 1].t == c[i].t;
        assert j + 1 == i;
        InterpEnds(c[j], c[i]);
        InterpEnds(c[i], c[i + 1]);
      } else {
        ScanFindsSegment(c, x, j + 1, i);
      }
    }
  }

  /** Anywhere in segment i, the lookup is that segment's interpolation,
      including at the two flat guards' boundaries. */
  lemma LookupInSegment(c: Curve, i: nat, x: real)
    requires WellFormed(c) && i + 1 < |c|
    requires c[i].t <= x <= c[i + 1].t
    ensures Lookup(c, x) == Interp(c[i], c[i + 1], x)
  {
    if x <= c[0].t {
      assert i == 0 && x == c[0].t;
      InterpEnds(c[0], c[1]);
    } else if x >= c[|c| - 1].t {
      assert i + 1 == |c| - 1 && x == c[i + 1].t;
      InterpEnds(c[i], c[i + 1]);
    } else {
      ScanFindsSegment(c, x, 0, i);
    }
  }

  /** Each breakpoint's output is returned exactly at its input. */
  lemma LookupAtBreakpoint(c: Curve, k: nat)
    requires WellFormed(c) && k < |c|
    ensures Lookup(c, c[k].t) == c[k].rpm
  {
    if k + 1 < |c| {
      LookupInSegment(c, k, c[k].t);
      InterpEnds(c[k], c[k + 1]);
    }
  }

  /** The lookup never leaves the range of the table's outputs. */
  lemma LookupBounds(c: Curve, x: real)
    requires WellFormed(c)
    ensures c[0].rpm <= Lookup(c, x) <= c[|c| - 1].rpm
  {
    if c[0].t < x < c[|c| - 1].t {
      var i := SegmentOf(c, x, 0);
      LookupInSegment(c, i, x);
      InterpMonotone(c[i], c[i + 1], x, x);
    }
  }

  /** The lookup is non-decreasing in its query. */
  lemma LookupMonotone(c: Curve, x: real, y: real)
    requires WellFormed(c) && x <= y
    ensures Lookup(c, x) <= Lookup(c, y)
  {
    var last := |c| - 1;
    if x <= c[0].t {
      LookupBounds(c, y);
    } else if y >= c[last].t {
      LookupBounds(c, x);
    } else {
      var i := SegmentOf(c, x, 0);
      var j := SegmentOf(c, y, i);
      LookupInSegment(c, i, x);
      LookupInSegment(c, j, y);
      if i == j {
        InterpMonotone(c[i], c[i + 1], x, y);
      } else {
        InterpMonotone(c[i], c[i + 1], x, x);
        InterpMonotone(c[j], c[j + 1], y, y);
        assert c[i + 1].rpm <= c[j].rpm;
      }
    }
  }
}
