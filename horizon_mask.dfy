/**
 * The line-shaped horizon mask of a station (HorizonMask_line): a list of
 * (azimuth, elevation) breakpoints between which the minimum observable
 * elevation is interpolated linearly.
 */
module Horizon {
  import opened Angles
  import opened Pointing

  /** The azimuth of whole degree `k`, as getHorizonMask samples it. */
  function SampleAz(k: int): real {
    k as real * DEG2RAD
  }

  /** Multiplying out a quotient: (x / w) * d * w == x * d. */
  lemma QuotientTimes(x: real, w: real, d: real)
    requires w != 0.0
    ensures (x / w) * d * w == x * d
  {
    var q := x / w;
    assert q * w == x;
    calc {
      q * d * w;
      (q * w) * d;
      x * d;
    }
  }

  /** Scaling by a positive factor keeps the order of two reals. */
  lemma ScaleOrder(x: real, y: real, w: real)
    requires w > 0.0
    ensures x * w >= y * w <==> x >= y
  {
    if x >= y {
      assert x * w - y * w == (x - y) * w >= 0.0;
    } else {
      assert y * w - x * w == (y - x) * w > 0.0;
    }
  }

  lemma ProductNonNegative(x: real, y: real)
    requires x >= 0.0 && y >= 0.0
    ensures x * y >= 0.0
  {
  }

  /** A point lies on or above a line through (a0, e0) exactly when it is on or above the line's value `m` at its abscissa. */
  lemma AboveLine(a0: real, a1: real, e0: real, e1: real, az: real, m: real, el: real)
    requires a0 < a1
    requires (m - e0) * (a1 - a0) == (e1 - e0) * (az - a0)
    ensures el >= m <==> (el - e0) * (a1 - a0) >= (e1 - e0) * (az - a0)
  {
    ScaleOrder(el - e0, m - e0, a1 - a0);
  }

  /** A value on the line through (a0, e0) and (a1, e1), taken inside [a0, a1], lies between e0 and e1. */
  lemma OnSegmentBetween(a0: real, a1: real, e0: real, e1: real, az: real, m: real)
    requires a0 < a1 && a0 <= az <= a1
    requires (m - e0) * (a1 - a0) == (e1 - e0) * (az - a0)
    ensures e0 <= e1 ==> e0 <= m <= e1
    ensures e1 <= e0 ==> e1 <= m <= e0
  {
    var w, d, rise, p := a1 - a0, az - a0, e1 - e0, m - e0;
    assert p * w == rise * d;
    assert rise * w - rise * d == rise * (w - d);
    if rise >= 0.0 {
      ProductNonNegative(rise, d);
      ProductNonNegative(rise, w - d);
      ScaleOrder(p, 0.0, w);
      ScaleOrder(rise, p, w);
    } else {
      ProductNonNegative(-rise, d);
      ProductNonNegative(-rise, w - d);
      ScaleOrder(0.0, p, w);
      ScaleOrder(p, rise, w);
    }
  }

  class HorizonMaskLine {
    const azimuth: seq<real>
    const elevation: seq<real>

    /** Stores the breakpoint vectors as given; nothing is checked. */
    constructor (azimuths: seq<real>, elevations: seq<real>)
      ensures azimuth == azimuths && elevation == elevations
    {
      azimuth := azimuths;
      elevation := elevations;
    }

    /**
     * A well-formed mask: one elevation per azimuth, at least two
     * breakpoints, azimuths strictly increasing.
     */
    ghost predicate Valid() {
      && |azimuth| == |elevation|
      && 2 <= |azimuth|
      && forall i, j :: 0 <= i < j < |azimuth| ==> azimuth[i] < azimuth[j]
    }

    /** The breakpoints span the whole turn [0, 2π]. */
    ghost predicate CoversCircle()
      requires Valid()
    {
      azimuth[0] <= 0.0 && TWO_PI <= azimuth[|azimuth| - 1]
    }

    /** Some breakpoint from index 1 on lies at or beyond `az`, so az2el's scan stops inside the vector. */
    ghost predicate Covers(az: real) {
      exists i :: 1 <= i < |azimuth| && az <= azimuth[i]
    }

    /** The first index from `i` on whose azimuth is at or beyond `az`. */
    ghost function BracketFrom(az: real, i: nat): (b: nat)
      requires 1 <= i < |azimuth|
      requires exists j :: i <= j < |azimuth| && az <= azimuth[j]
      ensures i <= b < |azimuth| && az <= azimuth[b]
      ensures forall j :: i <= j < b ==> az > azimuth[j]
      decreases |azimuth| - i
    {
      if az <= azimuth[i] then
        i
      else
        var j :| i <= j < |azimuth| && az <= azimuth[j];
        assert i + 1 <= j;
        BracketFrom(az, i + 1)
    }

    /** The index at which az2el's scan stops: the smallest i >= 1 with az <= azimuth[i]. */
    ghost function Bracket(az: real): (b: nat)
      requires Covers(az)
      ensures 1 <= b < |azimuth| && az <= azimuth[b]
      ensures forall j :: 1 <= j < b ==> az > azimuth[j]
    {
      BracketFrom(az, 1)
    }

    /**
     * What az2el needs of `az`: the scan stops inside `azimuth`, the stopping
     * index is inside `elevation`, and the bracketing azimuths differ.
     */
    ghost predicate Interpolable(az: real) {
      && Covers(az)
      && Bracket(az) < |elevation|
      && azimuth[Bracket(az) - 1] != azimuth[Bracket(az)]
    }

    /** The minimum elevation at `az`: linear interpolation between the bracketing breakpoints. */
    ghost function MinElevation(az: real): real
      requires Interpolable(az)
    {
      var i := Bracket(az);
      elevation[i - 1]
        + (elevation[i] - elevation[i - 1]) / (azimuth[i] - azimuth[i - 1]) * (az - azimuth[i - 1])
    }

    /** The mask's verdict on a pointing: its elevation reaches the minimum at the reduced azimuth. */
    ghost predicate Visible(pv: PointingVector)
      requires Interpolable(NormalizeAz(pv.az))
    {
      pv.el >= MinElevation(NormalizeAz(pv.az))
    }

    /** az2el: scan forward to the bracketing pair, then interpolate. */
    method Az2El(az: real) returns (el: real)
      requires Interpolable(az)
      ensures el == MinElevation(az)
    {
      var i := 1;
      while az > azimuth[i]
        invariant 1 <= i <= Bracket(az)
        decreases Bracket(az) - i
      {
        i := i + 1;
      }
      var begin, end := i - 1, i;
      var delta := az - azimuth[begin];
      el := elevation[begin]
        + (elevation[end] - elevation[begin]) / (azimuth[end] - azimuth[begin]) * delta;
    }

    /** visible: reduce the azimuth into [0, 2π), look up the minimum elevation, compare inclusively. */
    method IsVisible(pv: PointingVector) returns (visible: bool)
      requires Interpolable(NormalizeAz(pv.az))
      ensures visible == Visible(pv)
    {
      var az := FmodTwoPi(pv.az);
      if az < 0.0 {
        az := az + TWO_PI;
      }
      var elMask := Az2El(az);
      visible := pv.el >= elMask;
    }

    /** getHorizonMask: the mask sampled at every whole degree 0..360. */
    method GetHorizonMask() returns (azs: seq<real>, els: seq<real>)
      requires forall k :: 0 <= k <= 360 ==> Interpolable(SampleAz(k))
      ensures |azs| == 361 && |els| == 361
      ensures forall k :: 0 <= k <= 360 ==> azs[k] == SampleAz(k) && els[k] == MinElevation(azs[k])
    {
      azs, els := [], [];
      for az := 0 to 361
        invariant |azs| == az && |els| == az
        invariant forall k :: 0 <= k < az ==> azs[k] == SampleAz(k) && els[k] == MinElevation(azs[k])
      {
        var azrad := SampleAz(az);
        var el := Az2El(azrad);
        azs := azs + [azrad];
        els := els + [el];
      }
    }

    /** Within the span of a valid mask every azimuth can be looked up, and lies in its bracketing pair. */
    lemma SpanInterpolable(az: real)
      requires Valid()
      requires azimuth[0] <= az <= azimuth[|azimuth| - 1]
      ensures Interpolable(az)
      ensures azimuth[Bracket(az) - 1] <= az <= azimuth[Bracket(az)]
    {
      assert Covers(az) by {
        assert 1 <= |azimuth| - 1 && az <= azimuth[|azimuth| - 1];
      }
      var b := Bracket(az);
      if b > 1 {
        assert az > azimuth[b - 1];
      }
    }

    /** A mask covering the whole turn can be looked up at every reduced azimuth. */
    lemma CircleInterpolable(az: real)
      requires Valid() && CoversCircle()
      ensures Interpolable(NormalizeAz(az))
    {
      SpanInterpolable(NormalizeAz(az));
    }

    /** A mask covering the whole turn meets getHorizonMask's demand at every sampled degree. */
    lemma CircleSamplesInterpolable()
      requires Valid() && CoversCircle()
      ensures forall k :: 0 <= k <= 360 ==> Interpolable(SampleAz(k))
    {
      forall k | 0 <= k <= 360
        ensures Interpolable(SampleAz(k))
      {
        assert 0.0 <= SampleAz(k) <= TWO_PI;
        SpanInterpolable(SampleAz(k));
      }
    }

    /** At a breakpoint of a valid mask the lookup returns that breakpoint's elevation exactly. */
    lemma BreakpointExact(k: nat)
      requires Valid() && k < |azimuth|
      ensures Interpolable(azimuth[k]) && MinElevation(azimuth[k]) == elevation[k]
    {
      var az := azimuth[k];
      SpanInterpolable(az);
      var b := Bracket(az);
      if k == 0 {
        assert b == 1;
      } else {
        assert b == k;
        var w := azimuth[k] - azimuth[k - 1];
        assert (elevation[k] - elevation[k - 1]) / w * w == elevation[k] - elevation[k - 1];
      }
    }

    /**
     * Inside any segment [azimuth[i-1], azimuth[i]] of a valid mask the
     * lookup lies on the straight line through the segment's two breakpoints.
     */
    lemma MinElevationOnSegment(az: real, i: nat)
      requires Valid() && 1 <= i < |azimuth|
      requires azimuth[i - 1] <= az <= azimuth[i]
      ensures Interpolable(az)
      ensures (MinElevation(az) - elevation[i - 1]) * (azimuth[i] - azimuth[i - 1])
           == (elevation[i] - elevation[i - 1]) * (az - azimuth[i - 1])
    {
      assert azimuth[0] <= azimuth[i - 1];
      assert azimuth[i] <= azimuth[|azimuth| - 1];
      SpanInterpolable(az);
      var b := Bracket(az);
      if b == i {
        QuotientTimes(elevation[i] - elevation[i - 1], azimuth[i] - azimuth[i - 1], az - azimuth[i - 1]);
      } else {
        assert b == i - 1 && az == azimuth[i - 1];
        BreakpointExact(i - 1);
      }
    }

    /** The interpolated minimum lies between the elevations of the bracketing breakpoints. */
    lemma MinElevationBetween(az: real)
      requires Valid()
      requires azimuth[0] <= az <= azimuth[|azimuth| - 1]
      ensures Interpolable(az)
      ensures var i := Bracket(az);
        && (elevation[i - 1] <= elevation[i] ==> elevation[i - 1] <= MinElevation(az) <= elevation[i])
        && (elevation[i] <= elevation[i - 1] ==> elevation[i] <= MinElevation(az) <= elevation[i - 1])
    {
      SpanInterpolable(az);
      var i := Bracket(az);
      MinElevationOnSegment(az, i);
      OnSegmentBetween(azimuth[i - 1], azimuth[i], elevation[i - 1], elevation[i], az, MinElevation(az));
    }

    /** Visibility does not change when whole turns are added to the azimuth. */
    lemma VisiblePeriodic(pv: PointingVector, k: int)
      requires Interpolable(NormalizeAz(pv.az))
      ensures Interpolable(NormalizeAz(pv.az + Turns(k)))
      ensures Visible(pv.(az := pv.az + Turns(k))) == Visible(pv)
    {
      NormalizeAzPeriodic(pv.az, k);
    }

    /** The point (az, el) lies on or above the straight line through breakpoints i-1 and i. */
    ghost predicate OnOrAboveSegment(i: nat, az: real, el: real)
      requires Valid() && 1 <= i < |azimuth|
    {
      (el - elevation[i - 1]) * (azimuth[i] - azimuth[i - 1])
        >= (elevation[i] - elevation[i - 1]) * (az - azimuth[i - 1])
    }

    /** Reaching the lookup inside a segment is being on or above that segment's line. */
    lemma AboveSegment(az: real, el: real, i: nat)
      requires Valid() && 1 <= i < |azimuth|
      requires azimuth[i - 1] <= az <= azimuth[i]
      ensures Interpolable(az)
      ensures el >= MinElevation(az) <==> OnOrAboveSegment(i, az, el)
    {
      MinElevationOnSegment(az, i);
      AboveLine(azimuth[i - 1], azimuth[i], elevation[i - 1], elevation[i], az, MinElevation(az), el);
    }

    /**
     * On a valid mask, a pointing whose reduced azimuth falls within segment
     * i is visible exactly when it lies on or above that segment; lying on
     * the segment counts as visible.
     */
    lemma VisibleAboveSegment(pv: PointingVector, i: nat)
      requires Valid() && 1 <= i < |azimuth|
      requires azimuth[i - 1] <= NormalizeAz(pv.az) <= azimuth[i]
      ensures Interpolable(NormalizeAz(pv.az))
      ensures Visible(pv) <==> OnOrAboveSegment(i, NormalizeAz(pv.az), pv.el)
    {
      AboveSegment(NormalizeAz(pv.az), pv.el, i);
    }

    /**
     * A worked mask alternating 10 and 20 degrees every quarter turn: at
     * azimuth 45 degrees the minimum is 15 degrees, so elevation 14 is hidden
     * while 15 (the boundary) and 16 are visible.
     */
    lemma QuarterTurnExample()
      requires azimuth == [SampleAz(0), SampleAz(90), SampleAz(180), SampleAz(270), SampleAz(360)]
      requires elevation == [SampleAz(10), SampleAz(20), SampleAz(10), SampleAz(20), SampleAz(10)]
      ensures Interpolable(SampleAz(45)) && MinElevation(SampleAz(45)) == SampleAz(15)
      ensures Interpolable(NormalizeAz(SampleAz(45)))
      ensures !Visible(PV(0, SampleAz(45), SampleAz(14)))
      ensures Visible(PV(0, SampleAz(45), SampleAz(15)))
      ensures Visible(PV(0, SampleAz(45), SampleAz(16)))
    {
      assert Valid();
      var az := SampleAz(45);
      assert az - az == Turns(0);
      NormalizeAzUnique(az, az);
      MinElevationOnSegment(az, 1);
    }
  }
}
