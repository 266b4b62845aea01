/**
 * Azimuth unwrapping against the cable-wrap limits of the first axis: a raw
 * azimuth is moved by whole turns into [lo, hi], and where several such
 * values exist the one nearest to a reference azimuth is taken. The three
 * unwrap entry points of the station differ only in that reference.
 */
module CableWrap {
  import opened Angles
  import opened Pointing

  /** The range one axis may take, in radians. */
  datatype AxisLimits = AxisLimits(lo: real, hi: real)

  /**
   * The part of a station's cable wrap that unwrapping uses: the limits of
   * the azimuth axis and the neutral points of the first and second axis
   * (given numbers; how the cable wrap derives them is not part of this
   * model).
   */
  datatype Wrap = Wrap(axis1: AxisLimits, neutralPoint1: real, neutralPoint2: real)

  function Dist(a: real, b: real): (d: real)
    ensures d >= 0.0 && (d == a - b || d == b - a)
  {
    if a >= b then a - b else b - a
  }

  /** Rounding up to an integer. */
  function Ceil(x: real): (c: int)
    ensures c as real - 1.0 < x <= c as real
  {
    -((-x).Floor)
  }

  /** Moving `az` by `k` turns lands inside the limits. */
  predicate Admissible(az: real, k: int, lim: AxisLimits) {
    lim.lo <= az + Turns(k) <= lim.hi
  }

  /** The admissible turn counts are exactly the integers of [Ceil((lo - az) / 2π), Floor((hi - az) / 2π)]. */
  lemma AdmissibleRange(az: real, k: int, lim: AxisLimits)
    ensures Admissible(az, k, lim)
        <==> Ceil((lim.lo - az) / TWO_PI) <= k <= ((lim.hi - az) / TWO_PI).Floor
  {
    var x, y := (lim.lo - az) / TWO_PI, (lim.hi - az) / TWO_PI;
    assert x * TWO_PI == lim.lo - az && y * TWO_PI == lim.hi - az;
    assert lim.lo <= az + Turns(k) <==> x <= k as real;
    assert az + Turns(k) <= lim.hi <==> k as real <= y;
  }

  /** How far turn count `k` is from the fractional turn count `x`. */
  function TurnGap(k: int, x: real): real {
    Dist(k as real, x)
  }

  /** Among the integers of [kLo, kHi], none is nearer to `x` than `k`. */
  lemma NearestCandidates(x: real, kLo: int, kHi: int, k: int)
    requires kLo <= k <= kHi
    requires k == kLo || k <= x.Floor || TurnGap(k, x) <= TurnGap(k - 1, x)
    requires k == kHi || k > x.Floor || TurnGap(k, x) <= TurnGap(k + 1, x)
    ensures forall j :: kLo <= j <= kHi ==> TurnGap(k, x) <= TurnGap(j, x)
  {
    var f := x.Floor;
    forall j | kLo <= j <= kHi
      ensures TurnGap(k, x) <= TurnGap(j, x)
    {
      if j < k {
        assert TurnGap(k - 1, x) <= TurnGap(j, x);
      } else if j > k {
        assert TurnGap(k + 1, x) <= TurnGap(j, x);
      }
    }
  }

  /** The integer of [kLo, kHi] nearest to `x`; on a tie the lower one. */
  function NearestTurn(x: real, kLo: int, kHi: int): (k: int)
    requires kLo <= kHi
    ensures kLo <= k <= kHi
    ensures forall j :: kLo <= j <= kHi ==> TurnGap(k, x) <= TurnGap(j, x)
  {
    var f := x.Floor;
    var k :=
      if f < kLo then kLo
      else if f >= kHi then kHi
      else if TurnGap(f, x) <= TurnGap(f + 1, x) then f
      else f + 1;
    NearestCandidates(x, kLo, kHi, k);
    k
  }

  /** Distances between turned azimuths are 2π times distances between turn counts. */
  lemma DistInTurns(az: real, reference: real, k: int)
    ensures Dist(az + Turns(k), reference) == TWO_PI * TurnGap(k, (reference - az) / TWO_PI)
  {
    var x := (reference - az) / TWO_PI;
    assert x * TWO_PI == reference - az;
  }

  /**
   * The unwrapped azimuth: `az` moved by whole turns into the limits,
   * nearest to `reference`; None when no whole-turn shift fits the limits.
   */
  function Unwrap(az: real, reference: real, lim: AxisLimits): (r: Option<real>)
    ensures r.Some? <==> exists k :: Admissible(az, k, lim)
    ensures r.Some? ==> lim.lo <= r.value <= lim.hi && SameDirection(r.value, az)
    ensures r.Some? ==>
      forall k :: Admissible(az, k, lim) ==> Dist(r.value, reference) <= Dist(az + Turns(k), reference)
  {
    var kLo, kHi := Ceil((lim.lo - az) / TWO_PI), ((lim.hi - az) / TWO_PI).Floor;
    if kLo > kHi then
      assert forall k :: !Admissible(az, k, lim) by {
        forall k ensures !Admissible(az, k, lim) {
          AdmissibleRange(az, k, lim);
        }
      }
      None
    else
      var x := (reference - az) / TWO_PI;
      var k := NearestTurn(x, kLo, kHi);
      AdmissibleRange(az, k, lim);
      assert (az + Turns(k)) - az == Turns(k);
      assert forall j :: Admissible(az, j, lim) ==> Dist(az + Turns(k), reference) <= Dist(az + Turns(j), reference) by {
        forall j | Admissible(az, j, lim)
          ensures Dist(az + Turns(k), reference) <= Dist(az + Turns(j), reference)
        {
          AdmissibleRange(az, j, lim);
          DistInTurns(az, reference, k);
          DistInTurns(az, reference, j);
        }
      }
      Some(az + Turns(k))
  }

  /** An azimuth already inside the limits, unwrapped against itself, is returned unchanged. */
  lemma UnwrapIdempotent(az: real, lim: AxisLimits)
    requires lim.lo <= az <= lim.hi
    ensures Unwrap(az, az, lim) == Some(az)
  {
    assert Admissible(az, 0, lim);
    var r := Unwrap(az, az, lim);
    assert Dist(r.value, az) <= Dist(az + Turns(0), az);
  }

  /**
   * A worked case: limits [-90, 450] degrees, raw azimuth 350 degrees,
   * reference 0 degrees; the admissible values are -10 and 350 degrees and
   * the unwrap picks -10.
   */
  lemma UnwrapExample()
    ensures Unwrap(350.0 * DEG2RAD, 0.0, AxisLimits(-90.0 * DEG2RAD, 450.0 * DEG2RAD))
         == Some(-10.0 * DEG2RAD)
  {
    var az, lim := 350.0 * DEG2RAD, AxisLimits(-90.0 * DEG2RAD, 450.0 * DEG2RAD);
    var r := Unwrap(az, 0.0, lim);
    assert Admissible(az, -1, lim);
    assert r.Some?;
    var j :| r.value - az == Turns(j);
    assert Admissible(az, j, lim);
    AdmissibleRange(az, j, lim);
    assert j == -1 || j == 0;
    assert Dist(r.value, 0.0) <= Dist(az + Turns(-1), 0.0);
  }
}
