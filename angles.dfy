/**
 * Angle arithmetic shared by the horizon mask and the cable-wrap unwrap:
 * the constants, C's truncating `fmod`, and the reduction of an azimuth
 * into [0, 2π). Angles are exact reals; PI is π to 16 significant digits
 * and TWO_PI and DEG2RAD are derived from it exactly.
 */
module Angles {

  const PI: real := 3.141592653589793
  const TWO_PI: real := 2.0 * PI
  const DEG2RAD: real := PI / 180.0

  /** An angle of `k` whole turns. */
  function Turns(k: int): real {
    k as real * TWO_PI
  }

  /** `a` and `b` point the same way: they differ by whole turns. */
  ghost predicate SameDirection(a: real, b: real) {
    exists k: int :: a - b == Turns(k)
  }

  lemma TurnsAdd(j: int, k: int)
    ensures Turns(j) + Turns(k) == Turns(j + k)
  {
  }

  /** Rounding toward zero, as a C conversion of a double to an integer does. */
  function Trunc(x: real): (t: int)
    ensures x >= 0.0 ==> 0 <= t && t as real <= x < t as real + 1.0
    ensures x < 0.0 ==> t <= 0 && t as real - 1.0 < x <= t as real
  {
    if x >= 0.0 then x.Floor else -((-x).Floor)
  }

  /** C's `fmod(x, 2π)`: the remainder keeps the sign of `x`. */
  function FmodTwoPi(x: real): (r: real)
    ensures x >= 0.0 ==> 0.0 <= r < TWO_PI
    ensures x < 0.0 ==> -TWO_PI < r <= 0.0
    ensures SameDirection(x, r)
  {
    var k := Trunc(x / TWO_PI);
    assert x - (x - Turns(k)) == Turns(k);
    x - Turns(k)
  }

  /** The azimuth reduction of HorizonMask_line::visible: fmod, then add 2π to a negative remainder. */
  function NormalizeAz(az: real): (r: real)
    ensures 0.0 <= r < TWO_PI
    ensures SameDirection(az, r)
  {
    var f := FmodTwoPi(az);
    if f < 0.0 then
      var k :| az - f == Turns(k);
      TurnsAdd(k, -1);
      assert az - (f + TWO_PI) == Turns(k - 1);
      f + TWO_PI
    else
      f
  }

  /** Two directions inside the same turn [0, 2π) agree only when they are equal. */
  lemma SameDirectionWithinTurn(a: real, b: real)
    requires 0.0 <= a < TWO_PI && 0.0 <= b < TWO_PI
    requires SameDirection(a, b)
    ensures a == b
  {
    var k :| a - b == Turns(k);
    assert -1 < k < 1;
  }

  /** NormalizeAz yields the only value in [0, 2π) pointing the same way as `az`. */
  lemma NormalizeAzUnique(az: real, r: real)
    requires 0.0 <= r < TWO_PI
    requires SameDirection(az, r)
    ensures NormalizeAz(az) == r
  {
    var n := NormalizeAz(az);
    var j :| az - n == Turns(j);
    var k :| az - r == Turns(k);
    TurnsAdd(k, -j);
    assert n - r == Turns(k - j);
    SameDirectionWithinTurn(n, r);
  }

  /** Adding whole turns to an azimuth does not change its reduction. */
  lemma NormalizeAzPeriodic(az: real, k: int)
    ensures NormalizeAz(az + Turns(k)) == NormalizeAz(az)
  {
    var n := NormalizeAz(az);
    var j :| az - n == Turns(j);
    TurnsAdd(k, j);
    assert (az + Turns(k)) - n == Turns(k + j);
    NormalizeAzUnique(az + Turns(k), n);
  }
}
