/**
 * A VLBI station (VLBI_station): its parameter block, the geometry
 * precalculated against the other stations, its current pointing and
 * history, and the getters, setters and azimuth-unwrap entry points that
 * the scheduler calls.
 */
module Stations {
  import opened Angles
  import opened Pointing
  import opened CableWrap

  /** The antenna mount kinds. */
  datatype AxisType = AZEL | HADC | XYNS | XYEW | RICH | SEST | ALGO | Undefined

  /** The station parameter block: flags, axis safety margins in degrees, per-band minimum SNR, timing constants in seconds. */
  datatype Parameters = Parameters(
    parameterGroups: seq<string>,
    firstScan: bool,
    available: bool,
    axis1LowOffset: real,
    axis1UpOffset: real,
    axis2LowOffset: real,
    axis2UpOffset: real,
    minSNR: seq<(string, real)>,
    waitSetup: nat,
    waitSource: nat,
    waitTape: nat,
    waitCalibration: nat,
    waitCorsynch: nat,
    maxSlewtime: nat,
    maxWait: nat,
    maxScan: nat,
    minScan: nat)

  /** The parameter block as a station starts with it, before any group overrides it. */
  function DefaultParameters(): Parameters {
    Parameters(
      parameterGroups := [],
      firstScan := true,
      available := true,
      axis1LowOffset := 5.0,
      axis1UpOffset := 5.0,
      axis2LowOffset := 1.0,
      axis2UpOffset := 1.0,
      minSNR := [],
      waitSetup := 10,
      waitSource := 5,
      waitTape := 1,
      waitCalibration := 10,
      waitCorsynch := 3,
      maxSlewtime := 9999,
      maxWait := 9999,
      maxScan := 600,
      minScan := 30)
  }

  /**
   * The default block lets a fresh station be scheduled (available, first
   * scan pending), keeps 5-degree margins on the first axis and 1-degree
   * margins on the second, and admits scans of 30 to 600 seconds.
   */
  lemma DefaultParametersConsistent()
    ensures var p := DefaultParameters();
      && p.firstScan && p.available
      && p.axis1LowOffset == 5.0 && p.axis1UpOffset == 5.0
      && p.axis2LowOffset == 1.0 && p.axis2UpOffset == 1.0
      && p.maxSlewtime == 9999 && p.maxWait == 9999
      && p.minScan == 30 && p.maxScan == 600 && p.minScan <= p.maxScan
      && p.minSNR == []
  {
  }

  /** Values computed once per session against every other station, indexed by station id. */
  datatype Precalculated = Precalculated(
    mjdStart: real,
    distance: seq<real>,
    dx: seq<real>,
    dy: seq<real>,
    dz: seq<real>)

  /**
   * `r` is an unwrapping of `pv` within `lim` near `reference`: present
   * exactly when some whole-turn shift of the azimuth fits the limits, and
   * then the same pointing with its azimuth moved by whole turns into the
   * limits, as near to `reference` as any admissible value (which of two
   * equally near values is taken is left open).
   */
  ghost predicate IsUnwrapping(pv: PointingVector, reference: real, lim: AxisLimits, r: Option<PointingVector>) {
    && (r.Some? <==> exists k :: Admissible(pv.az, k, lim))
    && (r.Some? ==>
         && r.value.time == pv.time
         && r.value.el == pv.el
         && lim.lo <= r.value.az <= lim.hi
         && SameDirection(r.value.az, pv.az)
         && forall k :: Admissible(pv.az, k, lim) ==> Dist(r.value.az, reference) <= Dist(pv.az + Turns(k), reference))
  }

  /** The one unwrap algorithm behind the station's three entry points. */
  function UnwrapPointing(pv: PointingVector, reference: real, lim: AxisLimits): (r: Option<PointingVector>)
    ensures IsUnwrapping(pv, reference, lim, r)
  {
    match Unwrap(pv.az, reference, lim)
    case None => None
    case Some(az) => Some(pv.(az := az))
  }

  class Station {
    const name: string
    const id: int
    const cableWrap: Wrap
    const axis: AxisType
    var skyCoverageId: int

    var para: Parameters
    var precalc: Precalculated

    var current: PointingVector

    var historyTime: seq<nat>
    var historyEvents: seq<string>
    var pvStartScan: seq<PointingVector>
    var pvEndScan: seq<PointingVector>

    var nscans: int
    var nbls: int

    /**
     * A station with the default parameter block and nothing recorded yet.
     * The sky-coverage id and the first pointing are left open.
     */
    constructor (name: string, id: int, cableWrap: Wrap, axis: AxisType)
      ensures this.name == name && this.id == id && this.cableWrap == cableWrap && this.axis == axis
      ensures para == DefaultParameters()
      ensures precalc.distance == [] && precalc.dx == [] && precalc.dy == [] && precalc.dz == []
      ensures historyTime == [] && historyEvents == [] && pvStartScan == [] && pvEndScan == []
    {
      this.name := name;
      this.id := id;
      this.cableWrap := cableWrap;
      this.axis := axis;
      skyCoverageId := 0;
      para := DefaultParameters();
      precalc := Precalculated(0.0, [], [], [], []);
      current := PV(0, 0.0, 0.0);
      historyTime, historyEvents := [], [];
      pvStartScan, pvEndScan := [], [];
      nscans, nbls := 0, 0;
    }

    function Available(): bool reads this { para.available }
    function FirstScan(): bool reads this { para.firstScan }
    function MaxSlewtime(): nat reads this { para.maxSlewtime }
    function MaxIdleTime(): nat reads this { para.maxWait }
    function MinScanTime(): nat reads this { para.minScan }
    function MaxScanTime(): nat reads this { para.maxScan }
    function WaitSetup(): nat reads this { para.waitSetup }
    function WaitSource(): nat reads this { para.waitSource }
    function WaitTape(): nat reads this { para.waitTape }
    function WaitCalibration(): nat reads this { para.waitCalibration }
    function WaitCorsynch(): nat reads this { para.waitCorsynch }
    function GetCableWrap(): Wrap { cableWrap }
    function Name(): string { name }
    function Nbls(): int reads this { nbls }
    function SkyCoverageId(): int reads this { skyCoverageId }

    /** The time of the current pointing: when the station was last used, in seconds since session start. */
    function CurrentTime(): nat reads this { current.time }

    /** The precalculated distance to the station with id `otherId`. */
    function Distance(otherId: int): real
      reads this
      requires 0 <= otherId < |precalc.distance|
    {
      precalc.distance[otherId]
    }

    function Dx(otherId: int): real
      reads this
      requires 0 <= otherId < |precalc.dx|
    {
      precalc.dx[otherId]
    }

    function Dy(otherId: int): real
      reads this
      requires 0 <= otherId < |precalc.dy|
    {
      precalc.dy[otherId]
    }

    function Dz(otherId: int): real
      reads this
      requires 0 <= otherId < |precalc.dz|
    {
      precalc.dz[otherId]
    }

    /** The neutral point of axis `axis`: 1 for the first (azimuth) axis, 2 for the second. */
    function GetCableWrapNeutralPoint(axis: int): real
      requires axis == 1 || axis == 2
    {
      if axis == 1 then cableWrap.neutralPoint1 else cableWrap.neutralPoint2
    }

    /** A station with the default parameter block answers its getters with the default values. */
    lemma DefaultGetters()
      requires para == DefaultParameters()
      ensures Available() && FirstScan()
      ensures MaxSlewtime() == 9999 && MaxIdleTime() == 9999
      ensures MinScanTime() == 30 && MaxScanTime() == 600 && MinScanTime() <= MaxScanTime()
    {
    }

    /** A station with the default parameter block answers its timing getters with the default values. */
    lemma DefaultWaitGetters()
      requires para == DefaultParameters()
      ensures WaitSetup() == 10 && WaitSource() == 5 && WaitTape() == 1
      ensures WaitCalibration() == 10 && WaitCorsynch() == 3
    {
    }

    /** getMinSNR: the value of the first minimum-SNR entry named `band`. */
    method GetMinSnr(band: string) returns (snr: real)
      requires exists k :: 0 <= k < |para.minSNR| && para.minSNR[k].0 == band
      ensures exists k ::
        && 0 <= k < |para.minSNR|
        && para.minSNR[k].0 == band
        && snr == para.minSNR[k].1
        && forall j :: 0 <= j < k ==> para.minSNR[j].0 != band
    {
      var i := 0;
      while i < |para.minSNR|
        invariant 0 <= i <= |para.minSNR|
        invariant forall j :: 0 <= j < i ==> para.minSNR[j].0 != band
      {
        if para.minSNR[i].0 == band {
          return para.minSNR[i].1;
        }
        i := i + 1;
      }
      assert false;
    }

    method SetSkyCoverageId(id: int)
      modifies this`skyCoverageId
      ensures SkyCoverageId() == id
    {
      skyCoverageId := id;
    }

    /**
     * pushPointingVector: `pv` becomes the current pointing, so the current
     * time is its time and later unwraps measure from its azimuth.
     */
    method PushPointingVector(pv: PointingVector)
      modifies this`current
      ensures current == pv
      ensures CurrentTime() == pv.time
      ensures forall q :: UnwrapAz(q) == UnwrapAzNearAz(q, pv.az)
    {
      current := pv;
    }

    /** preCalc: keeps the session start and the per-station geometry as given. */
    method PreCalc(mjd: real, distance: seq<real>, dx: seq<real>, dy: seq<real>, dz: seq<real>)
      modifies this`precalc
      ensures precalc.mjdStart == mjd
      ensures forall i :: 0 <= i < |distance| ==> 0 <= i < |precalc.distance| && Distance(i) == distance[i]
      ensures forall i :: 0 <= i < |dx| ==> 0 <= i < |precalc.dx| && Dx(i) == dx[i]
      ensures forall i :: 0 <= i < |dy| ==> 0 <= i < |precalc.dy| && Dy(i) == dy[i]
      ensures forall i :: 0 <= i < |dz| ==> 0 <= i < |precalc.dz| && Dz(i) == dz[i]
      ensures |precalc.distance| == |distance| && |precalc.dx| == |dx| && |precalc.dy| == |dy| && |precalc.dz| == |dz|
    {
      precalc := Precalculated(mjd, distance, dx, dy, dz);
    }

    /** unwrapAz: unwrap near the azimuth of the current (old) pointing. */
    function UnwrapAz(pv: PointingVector): (r: Option<PointingVector>)
      reads this
      ensures IsUnwrapping(pv, current.az, cableWrap.axis1, r)
    {
      UnwrapPointing(pv, current.az, cableWrap.axis1)
    }

    /** unwrapAzNearAz: unwrap near the given azimuth `az`. */
    function UnwrapAzNearAz(pv: PointingVector, az: real): (r: Option<PointingVector>)
      ensures IsUnwrapping(pv, az, cableWrap.axis1, r)
    {
      UnwrapPointing(pv, az, cableWrap.axis1)
    }

    /** unwrapAzNearNeutralPoint: unwrap near the neutral point of the azimuth axis; None stands for `false`. */
    function UnwrapAzNearNeutralPoint(pv: PointingVector): (r: Option<PointingVector>)
      ensures IsUnwrapping(pv, GetCableWrapNeutralPoint(1), cableWrap.axis1, r)
    {
      UnwrapPointing(pv, GetCableWrapNeutralPoint(1), cableWrap.axis1)
    }

    /** A pointing already inside the limits, unwrapped near its own azimuth, is returned unchanged. */
    lemma UnwrapNearOwnAzimuth(pv: PointingVector)
      requires cableWrap.axis1.lo <= pv.az <= cableWrap.axis1.hi
      ensures UnwrapAzNearAz(pv, pv.az) == Some(pv)
    {
      UnwrapIdempotent(pv.az, cableWrap.axis1);
    }

    /**
     * Whether an unwrap succeeds does not depend on the reference: a pointing
     * no whole-turn shift brings inside the limits fails under all three entry points.
     */
    lemma UnwrapFeasibilityIndependentOfReference(pv: PointingVector, az: real)
      ensures UnwrapAz(pv).Some? == UnwrapAzNearAz(pv, az).Some? == UnwrapAzNearNeutralPoint(pv).Some?
      ensures UnwrapAz(pv).Some? <==> exists k :: Admissible(pv.az, k, cableWrap.axis1)
    {
    }
  }
}
