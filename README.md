# VieSchedpp station pointing core, in Dafny

This project models the per-station pointing core of the VieSchedpp VLBI
scheduler: the line-shaped horizon mask (`HorizonMask_line`) and the state
and API of a station (`VLBI_station`). A horizon mask is a list of
(azimuth, elevation) breakpoints. Between the bracketing pair the minimum
observable elevation is interpolated linearly. A pointing is visible when
its elevation reaches that minimum at its azimuth, reduced into [0, 2π).
A station holds:

- a parameter block with defaults;
- per-band minimum SNRs;
- distances and coordinate deltas to every other station, computed once per session;
- a current pointing;
- scan and baseline counters and four history lists.

A station unwraps a raw azimuth by whole turns into its cable-wrap limits.
Where several values fit, it takes the one nearest to a reference azimuth.

Files and modules:

- `angles.dfy` (`Angles`): π, 2π and degrees-to-radians as exact reals. PI
  is π to 16 significant digits; TWO_PI and DEG2RAD are derived from it
  exactly. It also holds C's truncating `fmod` and the reduction of an
  azimuth into [0, 2π).
- `pointing.dfy` (`Pointing`): the shared `PointingVector` record (time,
  azimuth, elevation) and `Option`.
- `horizon_mask.dfy` (`Horizon`): class `HorizonMaskLine`. `Az2El`,
  `IsVisible` and `GetHorizonMask` follow the source's code. The ghost
  `MinElevation` and `Visible` are what they are proved against. The lemmas
  about those two state what the mask promises.
- `cable_wrap.dfy` (`CableWrap`): one unwrap algorithm, `Unwrap`, with the
  reference azimuth as a parameter.
- `station.dfy` (`Stations`): the `Parameters` block and its defaults, and
  class `Station` with its getters, `GetMinSnr`, the two setters, `PreCalc`
  and the three unwrap entry points.

Each of the three entry points calls `UnwrapPointing` with its own reference:

- `UnwrapAz`: the azimuth of the current (old) pointing;
- `UnwrapAzNearAz`: an explicit azimuth;
- `UnwrapAzNearNeutralPoint`: the neutral point of the azimuth axis, `GetCableWrapNeutralPoint(1)`.

The neutral point is an input of the model. The doc comment of
`unwrapAzNearNeutralPoint` says "closest to the current antenna position",
but its name and `getCableWrapNeutralPoint` say "neutral point". The model
follows the name and leaves the value of the neutral point open. The header
states no tie-break rule, so the contracts say "as near as any admissible
value". They leave open which of two equally near values is returned.

The getters read one field each. Each has its own row in the table below,
and the default values of the parameter getters are stated by
`DefaultGetters` and `DefaultWaitGetters`.

## Model

| member | source | states |
|---|---|---|
| `Angles.Trunc` | HorizonMask_line.cpp:15 | rounds toward zero: the result has the sign of `x` and lies within one of it, on the side of zero |
| `Angles.FmodTwoPi` | HorizonMask_line.cpp:15 | `fmod(az, 2π)`: the remainder keeps the sign of `az`, has magnitude below 2π, and differs from `az` by whole turns |
| `Angles.NormalizeAz` | HorizonMask_line.cpp:14-18 | the reduced azimuth lies in [0, 2π) and points the same way as the input |
| `Angles.SameDirectionWithinTurn` | HorizonMask_line.cpp:14-18 | two values in [0, 2π) that differ by whole turns are equal |
| `Angles.NormalizeAzUnique` | HorizonMask_line.cpp:14-18 | the reduction is the only value in [0, 2π) pointing the same way as the input |
| `Angles.NormalizeAzPeriodic` | HorizonMask_line.cpp:14-18 | adding any whole number of turns leaves the reduced azimuth unchanged |
| `Horizon.HorizonMaskLine.constructor` | HorizonMask_line.cpp:9-11 | stores both breakpoint vectors unchanged and requires nothing of them |
| `Horizon.HorizonMaskLine.BracketFrom` | HorizonMask_line.cpp:46-49 | the scan from index i stops at the first index whose azimuth is at or beyond `az` |
| `Horizon.HorizonMaskLine.Bracket` | HorizonMask_line.cpp:46-49 | the stopping index is the smallest i >= 1 with az <= azimuth[i], and it is in bounds |
| `Horizon.HorizonMaskLine.MinElevation` | HorizonMask_line.cpp:45-53 | the specification of az2el: the linear interpolation between the breakpoints around the first index from 1 on whose azimuth reaches `az` |
| `Horizon.HorizonMaskLine.Visible` | HorizonMask_line.cpp:13-24 | the specification of visible: the elevation reaches the minimum at the azimuth reduced into [0, 2π) |
| `Horizon.HorizonMaskLine.Az2El` | HorizonMask_line.cpp:45-54 | under exactly the conditions that keep every `.at` in bounds and the division defined, the loop stops at the bracketing index and returns the interpolated minimum elevation |
| `Horizon.HorizonMaskLine.IsVisible` | HorizonMask_line.cpp:13-24 | reduces the azimuth with fmod plus 2π, looks up the minimum there, and answers `el >= minimum` |
| `Horizon.HorizonMaskLine.GetHorizonMask` | HorizonMask_line.cpp:30-43 | returns exactly 361 azimuths and 361 elevations; entry k is k degrees in radians and the minimum elevation there |
| `Horizon.HorizonMaskLine.SpanInterpolable` | HorizonMask_line.cpp:46-49 | on a valid mask every azimuth within the breakpoints' span can be looked up, and it lies between its bracketing pair |
| `Horizon.HorizonMaskLine.CircleInterpolable` | HorizonMask_line.cpp:13-21 | a valid mask spanning [0, 2π] can be looked up at the reduced azimuth of every pointing |
| `Horizon.HorizonMaskLine.CircleSamplesInterpolable` | HorizonMask_line.cpp:34-36 | a valid mask spanning [0, 2π] can be looked up at every whole degree 0..360 |
| `Horizon.HorizonMaskLine.BreakpointExact` | HorizonMask_line.cpp:46-53 | with strictly increasing azimuths, the lookup at breakpoint k returns exactly elevation k |
| `Horizon.HorizonMaskLine.MinElevationOnSegment` | HorizonMask_line.cpp:50-53 | inside any segment of a valid mask, the lookup lies on the straight line through that segment's two breakpoints |
| `Horizon.HorizonMaskLine.MinElevationBetween` | HorizonMask_line.cpp:50-53 | the interpolated minimum lies between the elevations of its two bracketing breakpoints |
| `Horizon.HorizonMaskLine.AboveSegment` | HorizonMask_line.cpp:50-53 | reaching the lookup inside a segment means lying on or above that segment's line, in both directions |
| `Horizon.HorizonMaskLine.VisiblePeriodic` | HorizonMask_line.cpp:13-24 | visibility is unchanged when whole turns are added to the azimuth |
| `Horizon.HorizonMaskLine.VisibleAboveSegment` | HorizonMask_line.cpp:20-23 | on a valid mask, a pointing whose reduced azimuth falls within a segment is visible exactly when it is on or above that segment; lying on it counts |
| `Horizon.HorizonMaskLine.QuarterTurnExample` | HorizonMask_line.cpp:45-53 | mask 10/20/10/20/10 degrees at 0/90/180/270/360: minimum 15 degrees at azimuth 45; elevation 14 is hidden, 15 and 16 are visible |
| `CableWrap.AdmissibleRange` | VLBI_station.h:355-356 | the whole-turn shifts that land inside the limits are exactly the integers between two bounds |
| `CableWrap.NearestCandidates` | VLBI_station.h:356-358 | an integer that is no farther from x than its in-range neighbours, on the side away from x, is nearest among all integers in range |
| `CableWrap.NearestTurn` | VLBI_station.h:356-358 | picks an integer of [kLo, kHi] that no other integer of the range is nearer to |
| `CableWrap.DistInTurns` | VLBI_station.h:355-358 | distances between whole-turn shifts are 2π times distances between turn counts |
| `CableWrap.Unwrap` | VLBI_station.h:355-358 | present exactly when some whole-turn shift fits the limits; then inside the limits, a whole-turn shift of the input, and as near the reference as any admissible shift |
| `CableWrap.UnwrapIdempotent` | VLBI_station.h:355-358 | an azimuth already inside the limits, unwrapped against itself, comes back unchanged |
| `CableWrap.UnwrapExample` | VLBI_station.h:386-389 | limits [-90, 450] degrees, raw 350, reference 0: the result is -10 degrees |
| `Stations.UnwrapPointing` | VLBI_station.h:352-398 | the shared unwrap: time and elevation kept, azimuth unwrapped as `Unwrap` states |
| `Stations.DefaultParameters` | VLBI_station.h:67-88 | the parameter block with the member-initialiser defaults of `PARAMETERS` and empty group and SNR lists |
| `Stations.DefaultParametersConsistent` | VLBI_station.h:67-88 | defaults: first scan and available set, axis margins 5/5/1/1 degrees, max slew time 9999, scans 30 to 600 seconds |
| `Stations.Station.constructor` | VLBI_station.h:118-125 | name, id, cable wrap and axis type stored; default parameters; empty geometry and histories |
| `Stations.Station.Available` | VLBI_station.h:136-178 | getter: returns `para.available` |
| `Stations.Station.FirstScan` | VLBI_station.h:136-178 | getter: returns `para.firstScan` |
| `Stations.Station.MaxSlewtime` | VLBI_station.h:136-178 | getter: returns `para.maxSlewtime` |
| `Stations.Station.MaxIdleTime` | VLBI_station.h:136-178 | getter: returns `para.maxWait` |
| `Stations.Station.MinScanTime` | VLBI_station.h:136-178 | getter: returns `para.minScan` |
| `Stations.Station.MaxScanTime` | VLBI_station.h:136-178 | getter: returns `para.maxScan` |
| `Stations.Station.WaitSetup` | VLBI_station.h:484-518 | getter: returns `para.waitSetup` |
| `Stations.Station.WaitSource` | VLBI_station.h:484-518 | getter: returns `para.waitSource` |
| `Stations.Station.WaitTape` | VLBI_station.h:484-518 | getter: returns `para.waitTape` |
| `Stations.Station.WaitCalibration` | VLBI_station.h:484-518 | getter: returns `para.waitCalibration` |
| `Stations.Station.WaitCorsynch` | VLBI_station.h:484-518 | getter: returns `para.waitCorsynch` |
| `Stations.Station.GetCableWrap` | VLBI_station.h:184-186 | getter: returns the station's cable wrap |
| `Stations.Station.Name` | VLBI_station.h:192-194 | getter: returns the station name |
| `Stations.Station.CurrentTime` | VLBI_station.h:200-202 | getter: returns `current.time`, the time of the current pointing |
| `Stations.Station.Distance` | VLBI_station.h:243-245 | getter: returns `precalc.distance[otherId]`; the index must be in range |
| `Stations.Station.Dx` | VLBI_station.h:280-282 | getter: returns `precalc.dx[otherId]`; the index must be in range |
| `Stations.Station.Dy` | VLBI_station.h:290-292 | getter: returns `precalc.dy[otherId]`; the index must be in range |
| `Stations.Station.Dz` | VLBI_station.h:300-302 | getter: returns `precalc.dz[otherId]`; the index must be in range |
| `Stations.Station.Nbls` | VLBI_station.h:309-311 | getter: returns the number of baselines observed so far |
| `Stations.Station.SkyCoverageId` | VLBI_station.h:318-320 | getter: returns the sky-coverage id |
| `Stations.Station.GetCableWrapNeutralPoint` | VLBI_station.h:426-432 | getter: the neutral point of axis 1 or axis 2, as the axis argument selects |
| `Stations.Station.DefaultGetters` | VLBI_station.h:136-178 | with default parameters the getters return available, first scan, 9999, 9999, 30 and 600 |
| `Stations.Station.DefaultWaitGetters` | VLBI_station.h:484-518 | with default parameters the timing getters return 10, 5, 1, 10 and 3 seconds |
| `Stations.Station.GetMinSnr` | VLBI_station.h:229-235 | when the band is configured, returns the value of the first entry named `band` |
| `Stations.Station.SetSkyCoverageId` | VLBI_station.h:318-329 | afterwards the sky-coverage id getter returns `id`; no other field may change |
| `Stations.Station.PushPointingVector` | VLBI_station.h:419-424 | the pushed pointing becomes current, the current time is its time, and every later `UnwrapAz` measures from its azimuth; nothing else changes |
| `Stations.Station.PreCalc` | VLBI_station.h:451-460 | keeps the inputs as given, so `getDistance`, `dx`, `dy`, `dz` at index i return the i-th input |
| `Stations.Station.UnwrapAz` | VLBI_station.h:352-363 | unwraps near the current pointing's azimuth, with the shared unwrap contract |
| `Stations.Station.UnwrapAzNearNeutralPoint` | VLBI_station.h:365-380 | unwraps near the cable wrap's neutral point; failure is the `false` result |
| `Stations.Station.UnwrapAzNearAz` | VLBI_station.h:382-398 | unwraps near the given azimuth, with the shared unwrap contract |
| `Stations.Station.UnwrapNearOwnAzimuth` | VLBI_station.h:384-389 | a pointing already within the limits, unwrapped near its own azimuth, is returned unchanged |
| `Stations.Station.UnwrapFeasibilityIndependentOfReference` | VLBI_station.h:352-398 | whether an unwrap succeeds is the same for all three references: exactly when some whole-turn shift fits the limits |

## Left out

- `main.cpp`, `ObservingMode.h` and `VLBI_baseline.h`: command-line handling, timing, console output, catalog reading, VEX output and a plain value container. None of this is pointing logic.
- `isVisible` and `getAzEl`: coordinate transforms through SOFA and nutation code, which is not part of this model. Azimuth and elevation are inputs here.
- `update` and `slewTime`: VLBI_station.h declares them without a body, and their definitions are not part of this model. No commit or slew formula is modelled. No modelled operation changes the counters or history lists, which exist as fields only.
- `setParameters` (XML parsing), `operator<<` (stream output), `distance(VLBI_station)`, `setCableWrapMinimumOffsets`, `getSEFD`, `getMaxSEFD`, and `getX`/`getY`/`getZ`: VLBI_station.h declares some of them without a body and their definitions are not part of this model; the others are output only or delegate to the equipment and position classes. Those classes are not part of this model.
- `HorizonMask_line::vexOutput`: it returns an empty string and is output only.
- IEEE doubles: all angles are exact reals. PI is π to 16 significant digits; TWO_PI and DEG2RAD are derived from it exactly. The program takes `twopi` and `deg2rad` from VieVS_constants.h, which is not part of this model, and the rounding of those doubles, of `fmod` and of the degree-to-radian conversion is not modelled.
- Horizon.HorizonMaskLine.Az2El: equal bracketing azimuths give an infinity or NaN in the source. Here they are a precondition, because real division by zero is undefined.
- Stations.Station.GetMinSnr: the source falls off the end of the loop without a return when the band is absent, which is undefined behaviour. The model requires the band to be present.
- Stations.Station.Distance, Dx, Dy, Dz: `operator[]` does no bounds check. The model requires the index to be in range.
- Stations.Station.UnwrapAz, UnwrapAzNearAz: the source returns `void`, and what the definition does when no whole-turn shift fits is not part of this model. The model returns `None`. VLBI_station.h declares both without a body. The contract is the doc comment's promise, and it leaves open which of two equally near values is taken.
- Stations.Station.UnwrapAzNearNeutralPoint: the neutral point is a given number. The definition of `getCableWrapNeutralPoint` and the cable-wrap class are not part of this model. Axis limits are plain reals; the safety margins are not applied to them.
- Stations.Station.PreCalc: VLBI_station.h declares it without a body, and its definition is not part of this model. The model stores its inputs as given.
- Stations.Station.PushPointingVector: VLBI_station.h:424 declares it without a body, and its definition is not part of this model. The model reads its documentation, "change current pointing vector", as replacing `current` and nothing else.
- Stations.Station.GetCableWrapNeutralPoint: both neutral points are given numbers, because the cable-wrap class that derives them is not part of this model. The axis argument must be 1 or 2, the two values its documentation names; what the definition returns for any other value is not part of this model.
- Stations.Station.constructor: VLBI_station.h declares it without a body, and its definition is not part of this model. The initial sky-coverage id, current pointing and counters are left open. Antenna, position, equipment and the old-style mask are not modelled. The source takes the axis type as a string; the model takes the already parsed `AxisType`, and the mapping from string to enum is not modelled.
- `unsigned int` fields and times are unbounded `nat`s. No modelled operation does arithmetic on them, so 32-bit wrap-around cannot arise.
