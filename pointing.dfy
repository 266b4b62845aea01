/**
 * The pointing record shared by the horizon mask and the station
 * (PointingVector / VLBI_pointingVector in the two code vintages), and the
 * optional value used where a lookup can find nothing.
 */
module Pointing {

  /** An antenna direction at a time: seconds since session start, azimuth and elevation in radians. */
  datatype PointingVector = PV(time: nat, az: real, el: real)

  datatype Option<T> = None | Some(value: T)
}
