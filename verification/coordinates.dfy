/** Geographic positions shared by the backend lookup table and the map screen. */
module Coordinates {

  /** A latitude/longitude pair in degrees, with exact real arithmetic. */
  datatype Coord = Coord(latitude: real, longitude: real)

  function Abs(x: real): (r: real)
    ensures r >= 0.0
    ensures r == x || r == -x
  {
    if x < 0.0 then -x else x
  }
}
