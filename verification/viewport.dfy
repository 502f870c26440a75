/**
 * The map screen's initial viewport: centred halfway between the user and
 * the detected building, with each span 2.5 times the points' separation
 * on that axis but never narrower than 0.005 degrees.
 */
module Viewport {
  import opened Coordinates

  /** The narrowest span the viewport uses, in degrees. */
  const MinDelta: real := 0.005
  /** How many times the points' separation each span covers. */
  const SpanFactor: real := 2.5

  /** A map viewport: its centre and its full latitude and longitude spans. */
  datatype Region = Region(center: Coord, latitudeDelta: real, longitudeDelta: real)

  /** The point halfway between `a` and `b`. */
  function Midpoint(a: real, b: real): (m: real)
    ensures m - a == b - m
  {
    (a + b) / 2.0
  }

  /** The span for two points whose coordinates on one axis are `a` and `b`. */
  function Span(a: real, b: real): (d: real)
    ensures d >= MinDelta && d >= SpanFactor * Abs(a - b)
    ensures d == MinDelta || d == SpanFactor * Abs(a - b)
  {
    var scaled := Abs(a - b) * SpanFactor;
    if MinDelta >= scaled then MinDelta else scaled
  }

  /** The viewport framing both the user's position and the target. */
  function ComputeRegion(user: Coord, target: Coord): (r: Region)
    ensures r.center.latitude - user.latitude == target.latitude - r.center.latitude
    ensures r.center.longitude - user.longitude == target.longitude - r.center.longitude
    ensures r.latitudeDelta >= MinDelta && r.longitudeDelta >= MinDelta
    ensures r.latitudeDelta >= SpanFactor * Abs(user.latitude - target.latitude)
    ensures r.longitudeDelta >= SpanFactor * Abs(user.longitude - target.longitude)
    ensures r.latitudeDelta == MinDelta || r.latitudeDelta == SpanFactor * Abs(user.latitude - target.latitude)
    ensures r.longitudeDelta == MinDelta || r.longitudeDelta == SpanFactor * Abs(user.longitude - target.longitude)
  {
    Region(
      Coord(Midpoint(user.latitude, target.latitude), Midpoint(user.longitude, target.longitude)),
      Span(user.latitude, target.latitude),
      Span(user.longitude, target.longitude))
  }

  /** `p` lies inside the viewport: within half a span of the centre on each axis. */
  predicate Contains(r: Region, p: Coord)
  {
    && Abs(p.latitude - r.center.latitude) <= r.latitudeDelta / 2.0
    && Abs(p.longitude - r.center.longitude) <= r.longitudeDelta / 2.0
  }

  /** Which point is the user and which the target does not change the viewport. */
  lemma RegionSymmetric(user: Coord, target: Coord)
    ensures ComputeRegion(user, target) == ComputeRegion(target, user)
  {
  }

  /** Coinciding points get the narrowest viewport, centred on them, not a zero span. */
  lemma CoincidentPointsAtFloor(p: Coord)
    ensures ComputeRegion(p, p) == Region(p, MinDelta, MinDelta)
  {
  }

  /**
   * Both points are inside the viewport, and with headroom: each sits within
   * the middle 40% of each span, since half a span is at least 1.25 times
   * the separation while each point is half the separation from the centre.
   */
  lemma BothPointsVisible(user: Coord, target: Coord)
    ensures Contains(ComputeRegion(user, target), user)
    ensures Contains(ComputeRegion(user, target), target)
    ensures var r := ComputeRegion(user, target);
            && Abs(user.latitude - r.center.latitude) <= 0.2 * r.latitudeDelta
            && Abs(target.latitude - r.center.latitude) <= 0.2 * r.latitudeDelta
            && Abs(user.longitude - r.center.longitude) <= 0.2 * r.longitudeDelta
            && Abs(target.longitude - r.center.longitude) <= 0.2 * r.longitudeDelta
  {
  }
}
