/**
 * Positions, location fixes and route length. The platform's geodesic
 * (`Location.distanceBetween`, converted from metres to kilometres) is not
 * modelled: it is a `Metric`, any non-negative distance function, supplied
 * by whoever builds the session or the form.
 */
module Geo {

  /** A `LatLng`: latitude and longitude in degrees. */
  datatype GeoPoint = GeoPoint(latitude: real, longitude: real)

  /** A `Location` delivered by the location service: where, and how fast (m/s). */
  datatype Fix = Fix(position: GeoPoint, speed: real)

  /** A distance in kilometres between two points; never negative. */
  type Metric = d: (GeoPoint, GeoPoint) -> real | forall p, q :: d(p, q) >= 0.0
    witness (p: GeoPoint, q: GeoPoint) => 0.0

  /**
   * The length of a route: the distance of every leg between consecutive
   * points, summed from the first point on.
   */
  function PathLength(dist: Metric, route: seq<GeoPoint>): (r: real)
    ensures r >= 0.0
    ensures |route| < 2 ==> r == 0.0
  {
    if |route| < 2 then 0.0 else dist(route[0], route[1]) + PathLength(dist, route[1..])
  }

  /**
   * Appending a point to a non-empty route lengthens it by exactly the leg
   * from its last point to the new one; appending to an empty route leaves
   * the length at 0.
   */
  lemma {:induction false} PathLengthSnoc(dist: Metric, route: seq<GeoPoint>, p: GeoPoint)
    ensures PathLength(dist, route + [p]) ==
            if route == [] then 0.0 else PathLength(dist, route) + dist(route[|route| - 1], p)
  {
    if |route| >= 2 {
      assert (route + [p])[1..] == route[1..] + [p];
      PathLengthSnoc(dist, route[1..], p);
    }
  }

  /** Extending a route never shortens it. */
  lemma {:induction false} PathLengthPrefix(dist: Metric, route: seq<GeoPoint>, more: seq<GeoPoint>)
    ensures PathLength(dist, route) <= PathLength(dist, route + more)
  {
    if more != [] {
      var init := more[..|more| - 1];
      assert route + more == (route + init) + [more[|more| - 1]];
      PathLengthPrefix(dist, route, init);
      PathLengthSnoc(dist, route + init, more[|more| - 1]);
    } else {
      assert route + more == route;
    }
  }
}
