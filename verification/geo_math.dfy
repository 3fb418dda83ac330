/** Coordinate validation and the great-circle distance used to derive leg lengths. */
module GeoMath {

  /** A coordinate is valid when it lies in [-90, 90] or in [-180, 180]. The same
      check is applied to latitudes and to longitudes, so the first range adds
      nothing: the predicate accepts exactly [-180, 180]. */
  function IsValidCoordinate(value: real): (ok: bool)
    ensures ok <==> -180.0 <= value <= 180.0
  {
    (-90.0 <= value <= 90.0) || (-180.0 <= value <= 180.0)
  }

  /** The accepted and refused values named by the tests, the inclusive bounds,
      and a latitude of 120 degrees, which the shared check lets through. */
  lemma ValidCoordinateCases()
    ensures IsValidCoordinate(45.0) && IsValidCoordinate(-89.999)
    ensures !IsValidCoordinate(1000.0) && !IsValidCoordinate(-200.0)
    ensures IsValidCoordinate(180.0) && IsValidCoordinate(-180.0)
    ensures IsValidCoordinate(90.0) && IsValidCoordinate(-90.0)
    ensures IsValidCoordinate(120.0)
    ensures forall v :: v > 180.0 || v < -180.0 ==> !IsValidCoordinate(v)
  {
  }

  /** A distance in kilometres between (lat1, lon1) and (lat2, lon2), in degrees. */
  type DistanceFn = (real, real, real, real) -> real

  /** The laws the haversine formula (Earth radius 6371 km, result rounded to two
      decimals) is relied on for: a point is at distance 0 from itself, no
      distance is negative, and the distance does not depend on the direction
      of travel. */
  ghost predicate IsGreatCircleLike(dist: DistanceFn)
  {
    (forall lat, lon :: dist(lat, lon, lat, lon) == 0.0) &&
    (forall lat1, lon1, lat2, lon2 :: dist(lat1, lon1, lat2, lon2) >= 0.0) &&
    (forall lat1, lon1, lat2, lon2 ::
       dist(lat1, lon1, lat2, lon2) == dist(lat2, lon2, lat1, lon1))
  }
}
