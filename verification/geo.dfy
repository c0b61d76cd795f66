/** Geographic points in degrees and the planar interpolation the route
    partitioner uses. Coordinates are reals, so interpolation is exact. */
module Geo {

  datatype GeoPoint = GeoPoint(lat: real, lon: real)

  /** A distance metric as the callers supply it: any non-negative function. */
  ghost predicate NonNegative(metric: (GeoPoint, GeoPoint) -> real)
  {
    forall p, q :: metric(p, q) >= 0.0
  }

  /** Linear interpolation of latitude and longitude, each on its own.
      The body is the definition; the ensures only record its endpoints. */
  function Lerp(a: GeoPoint, b: GeoPoint, ratio: real): (p: GeoPoint)
    ensures ratio == 0.0 ==> p == a
    ensures ratio == 1.0 ==> p == b
    ensures a == b ==> p == a
  {
    GeoPoint(a.lat + (b.lat - a.lat) * ratio, a.lon + (b.lon - a.lon) * ratio)
  }

  /** Between two distinct endpoints, different ratios give different points. */
  lemma LerpInjective(a: GeoPoint, b: GeoPoint, r1: real, r2: real)
    requires a != b
    requires r1 != r2
    ensures Lerp(a, b, r1) != Lerp(a, b, r2)
  {
  }
}
