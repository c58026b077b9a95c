/** Distances and the geodesic operations of the Turf library, which are left abstract:
    the filter is given them as a `Turf` value and never looks inside. */
module Measurement {
  import opened GeoJson

  /** A finite, non-negative geodesic length. The unit is whatever the Turf operation that
      produced it uses: metres where the source passes `UNIT_METRES`, Turf's default unit for
      `distance`, which the source calls without a unit. */
  type Length = r: real | r >= 0.0

  /** A distance that may be the IEEE positive infinity the source starts its minimum from. */
  datatype Distance = Finite(length: Length) | PositiveInfinity {

    /** The strict `<` of doubles, restricted to non-negative values and +infinity: +infinity is
        less than nothing, and every finite value is less than +infinity. */
    predicate Less(other: Distance)
      ensures PositiveInfinity? ==> !Less(other)
      ensures Finite? && other.PositiveInfinity? ==> Less(other)
      ensures Finite? && other.Finite? ==> (Less(other) <==> length < other.length)
    {
      Finite? && (other.PositiveInfinity? || length < other.length)
    }
  }

  /** `Math.min` on two such distances. */
  function Min(a: Distance, b: Distance): (m: Distance)
    ensures m == a || m == b
    ensures !a.Less(m) && !b.Less(m)
  {
    if b.Less(a) then b else a
  }

  /** The Turf operations the filter calls: lineSlice(start, stop, line) is the part of `line`
      between the points nearest to `start` and `stop`; along(line, d) is the point `d` metres
      along `line`; lineSliceAlong(line, d0, d1) is the part of `line` between `d0` and `d1`
      metres; distance is the geodesic distance in Turf's default unit. */
  datatype Turf = Turf(
    lineSlice: (Point, Point, LineString) -> LineString,
    along: (LineString, real) -> Point,
    lineSliceAlong: (LineString, real, real) -> LineString,
    distance: (Point, Point) -> Length)
}
