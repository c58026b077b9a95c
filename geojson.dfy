/** The GeoJSON values the way-name filter reads: points, line strings, geometries and features. */
module GeoJson {
  import opened Wrappers

  /** A longitude/latitude pair in degrees; two points are equal when both coordinates are. */
  datatype Point = Point(longitude: real, latitude: real)

  /** An ordered polyline; the order of its coordinates is its direction. */
  datatype LineString = LineString(coordinates: seq<Point>)

  /** The geometry of a queried feature. Every GeoJSON geometry other than a line string or a
      multi line string (points, polygons, collections) is `OtherGeometry`. */
  datatype Geometry =
    | LineStringGeometry(line: LineString)
    | MultiLineStringGeometry(lines: seq<LineString>)
    | OtherGeometry

  /** A queried map feature; its geometry may be absent (null in the source). */
  datatype Feature = Feature(geometry: Option<Geometry>, name: Option<string>)

  /** The last coordinate of a non-empty line. */
  function Last(line: LineString): Point
    requires |line.coordinates| > 0
  {
    line.coordinates[|line.coordinates| - 1]
  }
}
