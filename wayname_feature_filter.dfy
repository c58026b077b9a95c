/** The way-name feature filter: from the road features a map query returned near the user,
    pick the one whose line best matches the road being travelled; its name becomes the
    "current street name" label. Models WaynameFeatureFilter.java. */
module WaynameFilter {
  import opened Wrappers
  import opened GeoJson
  import opened Measurement

  const FIRST_FEATURE: nat := 0
  const ONE_FEATURE: nat := 1
  const TWO_POINTS: nat := 2
  const ZERO_METERS: real := 0.0
  const TEN_METERS: real := 10.0

  // ---------------------------------------------------------------------------------------
  // Reversal of a line's coordinates

  /** The coordinates in reverse order. */
  function Reversed<T>(s: seq<T>): (r: seq<T>)
    ensures |r| == |s|
  {
    if s == [] then [] else [s[|s| - 1]] + Reversed(s[..|s| - 1])
  }

  lemma {:induction false} ReversedAt<T>(s: seq<T>, k: nat)
    requires k < |s|
    ensures Reversed(s)[k] == s[|s| - 1 - k]
  {
    if k > 0 {
      ReversedAt(s[..|s| - 1], k - 1);
    }
  }

  /** Reversing twice gives back the original coordinates. */
  lemma {:induction false} ReversedTwice<T>(s: seq<T>)
    ensures Reversed(Reversed(s)) == s
  {
    forall k | 0 <= k < |s|
      ensures Reversed(Reversed(s))[k] == s[k]
    {
      ReversedAt(Reversed(s), k);
      ReversedAt(s, |s| - 1 - k);
    }
  }

  /** `Collections.reverse`: reverses the array in place. */
  method ReverseInPlace(a: array<Point>)
    modifies a
    ensures a[..] == Reversed(old(a[..]))
  {
    var lo, hi := 0, a.Length;
    while lo + 1 < hi
      invariant 0 <= lo <= hi <= a.Length && lo + hi == a.Length
      invariant forall k :: 0 <= k < lo ==> a[k] == old(a[a.Length - 1 - k])
      invariant forall k :: hi <= k < a.Length ==> a[k] == old(a[a.Length - 1 - k])
      invariant forall k :: lo <= k < hi ==> a[k] == old(a[k])
    {
      a[lo], a[hi - 1] := a[hi - 1], a[lo];
      lo, hi := lo + 1, hi - 1;
    }
    ghost var before := old(a[..]);
    forall k | 0 <= k < a.Length
      ensures a[..][k] == Reversed(before)[k]
    {
      ReversedAt(before, k);
    }
  }

  /** Copies the coordinates into a fresh list and reverses the copy; the input is untouched. */
  method ReverseFeatureLineStringCoordinates(featureLineString: LineString) returns (reversed: LineString)
    ensures reversed.coordinates == Reversed(featureLineString.coordinates)
  {
    var coordinates := featureLineString.coordinates;
    var copy := new Point[|coordinates|](k requires 0 <= k < |coordinates| => coordinates[k]);
    assert copy[..] == coordinates;
    ReverseInPlace(copy);
    reversed := LineString(copy[..]);
  }

  // ---------------------------------------------------------------------------------------
  // Straight-line helpers

  /** `calculateDistance`: +infinity when either point is missing, the geodesic distance otherwise. */
  function CalculateDistance(lhs: Option<Point>, rhs: Option<Point>, turf: Turf): (d: Distance)
    ensures d.PositiveInfinity? <==> lhs.None? || rhs.None?
    ensures lhs.Some? && rhs.Some? ==> d == Finite(turf.distance(lhs.value, rhs.value))
  {
    if lhs.None? || rhs.None? then PositiveInfinity else Finite(turf.distance(lhs.value, rhs.value))
  }

  /** The part of `line` from `currentPoint` to its last point, cut to its first `meters` metres. */
  function MeterSlice(currentPoint: Point, meters: real, line: LineString, turf: Turf): LineString
    requires |line.coordinates| > 0
  {
    turf.lineSliceAlong(turf.lineSlice(currentPoint, Last(line), line), ZERO_METERS, meters)
  }

  /** `findPointFromCurrentPoint`: no point for a line of fewer than two points, a missing current
      point, a current point on the line's last point, or an empty metre slice; otherwise the
      first coordinate of the metre slice (its start, not its end). */
  function FindPointFromCurrentPoint(currentPoint: Option<Point>, metersFromCurrentPoint: real,
                                     lineString: LineString, turf: Turf): (r: Option<Point>)
    ensures r.None? <==>
      || |lineString.coordinates| < TWO_POINTS
      || currentPoint.None?
      || currentPoint.value == Last(lineString)
      || MeterSlice(currentPoint.value, metersFromCurrentPoint, lineString, turf).coordinates == []
    ensures r.Some? ==>
      r.value == MeterSlice(currentPoint.value, metersFromCurrentPoint, lineString, turf).coordinates[0]
  {
    var lineStringCoordinates := lineString.coordinates;
    if |lineStringCoordinates| < TWO_POINTS then None
    else
      var lastLinePoint := lineStringCoordinates[|lineStringCoordinates| - 1];
      if currentPoint.None? || currentPoint.value == lastLinePoint then None
      else
        var sliceFromCurrentPoint := turf.lineSlice(currentPoint.value, lastLinePoint, lineString);
        var meterSlice := turf.lineSliceAlong(sliceFromCurrentPoint, ZERO_METERS, metersFromCurrentPoint);
        if meterSlice.coordinates == [] then None else Some(meterSlice.coordinates[0])
  }

  // ---------------------------------------------------------------------------------------
  // The selection, as functions

  /** The point ten metres along `line`, after slicing it from `currentPoint` to `target`. */
  function PointAlongSlice(currentPoint: Point, target: Point, line: LineString, turf: Turf): Point {
    turf.along(turf.lineSlice(currentPoint, target, line), TEN_METERS)
  }

  /** A line the filter cannot project along: fewer than two points, or the current point is its
      last point. */
  predicate Degenerate(line: LineString, currentPoint: Point) {
    |line.coordinates| < TWO_POINTS || currentPoint == Last(line)
  }

  /** The simple lines of a feature's geometry, in order: none for an absent geometry or one that
      is neither a line string nor a multi line string. */
  function FeatureLineStrings(geometry: Option<Geometry>): (r: seq<LineString>)
    ensures geometry.None? || geometry.value.OtherGeometry? ==> r == []
    ensures geometry.Some? && geometry.value.LineStringGeometry? ==> r == [geometry.value.line]
    ensures geometry.Some? && geometry.value.MultiLineStringGeometry? ==> r == geometry.value.lines
  {
    match geometry
    case None => []
    case Some(LineStringGeometry(line)) => [line]
    case Some(MultiLineStringGeometry(lines)) => lines
    case Some(OtherGeometry) => []
  }

  /** The checks and score of one feature line, in the source's order: None when the whole filter
      gives up (null), otherwise the smaller of the distances from the point ahead on the step
      to the points ahead and behind on the feature. */
  function ScoreLine(line: LineString, currentPoint: Point, step: LineString, turf: Turf): (r: Option<Distance>)
    ensures r.None? <==> Degenerate(line, currentPoint) || Degenerate(step, currentPoint)
    ensures r.Some? ==> r.value.Finite?
  {
    var coordinates := line.coordinates;
    if |coordinates| < TWO_POINTS then None
    else
      var lastLinePoint := coordinates[|coordinates| - 1];
      if currentPoint == lastLinePoint then None
      else
        var pointAheadFeature := PointAlongSlice(currentPoint, lastLinePoint, line, turf);
        var reversed := Reversed(coordinates);
        if |reversed| < TWO_POINTS then None
        else
          var lastReversedLinePoint := reversed[0];
          if currentPoint == lastReversedLinePoint then None
          else
            var pointBehindFeature := PointAlongSlice(currentPoint, lastReversedLinePoint, LineString(reversed), turf);
            var stepCoordinates := step.coordinates;
            if |stepCoordinates| < TWO_POINTS then None
            else
              var lastStepPoint := stepCoordinates[|stepCoordinates| - 1];
              if currentPoint == lastStepPoint then None
              else
                var pointAheadUserOnStep := PointAlongSlice(currentPoint, lastStepPoint, step, turf);
                Some(Min(CalculateDistance(Some(pointAheadUserOnStep), Some(pointAheadFeature), turf),
                         CalculateDistance(Some(pointAheadUserOnStep), Some(pointBehindFeature), turf)))
  }

  /** The inner loop over the lines of `feature`, from the running minimum `smallest` and the
      feature chosen so far `best`: None when the filter gives up. */
  function ScanLines(feature: Feature, lines: seq<LineString>, currentPoint: Point, step: LineString,
                     turf: Turf, smallest: Distance, best: Feature): (r: Option<Feature>)
    ensures r.Some? ==> r.value == best || r.value == feature
    ensures r.Some? && smallest.PositiveInfinity? && lines != [] ==> r.value == feature
    decreases |lines|
  {
    if lines == [] then Some(best)
    else
      match ScoreLine(lines[0], currentPoint, step, turf)
      case None => None
      case Some(d) =>
        if d.Less(smallest) then ScanLines(feature, lines[1..], currentPoint, step, turf, d, feature)
        else ScanLines(feature, lines[1..], currentPoint, step, turf, smallest, best)
  }

  /** The outer loop over `features`, from the feature chosen so far `best`; the running minimum
      starts again from +infinity for every feature. */
  function SelectFrom(features: seq<Feature>, currentPoint: Point, step: LineString, turf: Turf,
                      best: Feature): (r: Option<Feature>)
    ensures r.Some? ==> r.value == best || r.value in features
    decreases |features|
  {
    if features == [] then Some(best)
    else
      var lines := FeatureLineStrings(features[0].geometry);
      match ScanLines(features[0], lines, currentPoint, step, turf, PositiveInfinity, best)
      case None => None
      case Some(next) => SelectFrom(features[1..], currentPoint, step, turf, next)
  }

  /** Continues the outer loop over `rest` after one feature, unless the filter gave up; the
      invariant of the inner loop of `Filter`. */
  function ThenSelect(outcome: Option<Feature>, rest: seq<Feature>, currentPoint: Point,
                      step: LineString, turf: Turf): Option<Feature>
  {
    match outcome
    case None => None
    case Some(best) => SelectFrom(rest, currentPoint, step, turf, best)
  }

  /** What `filter()` returns: the only candidate untouched, or the outcome of the loops. */
  function FilterSpec(features: seq<Feature>, currentPoint: Point, step: LineString, turf: Turf): (r: Option<Feature>)
    requires |features| > 0
    ensures |features| == ONE_FEATURE ==> r == Some(features[0])
    ensures r.Some? ==> r.value in features
  {
    if |features| == ONE_FEATURE then Some(features[FIRST_FEATURE])
    else SelectFrom(features, currentPoint, step, turf, features[FIRST_FEATURE])
  }

  // ---------------------------------------------------------------------------------------
  // What the selection amounts to

  /** A feature contributes at least one line to the scoring. */
  predicate Contributes(feature: Feature) {
    FeatureLineStrings(feature.geometry) != []
  }

  /** The lines of one feature make the filter give up: one of them is degenerate, or there is
      a line and the step is degenerate. */
  ghost predicate LinesAbort(lines: seq<LineString>, currentPoint: Point, step: LineString) {
    || (exists k :: 0 <= k < |lines| && Degenerate(lines[k], currentPoint))
    || (lines != [] && Degenerate(step, currentPoint))
  }

  /** Some candidate makes the filter give up. */
  ghost predicate Aborts(features: seq<Feature>, currentPoint: Point, step: LineString) {
    exists i :: 0 <= i < |features| && LinesAbort(FeatureLineStrings(features[i].geometry), currentPoint, step)
  }

  /** The index of the last feature that contributes a line, if any. */
  function LastContributing(features: seq<Feature>): (r: Option<nat>)
    ensures r.Some? ==> r.value < |features| && Contributes(features[r.value])
    ensures r.Some? ==> forall j :: r.value < j < |features| ==> !Contributes(features[j])
    ensures r.None? ==> forall j :: 0 <= j < |features| ==> !Contributes(features[j])
  {
    if features == [] then None
    else if Contributes(features[|features| - 1]) then Some(|features| - 1)
    else LastContributing(features[..|features| - 1])
  }

  /** The last contributing feature, or `fallback` when none contributes. */
  function LastContributingOr(features: seq<Feature>, fallback: Feature): Feature {
    match LastContributing(features)
    case Some(k) => features[k]
    case None => fallback
  }

  /** One line: the filter gives up exactly when the line or the step is degenerate; otherwise
      the score is finite, and it is the smaller distance from the point ahead on the step to
      the point ahead on the line and to the point "behind", whose slice also ends at the line's
      original last point. */
  lemma ScoreLineOutcome(line: LineString, currentPoint: Point, step: LineString, turf: Turf)
    ensures ScoreLine(line, currentPoint, step, turf).None? <==>
      Degenerate(line, currentPoint) || Degenerate(step, currentPoint)
    ensures !Degenerate(line, currentPoint) && !Degenerate(step, currentPoint) ==>
      var onStep := PointAlongSlice(currentPoint, Last(step), step, turf);
      var ahead := PointAlongSlice(currentPoint, Last(line), line, turf);
      var behind := PointAlongSlice(currentPoint, Last(line), LineString(Reversed(line.coordinates)), turf);
      ScoreLine(line, currentPoint, step, turf) ==
        Some(Min(Finite(turf.distance(onStep, ahead)), Finite(turf.distance(onStep, behind))))
  {
    if |line.coordinates| >= TWO_POINTS {
      ReversedAt(line.coordinates, 0);
    }
  }

  /** The inner loop: it gives up exactly when the lines do, and otherwise the feature is chosen
      as soon as it has a line, since every score beats +infinity. */
  lemma {:induction false} ScanLinesOutcome(feature: Feature, lines: seq<LineString>, currentPoint: Point,
                                           step: LineString, turf: Turf, smallest: Distance, best: Feature)
    requires smallest.PositiveInfinity? || best == feature
    ensures ScanLines(feature, lines, currentPoint, step, turf, smallest, best) ==
      if LinesAbort(lines, currentPoint, step) then None
      else Some(if lines == [] then best else feature)
    decreases |lines|
  {
    if lines != [] {
      var rest := lines[1..];
      ScoreLineOutcome(lines[0], currentPoint, step, turf);
      match ScoreLine(lines[0], currentPoint, step, turf)
      case None =>
        assert LinesAbort(lines, currentPoint, step) by {
          if Degenerate(lines[0], currentPoint) {
            assert 0 < |lines|;
          }
        }
      case Some(d) =>
        assert !Degenerate(lines[0], currentPoint) && !Degenerate(step, currentPoint);
        if d.Less(smallest) {
          ScanLinesOutcome(feature, rest, currentPoint, step, turf, d, feature);
        } else {
          ScanLinesOutcome(feature, rest, currentPoint, step, turf, smallest, best);
        }
        assert LinesAbort(lines, currentPoint, step) <==> LinesAbort(rest, currentPoint, step) by {
          if LinesAbort(lines, currentPoint, step) {
            var k :| 0 <= k < |lines| && Degenerate(lines[k], currentPoint);
            assert rest[k - 1] == lines[k];
          }
          if LinesAbort(rest, currentPoint, step) {
            var k :| 0 <= k < |rest| && Degenerate(rest[k], currentPoint);
            assert lines[k + 1] == rest[k];
          }
        }
    }
  }

  /** The last contributing index is determined by its defining property. */
  lemma LastContributingIs(features: seq<Feature>, k: nat)
    requires k < |features| && Contributes(features[k])
    requires forall j :: k < j < |features| ==> !Contributes(features[j])
    ensures LastContributing(features) == Some(k)
  {
  }

  /** The outer loop: it gives up exactly when some candidate's lines do, and otherwise keeps the
      last candidate that has a line, or `best` when none has. */
  lemma {:induction false} SelectFromOutcome(features: seq<Feature>, currentPoint: Point, step: LineString,
                                            turf: Turf, best: Feature)
    ensures SelectFrom(features, currentPoint, step, turf, best) ==
      if Aborts(features, currentPoint, step) then None
      else Some(LastContributingOr(features, best))
    decreases |features|
  {
    if features != [] {
      var feature, rest := features[0], features[1..];
      var lines := FeatureLineStrings(feature.geometry);
      ScanLinesOutcome(feature, lines, currentPoint, step, turf, PositiveInfinity, best);
      if LinesAbort(lines, currentPoint, step) {
        assert Aborts(features, currentPoint, step) by {
          assert 0 < |features| && features[0] == feature;
        }
      } else {
        var next := if lines == [] then best else feature;
        SelectFromOutcome(rest, currentPoint, step, turf, next);
        assert Aborts(features, currentPoint, step) <==> Aborts(rest, currentPoint, step) by {
          if Aborts(features, currentPoint, step) {
            var i :| 0 <= i < |features| && LinesAbort(FeatureLineStrings(features[i].geometry), currentPoint, step);
            assert i != 0;
            assert rest[i - 1] == features[i];
          }
          if Aborts(rest, currentPoint, step) {
            var i :| 0 <= i < |rest| && LinesAbort(FeatureLineStrings(rest[i].geometry), currentPoint, step);
            assert features[i + 1] == rest[i];
          }
        }
        match LastContributing(rest)
        case Some(k) =>
          assert features[k + 1] == rest[k];
          forall j | k + 1 < j < |features|
            ensures !Contributes(features[j])
          {
            assert features[j] == rest[j - 1];
          }
          LastContributingIs(features, k + 1);
        case None =>
          forall j | 0 < j < |features|
            ensures !Contributes(features[j])
          {
            assert features[j] == rest[j - 1];
          }
          if Contributes(feature) {
            LastContributingIs(features, 0);
          }
      }
    }
  }

  /** The whole filter on two or more candidates: it returns null exactly when some candidate has
      a degenerate line, or has a line while the step is degenerate; otherwise it returns the
      LAST candidate that has a line (the running minimum restarts for every feature, so the
      scores never decide), or the first candidate when none has. */
  lemma FilterOutcome(features: seq<Feature>, currentPoint: Point, step: LineString, turf: Turf)
    requires |features| >= 2
    ensures FilterSpec(features, currentPoint, step, turf) ==
      if Aborts(features, currentPoint, step) then None
      else Some(LastContributingOr(features, features[0]))
  {
    SelectFromOutcome(features, currentPoint, step, turf, features[0]);
  }

  /** A degenerate step makes the filter return null once some candidate has a line, and only
      once its lines pass their own checks does it come to the step at all. */
  lemma DegenerateStepAborts(features: seq<Feature>, currentPoint: Point, step: LineString, turf: Turf, i: nat)
    requires |features| >= 2 && i < |features| && Contributes(features[i])
    requires Degenerate(step, currentPoint)
    ensures FilterSpec(features, currentPoint, step, turf) == None
  {
    FilterOutcome(features, currentPoint, step, turf);
    assert LinesAbort(FeatureLineStrings(features[i].geometry), currentPoint, step);
  }

  /** When no candidate has a line the first candidate is returned, whatever the step. */
  lemma NoLinesKeepsFirst(features: seq<Feature>, currentPoint: Point, step: LineString, turf: Turf)
    requires |features| >= 2
    requires forall i :: 0 <= i < |features| ==> !Contributes(features[i])
    ensures FilterSpec(features, currentPoint, step, turf) == Some(features[0])
  {
    FilterOutcome(features, currentPoint, step, turf);
  }

  /** The geodesic operations never change the outcome: only the candidates' geometry, the
      current point and the step do. */
  lemma FilterIndependentOfTurf(features: seq<Feature>, currentPoint: Point, step: LineString,
                                turf1: Turf, turf2: Turf)
    requires |features| > 0
    ensures FilterSpec(features, currentPoint, step, turf1) == FilterSpec(features, currentPoint, step, turf2)
  {
    if |features| >= 2 {
      FilterOutcome(features, currentPoint, step, turf1);
      FilterOutcome(features, currentPoint, step, turf2);
    }
  }

  /** Geodesic operations for a witness: slicing keeps the line, `along` takes the slice's first
      point, and the distance is the difference in longitude. */
  function LongitudeTurf(): Turf {
    Turf(
      (start: Point, stop: Point, line: LineString) => line,
      (line: LineString, d: real) => if line.coordinates == [] then Point(0.0, 0.0) else line.coordinates[0],
      (line: LineString, d0: real, d1: real) => line,
      (x: Point, y: Point) => if x.longitude <= y.longitude then y.longitude - x.longitude else x.longitude - y.longitude)
  }

  /** The result is not the closest candidate: a first road scoring 1 loses to a second road
      scoring 5, because the second one is later. */
  lemma LaterCandidateBeatsCloserOne()
    ensures var origin, turf := Point(0.0, 0.0), LongitudeTurf();
      var step := LineString([origin, Point(0.0, 1.0)]);
      var near := LineString([Point(1.0, 0.0), Point(1.0, 1.0)]);
      var far := LineString([Point(5.0, 0.0), Point(5.0, 1.0)]);
      var features := [Feature(Some(LineStringGeometry(near)), None), Feature(Some(LineStringGeometry(far)), None)];
      && ScoreLine(near, origin, step, turf) == Some(Finite(1.0))
      && ScoreLine(far, origin, step, turf) == Some(Finite(5.0))
      && FilterSpec(features, origin, step, turf) == Some(features[1])
  {
    var origin, turf := Point(0.0, 0.0), LongitudeTurf();
    var step := LineString([origin, Point(0.0, 1.0)]);
    var near := LineString([Point(1.0, 0.0), Point(1.0, 1.0)]);
    var far := LineString([Point(5.0, 0.0), Point(5.0, 1.0)]);
    var features := [Feature(Some(LineStringGeometry(near)), None), Feature(Some(LineStringGeometry(far)), None)];
    ScoreLineOutcome(near, origin, step, turf);
    ScoreLineOutcome(far, origin, step, turf);
    FilterOutcome(features, origin, step, turf);
    LastContributingIs(features, 1);
  }

  // ---------------------------------------------------------------------------------------
  // The filter object

  class WaynameFeatureFilter {
    const queriedFeatures: seq<Feature>
    const currentPoint: Point
    const currentStepLineString: LineString
    const turf: Turf

    constructor (queriedFeatures: seq<Feature>, currentPoint: Point, currentStepPoints: seq<Point>, turf: Turf)
      ensures this.queriedFeatures == queriedFeatures
      ensures this.currentPoint == currentPoint
      ensures this.currentStepLineString == LineString(currentStepPoints)
      ensures this.turf == turf
    {
      this.queriedFeatures := queriedFeatures;
      this.currentPoint := currentPoint;
      this.currentStepLineString := LineString(currentStepPoints);
      this.turf := turf;
    }

    /** `filter()`: the selected feature, or None where the source returns null. */
    method Filter() returns (filtered: Option<Feature>)
      requires |queriedFeatures| > 0
      ensures |queriedFeatures| == ONE_FEATURE ==> filtered == Some(queriedFeatures[0])
      ensures |queriedFeatures| > ONE_FEATURE ==>
        (filtered.None? <==> Aborts(queriedFeatures, currentPoint, currentStepLineString))
      ensures |queriedFeatures| > ONE_FEATURE && filtered.Some? ==>
        filtered.value == LastContributingOr(queriedFeatures, queriedFeatures[0])
    {
      filtered := FilterQueriedFeatures();
      if |queriedFeatures| > ONE_FEATURE {
        FilterOutcome(queriedFeatures, currentPoint, currentStepLineString, turf);
      }
    }

    /** The body of the inner loop of `filterQueriedFeatures` up to the comparison: None where the
        source returns null, otherwise the line's score. */
    method ScoreFeatureLine(featureLineString: LineString) returns (score: Option<Distance>)
      ensures score == ScoreLine(featureLineString, currentPoint, currentStepLineString, turf)
    {
      // Point ahead on the feature
      var lineStringCoordinates := featureLineString.coordinates;
      var coordinateSize := |lineStringCoordinates|;
      if coordinateSize < TWO_POINTS {
        return None;
      }
      var lastLinePoint := lineStringCoordinates[coordinateSize - 1];
      if currentPoint == lastLinePoint {
        return None;
      }
      var sliceFromCurrentPoint := turf.lineSlice(currentPoint, lastLinePoint, featureLineString);
      var pointAheadFeature := turf.along(sliceFromCurrentPoint, TEN_METERS);

      // Point behind on the feature
      var reversedFeatureLineString := ReverseFeatureLineStringCoordinates(featureLineString);
      var reversedFeatureLineStringCoordinates := reversedFeatureLineString.coordinates;
      var reversedCoordinateSize := |reversedFeatureLineStringCoordinates|;
      if reversedCoordinateSize < TWO_POINTS {
        return None;
      }
      var lastReversedLinePoint := reversedFeatureLineStringCoordinates[0];
      if currentPoint == lastReversedLinePoint {
        return None;
      }
      var reverseSliceFromCurrentPoint := turf.lineSlice(currentPoint, lastReversedLinePoint, reversedFeatureLineString);
      var pointBehindFeature := turf.along(reverseSliceFromCurrentPoint, TEN_METERS);

      // Point ahead on the step
      var currentStepCoordinates := currentStepLineString.coordinates;
      var stepCoordinateSize := |currentStepCoordinates|;
      if stepCoordinateSize < TWO_POINTS {
        return None;
      }
      var lastStepPoint := currentStepCoordinates[stepCoordinateSize - 1];
      if currentPoint == lastStepPoint {
        return None;
      }
      var stepSliceFromCurrentPoint := turf.lineSlice(currentPoint, lastStepPoint, currentStepLineString);
      var pointAheadUserOnStep := turf.along(stepSliceFromCurrentPoint, TEN_METERS);

      var userDistanceToAheadFeature := CalculateDistance(Some(pointAheadUserOnStep), Some(pointAheadFeature), turf);
      var userDistanceToBehindFeature := CalculateDistance(Some(pointAheadUserOnStep), Some(pointBehindFeature), turf);
      score := Some(Min(userDistanceToAheadFeature, userDistanceToBehindFeature));
    }

    /** The two loops of `filterQueriedFeatures`, proved to compute `FilterSpec`. */
    method FilterQueriedFeatures() returns (filtered: Option<Feature>)
      requires |queriedFeatures| > 0
      ensures filtered == FilterSpec(queriedFeatures, currentPoint, currentStepLineString, turf)
    {
      var step := currentStepLineString;
      ghost var target := FilterSpec(queriedFeatures, currentPoint, step, turf);
      var filteredFeature := queriedFeatures[FIRST_FEATURE];
      if |queriedFeatures| == ONE_FEATURE {
        return Some(filteredFeature);
      }
      var i := 0;
      while i < |queriedFeatures|
        invariant 0 <= i <= |queriedFeatures|
        invariant target == SelectFrom(queriedFeatures[i..], currentPoint, step, turf, filteredFeature)
      {
        var feature := queriedFeatures[i];
        assert queriedFeatures[i..][0] == feature && queriedFeatures[i..][1..] == queriedFeatures[i + 1..];
        if feature.geometry.None? {
          i := i + 1;
          continue;
        }
        var featureLineStrings: seq<LineString> := [];
        match feature.geometry.value {
          case LineStringGeometry(line) =>
            featureLineStrings := [line];
          case MultiLineStringGeometry(lines) =>
            featureLineStrings := lines;
          case OtherGeometry =>
        }
        assert featureLineStrings == FeatureLineStrings(feature.geometry);

        var smallestUserDistanceToFeature := PositiveInfinity;
        var j := 0;
        while j < |featureLineStrings|
          invariant 0 <= j <= |featureLineStrings|
          invariant target == ThenSelect(
            ScanLines(feature, featureLineStrings[j..], currentPoint, step, turf,
                      smallestUserDistanceToFeature, filteredFeature),
            queriedFeatures[i + 1..], currentPoint, step, turf)
        {
          var featureLineString := featureLineStrings[j];
          assert featureLineStrings[j..][0] == featureLineString;
          assert featureLineStrings[j..][1..] == featureLineStrings[j + 1..];

          var score := ScoreFeatureLine(featureLineString);
          if score.None? {
            return None;
          }
          var minDistanceToFeature := score.value;
          if minDistanceToFeature.Less(smallestUserDistanceToFeature) {
            smallestUserDistanceToFeature := minDistanceToFeature;
            filteredFeature := feature;
          }
          j := j + 1;
        }
        i := i + 1;
      }
      return Some(filteredFeature);
    }
  }
}
