# Way-name feature filter and time-formatter factory, in Dafny

This project models two pieces of the Mapbox Android navigation SDK.

**The way-name feature filter** (`WaynameFeatureFilter`). A map query near the user returns road features. The filter picks the one whose line should name the road the user is on; that feature drives the "current street name" label. It reads three inputs, fixed at construction: the queried features, the current point and the line of the current navigation step. It then:

- returns the only candidate untouched when there is one;
- otherwise, for every candidate, flattens its geometry into simple lines;
- checks each line and the step, and returns null on a degenerate one;
- projects points ten metres ahead and "behind" on the line, and ten metres ahead on the step;
- scores the line by the smaller geodesic distance;
- keeps a running minimum with a strict `<`.

**The time-formatter factory** (`TimeFormatterFactory`). It resolves a requested time-format type against the device's 24-hour setting and returns the 24-hour (`"%tk:%tM"`) or the 12-hour (`"%tl:%tM %tp"`) formatter.

Files:
- `wrappers.dfy`: `Option`, standing in for nullable references.
- `geojson.dfy`: points, line strings, geometries and features.
- `measurement.dfy`: distances extended with +infinity, `Math.min`, and the Turf operations as a value of function fields.
- `wayname_feature_filter.dfy`: the filter, in three layers. Specification functions (`ScoreLine`, `ScanLines`, `SelectFrom`, `FilterSpec`) follow the source's control flow. Lemmas say what the selection amounts to. A class `WaynameFeatureFilter` has methods with the source's loops, proved equal to those functions.
- `time_formatter_factory.dfy`: the factory.

Where the code does less than its own names and comments suggest (the model follows the code):
- The variable `smallestUserDistanceToFeature` suggests a minimum over all candidates, but it restarts at +infinity for every feature (WaynameFeatureFilter.java line 76). So every feature with at least one line replaces the selection, and the scores never decide anything. When nothing aborts, the result is the LAST candidate that has a line, or the first candidate when none has (`FilterOutcome`). The outcome does not depend on the geodesic operations at all (`FilterIndependentOfTurf`). It is not the minimum-scoring candidate: `LaterCandidateBeatsCloserOne` shows a first road scoring 1 losing to a second road scoring 5.
- The comment "Point behind on the feature" (line 94) suggests a point in the other direction, and no "which end is ahead" inference is made. The "behind" slice targets `reversed[0]`, which is the line's original last point. So its checks repeat the forward ones (`ScoreLineOutcome`).
- The step line is checked inside the line loop, after the first line passes its own checks. A degenerate step therefore aborts only when some candidate has a line (`DegenerateStepAborts`, `NoLinesKeepsFirst`).
- `filter()` is annotated non-null, yet it returns null on every abort path. The model returns `None` there.
- `findPointFromCurrentPoint` returns the FIRST coordinate of the metre slice.

## Model

| member | source | states |
|---|---|---|
| `WaynameFilter.WaynameFeatureFilter.constructor` | libandroid-navigation-ui/src/main/java/com/mapbox/services/android/navigation/ui/v5/map/WaynameFeatureFilter.java:43-48 | the filter keeps the queried features, the current point and the step points as a line string |
| `WaynameFilter.WaynameFeatureFilter.Filter` | libandroid-navigation-ui/src/main/java/com/mapbox/services/android/navigation/ui/v5/map/WaynameFeatureFilter.java:50-59 | a single candidate is returned untouched; with two or more, the result is null exactly when some candidate aborts, and otherwise it is the last candidate that has a line, or the first one |
| `WaynameFilter.WaynameFeatureFilter.FilterQueriedFeatures` | libandroid-navigation-ui/src/main/java/com/mapbox/services/android/navigation/ui/v5/map/WaynameFeatureFilter.java:55-143 | the two nested loops (skipping null geometry, flattening line strings and multi line strings, running minimum reset per feature, strict `<` update) compute exactly `FilterSpec` |
| `WaynameFilter.WaynameFeatureFilter.ScoreFeatureLine` | libandroid-navigation-ui/src/main/java/com/mapbox/services/android/navigation/ui/v5/map/WaynameFeatureFilter.java:80-131 | the per-line checks, in the source's order, and the score of the line, are exactly `ScoreLine` |
| `WaynameFilter.ScoreLineOutcome` | libandroid-navigation-ui/src/main/java/com/mapbox/services/android/navigation/ui/v5/map/WaynameFeatureFilter.java:80-131 | a line aborts the filter iff it has fewer than 2 points, or the current point is its last point, or the step is degenerate in the same way; the reversed-line checks never add a case; otherwise the score is finite. It is the min of the distances from the step's point ahead to the line's point ahead and to the "behind" point, whose slice also ends at the line's original last point |
| `WaynameFilter.ScanLinesOutcome` | libandroid-navigation-ui/src/main/java/com/mapbox/services/android/navigation/ui/v5/map/WaynameFeatureFilter.java:76-139 | the inner loop aborts exactly when one of its lines does; otherwise it selects the feature as soon as it has a line, since the minimum starts from +infinity |
| `WaynameFilter.SelectFromOutcome` | libandroid-navigation-ui/src/main/java/com/mapbox/services/android/navigation/ui/v5/map/WaynameFeatureFilter.java:62-140 | the outer loop aborts exactly when some feature's lines do; otherwise it ends on the last feature that contributes a line, or on its starting feature |
| `WaynameFilter.LastContributing` | libandroid-navigation-ui/src/main/java/com/mapbox/services/android/navigation/ui/v5/map/WaynameFeatureFilter.java:64-74 | the index of the last feature whose geometry yields a line; no later feature yields one; a feature with null or other geometry is never that index |
| `WaynameFilter.FilterOutcome` | libandroid-navigation-ui/src/main/java/com/mapbox/services/android/navigation/ui/v5/map/WaynameFeatureFilter.java:56-142 | with two or more candidates: null iff some candidate has a degenerate line, or has a line while the step is degenerate; else the last candidate with a line, or `queriedFeatures[0]` |
| `WaynameFilter.DegenerateStepAborts` | libandroid-navigation-ui/src/main/java/com/mapbox/services/android/navigation/ui/v5/map/WaynameFeatureFilter.java:110-119 | a step of fewer than 2 points, or ending at the current point, makes the filter return null once any candidate has a line |
| `WaynameFilter.NoLinesKeepsFirst` | libandroid-navigation-ui/src/main/java/com/mapbox/services/android/navigation/ui/v5/map/WaynameFeatureFilter.java:56-74 | when no candidate yields a line, the result is `queriedFeatures[0]`, even for a degenerate step |
| `WaynameFilter.FilterIndependentOfTurf` | libandroid-navigation-ui/src/main/java/com/mapbox/services/android/navigation/ui/v5/map/WaynameFeatureFilter.java:76-137 | because the minimum restarts per feature, two different sets of geodesic operations always give the same result |
| `WaynameFilter.FeatureLineStrings` | libandroid-navigation-ui/src/main/java/com/mapbox/services/android/navigation/ui/v5/map/WaynameFeatureFilter.java:64-74 | null or other geometry gives no lines, a line string gives itself, and a multi line string gives its lines in order |
| `Measurement.Distance.Less` | libandroid-navigation-ui/src/main/java/com/mapbox/services/android/navigation/ui/v5/map/WaynameFeatureFilter.java:134 | the strict `<` against a running minimum that starts at `Double.POSITIVE_INFINITY` (line 76): +infinity is less than nothing, every finite value is less than +infinity, finite values compare by length |
| `WaynameFilter.ScoreLine` | libandroid-navigation-ui/src/main/java/com/mapbox/services/android/navigation/ui/v5/map/WaynameFeatureFilter.java:80-131 | the per-line checks in the source's order; the result is null exactly when the line or the step has fewer than 2 points or ends at the current point, and a score is always finite |
| `WaynameFilter.ScanLines` | libandroid-navigation-ui/src/main/java/com/mapbox/services/android/navigation/ui/v5/map/WaynameFeatureFilter.java:76-139 | the inner loop from a running minimum; the feature kept is either the one before the loop or the current feature, and from +infinity any line makes it the current feature |
| `WaynameFilter.SelectFrom` | libandroid-navigation-ui/src/main/java/com/mapbox/services/android/navigation/ui/v5/map/WaynameFeatureFilter.java:62-140 | the outer loop from a chosen feature; what it returns is that feature or one of the candidates |
| `WaynameFilter.FilterSpec` | libandroid-navigation-ui/src/main/java/com/mapbox/services/android/navigation/ui/v5/map/WaynameFeatureFilter.java:55-143 | a single candidate is returned unchanged, and whatever is returned is one of the candidates |
| `WaynameFilter.LaterCandidateBeatsCloserOne` | libandroid-navigation-ui/src/main/java/com/mapbox/services/android/navigation/ui/v5/map/WaynameFeatureFilter.java:76-137 | with two roads whose lines score 1 and 5, the filter returns the second, worse-scoring road |
| `WaynameFilter.CalculateDistance` | libandroid-navigation-ui/src/main/java/com/mapbox/services/android/navigation/ui/v5/map/WaynameFeatureFilter.java:174-179 | +infinity exactly when either point is missing, otherwise the finite geodesic distance (in Turf's default unit: the call passes no unit) |
| `Measurement.Min` | libandroid-navigation-ui/src/main/java/com/mapbox/services/android/navigation/ui/v5/map/WaynameFeatureFilter.java:131 | `Math.min` returns one of its arguments, and neither argument is smaller than it |
| `WaynameFilter.FindPointFromCurrentPoint` | libandroid-navigation-ui/src/main/java/com/mapbox/services/android/navigation/ui/v5/map/WaynameFeatureFilter.java:181-202 | no point iff the line has fewer than 2 points, the current point is missing, it equals the last point, or the metre slice is empty; otherwise the slice's first coordinate |
| `WaynameFilter.Reversed` | libandroid-navigation-ui/src/main/java/com/mapbox/services/android/navigation/ui/v5/map/WaynameFeatureFilter.java:205-209 | reversal keeps the length |
| `WaynameFilter.ReversedAt` | libandroid-navigation-ui/src/main/java/com/mapbox/services/android/navigation/ui/v5/map/WaynameFeatureFilter.java:205-209 | position k of the reversal holds the input's position n-1-k, so `reversed[0]` is the original last point |
| `WaynameFilter.ReversedTwice` | libandroid-navigation-ui/src/main/java/com/mapbox/services/android/navigation/ui/v5/map/WaynameFeatureFilter.java:205-209 | reversing twice gives back the original coordinates |
| `WaynameFilter.ReverseInPlace` | libandroid-navigation-ui/src/main/java/com/mapbox/services/android/navigation/ui/v5/map/WaynameFeatureFilter.java:207 | `Collections.reverse` leaves the array holding the reversal of its old contents |
| `WaynameFilter.ReverseFeatureLineStringCoordinates` | libandroid-navigation-ui/src/main/java/com/mapbox/services/android/navigation/ui/v5/map/WaynameFeatureFilter.java:204-209 | a new line string whose coordinates are the input's in reverse order; the input is a value and stays as it was |
| `TimeFormatting.ResolveType` | libandroid-navigation/src/main/java/com/mapbox/services/android/navigation/v5/utils/time/TimeFormatterFactory.java:10-13 | "none specified" becomes 24 hours iff the device is in 24-hour mode, else 12 hours; any other type is kept |
| `TimeFormatting.GetTimeFormatter` | libandroid-navigation/src/main/java/com/mapbox/services/android/navigation/v5/utils/time/TimeFormatterFactory.java:9-20 | TWENTY_FOUR_HOURS gives the 24-hour formatter and TWELVE_HOURS the 12-hour one, whatever the device; NONE_SPECIFIED follows the device; any other value gives the 12-hour formatter; the 24-hour formatter comes back iff one of the first or third cases asked for it |
| `TimeFormatting.TimeFormatter.FormattingString` | libandroid-navigation/src/main/java/com/mapbox/services/android/navigation/v5/utils/time/TwentyFourHourFormatter.java:4-9 | the 24-hour formatter's string is `"%tk:%tM"` and the 12-hour one's is `"%tl:%tM %tp"`, declared in TwelveHourFormatter.java; each string identifies its formatter |

## Left out

- An empty list of queried features is outside the model: `Filter` requires at least one, where the source throws IndexOutOfBoundsException from `queriedFeatures.get(0)`.
- Turf's `lineSlice`, `along`, `lineSliceAlong` and `distance` are not modelled. They are floating-point spherical geometry from a library outside this repository. The model takes them as arbitrary functions (`Measurement.Turf`), with distances as non-negative reals in whatever unit Turf returns. `along` always yields a point: the source dereferences it when placing a marker.
- Floating point: distances are exact reals. NaN and negative zero do not arise.
- Marker placement (`addMarker`, `clearMarkers`, the `MapboxMap` field and the `markers` list) and all `Timber` logging (`logNames`, `logName`). These are map-display and debugging side effects that do not affect the result.
- The conversion of an Android `Location` into the current point in the constructor. The model takes a `Point`, so the source's `currentPoint == null` check in the filter is dead and not modelled.
- Point equality compares the two coordinates only. GeoJSON bounding boxes are not modelled.
- `DateFormat.is24HourFormat(context)` is a parameter of `GetTimeFormatter`. NavigationTimeFormat.java is not part of this model, so its integer constants are named variants (`NoneSpecified`, `TwelveHours`, `TwentyFourHours`), and every other integer is `OtherType(code)`.
- `TimeFormatter.formatTime` (the wall clock through `Calendar` and locale-dependent `String.format`) and `SummaryModel` (Android string formatting) are not modelled. They are library formatting.
