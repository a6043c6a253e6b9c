# Route report: the aggregation core, in Dafny

This project models the core of a small web page that shows a vehicle's driven route on a map and reports the distance driven and the driving time. The data comes from a fleet-telemetry service. All the logic is in `generateRoute` in `src/App.js` and in the part of the render that hands the result to the map widget. From the `units[0].routes` list of the route payload, the page:

1. keeps the segments whose `type` is `"route"` (the driving legs), in order;
2. adds up their `distance` (meters) and their spans `(end.time - start.time) / 1000` (seconds);
3. turns the meters into kilometres (`/ 1000`) and the seconds into whole hours and leftover whole minutes;
4. replaces the route list and totals it shows. If any step up to line 58 throws, the `catch` logs the error and nothing shown changes.

For each kept segment, the render draws a polyline through its decoded points and markers at its start.

Modules, one per component:

- `Wrappers` (`wrappers.dfy`): `Option`, `Result`.
- `RouteData` (`route_data.dfy`): the payload's segment, unit and payload records.
- `Classifier` (`classifier.dfy`): the `filter` of line 58.
- `Aggregator` (`aggregator.dfy`):
  - the `forEach` of lines 61-71, as a method with a loop that is proved against the sum functions;
  - the kilometre conversion;
  - the hours/minutes split, with JavaScript's `%` written out.
- `Projection` (`projection.dfy`): what the map widget gets for each segment (lines 160-171).
- `QueryTime` (`query_time.dfy`): the `toISOString().slice(0, -5) + 'Z'` request parameter (lines 51-52).
- `RouteReport` (`route_report.dfy`): one `generateRoute` call, from the report shown to the next one. This module also holds the lemmas about the whole pipeline.

Modelling choices:

- Instants are integers (milliseconds since the epoch), already parsed.
- Distances are integers (meters).
- JavaScript numbers elsewhere are Dafny `real`s, so arithmetic is exact.
- The network response is a parameter: `None` stands for a rejected request or a response without a `data` object.
- The page's three state variables (`routeCoordinates`, `totalDistance`, `totalTime`) form the `Report` record. `GenerateRoute` takes the report shown and returns the next one.

The model follows the code as written, including where the intended design of the system asks for something else:

- A segment whose end is before its start is not clamped to zero. It lowers the total, and a negative total is reported as negative hours and minutes (`ReversedSpanExample`: -30 s gives -1 h -1 m).
- Missing `units`, an empty `units` or missing `routes` are not typed errors. They make line 58 throw a `TypeError`, which the `catch` swallows. The shown report stays as it was.
- An unparseable timestamp gives `NaN`, not an error. This is floating-point behaviour and is left out.
- Markers are placed at `route.start.lat/lng`, not at the first decoded point. There are two identical markers per segment.
- A segment with no decoded points still gets a polyline, with an empty path.

## Model

| member | source | states |
|---|---|---|
| `Classifier.Filter` | src/App.js:58 | the filtered list is never longer than the input |
| `Classifier.FilterSelectsRoutes` | src/App.js:58 | the filtered list consists of the input's segments at an increasing list of positions, and these are exactly the positions whose `type` is `"route"`; each segment is unchanged |
| `Classifier.FilterIsTheRouteSelection` | src/App.js:58 | any list built from exactly the `"route"` positions of the input, in increasing order, equals the filtered list, so the filtered list is the unique order-preserving selection of the driving legs |
| `Classifier.FilterMembers` | src/App.js:58 | a segment is in the filtered list if and only if it is in the input and has type `"route"` |
| `Classifier.FilterCount` | src/App.js:58 | the filtered list has as many elements as the input has `"route"` segments |
| `Classifier.FilterAppend` | src/App.js:58 | filtering a concatenation is concatenating the filtered parts |
| `Classifier.NonRouteDropped` | src/App.js:58 | inserting a non-route segment anywhere in the input leaves the filtered list unchanged |
| `Classifier.NoRoutesFilterEmpty` | src/App.js:58 | an input with no `"route"` segment, including the empty input, filters to the empty list |
| `Aggregator.DurationSeconds` | src/App.js:67-69 | a segment's span in seconds, times 1000, is its end minus its start in milliseconds; it is negative exactly when the end is before the start (no clamping) |
| `Aggregator.Accumulate` | src/App.js:61-71 | starting from 0, the loop's distance accumulator ends as the sum of the segments' distances and its time accumulator as the sum of their spans in seconds (loop invariant: the sums of the first k segments) |
| `Aggregator.SumDistanceAppend` | src/App.js:64-65 | the distance total of two chunks of segments is the sum of the chunks' totals |
| `Aggregator.SumSecondsAppend` | src/App.js:66-70 | the time total of two chunks of segments is the sum of the chunks' totals |
| `Aggregator.TotalsCommute` | src/App.js:64-71 | neither total depends on the order of two chunks |
| `Aggregator.SumSecondsIsMillis` | src/App.js:67-70 | the per-segment seconds, summed, are the summed milliseconds divided by 1000 |
| `Aggregator.Km` | src/App.js:74 | the kilometre figure times 1000 is exactly the meter total (no rounding) |
| `Aggregator.KmAdditive` | src/App.js:74 | the kilometres of two chunks add up to the kilometres of the whole |
| `Aggregator.Trunc` | src/App.js:78 | truncation toward zero: below or at a non-negative argument by less than one, above or at a negative one by less than one |
| `Aggregator.HourRemainder` | src/App.js:78 | JavaScript's `% 3600`: the dividend minus 3600 times its quotient truncated toward zero, so it lies in [0, 3600) for a non-negative dividend and in (-3600, 0] for a negative one |
| `Aggregator.Hours` | src/App.js:77 | the hour count is the floor of the total seconds over 3600: at most that quotient and more than it minus one (bounds in whole units: `DecompositionBounds`, `NegativeDecomposition`) |
| `Aggregator.Minutes` | src/App.js:78 | the minute count is the floor of the JavaScript remainder `% 3600` over 60 |
| `Aggregator.RemainderOfNonNegative` | src/App.js:77-78 | for a non-negative total the JavaScript remainder is the total minus 3600 times the hour count, within [0, 3600) |
| `Aggregator.DecompositionBounds` | src/App.js:77-78 | for a non-negative total S: hours >= 0, 0 <= minutes < 60, and hours*3600 + minutes*60 <= S < hours*3600 + (minutes+1)*60 |
| `Aggregator.DecompositionOfMillis` | src/App.js:69-78 | for a non-negative total of ms milliseconds, hours = ms div 3600000 and minutes = (ms mod 3600000) div 60000 |
| `Aggregator.NegativeDecomposition` | src/App.js:77-78 | a negative total gives negative hours and minutes between -60 and 0 |
| `Projection.Path` | src/App.js:165-168 | the path has as many entries as the decoded points, and entry i has point i's `lat` and `lng` |
| `Projection.StartMarker` | src/App.js:162-163 | a marker position has the segment's `start.lat` and `start.lng` |
| `Projection.OverlayOf` | src/App.js:161-171 | one fragment: exactly two markers, both at the segment's start, and a path matching the segment's decoded points entry by entry |
| `Projection.Overlays` | src/App.js:160-171 | one overlay per segment in list order; overlay i's path matches segment i's points entry by entry, and its markers (at least one) all sit at segment i's `start.lat/lng` |
| `Projection.OverlaysAppend` | src/App.js:160 | projecting a concatenation concatenates the projections |
| `Projection.EmptyPointsEmptyPath` | src/App.js:162-168 | a segment with no decoded points gets an empty path and still two markers |
| `QueryTime.TrimMillis` | src/App.js:51-52 | the result drops the last five characters (all of them for a shorter string), keeping the rest unchanged, and ends with `Z` |
| `QueryTime.TrimKeepsNineteen` | src/App.js:51 | a 24-character string becomes its first 19 characters followed by `Z` |
| `QueryTime.TrimToSeconds` | src/App.js:51 | a `YYYY-MM-DDTHH:mm:ss.sssZ` timestamp becomes the `YYYY-MM-DDTHH:mm:ssZ` timestamp with the same date and time of day |
| `QueryTime.TrimUndoesMillis` | src/App.js:51 | appending any three-digit milliseconds and `Z` to a whole-second timestamp and then trimming gives back that timestamp |
| `RouteReport.Initial` | src/App.js:22-26 | the state before any route is generated: the empty list, 0 km, 0 h 0 m |
| `RouteReport.BuildRequest` | src/App.js:44-55 | the request can be built exactly when both dates are set, and otherwise fails with the unset-date error; when built, `from` and `till` are the trimmed ISO strings of the two dates and `unit_id` is the selected vehicle as given |
| `RouteReport.RequestTimesAreWholeSeconds` | src/App.js:51-54 | for dates given as `YYYY-MM-DDTHH:mm:ss.sssZ` strings, the request is built, its `from` and `till` are `YYYY-MM-DDTHH:mm:ssZ` strings with the same date and time of day, and its unit id is the one given |
| `RouteReport.RawRoutes` | src/App.js:58 | the segments are found exactly when `units` is present and non-empty and `units[0].routes` is present, and they are then `units[0].routes` |
| `RouteReport.Fetched` | src/App.js:48-58 | the raw segments are obtained exactly when the request was built, a response arrived and it holds `units[0].routes`, and they are then that list; an unset date keeps its error and a missing response is a failed request |
| `RouteReport.GenerateRoute` | src/App.js:43-86 | a request is produced exactly when both dates are set; when a step fails (unset date, failed request, no unit, no routes) the report shown is returned unchanged; otherwise the next report is built from the filtered segments of `units[0].routes` alone, whatever was shown before |
| `RouteReport.Summarize` | src/App.js:61-81 | the report keeps the given segments, its km times 1000 is their meter total, its hours are the floor of their second total over 3600, and its minutes are the floor of the JavaScript remainder `% 3600` of that total over 60, so they lie in [0, 60) for a non-negative total and in [-60, 0] for a negative one |
| `RouteReport.TotalsCountOnlyRoutes` | src/App.js:58-71 | the totals over the filtered list equal sums over the input that count each `"route"` segment and skip all others |
| `RouteReport.SummaryTotals` | src/App.js:61-81 | the reported km times 1000 is the meter total of the driving legs; if their second total is non-negative, the reported hours and minutes satisfy the floor bounds against it |
| `RouteReport.SummaryInMillis` | src/App.js:69-81 | with a non-negative millisecond total, the reported time is (ms div 3600000) h and ((ms mod 3600000) div 60000) min |
| `RouteReport.NoRoutesSummary` | src/App.js:58-81 | an input without `"route"` segments, including the empty one, reports an empty list, 0 km, 0 h and 0 m |
| `RouteReport.NonRouteIgnored` | src/App.js:58-81 | inserting a non-route segment anywhere in the input changes nothing in the report |
| `RouteReport.SummaryAdditive` | src/App.js:58-80 | for two chunks of input, the report's list is the concatenation of the chunks' lists, its km is the sum of their km, and its second total is the sum of theirs |
| `RouteReport.OverlaysFollowRoutes` | src/App.js:160-168 | the map gets one overlay per `"route"` segment of the input; the j-th comes from a `"route"` segment at a position that increases with j and its path is that segment's projected points |
| `RouteReport.OverlayPathIs` | src/App.js:160-170 | the path of the j-th overlay is the projection of the j-th segment's points |
| `RouteReport.ThreeSegmentExample` | src/App.js:58-81 | drives of 5 km (10:00-10:30) and 15 km (10:45-11:15) around a stop (10:30-10:45) report exactly those two drives, 20 km and 1 h 0 m |
| `RouteReport.HalfMinuteBack` | src/App.js:77-78 | a total of -30 s gives -1 h and -1 min, by JavaScript's floor and sign-keeping remainder |
| `RouteReport.ReversedSpanExample` | src/App.js:69-78 | one driving leg ending 30 s before it starts reports -1 h -1 m |

## Left out

- HTTP requests: the vehicle list (src/App.js:29-40) and the route request itself (src/App.js:48-56) are network I/O. The route response is a parameter, and the constant query parameters (`key`, `include`) are not modelled.
- Date handling: `new Date(...)` and `toISOString()` (src/App.js:44-45, 51-52, 67-68) belong to the JavaScript library. Instants are integer milliseconds. The date inputs are the ISO strings `toISOString` would return, or `None` for an empty date field. An `Invalid Date`, whose `toISOString` throws, is covered by `None` as well.
- Floating point: the JavaScript sums are doubles, and the model uses exact reals. Rounding, `NaN` from unparseable instants and `toFixed(0)` at line 184 are not modelled.
- React: state hooks, setters and the JSX layout (src/App.js:17-26, 88-203) are presentation. The three state variables are the `Report` record, and the conditions at lines 154 and 181 that hide the map and totals for an empty list are not modelled.
- Concurrency: `generateRoute` is `async`. Each call is modelled as one atomic step from the report shown to the next. Overlapping calls correspond to applying these steps in the order their responses resolve, so the last one to resolve wins. Interleavings inside one call are not modelled.
- Logging: `console.error` in the `catch` blocks is not modelled, and neither is the `alert` on a map load error.
- The map widget (`LoadScript`, `GoogleMap`, `Marker`, `Polyline`): only the data handed to it is modelled. Overlays keep both identical start markers of lines 162-163, and `OverlayOf` and `EmptyPointsEmptyPath` state that there are two, but no other property is built on their number. The stroke options are not modelled either.
- Missing segment fields: every segment is assumed to carry `start`, `end` and `decoded_route.points`. A segment without `end` makes the loop throw at line 68, after `setRouteCoordinates` has already run (line 59), so the new list would be shown with the old totals; this partial update is not modelled. A segment without `start` makes the loop throw at line 67 likewise, and the render then throws at line 162. A segment without `decoded_route` throws nowhere in `generateRoute`, only in the render at line 165. These render errors are not modelled.
- A decoded point's fields other than `lat` and `lng` are not modelled: the projection reads only those two.
- Aggregator.HourRemainder: only the divisor 3600 that the source uses is modelled, not JavaScript's `%` for an arbitrary divisor.
