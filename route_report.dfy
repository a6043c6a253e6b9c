/** `generateRoute` (src/App.js:43-86) as one step from the state on screen
    to the next: build the request, read `units[0].routes` from the
    response, filter, total, convert, and either replace the whole report or,
    when any step throws, keep the one shown. */
module RouteReport {
  import opened Wrappers
  import opened RouteData
  import opened Classifier
  import opened Aggregator
  import opened Projection
  import opened QueryTime

  /** `{ hours, minutes }` as stored by `setTotalTime`. */
  datatype Duration = Duration(hours: int, minutes: int)

  /** The three pieces of state `generateRoute` sets: `routeCoordinates`
      (the kept segments), `totalDistance` (km) and `totalTime`. */
  datatype Report = Report(routeCoordinates: seq<Segment>, totalDistance: real, totalTime: Duration)

  /** The state before any route is generated (src/App.js:22, 25-26). */
  function Initial(): (r: Report)
    ensures r.routeCoordinates == [] && r.totalDistance == 0.0 && r.totalTime == Duration(0, 0)
  {
    Report([], 0.0, Duration(0, 0))
  }

  /** Why a `generateRoute` call ends in its `catch`. */
  datatype Failure =
    | DateNotSet     // `null.toISOString()` for an empty date field (line 51-52)
    | RequestFailed  // the request rejects, or its body has no `data` object
    | NoUnits        // `units` is absent or `units[0]` is undefined (line 58)
    | NoRoutes       // `units[0].routes` is undefined, so `.filter` throws (line 58)

  /** The request parameters that vary with the input (src/App.js:49-55). */
  datatype RouteRequest = RouteRequest(from: string, till: string, unitId: string)

  /** The parameters of the request, given each date's `toISOString()`, or
      `None` for a date field left empty. */
  function BuildRequest(startIso: Option<string>, endIso: Option<string>, unitId: string): (r: Result<RouteRequest, Failure>)
    ensures r.Ok? <==> startIso.Some? && endIso.Some?
    ensures r.Err? ==> r.error == DateNotSet
    ensures r.Ok? ==> r.value == RouteRequest(TrimMillis(startIso.value), TrimMillis(endIso.value), unitId)
  {
    match (startIso, endIso)
    case (Some(s), Some(e)) => Ok(RouteRequest(TrimMillis(s), TrimMillis(e), unitId))
    case _ => Err(DateNotSet)
  }

  /** Dates given as `toISOString()` output become whole-second UTC
      timestamps with the same date and time of day, and the unit is sent
      as given. */
  lemma RequestTimesAreWholeSeconds(startIso: string, endIso: string, unitId: string)
    requires IsIsoMillis(startIso) && IsIsoMillis(endIso)
    ensures var r := BuildRequest(Some(startIso), Some(endIso), unitId);
      && r.Ok? && r.value.unitId == unitId
      && IsIsoSeconds(r.value.from) && r.value.from[..19] == startIso[..19]
      && IsIsoSeconds(r.value.till) && r.value.till[..19] == endIso[..19]
  {
  }

  /** `routeResponse.data.data.units[0].routes`. */
  function RawRoutes(p: Payload): (r: Result<seq<Segment>, Failure>)
    ensures r.Ok? <==> p.units.Some? && |p.units.value| > 0 && p.units.value[0].routes.Some?
    ensures r.Ok? ==> r.value == p.units.value[0].routes.value
  {
    match p.units
    case None => Err(NoUnits)
    case Some(units) =>
      if |units| == 0 then Err(NoUnits)
      else match units[0].routes
        case None => Err(NoRoutes)
        case Some(routes) => Ok(routes)
  }

  /** The raw segments a call obtains, or why it stops first. `response` is
      what the request returned: `None` when it was rejected or carried no
      `data` object. */
  function Fetched(request: Result<RouteRequest, Failure>, response: Option<Payload>): (r: Result<seq<Segment>, Failure>)
    ensures r.Ok? <==> request.Ok? && response.Some? && RawRoutes(response.value).Ok?
    ensures request.Err? ==> r == Err(request.error)
    ensures request.Ok? && response.None? ==> r == Err(RequestFailed)
    ensures r.Ok? ==> r.value == response.value.units.value[0].routes.value
  {
    if request.Err? then Err(request.error)
    else if response.None? then Err(RequestFailed)
    else RawRoutes(response.value)
  }

  /** The report built from the kept segments: the meter total in km and
      the second total split into hours and minutes. */
  function Summarize(kept: seq<Segment>): (r: Report)
    ensures r.routeCoordinates == kept
    ensures r.totalDistance * 1000.0 == SumDistance(kept) as real
    ensures r.totalTime.hours as real <= SumSeconds(kept) / 3600.0 < r.totalTime.hours as real + 1.0
    ensures r.totalTime.minutes as real <= HourRemainder(SumSeconds(kept)) / 60.0 < r.totalTime.minutes as real + 1.0
    ensures SumSeconds(kept) >= 0.0 ==> 0 <= r.totalTime.minutes < 60
    ensures SumSeconds(kept) < 0.0 ==> -60 <= r.totalTime.minutes <= 0
  {
    var seconds := SumSeconds(kept);
    Report(kept, Km(SumDistance(kept)), Duration(Hours(seconds), Minutes(seconds)))
  }

  /** One `generateRoute` call: on success the report shown is replaced by
      the one computed from the response; if any step throws, the report is
      left as it was. */
  method GenerateRoute(shown: Report, startIso: Option<string>, endIso: Option<string>, unitId: string,
                       response: Option<Payload>)
    returns (request: Option<RouteRequest>, next: Report)
    ensures request.Some? <==> startIso.Some? && endIso.Some?
    ensures request.Some? ==> request.value == BuildRequest(startIso, endIso, unitId).value
    ensures Fetched(BuildRequest(startIso, endIso, unitId), response).Err? ==> next == shown
    ensures Fetched(BuildRequest(startIso, endIso, unitId), response).Ok? ==>
      next == Summarize(Filter(Fetched(BuildRequest(startIso, endIso, unitId), response).value))
  {
    next := shown;
    var built := BuildRequest(startIso, endIso, unitId);
    if built.Err? {
      request := None;
      return;
    }
    request := Some(built.value);
    if response.None? {
      return;
    }
    var raw := RawRoutes(response.value);
    if raw.Err? {
      return;
    }
    var filteredRoutes := Filter(raw.value);
    var totalDistance, totalTimeInSeconds := Accumulate(filteredRoutes);
    var totalDistanceInKm := Km(totalDistance);
    var totalHours := Hours(totalTimeInSeconds);
    var totalMinutes := Minutes(totalTimeInSeconds);
    next := Report(filteredRoutes, totalDistanceInKm, Duration(totalHours, totalMinutes));
  }

  /** The distance of the driving legs of `s`, counted front to back without
      building the filtered list: a reference for the filter-then-sum. */
  function RouteMeters(s: seq<Segment>): int {
    if s == [] then 0 else (if IsRoute(s[0]) then s[0].distance else 0) + RouteMeters(s[1..])
  }

  /** The span of the driving legs of `s` in seconds, counted the same way. */
  function RouteSeconds(s: seq<Segment>): real {
    if s == [] then 0.0 else (if IsRoute(s[0]) then DurationSeconds(s[0]) else 0.0) + RouteSeconds(s[1..])
  }

  /** The totals over the filtered list are the totals of the driving legs
      alone: no other segment's distance or span reaches them. */
  lemma TotalsCountOnlyRoutes(s: seq<Segment>)
    ensures SumDistance(Filter(s)) == RouteMeters(s)
    ensures SumSeconds(Filter(s)) == RouteSeconds(s)
  {
    MetersCountOnlyRoutes(s);
    SecondsCountOnlyRoutes(s);
  }

  /** Filtering a single segment keeps it exactly when it is a driving leg. */
  lemma FilterSingle(x: Segment)
    ensures Filter([x]) == if IsRoute(x) then [x] else []
  {
  }

  lemma {:induction false} MetersCountOnlyRoutes(s: seq<Segment>)
    ensures SumDistance(Filter(s)) == RouteMeters(s)
  {
    if s != [] {
      MetersCountOnlyRoutes(s[1..]);
      assert s == [s[0]] + s[1..];
      FilterAppend([s[0]], s[1..]);
      FilterSingle(s[0]);
      SumDistanceAppend(Filter([s[0]]), Filter(s[1..]));
      assert [s[0]][..0] == [];
    }
  }

  lemma {:induction false} SecondsCountOnlyRoutes(s: seq<Segment>)
    ensures SumSeconds(Filter(s)) == RouteSeconds(s)
  {
    if s != [] {
      SecondsCountOnlyRoutes(s[1..]);
      assert s == [s[0]] + s[1..];
      FilterAppend([s[0]], s[1..]);
      FilterSingle(s[0]);
      SumSecondsAppend(Filter([s[0]]), Filter(s[1..]));
      assert [s[0]][..0] == [];
    }
  }

  /** The report's kilometre figure is its meter total over 1000, and its
      hours and minutes are the floor split of its second total. */
  lemma SummaryTotals(s: seq<Segment>)
    ensures Summarize(Filter(s)).totalDistance * 1000.0 == RouteMeters(s) as real
    ensures RouteSeconds(s) >= 0.0 ==>
      var t := Summarize(Filter(s)).totalTime;
      && t.hours >= 0 && 0 <= t.minutes < 60
      && (t.hours * 3600 + t.minutes * 60) as real <= RouteSeconds(s)
      && RouteSeconds(s) < (t.hours * 3600 + (t.minutes + 1) * 60) as real
  {
    TotalsCountOnlyRoutes(s);
    if RouteSeconds(s) >= 0.0 {
      DecompositionBounds(RouteSeconds(s));
    }
  }

  /** With a non-negative total, the hours and minutes are those of the
      whole milliseconds the kept segments span. */
  lemma SummaryInMillis(s: seq<Segment>)
    requires SumMillis(Filter(s)) >= 0
    ensures var ms := SumMillis(Filter(s));
      Summarize(Filter(s)).totalTime == Duration(ms / 3_600_000, (ms % 3_600_000) / 60_000)
  {
    var ms := SumMillis(Filter(s));
    SumSecondsIsMillis(Filter(s));
    assert SumSeconds(Filter(s)) == ms as real / 1000.0;
    DecompositionOfMillis(ms);
  }

  /** An input with no driving legs, the empty one included, yields the
      empty list, 0 km and 0 h 0 m. */
  lemma NoRoutesSummary(s: seq<Segment>)
    requires forall i :: 0 <= i < |s| ==> !IsRoute(s[i])
    ensures Summarize(Filter(s)) == Initial()
  {
  }

  /** Inserting a segment that is not a driving leg anywhere in the input
      changes nothing in the report. */
  lemma NonRouteIgnored(a: seq<Segment>, x: Segment, b: seq<Segment>)
    requires !IsRoute(x)
    ensures Summarize(Filter(a + [x] + b)) == Summarize(Filter(a + b))
  {
    NonRouteDropped(a, x, b);
  }

  /** Reports of two chunks of input add up to the report of the whole. */
  lemma SummaryAdditive(a: seq<Segment>, b: seq<Segment>)
    ensures Summarize(Filter(a + b)).routeCoordinates
         == Summarize(Filter(a)).routeCoordinates + Summarize(Filter(b)).routeCoordinates
    ensures Summarize(Filter(a + b)).totalDistance
         == Summarize(Filter(a)).totalDistance + Summarize(Filter(b)).totalDistance
    ensures SumSeconds(Filter(a + b)) == SumSeconds(Filter(a)) + SumSeconds(Filter(b))
  {
    FilterAppend(a, b);
    KmAdditive(Filter(a), Filter(b));
    SumSecondsAppend(Filter(a), Filter(b));
  }

  /** The map shows one overlay per driving leg of the input, in input
      order, each drawn from that leg. */
  lemma OverlaysFollowRoutes(s: seq<Segment>)
    ensures |Overlays(Summarize(Filter(s)).routeCoordinates)| == |RoutePositions(s)|
    ensures forall j, k :: 0 <= j < k < |FilteredPositions(s)| ==> FilteredPositions(s)[j] < FilteredPositions(s)[k]
    ensures forall j :: 0 <= j < |FilteredPositions(s)| ==>
      FilteredPositions(s)[j] < |s| && IsRoute(s[FilteredPositions(s)[j]]) &&
      Overlays(Summarize(Filter(s)).routeCoordinates)[j].path == Path(s[FilteredPositions(s)[j]].points)
  {
    FilterCount(s);
    FilterSelectsRoutes(s);
    var kept := Filter(s);
    var idx := FilteredPositions(s);
    forall j | 0 <= j < |idx| ensures IsRoute(s[idx[j]]) && Overlays(kept)[j].path == Path(s[idx[j]].points) {
      assert idx[j] in idx;
      OverlayPathIs(kept, j);
    }
  }

  /** The path of the j-th overlay is the projection of the j-th segment's
      points. */
  lemma OverlayPathIs(routes: seq<Segment>, j: nat)
    requires j < |routes|
    ensures Overlays(routes)[j].path == Path(routes[j].points)
  {
  }

  /** The worked example: two 30-minute drives of 5 km and 15 km with a
      15-minute stop between them give 20 km and 1 h 0 m. */
  lemma ThreeSegmentExample()
    ensures
      var at := (ms: int) => Endpoint(ms, 0.0, 0.0);
      var drive1 := Segment("route", 5000, at(36_000_000), at(37_800_000), []);
      var stop := Segment("stop", 0, at(37_800_000), at(38_700_000), []);
      var drive2 := Segment("route", 15000, at(38_700_000), at(40_500_000), []);
      Summarize(Filter([drive1, stop, drive2])) == Report([drive1, drive2], 20.0, Duration(1, 0))
  {
    var at := (ms: int) => Endpoint(ms, 0.0, 0.0);
    var drive1 := Segment("route", 5000, at(36_000_000), at(37_800_000), []);
    var stop := Segment("stop", 0, at(37_800_000), at(38_700_000), []);
    var drive2 := Segment("route", 15000, at(38_700_000), at(40_500_000), []);
    var s := [drive1, stop, drive2];
    FilterSingle(drive1);
    assert [drive1, stop][..1] == [drive1];
    assert Filter([drive1, stop]) == [drive1];
    assert s[..2] == [drive1, stop];
    assert Filter(s) == [drive1, drive2];
    var kept := [drive1, drive2];
    assert kept[..1] == [drive1];
    assert [drive1][..0] == [];
    assert SumSeconds([drive1]) == 1800.0;
    assert SumSeconds(kept) == 3600.0;
    assert SumDistance([drive1]) == 5000;
    assert SumDistance(kept) == 20000;
  }

  /** -30 s splits into -1 h and -1 min. */
  lemma HalfMinuteBack()
    ensures Hours(-30.0) == -1 && Minutes(-30.0) == -1
  {
    assert Trunc(-30.0 / 3600.0) == 0;
    assert HourRemainder(-30.0) == -30.0;
  }

  /** A single driving leg whose end is 30 seconds before its start lowers
      the total below zero: the report reads -1 h -1 m. */
  lemma ReversedSpanExample()
    ensures
      var leg := Segment("route", 0, Endpoint(60_000, 0.0, 0.0), Endpoint(30_000, 0.0, 0.0), []);
      Summarize(Filter([leg])).totalTime == Duration(-1, -1)
  {
    var leg := Segment("route", 0, Endpoint(60_000, 0.0, 0.0), Endpoint(30_000, 0.0, 0.0), []);
    assert [leg][..0] == [];
    assert Filter([leg]) == [leg];
    assert SumSeconds([leg]) == -30.0;
    HalfMinuteBack();
  }
}
