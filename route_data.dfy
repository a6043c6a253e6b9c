/** The route payload returned by the telemetry service's `route/list`
    endpoint, as far as `generateRoute` and the map rendering read it. */
module RouteData {
  import opened Wrappers

  /** A sample of `decoded_route.points`; only the coordinates are read. */
  datatype DecodedPoint = DecodedPoint(lat: real, lng: real)

  /** `route.start` / `route.end`: an instant (already parsed, in
      milliseconds since the epoch) and a position. */
  datatype Endpoint = Endpoint(time: int, lat: real, lng: real)

  /** One entry of `units[0].routes`. `kind` is the payload's `type`
      field; `distance` is in meters; `points` is `decoded_route.points`. */
  datatype Segment = Segment(
    kind: string,
    distance: int,
    start: Endpoint,
    end: Endpoint,
    points: seq<DecodedPoint>)

  /** An entry of `units`; `routes` may be absent from the object. */
  datatype Unit = Unit(routes: Option<seq<Segment>>)

  /** The `data` object of the response; `units` may be absent. */
  datatype Payload = Payload(units: Option<seq<Unit>>)

  /** The tag that marks a driving leg, as compared at src/App.js:58. */
  const RouteKind: string := "route"

  predicate IsRoute(s: Segment) {
    s.kind == RouteKind
  }
}
