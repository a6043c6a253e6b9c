/** The geometry projector: the data the render hands to the map widget for
    each kept segment (src/App.js:160-171). */
module Projection {
  import opened RouteData

  /** A `{ lat, lng }` object given to the map widget. */
  datatype LatLng = LatLng(lat: real, lng: real)

  /** What one `Fragment` draws: its markers and its polyline's path. */
  datatype Overlay = Overlay(markers: seq<LatLng>, path: seq<LatLng>)

  /** `points.map((point) => ({ lat: point.lat, lng: point.lng }))`. */
  function Path(points: seq<DecodedPoint>): (path: seq<LatLng>)
    ensures |path| == |points|
    ensures forall i :: 0 <= i < |path| ==> path[i].lat == points[i].lat && path[i].lng == points[i].lng
  {
    if points == [] then []
    else [LatLng(points[0].lat, points[0].lng)] + Path(points[1..])
  }

  /** `{ lat: route.start.lat, lng: route.start.lng }`. */
  function StartMarker(seg: Segment): (m: LatLng)
    ensures m.lat == seg.start.lat && m.lng == seg.start.lng
  {
    LatLng(seg.start.lat, seg.start.lng)
  }

  /** One fragment: two markers, both at the segment's start, and the path. */
  function OverlayOf(seg: Segment): (o: Overlay)
    ensures |o.markers| == 2 && forall m :: m in o.markers ==> m == StartMarker(seg)
    ensures |o.path| == |seg.points|
    ensures forall k :: 0 <= k < |o.path| ==> o.path[k].lat == seg.points[k].lat && o.path[k].lng == seg.points[k].lng
  {
    Overlay([StartMarker(seg), StartMarker(seg)], Path(seg.points))
  }

  /** `routeCoordinates.map(...)`: one overlay per segment, in list order. */
  function Overlays(routes: seq<Segment>): (r: seq<Overlay>)
    ensures |r| == |routes|
    ensures forall i :: 0 <= i < |r| ==>
      && |r[i].path| == |routes[i].points|
      && (forall k :: 0 <= k < |r[i].path| ==>
            r[i].path[k].lat == routes[i].points[k].lat && r[i].path[k].lng == routes[i].points[k].lng)
      && |r[i].markers| > 0
      && (forall m :: m in r[i].markers ==> m.lat == routes[i].start.lat && m.lng == routes[i].start.lng)
  {
    if routes == [] then []
    else [OverlayOf(routes[0])] + Overlays(routes[1..])
  }

  /** Projecting a concatenation projects each part. */
  lemma {:induction false} OverlaysAppend(a: seq<Segment>, b: seq<Segment>)
    ensures Overlays(a + b) == Overlays(a) + Overlays(b)
  {
    if a == [] {
      assert a + b == b;
    } else {
      assert (a + b)[0] == a[0];
      assert (a + b)[1..] == a[1..] + b;
      OverlaysAppend(a[1..], b);
    }
  }

  /** A segment without decoded points still gets its markers, and an empty
      path. */
  lemma EmptyPointsEmptyPath(seg: Segment)
    requires seg.points == []
    ensures OverlayOf(seg).path == [] && |OverlayOf(seg).markers| == 2
  {
  }
}
