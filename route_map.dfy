/**
 * frontend/src/components/Map.js: draws the OSRM route the trip form received. OSRM lists
 * coordinates as [lon, lat]; Leaflet wants [lat, lon].
 */
module RouteMap {
  import opened Common

  /** A two-number coordinate array `[a, b]`. */
  datatype Pair = Pair(first: real, second: real)

  /** The OSRM answer as the map reads it: each route's `geometry.coordinates`; None when `routes` is absent or null. */
  datatype OsrmAnswer = OsrmAnswer(routes: Option<seq<seq<Pair>>>)

  const DefaultPosition: Pair := Pair(40.1164, -88.2434)
  const Zoom: int := 10

  /** `([lon, lat]) => [lat, lon]`. */
  function Swap(p: Pair): Pair {
    Pair(p.second, p.first)
  }

  /** `getPolylineCoordinates`: the first route's coordinates as [lat, lon]; none without a route. */
  function PolylineCoordinates(route: Option<OsrmAnswer>): (r: seq<Pair>)
    ensures route.None? || route.value.routes.None? || route.value.routes.value == [] ==> r == []
    ensures route.Some? && route.value.routes.Some? && route.value.routes.value != [] ==>
              var coords := route.value.routes.value[0];
              && |r| == |coords|
              && forall i :: 0 <= i < |coords| ==> r[i] == Pair(coords[i].second, coords[i].first)
  {
    if route.None? || route.value.routes.None? || route.value.routes.value == [] then []
    else
      var coords := route.value.routes.value[0];
      seq(|coords|, i requires 0 <= i < |coords| => Swap(coords[i]))
  }

  /** Swapping back gives the OSRM coordinates of the first route, so no point is lost or reordered. */
  lemma SwapRecoversRoute(answer: OsrmAnswer)
    requires answer.routes.Some? && answer.routes.value != []
    ensures var r := PolylineCoordinates(Some(answer));
      seq(|r|, i requires 0 <= i < |r| => Swap(r[i])) == answer.routes.value[0]
  {
    var r := PolylineCoordinates(Some(answer));
    var coords := answer.routes.value[0];
    assert forall i :: 0 <= i < |r| ==> Swap(r[i]) == coords[i];
  }

  /** Routes after the first play no part. */
  lemma OnlyFirstRouteDrawn(first: seq<Pair>, others: seq<seq<Pair>>, others2: seq<seq<Pair>>)
    ensures PolylineCoordinates(Some(OsrmAnswer(Some([first] + others))))
         == PolylineCoordinates(Some(OsrmAnswer(Some([first] + others2))))
  {
  }

  /** What the map shows: centre, zoom, the polyline, and the start and end markers. */
  datatype MapView = MapView(center: Pair, zoom: int, line: seq<Pair>, startMarker: Option<Pair>, endMarker: Option<Pair>)

  function Render(route: Option<OsrmAnswer>): MapView {
    var coords := PolylineCoordinates(route);
    if coords == [] then MapView(DefaultPosition, Zoom, [], None, None)
    else MapView(coords[0], Zoom, coords, Some(coords[0]), Some(coords[|coords| - 1]))
  }

  /**
   * Markers appear exactly when there is something to draw; the map is centred on the start
   * marker, which is the first OSRM coordinate read as [lat, lon], and the end marker is the
   * last one; with nothing to draw the map sits at the default position.
   */
  lemma RenderedMarkersFollowRoute(route: Option<OsrmAnswer>)
    ensures var v := Render(route);
      && v.zoom == 10
      && (v.startMarker.Some? <==> v.line != []) && (v.endMarker.Some? <==> v.line != [])
      && (v.line == [] ==> v.center == Pair(40.1164, -88.2434))
      && (v.line != [] ==>
            var coords := route.value.routes.value[0];
            && v.center == v.startMarker.value
            && v.startMarker.value == Pair(coords[0].second, coords[0].first)
            && v.endMarker.value == Pair(coords[|coords| - 1].second, coords[|coords| - 1].first))
  {
  }
}
