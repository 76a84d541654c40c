/**
 * backend/app.py: the `/get_route` handler checks the request, geocodes the start, the
 * end and every stop with Nominatim, and forwards an OSRM driving-route request whose
 * path lists the coordinates as "lon,lat" pairs separated by ";".
 *
 * `geocode` is `get_coordinates` (None when Nominatim answers with an error or nothing),
 * `show` is Python's `str()` of a float, and `osrm` is the JSON the OSRM server answers
 * a URL with.
 */
module OsrmRoute {
  import opened Common

  const OsrmServer: string := "http://router.project-osrm.org"
  const RoutePath: string := "/route/v1/driving/"
  const RouteOptions: string := "?overview=full&geometries=geojson"

  /** `(lat, lon)` as `get_coordinates` returns it. */
  datatype Coords = Coords(lat: real, lon: real)

  /** The request body's `start` and `end`, and the stops it lists (`[]` when absent). */
  datatype RouteQuery = RouteQuery(start: Json, end: Json, stops: seq<Json>)

  /** A 400 reply with its error, or the OSRM answer for the URL that was requested. */
  datatype Reply = BadRequest(error: string) | Forwarded(url: string, body: Json)

  /** `f"{lon},{lat}"`: longitude first. */
  function LonLat(c: Coords, show: real -> string): string {
    show(c.lon) + "," + show(c.lat)
  }

  /** `[get_coordinates(stop) for stop in stops if get_coordinates(stop)]`. */
  function ResolvedStops(stops: seq<Json>, geocode: Json -> Option<Coords>): (r: seq<Coords>)
    ensures |r| <= |stops|
  {
    if stops == [] then []
    else
      var rest := ResolvedStops(stops[..|stops| - 1], geocode);
      match geocode(stops[|stops| - 1])
      case None => rest
      case Some(c) => rest + [c]
  }

  /** Resolving two lists of stops resolves each, keeping their order. */
  lemma {:induction false} ResolvedStopsAppend(a: seq<Json>, b: seq<Json>, geocode: Json -> Option<Coords>)
    ensures ResolvedStops(a + b, geocode) == ResolvedStops(a, geocode) + ResolvedStops(b, geocode)
    decreases |b|
  {
    if b == [] {
      assert a + b == a;
    } else {
      assert (a + b)[..|a + b| - 1] == a + b[..|b| - 1];
      ResolvedStopsAppend(a, b[..|b| - 1], geocode);
    }
  }

  /** A single stop is kept exactly when it geocodes, and then as its coordinates. */
  lemma ResolvedSingleStop(stop: Json, geocode: Json -> Option<Coords>)
    ensures geocode(stop).None? ==> ResolvedStops([stop], geocode) == []
    ensures geocode(stop).Some? ==> ResolvedStops([stop], geocode) == [geocode(stop).value]
  {
    assert [stop][..0] == [];
  }

  /** When no stop geocodes, all are dropped. */
  lemma {:induction false} ResolvedStopsAllDropped(stops: seq<Json>, geocode: Json -> Option<Coords>)
    requires forall k :: 0 <= k < |stops| ==> geocode(stops[k]).None?
    ensures ResolvedStops(stops, geocode) == []
    decreases |stops|
  {
    if stops != [] {
      ResolvedStopsAllDropped(stops[..|stops| - 1], geocode);
    }
  }

  /** When every stop geocodes, none is dropped. */
  lemma {:induction false} AllStopsResolve(stops: seq<Json>, geocode: Json -> Option<Coords>)
    requires forall k :: 0 <= k < |stops| ==> geocode(stops[k]).Some?
    ensures ResolvedStops(stops, geocode) == seq(|stops|, k requires 0 <= k < |stops| => geocode(stops[k]).value)
    decreases |stops|
  {
    if stops != [] {
      AllStopsResolve(stops[..|stops| - 1], geocode);
    }
  }

  /** The start, then the stops, then the end, each as "lon,lat". */
  function OsrmWaypoints(start: Coords, end: Coords, stops: seq<Coords>, show: real -> string): (r: seq<string>)
    ensures |r| == 2 + |stops|
    ensures r[0] == LonLat(start, show) && r[|r| - 1] == LonLat(end, show)
    ensures forall k :: 0 <= k < |stops| ==> r[k + 1] == LonLat(stops[k], show)
  {
    [LonLat(start, show)] + seq(|stops|, k requires 0 <= k < |stops| => LonLat(stops[k], show)) + [LonLat(end, show)]
  }

  function OsrmUrl(waypoints: seq<string>): string {
    OsrmServer + RoutePath + Join(waypoints, ';') + RouteOptions
  }

  /** `get_route`. */
  function GetRoute(query: RouteQuery, geocode: Json -> Option<Coords>, show: real -> string,
                    osrm: string -> Json): (r: Reply)
    ensures !PyTruthy(query.start) || !PyTruthy(query.end) ==>
              r == BadRequest("Start and End locations are required")
    ensures PyTruthy(query.start) && PyTruthy(query.end) && (geocode(query.start).None? || geocode(query.end).None?) ==>
              r == BadRequest("Could not get coordinates for locations")
    ensures r.Forwarded? <==>
              PyTruthy(query.start) && PyTruthy(query.end) && geocode(query.start).Some? && geocode(query.end).Some?
    ensures r.Forwarded? ==>
              && r.url == OsrmUrl(OsrmWaypoints(geocode(query.start).value, geocode(query.end).value,
                                                ResolvedStops(query.stops, geocode), show))
              && r.body == osrm(r.url)
  {
    if !PyTruthy(query.start) || !PyTruthy(query.end) then
      BadRequest("Start and End locations are required")
    else
      var startCoords := geocode(query.start);
      var endCoords := geocode(query.end);
      if startCoords.None? || endCoords.None? then
        BadRequest("Could not get coordinates for locations")
      else
        var waypoints := OsrmWaypoints(startCoords.value, endCoords.value, ResolvedStops(query.stops, geocode), show);
        var url := OsrmUrl(waypoints);
        Forwarded(url, osrm(url))
  }

  /** A "lon,lat" text reads back as the longitude, then the latitude. */
  lemma LonLatSplits(c: Coords, show: real -> string)
    requires ',' !in show(c.lon) && ',' !in show(c.lat)
    ensures Split(LonLat(c, show), ',') == [show(c.lon), show(c.lat)]
  {
    SplitAtSeparator(show(c.lon), ',', show(c.lat));
    SplitNoSeparator(show(c.lat), ',');
  }

  /**
   * The path of a forwarded URL, between the route prefix and the options, splits on ";"
   * back into the waypoints: 2 + |resolved stops| of them, start first and end last.
   */
  lemma ForwardedUrlListsWaypoints(query: RouteQuery, geocode: Json -> Option<Coords>, show: real -> string,
                                   osrm: string -> Json)
    requires forall x :: ';' !in show(x)
    ensures var r := GetRoute(query, geocode, show, osrm);
      r.Forwarded? ==>
        var prefix := |OsrmServer + RoutePath|;
        && prefix + |RouteOptions| <= |r.url|
        && var wps := Split(r.url[prefix..|r.url| - |RouteOptions|], ';');
        && |wps| == 2 + |ResolvedStops(query.stops, geocode)|
        && wps[0] == LonLat(geocode(query.start).value, show)
        && wps[|wps| - 1] == LonLat(geocode(query.end).value, show)
  {
    var r := GetRoute(query, geocode, show, osrm);
    if r.Forwarded? {
      var wps := OsrmWaypoints(geocode(query.start).value, geocode(query.end).value,
                               ResolvedStops(query.stops, geocode), show);
      forall k | 0 <= k < |wps| ensures ';' !in wps[k] {
        var c :| wps[k] == LonLat(c, show);
      }
      SplitJoin(wps, ';');
      var joined := Join(wps, ';');
      assert r.url == (OsrmServer + RoutePath) + joined + RouteOptions;
      assert r.url[|OsrmServer + RoutePath|..|r.url| - |RouteOptions|] == joined;
    }
  }
}
