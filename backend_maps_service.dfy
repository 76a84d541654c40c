/**
 * backend/maps_service.py: formatting a location for the Directions API, the route
 * summary of `get_route` (leg totals and one-to-one leg and step details), and the
 * waypoint and marker assembly of `get_route_data`.
 *
 * The Google client is a parameter: `directions` answers a request with its routes or
 * with the message of the exception it raised, `geocode` answers a location with its
 * results or an exception message. `parseFloat` is Python's `float()` on text and `show`
 * is Python's `str()` (what an f-string prints) on a JSON value.
 */
module BackendMapsService {
  import opened Common
  import opened Directions

  // ---------------------------------------------------------------------
  // _format_location

  /** `_format_location`: "lat,lng" for a dict with both, else its `formatted_address`, else `str(location)`. */
  function FormatLocation(location: Json, show: Json -> string): (r: string)
    ensures location.JObj? && "lat" in location.fields && "lng" in location.fields ==>
              r == show(location.fields["lat"]) + "," + show(location.fields["lng"])
    ensures location.JObj? && !("lat" in location.fields && "lng" in location.fields)
              && "formatted_address" in location.fields && location.fields["formatted_address"].JStr? ==>
              r == location.fields["formatted_address"].s
    ensures location.JObj? && !("lat" in location.fields && "lng" in location.fields) && "formatted_address" !in location.fields ==>
              r == show(location)
    ensures location.JStr? ==> r == location.s
    ensures !location.JObj? && !location.JStr? ==> r == show(location)
  {
    if location.JObj? && "lat" in location.fields && "lng" in location.fields then
      show(location.fields["lat"]) + "," + show(location.fields["lng"])
    else if location.JObj? && "formatted_address" in location.fields then
      Text(location.fields["formatted_address"], show)
    else
      Text(location, show)
  }

  /** `str(v)`: a string is itself. */
  function Text(v: Json, show: Json -> string): string {
    if v.JStr? then v.s else show(v)
  }

  // ---------------------------------------------------------------------
  // get_route

  datatype StepDetail = StepDetail(instruction: string, distance: Measure, duration: Measure,
                                   startLocation: LatLng, endLocation: LatLng)

  datatype LegDetail = LegDetail(startLocation: LatLng, endLocation: LatLng, distance: Measure, duration: Measure,
                                 steps: seq<StepDetail>)

  datatype RouteSummary = RouteSummary(totalDistance: int, totalDuration: int, legs: seq<LegDetail>)

  /** `{"error": ..., "route": ...}`: exactly one of the two is not None. */
  datatype RouteReply = RouteReply(error: Option<string>, route: Option<RouteSummary>)

  function Sum(xs: seq<int>): int {
    if xs == [] then 0 else Sum(xs[..|xs| - 1]) + xs[|xs| - 1]
  }

  lemma {:induction false} SumAppend(a: seq<int>, b: seq<int>)
    ensures Sum(a + b) == Sum(a) + Sum(b)
    decreases |b|
  {
    if b == [] {
      assert a + b == a;
    } else {
      assert (a + b)[..|a + b| - 1] == a + b[..|b| - 1];
      SumAppend(a, b[..|b| - 1]);
    }
  }

  /** With no negative entry the sum is at least every entry, and so at least 0. */
  lemma {:induction false} SumBoundsEntries(xs: seq<int>)
    requires forall k :: 0 <= k < |xs| ==> xs[k] >= 0
    ensures Sum(xs) >= 0
    ensures forall k :: 0 <= k < |xs| ==> xs[k] <= Sum(xs)
  {
    if xs != [] {
      SumBoundsEntries(xs[..|xs| - 1]);
    }
  }

  function DistanceValues(legs: seq<Leg>): seq<int> {
    seq(|legs|, i requires 0 <= i < |legs| => legs[i].distance.value)
  }

  function DurationValues(legs: seq<Leg>): seq<int> {
    seq(|legs|, i requires 0 <= i < |legs| => legs[i].duration.value)
  }

  function StepDetailOf(step: Step): StepDetail {
    StepDetail(step.htmlInstructions, step.distance, step.duration, step.startLocation, step.endLocation)
  }

  function LegDetailOf(leg: Leg): LegDetail {
    LegDetail(leg.startLocation, leg.endLocation, leg.distance, leg.duration,
              seq(|leg.steps|, j requires 0 <= j < |leg.steps| => StepDetailOf(leg.steps[j])))
  }

  /** `get_route`: the first route's leg totals and details; "No route found" for no route; the exception text on failure. */
  function GetRoute(start: string, end: string, waypoints: Option<seq<string>>,
                    directions: Request<string> -> Result<seq<DirectionsRoute>, string>): (r: RouteReply)
    ensures r.error.None? <==> r.route.Some?
    ensures directions(Request(start, end, waypoints)) == Ok([]) ==> r == RouteReply(Some("No route found"), None)
    ensures directions(Request(start, end, waypoints)).Ok? && directions(Request(start, end, waypoints)).value != [] ==>
              r.error.None? && r.route.Some?
    ensures directions(Request(start, end, waypoints)).Err? ==>
              r == RouteReply(Some(directions(Request(start, end, waypoints)).error), None)
    ensures r.route.Some? ==>
              var legs := directions(Request(start, end, waypoints)).value[0].legs;
              && r.route.value.totalDistance == Sum(DistanceValues(legs))
              && r.route.value.totalDuration == Sum(DurationValues(legs))
              && |r.route.value.legs| == |legs|
              && forall i :: 0 <= i < |legs| ==> r.route.value.legs[i] == LegDetailOf(legs[i])
  {
    match directions(Request(start, end, waypoints))
    case Err(e) => RouteReply(Some(e), None)
    case Ok(routes) =>
      if routes == [] then RouteReply(Some("No route found"), None)
      else
        var legs := routes[0].legs;
        RouteReply(None, Some(RouteSummary(Sum(DistanceValues(legs)), Sum(DurationValues(legs)),
                                           seq(|legs|, i requires 0 <= i < |legs| => LegDetailOf(legs[i])))))
  }

  function ReportedDistanceValues(legs: seq<LegDetail>): seq<int> {
    seq(|legs|, i requires 0 <= i < |legs| => legs[i].distance.value)
  }

  function ReportedDurationValues(legs: seq<LegDetail>): seq<int> {
    seq(|legs|, i requires 0 <= i < |legs| => legs[i].duration.value)
  }

  /** The totals of a found route are the sums over the legs it reports, so the reply is self-consistent. */
  lemma RouteTotalsMatchReportedLegs(start: string, end: string, waypoints: Option<seq<string>>,
                                      directions: Request<string> -> Result<seq<DirectionsRoute>, string>)
    ensures var r := GetRoute(start, end, waypoints, directions);
      r.route.Some? ==>
        && r.route.value.totalDistance == Sum(ReportedDistanceValues(r.route.value.legs))
        && r.route.value.totalDuration == Sum(ReportedDurationValues(r.route.value.legs))
  {
    var r := GetRoute(start, end, waypoints, directions);
    if r.route.Some? {
      var legs := directions(Request(start, end, waypoints)).value[0].legs;
      assert ReportedDistanceValues(r.route.value.legs) == DistanceValues(legs);
      assert ReportedDurationValues(r.route.value.legs) == DurationValues(legs);
    }
  }

  /** With no negative leg distance, the total distance is at least that of every leg. */
  lemma TotalCoversEveryLeg(legs: seq<Leg>)
    requires forall k :: 0 <= k < |legs| ==> legs[k].distance.value >= 0
    ensures Sum(DistanceValues(legs)) >= 0
    ensures forall k :: 0 <= k < |legs| ==> legs[k].distance.value <= Sum(DistanceValues(legs))
  {
    SumBoundsEntries(DistanceValues(legs));
    assert forall k :: 0 <= k < |legs| ==> DistanceValues(legs)[k] == legs[k].distance.value;
  }

  /** The total distance of a route made of two parts is the sum of the parts' totals. */
  lemma TotalOfJoinedLegs(a: seq<Leg>, b: seq<Leg>)
    ensures Sum(DistanceValues(a + b)) == Sum(DistanceValues(a)) + Sum(DistanceValues(b))
    ensures Sum(DurationValues(a + b)) == Sum(DurationValues(a)) + Sum(DurationValues(b))
  {
    assert DistanceValues(a + b) == DistanceValues(a) + DistanceValues(b);
    assert DurationValues(a + b) == DurationValues(a) + DurationValues(b);
    SumAppend(DistanceValues(a), DistanceValues(b));
    SumAppend(DurationValues(a), DurationValues(b));
  }

  // ---------------------------------------------------------------------
  // get_route_data

  datatype Marker = Marker(position: LatLng, title: Json, description: Json, kind: Json)

  /** The simplified route, or `{"error": ...}`. */
  datatype RouteData =
    | RouteData(overviewPolyline: string, markers: seq<Marker>, bounds: Json, legs: seq<LegPath>)
    | RouteDataError(error: string)

  /** `item.get("location") or item.get("address")`. */
  function LocationOf(item: map<string, Json>): Json {
    var location := Get(item, "location");
    if PyTruthy(location) then location else Get(item, "address")
  }

  /**
   * The coordinates of a location, or None when the item is skipped: a falsy location;
   * text with a comma that does not split into exactly two numbers; a geocoder that fails
   * or finds nothing.
   */
  function Resolve(location: Json, parseFloat: string -> Option<real>,
                   geocode: Json -> Result<seq<LatLng>, string>): Option<LatLng>
  {
    if !PyTruthy(location) then None
    else if location.JStr? && ',' in location.s then
      var parts := Split(location.s, ',');
      if |parts| == 2 && parseFloat(parts[0]).Some? && parseFloat(parts[1]).Some? then
        Some(LatLng(parseFloat(parts[0]).value, parseFloat(parts[1]).value))
      else None
    else
      match geocode(location)
      case Err(_) => None
      case Ok(results) => if results == [] then None else Some(results[0])
  }

  /** `f"{lat},{lng}"`. */
  function WaypointText(p: LatLng, show: Json -> string): string {
    show(JNum(p.lat)) + "," + show(JNum(p.lng))
  }

  /** The marker of a resolved item: title "Stop", description "" and type "stop" unless the item sets them. */
  function MarkerOf(item: map<string, Json>, p: LatLng): (m: Marker)
    ensures m.position == p
    ensures "title" !in item ==> m.title == JStr("Stop")
    ensures "description" !in item ==> m.description == JStr("")
    ensures "type" !in item ==> m.kind == JStr("stop")
  {
    Marker(p, GetOr(item, "title", JStr("Stop")), GetOr(item, "description", JStr("")), GetOr(item, "type", JStr("stop")))
  }

  /** The waypoints `get_route_data` collects from an itinerary, in order. */
  function Waypoints(items: seq<map<string, Json>>, parseFloat: string -> Option<real>,
                     geocode: Json -> Result<seq<LatLng>, string>, show: Json -> string): seq<string>
  {
    if items == [] then []
    else
      var rest := Waypoints(items[..|items| - 1], parseFloat, geocode, show);
      match Resolve(LocationOf(items[|items| - 1]), parseFloat, geocode)
      case None => rest
      case Some(p) => rest + [WaypointText(p, show)]
  }

  /** The markers `get_route_data` collects from an itinerary, in order. */
  function Markers(items: seq<map<string, Json>>, parseFloat: string -> Option<real>,
                   geocode: Json -> Result<seq<LatLng>, string>): seq<Marker>
  {
    if items == [] then []
    else
      var rest := Markers(items[..|items| - 1], parseFloat, geocode);
      match Resolve(LocationOf(items[|items| - 1]), parseFloat, geocode)
      case None => rest
      case Some(p) => rest + [MarkerOf(items[|items| - 1], p)]
  }

  /** Waypoints and markers are appended together: equally many, the i-th waypoint naming the i-th marker's position. */
  lemma {:induction false} WaypointsMatchMarkers(items: seq<map<string, Json>>, parseFloat: string -> Option<real>,
                                                 geocode: Json -> Result<seq<LatLng>, string>, show: Json -> string)
    ensures var wps := Waypoints(items, parseFloat, geocode, show);
            var ms := Markers(items, parseFloat, geocode);
      && |wps| == |ms| <= |items|
      && forall i :: 0 <= i < |ms| ==> wps[i] == WaypointText(ms[i].position, show)
    decreases |items|
  {
    if items != [] {
      WaypointsMatchMarkers(items[..|items| - 1], parseFloat, geocode, show);
    }
  }

  /** An item with neither a location nor an address adds no waypoint and no marker. */
  lemma ItemWithoutLocationSkipped(items: seq<map<string, Json>>, item: map<string, Json>,
                                   parseFloat: string -> Option<real>, geocode: Json -> Result<seq<LatLng>, string>,
                                   show: Json -> string)
    requires !PyTruthy(Get(item, "location")) && !PyTruthy(Get(item, "address"))
    ensures Waypoints(items + [item], parseFloat, geocode, show) == Waypoints(items, parseFloat, geocode, show)
    ensures Markers(items + [item], parseFloat, geocode) == Markers(items, parseFloat, geocode)
  {
    assert (items + [item])[..|items|] == items;
  }

  /** Text with a comma that does not split into exactly two pieces is skipped, whatever the geocoder says. */
  lemma CommaTextNotTwoNumbersSkipped(s: string, parseFloat: string -> Option<real>,
                                      geocode: Json -> Result<seq<LatLng>, string>)
    requires ',' in s && |Split(s, ',')| != 2
    ensures Resolve(JStr(s), parseFloat, geocode) == None
  {
  }

  /**
   * A waypoint text read back as an item's location gives the same coordinates, without
   * asking the geocoder, provided `float()` reads back what `str()` printed and the printed
   * numbers hold no comma.
   */
  lemma WaypointTextResolvesBack(p: LatLng, parseFloat: string -> Option<real>,
                                 geocode: Json -> Result<seq<LatLng>, string>, show: Json -> string)
    requires ',' !in show(JNum(p.lat)) && ',' !in show(JNum(p.lng))
    requires parseFloat(show(JNum(p.lat))) == Some(p.lat) && parseFloat(show(JNum(p.lng))) == Some(p.lng)
    ensures Resolve(JStr(WaypointText(p, show)), parseFloat, geocode) == Some(p)
  {
    var x, y := show(JNum(p.lat)), show(JNum(p.lng));
    SplitAtSeparator(x, ',', y);
    SplitNoSeparator(y, ',');
    assert WaypointText(p, show)[|x|] == ',';
  }

  /** What `_format_location` makes of a coordinate dict is the waypoint text of those coordinates, and reads back to them. */
  lemma FormattedCoordinatesResolve(lat: real, lng: real, parseFloat: string -> Option<real>,
                                    geocode: Json -> Result<seq<LatLng>, string>, show: Json -> string)
    requires ',' !in show(JNum(lat)) && ',' !in show(JNum(lng))
    requires parseFloat(show(JNum(lat))) == Some(lat) && parseFloat(show(JNum(lng))) == Some(lng)
    ensures var location := JObj(map["lat" := JNum(lat), "lng" := JNum(lng)]);
      && FormatLocation(location, show) == WaypointText(LatLng(lat, lng), show)
      && Resolve(JStr(FormatLocation(location, show)), parseFloat, geocode) == Some(LatLng(lat, lng))
  {
    WaypointTextResolvesBack(LatLng(lat, lng), parseFloat, geocode, show);
  }

  /**
   * `get_route_data`: collects waypoints and markers in one pass over the itinerary, then
   * asks for directions from the first waypoint to the last through the ones between.
   */
  method GetRouteData(itinerary: seq<map<string, Json>>, parseFloat: string -> Option<real>,
                      geocode: Json -> Result<seq<LatLng>, string>, show: Json -> string,
                      directions: Request<string> -> Result<seq<DirectionsRoute>, string>)
    returns (r: RouteData)
    ensures var wps := Waypoints(itinerary, parseFloat, geocode, show);
      && (|wps| < 2 ==> r == RouteDataError("Not enough waypoints to create a route"))
      && (|wps| >= 2 ==>
            match directions(SplitWaypoints(wps).value)
            case Err(e) => r == RouteDataError(e)
            case Ok(routes) =>
              if routes == [] then r == RouteDataError("Could not generate route")
              else r == RouteData(routes[0].overviewPolyline, Markers(itinerary, parseFloat, geocode),
                                  routes[0].bounds, LegPaths(routes[0].legs)))
  {
    var waypoints: seq<string> := [];
    var markers: seq<Marker> := [];
    for i := 0 to |itinerary|
      invariant waypoints == Waypoints(itinerary[..i], parseFloat, geocode, show)
      invariant markers == Markers(itinerary[..i], parseFloat, geocode)
    {
      assert itinerary[..i + 1][..i] == itinerary[..i];
      var item := itinerary[i];
      var location := LocationOf(item);
      if PyTruthy(location) {
        var p := Resolve(location, parseFloat, geocode);
        if p.Some? {
          waypoints := waypoints + [WaypointText(p.value, show)];
          markers := markers + [MarkerOf(item, p.value)];
        }
      }
    }
    assert itinerary[..|itinerary|] == itinerary;

    if |waypoints| < 2 {
      return RouteDataError("Not enough waypoints to create a route");
    }
    var request := Request(waypoints[0], waypoints[|waypoints| - 1],
                           if |waypoints| > 2 then Some(waypoints[1..|waypoints| - 1]) else None);
    assert request == SplitWaypoints(waypoints).value;
    match directions(request)
    case Err(e) =>
      r := RouteDataError(e);
    case Ok(routes) =>
      if routes == [] {
        r := RouteDataError("Could not generate route");
      } else {
        r := RouteData(routes[0].overviewPolyline, markers, routes[0].bounds,
                       seq(|routes[0].legs|, k requires 0 <= k < |routes[0].legs| => LegPathOf(routes[0].legs[k])));
      }
  }
}
