/**
 * app/backend/maps_service.py: `get_route_data` collects the truthy `location` of every
 * itinerary item and asks for directions through them, handing back the overview
 * polyline and the simplified legs. The Google client is the `directions` parameter,
 * answering with its routes or with the message of the exception it raised.
 */
module AppMapsService {
  import opened Common
  import opened Directions

  /** The simplified route, or `{"error": ...}`. */
  datatype RouteData =
    | RouteData(overviewPolyline: string, legs: seq<LegPath>)
    | RouteDataError(error: string)

  /** The truthy `location` values of the items, in itinerary order. */
  function Locations(items: seq<map<string, Json>>): (r: seq<Json>)
    ensures |r| <= |items|
    ensures forall k :: 0 <= k < |r| ==> PyTruthy(r[k])
  {
    if items == [] then []
    else
      var rest := Locations(items[..|items| - 1]);
      var location := Get(items[|items| - 1], "location");
      if PyTruthy(location) then rest + [location] else rest
  }

  /** Collecting over two parts of an itinerary collects over each, in order. */
  lemma {:induction false} LocationsAppend(a: seq<map<string, Json>>, b: seq<map<string, Json>>)
    ensures Locations(a + b) == Locations(a) + Locations(b)
    decreases |b|
  {
    if b == [] {
      assert a + b == a;
    } else {
      assert (a + b)[..|a + b| - 1] == a + b[..|b| - 1];
      LocationsAppend(a, b[..|b| - 1]);
    }
  }

  /** `v` is the location of one of the items. */
  predicate IsItemLocation(items: seq<map<string, Json>>, v: Json) {
    exists i :: 0 <= i < |items| && Get(items[i], "location") == v
  }

  /** Every collected waypoint is some item's location, and an item with a truthy location contributes it. */
  lemma {:induction false} LocationsAreItemLocations(items: seq<map<string, Json>>)
    ensures forall k :: 0 <= k < |Locations(items)| ==> IsItemLocation(items, Locations(items)[k])
    ensures forall i :: 0 <= i < |items| && PyTruthy(Get(items[i], "location")) ==>
              Get(items[i], "location") in Locations(items)
    decreases |items|
  {
    if items != [] {
      var init := items[..|items| - 1];
      LocationsAreItemLocations(init);
      forall k | 0 <= k < |Locations(items)|
        ensures IsItemLocation(items, Locations(items)[k])
      {
        if k < |Locations(init)| {
          assert IsItemLocation(init, Locations(init)[k]);
          var i :| 0 <= i < |init| && Get(init[i], "location") == Locations(init)[k];
          assert items[i] == init[i];
          assert Locations(items)[k] == Locations(init)[k];
          assert 0 <= i < |items| && Get(items[i], "location") == Locations(items)[k];
        } else {
          var i := |items| - 1;
          assert 0 <= i < |items| && Get(items[i], "location") == Locations(items)[k];
        }
      }
      forall i | 0 <= i < |items| && PyTruthy(Get(items[i], "location"))
        ensures Get(items[i], "location") in Locations(items)
      {
        if i < |init| {
          assert items[i] == init[i];
        }
      }
    }
  }

  /** `get_route_data`. */
  method GetRouteData(itinerary: seq<map<string, Json>>,
                      directions: Request<Json> -> Result<seq<DirectionsRoute>, string>)
    returns (r: RouteData)
    ensures var wps := Locations(itinerary);
      && (|wps| < 2 ==> r == RouteDataError("Not enough waypoints to create a route"))
      && (|wps| >= 2 ==>
            match directions(SplitWaypoints(wps).value)
            case Err(e) => r == RouteDataError(e)
            case Ok(routes) =>
              if routes == [] then r == RouteDataError("Could not generate route")
              else r == RouteData(routes[0].overviewPolyline, LegPaths(routes[0].legs)))
  {
    var waypoints: seq<Json> := [];
    for i := 0 to |itinerary|
      invariant waypoints == Locations(itinerary[..i])
    {
      assert itinerary[..i + 1][..i] == itinerary[..i];
      var location := Get(itinerary[i], "location");
      if PyTruthy(location) {
        waypoints := waypoints + [location];
      }
    }
    assert itinerary[..|itinerary|] == itinerary;

    if |waypoints| < 2 {
      return RouteDataError("Not enough waypoints to create a route");
    }
    var request := Request(waypoints[0], waypoints[|waypoints| - 1],
                           if |waypoints| > 2 then Some(waypoints[1..|waypoints| - 1]) else None);
    assert request == SplitWaypoints(waypoints).value;
    match directions(request)
    case Err(e) =>
      r := RouteDataError(e);
    case Ok(routes) =>
      if routes == [] {
        r := RouteDataError("Could not generate route");
      } else {
        r := RouteData(routes[0].overviewPolyline,
                       seq(|routes[0].legs|, k requires 0 <= k < |routes[0].legs| => LegPathOf(routes[0].legs[k])));
      }
  }
}
