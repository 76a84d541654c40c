/**
 * The Google Directions data both map services read (backend/maps_service.py and
 * app/backend/maps_service.py): the request they issue, the route they get back, and
 * the simplified legs they hand to the frontend.
 */
module Directions {
  import opened Common

  datatype LatLng = LatLng(lat: real, lng: real)

  /** A `distance` or `duration` entry: `{"value": ..., "text": ...}`. */
  datatype Measure = Measure(value: int, text: string)

  datatype Step = Step(htmlInstructions: string, distance: Measure, duration: Measure,
                       startLocation: LatLng, endLocation: LatLng, polyline: string)

  datatype Leg = Leg(startLocation: LatLng, endLocation: LatLng, distance: Measure, duration: Measure,
                     steps: seq<Step>)

  /** One route of a Directions result: its legs, `overview_polyline.points` and `bounds`. */
  datatype DirectionsRoute = DirectionsRoute(legs: seq<Leg>, overviewPolyline: string, bounds: Json)

  /** `gmaps.directions(origin, destination, waypoints=...)`: the intermediate waypoints are None or a list. */
  datatype Request<T> = Request(origin: T, destination: T, waypoints: Option<seq<T>>)

  /** Origin first, destination last, intermediates `waypoints[1:-1]` only when there are more than 2; None below 2. */
  function SplitWaypoints<T>(waypoints: seq<T>): (r: Option<Request<T>>)
    ensures r.None? <==> |waypoints| < 2
  {
    if |waypoints| < 2 then None
    else Some(Request(waypoints[0], waypoints[|waypoints| - 1],
                      if |waypoints| > 2 then Some(waypoints[1..|waypoints| - 1]) else None))
  }

  /** The waypoints a request visits, in order. */
  function Visits<T>(req: Request<T>): seq<T> {
    [req.origin] + req.waypoints.GetOr([]) + [req.destination]
  }

  /** The request visits exactly the given waypoints, and lists intermediates only when there are some. */
  lemma SplitWaypointsVisitsAll<T>(waypoints: seq<T>)
    requires |waypoints| >= 2
    ensures Visits(SplitWaypoints(waypoints).value) == waypoints
    ensures SplitWaypoints(waypoints).value.waypoints.Some? ==> SplitWaypoints(waypoints).value.waypoints.value != []
  {
    var n := |waypoints|;
    if n == 2 {
      assert Visits(SplitWaypoints(waypoints).value) == [waypoints[0], waypoints[1]];
    } else {
      assert [waypoints[0]] + waypoints[1..n - 1] + [waypoints[n - 1]] == waypoints;
    }
  }

  /** A step as the frontend receives it: endpoints and its encoded polyline. */
  datatype StepPath = StepPath(startLocation: LatLng, endLocation: LatLng, polyline: string)

  /** A leg as the frontend receives it. */
  datatype LegPath = LegPath(startLocation: LatLng, endLocation: LatLng, distance: Measure, duration: Measure,
                             steps: seq<StepPath>)

  function StepPathOf(step: Step): StepPath {
    StepPath(step.startLocation, step.endLocation, step.polyline)
  }

  function LegPathOf(leg: Leg): LegPath {
    LegPath(leg.startLocation, leg.endLocation, leg.distance, leg.duration,
            seq(|leg.steps|, j requires 0 <= j < |leg.steps| => StepPathOf(leg.steps[j])))
  }

  /** The `legs` comprehension of `get_route_data`. */
  function LegPaths(legs: seq<Leg>): seq<LegPath> {
    seq(|legs|, i requires 0 <= i < |legs| => LegPathOf(legs[i]))
  }

  /** Legs map one to one and in order, and so do the steps of each leg, keeping endpoints, measures and polylines. */
  lemma LegPathsCorrespond(legs: seq<Leg>)
    ensures var out := LegPaths(legs);
      && |out| == |legs|
      && forall i :: 0 <= i < |legs| ==>
           && out[i].startLocation == legs[i].startLocation && out[i].endLocation == legs[i].endLocation
           && out[i].distance == legs[i].distance && out[i].duration == legs[i].duration
           && |out[i].steps| == |legs[i].steps|
           && forall j :: 0 <= j < |legs[i].steps| ==>
                out[i].steps[j] == StepPath(legs[i].steps[j].startLocation, legs[i].steps[j].endLocation,
                                            legs[i].steps[j].polyline)
  {
  }

  /** Simplifying the legs of two route parts is simplifying each part. */
  lemma LegPathsAppend(a: seq<Leg>, b: seq<Leg>)
    ensures LegPaths(a + b) == LegPaths(a) + LegPaths(b)
  {
  }
}
