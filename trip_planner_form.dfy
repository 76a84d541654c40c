/**
 * frontend/src/App.js: the trip form. It holds the start, the end, the list of stops and
 * the last route the backend returned; adding or editing a stop installs a new array built
 * from a copy of the current one.
 */
module TripPlannerForm {
  import opened Common
  import opened JsArrays
  import OsrmRoute

  /** The JSON body `handleSubmit` posts to `/get_route`, as the backend handler reads it. */
  function Payload(start: string, end: string, stops: seq<string>): (q: OsrmRoute.RouteQuery)
    ensures |q.stops| == |stops|
    ensures forall k :: 0 <= k < |stops| ==> q.stops[k] == JStr(stops[k])
  {
    OsrmRoute.RouteQuery(JStr(start), JStr(end), seq(|stops|, k requires 0 <= k < |stops| => JStr(stops[k])))
  }

  /** Submitting with an empty start or end field gets the backend's 400 reply, whatever the stops. */
  lemma EmptyEndpointRejected(start: string, end: string, stops: seq<string>,
                              geocode: Json -> Option<OsrmRoute.Coords>, show: real -> string, osrm: string -> Json)
    requires start == "" || end == ""
    ensures OsrmRoute.GetRoute(Payload(start, end, stops), geocode, show, osrm)
              == OsrmRoute.BadRequest("Start and End locations are required")
  {
  }

  /** Blank stop fields, which `handleAddStop` creates, are never geocoded: the route lists only the stops that geocode. */
  lemma BlankStopsNeedGeocoding(start: string, end: string, stops: seq<string>,
                                geocode: Json -> Option<OsrmRoute.Coords>, show: real -> string, osrm: string -> Json)
    requires geocode(JStr("")).None?
    requires forall k :: 0 <= k < |stops| ==> stops[k] == ""
    ensures OsrmRoute.ResolvedStops(Payload(start, end, stops).stops, geocode) == []
  {
    var q := Payload(start, end, stops);
    OsrmRoute.ResolvedStopsAllDropped(q.stops, geocode);
  }

  class Form {
    var start: string
    var end: string
    var stops: array<string>
    var route: Json

    constructor()
      ensures start == "" && end == "" && route == JNull
      ensures fresh(stops) && stops.Length == 0
    {
      start := "";
      end := "";
      stops := new string[0];
      route := JNull;
    }

    /** `handleAddStop`: a new array, the current stops followed by one empty stop. */
    method HandleAddStop()
      modifies this
      ensures fresh(stops)
      ensures stops[..] == old(stops[..]) + [""]
      ensures old(stops)[..] == old(stops[..])
      ensures start == old(start) && end == old(end) && route == old(route)
    {
      var current := stops;
      var n := current.Length;
      var newStops := new string[n + 1];
      for i := 0 to n
        modifies newStops
        invariant forall j :: 0 <= j < i ==> newStops[j] == current[j]
      {
        newStops[i] := current[i];
      }
      newStops[n] := "";
      assert newStops[..] == current[..] + [""];
      stops := newStops;
    }

    /** `handleStopChange`: a new array, the copy with `value` written at `index`. */
    method HandleStopChange(index: int, value: string)
      requires index <= stops.Length
      modifies this
      ensures fresh(stops)
      ensures stops[..] == Assigned(old(stops[..]), index, value)
      ensures old(stops)[..] == old(stops[..])
      ensures start == old(start) && end == old(end) && route == old(route)
    {
      var current := stops;
      var n := current.Length;
      var newStops := new string[if index == n then n + 1 else n];
      for i := 0 to n
        modifies newStops
        invariant forall j :: 0 <= j < i ==> newStops[j] == current[j]
      {
        newStops[i] := current[i];
      }
      if 0 <= index {
        newStops[index] := value;
      }
      assert newStops[..] == Assigned(current[..], index, value);
      stops := newStops;
    }

    /**
     * `handleSubmit`: posts the start, the end and the stops; the response's data becomes the
     * route, and a failed request leaves the route as it was.
     */
    method HandleSubmit(post: OsrmRoute.RouteQuery -> Result<Json, string>)
      modifies this
      ensures match post(Payload(old(start), old(end), old(stops[..])))
              case Ok(data) => route == data
              case Err(_) => route == old(route)
      ensures start == old(start) && end == old(end) && stops == old(stops)
    {
      var response := post(Payload(start, end, stops[..]));
      if response.Ok? {
        route := response.value;
      }
    }
  }
}
