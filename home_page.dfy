/**
 * app/frontend/src/pages/index.tsx: the itinerary page. Its state is the itinerary, the
 * route data for the map (null when there is none) and the map's error message. The
 * handlers run one after another here; React's batching of state updates is not modelled.
 */
module HomePage {
  import opened Common
  import TripMap
  import Directions

  /** An itinerary entry: a plain object (`id`, `type`, `description`, optional `location`, ...). */
  type Item = map<string, Json>

  const GenerateFailure: string := "Failed to generate itinerary. Please try again."
  const MapFailure: string := "Unable to load route map. Please try again."

  /** The fields of `res.data` the generate handler reads; an absent or null `itinerary` is None. */
  datatype GenerateReply = GenerateReply(itinerary: Option<seq<Item>>, mapData: Json)

  /** The fields of `res.data` the update handler reads. */
  datatype UpdateReply = UpdateReply(itinerary: seq<Item>, mapData: Json)

  datatype HomeState = HomeState(itinerary: seq<Item>, mapData: Json, mapError: Option<string>)

  /** `value.key` in JavaScript: undefined (here JNull) unless `value` is an object holding `key`. */
  function Field(value: Json, key: string): Json {
    if value.JObj? then Get(value.fields, key) else JNull
  }

  /** `data.map_data && !data.map_data.error`. */
  predicate MapUsable(mapData: Json) {
    JsTruthy(mapData) && !JsTruthy(Field(mapData, "error"))
  }

  /** `handleGenerateItinerary`: clear the map error, then act on the response. */
  function AfterGenerate(s: HomeState, response: Result<GenerateReply, string>): HomeState {
    var cleared := s.(mapError := None);
    match response
    case Err(_) => cleared.(mapError := Some(GenerateFailure))
    case Ok(reply) =>
      match reply.itinerary
      case None => cleared
      case Some(items) =>
        if MapUsable(reply.mapData) then HomeState(items, reply.mapData, None)
        else HomeState(items, JNull, Some(MapFailure))
  }

  /** A generate never leaves an earlier error behind: the error afterwards is none or one of the two messages. */
  lemma GenerateErrorIsFresh(s: HomeState, response: Result<GenerateReply, string>)
    ensures var t := AfterGenerate(s, response);
      t.mapError == None || t.mapError == Some(GenerateFailure) || t.mapError == Some(MapFailure)
    ensures AfterGenerate(s, response).mapError == Some(GenerateFailure) <==> response.Err?
  {
  }

  /** Without an itinerary in the response (or on failure) the itinerary and the map data stay as they were. */
  lemma GenerateWithoutItineraryKeepsData(s: HomeState, response: Result<GenerateReply, string>)
    requires response.Err? || response.value.itinerary.None?
    ensures AfterGenerate(s, response).itinerary == s.itinerary
    ensures AfterGenerate(s, response).mapData == s.mapData
  {
  }

  /** Once an itinerary is stored, the map shows either usable route data or the map error, never both and never neither. */
  lemma GeneratedMapOrError(s: HomeState, reply: GenerateReply)
    requires reply.itinerary.Some?
    ensures var t := AfterGenerate(s, Ok(reply));
      && t.itinerary == reply.itinerary.value
      && (t.mapError.None? <==> MapUsable(t.mapData))
      && (t.mapError.None? <==> MapUsable(reply.mapData))
  {
  }

  /** `handleUpdateItinerary` with the itinerary it sends: success replaces itinerary and map data, failure changes nothing. */
  function AfterUpdate(s: HomeState, response: Result<UpdateReply, string>): HomeState {
    match response
    case Err(_) => s
    case Ok(reply) => s.(itinerary := reply.itinerary, mapData := reply.mapData)
  }

  /**
   * An update whose `map_data` is an object without `legs`, such as
   * `{"error": "Not enough waypoints to create a route"}`, is stored as it is, and the map
   * component then throws on `mapData?.legs.map(...)`, whatever else it is given.
   */
  lemma UpdateWithErrorMapBreaksMap(s: HomeState, reply: UpdateReply, legsOf: seq<Json> -> seq<Directions.LegPath>,
                                    currentLocation: Option<Directions.LatLng>, shown: seq<TripMap.Item>,
                                    decode: string -> Option<seq<Directions.LatLng>>, number: string -> real)
    requires reply.mapData.JObj? && "legs" !in reply.mapData.fields
    ensures var t := AfterUpdate(s, Ok(reply));
      && t.itinerary == reply.itinerary
      && t.mapData == reply.mapData
      && TripMap.Render(currentLocation, shown, TripMap.ViewOf(t.mapData, legsOf), decode, number).Throws?
  {
    TripMap.RenderedFrame(currentLocation, shown, TripMap.ViewOf(reply.mapData, legsOf), decode, number);
  }

  /** The items whose `id` differs from `id`, in order (`it.filter((i) => i.id !== id)`). */
  function WithoutId(items: seq<Item>, id: string): (r: seq<Item>)
    ensures |r| <= |items|
    ensures forall k :: 0 <= k < |r| ==> Get(r[k], "id") != JStr(id)
  {
    if items == [] then []
    else
      var rest := WithoutId(items[..|items| - 1], id);
      if Get(items[|items| - 1], "id") != JStr(id) then rest + [items[|items| - 1]] else rest
  }

  /** Filtering two parts of a list filters each, in order. */
  lemma {:induction false} WithoutIdAppend(a: seq<Item>, b: seq<Item>, id: string)
    ensures WithoutId(a + b, id) == WithoutId(a, id) + WithoutId(b, id)
    decreases |b|
  {
    if b == [] {
      assert a + b == a;
    } else {
      assert (a + b)[..|a + b| - 1] == a + b[..|b| - 1];
      WithoutIdAppend(a, b[..|b| - 1], id);
    }
  }

  /** Every item with another id is kept, and every item with this id is removed. */
  lemma {:induction false} WithoutIdKeepsExactlyOthers(items: seq<Item>, id: string)
    ensures forall item :: item in WithoutId(items, id) <==> item in items && Get(item, "id") != JStr(id)
    decreases |items|
  {
    if items != [] {
      var init := items[..|items| - 1];
      WithoutIdKeepsExactlyOthers(init, id);
      assert items == init + [items[|items| - 1]];
    }
  }

  /** A list with no item of that id comes back unchanged, so filtering twice is filtering once. */
  lemma {:induction false} WithoutIdIdempotent(items: seq<Item>, id: string)
    ensures WithoutId(WithoutId(items, id), id) == WithoutId(items, id)
    decreases |items|
  {
    if items != [] {
      var init := items[..|items| - 1];
      WithoutIdIdempotent(init, id);
      var rest := WithoutId(init, id);
      if Get(items[|items| - 1], "id") != JStr(id) {
        assert (rest + [items[|items| - 1]])[..|rest|] == rest;
      }
    }
  }

  /** The text `removeItem` sends to the update endpoint. */
  function RemoveRequest(id: string): string {
    "Remove item " + id + " from itinerary"
  }

  class Home {
    var itinerary: seq<Item>
    var mapData: Json
    var mapError: Option<string>

    function State(): HomeState
      reads this
    {
      HomeState(itinerary, mapData, mapError)
    }

    constructor()
      ensures State() == HomeState([], JNull, None)
    {
      itinerary := [];
      mapData := JNull;
      mapError := None;
    }

    /** `handleGenerateItinerary`, given what the generate request answered. */
    method HandleGenerateItinerary(response: Result<GenerateReply, string>)
      modifies this
      ensures State() == AfterGenerate(old(State()), response)
    {
      mapError := None;
      match response {
        case Err(_) =>
          mapError := Some(GenerateFailure);
        case Ok(reply) =>
          if reply.itinerary.Some? {
            itinerary := reply.itinerary.value;
            if MapUsable(reply.mapData) {
              mapData := reply.mapData;
            } else {
              mapData := JNull;
              mapError := Some(MapFailure);
            }
          }
      }
    }

    /** `handleUpdateItinerary(req)`: posts `req` with the current itinerary. */
    method HandleUpdateItinerary(req: string, post: (string, seq<Item>) -> Result<UpdateReply, string>)
      modifies this
      ensures State() == AfterUpdate(old(State()), post(req, old(itinerary)))
    {
      UpdateWith(req, itinerary, post);
    }

    /** The update request with the itinerary the handler's closure holds. */
    method UpdateWith(req: string, sent: seq<Item>, post: (string, seq<Item>) -> Result<UpdateReply, string>)
      modifies this
      ensures State() == AfterUpdate(old(State()), post(req, sent))
    {
      var response := post(req, sent);
      if response.Ok? {
        itinerary := response.value.itinerary;
        mapData := response.value.mapData;
      }
    }

    /**
     * `removeItem`: filters the item out, then sends the removal request. The request carries
     * the itinerary of the render that created the handler, which still holds the item.
     */
    method RemoveItem(id: string, post: (string, seq<Item>) -> Result<UpdateReply, string>)
      modifies this
      ensures State() == AfterUpdate(old(State()).(itinerary := WithoutId(old(itinerary), id)),
                                     post(RemoveRequest(id), old(itinerary)))
    {
      var rendered := itinerary;
      itinerary := WithoutId(itinerary, id);
      UpdateWith(RemoveRequest(id), rendered, post);
    }
  }
}
