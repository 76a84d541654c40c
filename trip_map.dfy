/**
 * app/frontend/src/components/TripMap.tsx: what the itinerary map draws from the current
 * location, the itinerary and the route data the backend simplified. Decoding an encoded
 * polyline is the `decode` parameter (None when it throws); `number` is JavaScript's
 * `Number()` on text.
 */
module TripMap {
  import opened Common
  import opened Directions

  /** Eight stroke colours, one per leg, reused from the first after the eighth leg. */
  const LegColors: seq<string> := ["#4285F4", "#EA4335", "#FBBC05", "#34A853", "#9C27B0", "#FF9800", "#00BCD4", "#E91E63"]
  const DecodeError: string := "Error decoding route."
  const Zoom: int := 12

  /** An item's `location`: text such as "lat,lng", or an object with `lat` and `lng`. */
  datatype Location = Text(s: string) | At(p: LatLng)

  datatype Item = Item(id: string, description: string, location: Option<Location>)

  /**
   * The route data the map receives: the overview polyline ("" when absent) and the simplified
   * legs, None when the object has no `legs` array, as in the `{"error": ...}` object the
   * backend sends when fewer than two items have a location.
   */
  datatype MapData = MapData(overviewPolyline: string, legs: Option<seq<LegPath>>)

  /**
   * The `mapData` prop as the page stores it: null (or undefined) is None; any other value is
   * read as an object whose `overview_polyline` is text and whose `legs` array `legsOf` reads.
   */
  function ViewOf(mapData: Json, legsOf: seq<Json> -> seq<LegPath>): (r: Option<MapData>)
    ensures r.None? <==> mapData == JNull
    ensures r.Some? && r.value.legs.Some? <==> mapData.JObj? && "legs" in mapData.fields && mapData.fields["legs"].JArr?
  {
    match mapData
    case JNull => None
    case JObj(fields) =>
      var polyline := if "overview_polyline" in fields && fields["overview_polyline"].JStr? then fields["overview_polyline"].s else "";
      var legs := if "legs" in fields && fields["legs"].JArr? then Some(legsOf(fields["legs"].items)) else None;
      Some(MapData(polyline, legs))
    case _ => Some(MapData("", None))
  }

  // ---------------------------------------------------------------------
  // The overview path

  /** The decoded path and the map error it sets, if any. */
  datatype Path = Path(points: seq<LatLng>, setsError: Option<string>)

  /** The `path` memo: nothing without a polyline, the decoded points, or nothing and an error when decoding throws. */
  function OverviewPath(mapData: Option<MapData>, decode: string -> Option<seq<LatLng>>): (r: Path)
    ensures mapData.None? || mapData.value.overviewPolyline == "" ==> r == Path([], None)
    ensures mapData.Some? && mapData.value.overviewPolyline != "" ==>
              match decode(mapData.value.overviewPolyline)
              case None => r == Path([], Some("Error decoding route."))
              case Some(points) => r == Path(points, None)
    ensures r.setsError.Some? ==> r.points == []
  {
    if mapData.None? || mapData.value.overviewPolyline == "" then Path([], None)
    else
      match decode(mapData.value.overviewPolyline)
      case None => Path([], Some(DecodeError))
      case Some(points) => Path(points, None)
  }

  // ---------------------------------------------------------------------
  // Itinerary markers

  /** A marker position; `lng` is None (undefined) when text has no second part. */
  datatype Position = Position(lat: real, lng: Option<real>)

  datatype ItemMarker = ItemMarker(labelText: string, position: Position, title: string)

  /** `!item.location` is false: a location is there and is not the empty text. */
  predicate Located(item: Item) {
    item.location.Some? && item.location.value != Text("")
  }

  /** Text is split on "," and its first two parts read as numbers; an object is used as it is. */
  function PositionOf(location: Location, number: string -> real): Position {
    match location
    case At(p) => Position(p.lat, Some(p.lng))
    case Text(s) =>
      var parts := Split(s, ',');
      Position(number(parts[0]), if |parts| >= 2 then Some(number(parts[1])) else None)
  }

  /** The marker of the item at position `idx` of the itinerary, labelled `${idx + 1}`. */
  function MarkerOf(item: Item, idx: nat, number: string -> real): ItemMarker
    requires Located(item)
  {
    ItemMarker(IntToString(idx + 1), PositionOf(item.location.value, number), item.description)
  }

  /** `itinerary.map(...)` with the nulls dropped. */
  function ItineraryMarkers(items: seq<Item>, number: string -> real): (r: seq<ItemMarker>)
    ensures |r| <= |items|
  {
    if items == [] then []
    else
      var rest := ItineraryMarkers(items[..|items| - 1], number);
      var last := items[|items| - 1];
      if Located(last) then rest + [MarkerOf(last, |items| - 1, number)] else rest
  }

  /** An item added at the end gets the label of its position in the whole itinerary, however many items before it had no location. */
  lemma MarkerNumbersCountSkippedItems(items: seq<Item>, item: Item, number: string -> real)
    ensures ItineraryMarkers(items + [item], number)
         == ItineraryMarkers(items, number)
            + (if Located(item) then [ItemMarker(IntToString(|items| + 1), PositionOf(item.location.value, number), item.description)]
               else [])
  {
    assert (items + [item])[..|items|] == items;
  }

  /** Every marker belongs to a located item and carries that item's 1-based position. */
  lemma {:induction false} MarkersComeFromLocatedItems(items: seq<Item>, number: string -> real)
    ensures forall k :: 0 <= k < |ItineraryMarkers(items, number)| ==>
              MarkerForSomeItem(items, ItineraryMarkers(items, number)[k], number)
    decreases |items|
  {
    if items != [] {
      var init := items[..|items| - 1];
      MarkersComeFromLocatedItems(init, number);
      var r := ItineraryMarkers(items, number);
      var rest := ItineraryMarkers(init, number);
      forall k | 0 <= k < |r| ensures MarkerForSomeItem(items, r[k], number) {
        if k < |rest| {
          assert r[k] == rest[k];
          var i :| 0 <= i < |init| && Located(init[i]) && rest[k] == MarkerOf(init[i], i, number);
          assert items[i] == init[i];
        } else {
          var i := |items| - 1;
          assert Located(items[i]) && r[k] == MarkerOf(items[i], i, number);
        }
      }
    }
  }

  predicate MarkerForSomeItem(items: seq<Item>, m: ItemMarker, number: string -> real) {
    exists i :: 0 <= i < |items| && Located(items[i]) && m == MarkerOf(items[i], i, number)
  }

  /** When every item has a location, there is one marker per item and they are numbered 1, 2, 3, ... in order. */
  lemma {:induction false} AllLocatedNumberedInOrder(items: seq<Item>, number: string -> real)
    requires forall i :: 0 <= i < |items| ==> Located(items[i])
    ensures |ItineraryMarkers(items, number)| == |items|
    ensures forall k :: 0 <= k < |items| ==> ItineraryMarkers(items, number)[k].labelText == IntToString(k + 1)
    decreases |items|
  {
    if items != [] {
      AllLocatedNumberedInOrder(items[..|items| - 1], number);
    }
  }

  // ---------------------------------------------------------------------
  // Leg markers and step polylines

  datatype LegMarker = LegMarker(position: LatLng, title: string)

  /** One start marker and one end marker per leg, titled with the leg's 1-based number. */
  function LegMarkers(legs: seq<LegPath>): seq<LegMarker> {
    if legs == [] then []
    else
      var n := |legs|;
      LegMarkers(legs[..n - 1]) + LegPair(legs[n - 1], n)
  }

  /** The two markers of the leg numbered `number`. */
  function LegPair(leg: LegPath, number: nat): seq<LegMarker> {
    [LegMarker(leg.startLocation, StartTitle + IntToString(number)),
     LegMarker(leg.endLocation, EndTitle + IntToString(number))]
  }

  const StartTitle := "Start of leg "
  const EndTitle := "End of leg "

  /** Leg `i` contributes exactly the markers at `2i` (its start) and `2i + 1` (its end). */
  lemma LegMarkersInPairs(legs: seq<LegPath>)
    ensures |LegMarkers(legs)| == 2 * |legs|
    ensures forall i :: 0 <= i < |legs| ==>
              && LegMarkers(legs)[2 * i] == LegMarker(legs[i].startLocation, StartTitle + IntToString(i + 1))
              && LegMarkers(legs)[2 * i + 1] == LegMarker(legs[i].endLocation, EndTitle + IntToString(i + 1))
  {
    LegMarkersArePairs(legs);
    forall i | 0 <= i < |legs|
      ensures LegMarkers(legs)[2 * i] == LegMarker(legs[i].startLocation, StartTitle + IntToString(i + 1))
      ensures LegMarkers(legs)[2 * i + 1] == LegMarker(legs[i].endLocation, EndTitle + IntToString(i + 1))
    {
      assert LegMarkers(legs)[2 * i] == LegPair(legs[i], i + 1)[0];
      assert LegMarkers(legs)[2 * i + 1] == LegPair(legs[i], i + 1)[1];
    }
  }

  lemma {:induction false} LegMarkersArePairs(legs: seq<LegPath>)
    ensures |LegMarkers(legs)| == 2 * |legs|
    ensures forall i :: 0 <= i < |legs| ==>
              LegMarkers(legs)[2 * i] == LegPair(legs[i], i + 1)[0] && LegMarkers(legs)[2 * i + 1] == LegPair(legs[i], i + 1)[1]
    decreases |legs|
  {
    if legs != [] {
      var n := |legs|;
      var init := legs[..n - 1];
      LegMarkersArePairs(init);
      var earlier := LegMarkers(init);
      var all := LegMarkers(legs);
      assert all == earlier + LegPair(legs[n - 1], n);
      assert all[2 * (n - 1)] == LegPair(legs[n - 1], n)[0] && all[2 * (n - 1) + 1] == LegPair(legs[n - 1], n)[1];
      forall i | 0 <= i < n - 1
        ensures all[2 * i] == LegPair(legs[i], i + 1)[0] && all[2 * i + 1] == LegPair(legs[i], i + 1)[1]
      {
        assert legs[i] == init[i];
        assert all[2 * i] == earlier[2 * i] && all[2 * i + 1] == earlier[2 * i + 1];
      }
    }
  }

  /** `legColors[idx % legColors.length]`. */
  function LegColour(idx: nat): string {
    LegColors[idx % |LegColors|]
  }

  /** Colours repeat every eight legs, and eight consecutive legs all differ. */
  lemma LegColoursCycle(idx: nat)
    ensures LegColour(idx + 8) == LegColour(idx)
    ensures forall j :: idx < j < idx + 8 ==> LegColour(j) != LegColour(idx)
  {
    forall j | idx < j < idx + 8 ensures LegColour(j) != LegColour(idx) {
      assert j % 8 != idx % 8;
    }
  }

  /** A step polyline: its leg and step numbers, its decoded points and its colour. */
  datatype StepLine = StepLine(legIndex: nat, stepIndex: nat, points: seq<LatLng>, colour: string)

  /** The step polylines of leg `idx`; a step whose polyline does not decode draws nothing. */
  function LegLines(steps: seq<StepPath>, idx: nat, decode: string -> Option<seq<LatLng>>): seq<StepLine> {
    if steps == [] then []
    else
      var rest := LegLines(steps[..|steps| - 1], idx, decode);
      match decode(steps[|steps| - 1].polyline)
      case None => rest
      case Some(points) => rest + [StepLine(idx, |steps| - 1, points, LegColour(idx))]
  }

  function StepLines(legs: seq<LegPath>, decode: string -> Option<seq<LatLng>>): seq<StepLine> {
    if legs == [] then []
    else StepLines(legs[..|legs| - 1], decode) + LegLines(legs[|legs| - 1].steps, |legs| - 1, decode)
  }

  /** The line names a real step of the legs, is that step's decoded polyline, and has its leg's colour. */
  predicate DrawsStep(legs: seq<LegPath>, line: StepLine, decode: string -> Option<seq<LatLng>>) {
    && line.legIndex < |legs|
    && line.stepIndex < |legs[line.legIndex].steps|
    && decode(legs[line.legIndex].steps[line.stepIndex].polyline) == Some(line.points)
    && line.colour == LegColour(line.legIndex)
  }

  lemma {:induction false} LegLinesDrawSteps(legs: seq<LegPath>, idx: nat, steps: seq<StepPath>,
                                             decode: string -> Option<seq<LatLng>>)
    requires idx < |legs| && steps <= legs[idx].steps
    ensures forall k :: 0 <= k < |LegLines(steps, idx, decode)| ==>
              DrawsStep(legs, LegLines(steps, idx, decode)[k], decode) && LegLines(steps, idx, decode)[k].legIndex == idx
    decreases |steps|
  {
    if steps != [] {
      LegLinesDrawSteps(legs, idx, steps[..|steps| - 1], decode);
    }
  }

  /** Every step polyline drawn is a step of the route, decoded, in the colour of its leg. */
  lemma {:induction false} StepLinesDrawSteps(legs: seq<LegPath>, all: seq<LegPath>, decode: string -> Option<seq<LatLng>>)
    requires legs <= all
    ensures forall k :: 0 <= k < |StepLines(legs, decode)| ==> DrawsStep(all, StepLines(legs, decode)[k], decode)
    decreases |legs|
  {
    if legs != [] {
      var n := |legs|;
      StepLinesDrawSteps(legs[..n - 1], all, decode);
      LegLinesDrawSteps(all, n - 1, legs[n - 1].steps, decode);
    }
  }

  // ---------------------------------------------------------------------
  // The whole map

  datatype TripView = TripView(center: LatLng, zoom: int, here: Option<LatLng>, path: seq<LatLng>,
                               itemMarkers: seq<ItemMarker>, legMarkers: seq<LegMarker>, stepLines: seq<StepLine>)

  /**
   * The outcome of rendering: the view and the map error the path memo sets, if any; or the
   * TypeError `mapData?.legs.map(...)` throws when the map data has no `legs` array.
   */
  datatype Rendered = Drawn(view: TripView, setsError: Option<string>) | Throws

  /** What `TripMap` renders. */
  function Render(currentLocation: Option<LatLng>, itinerary: seq<Item>, mapData: Option<MapData>,
                  decode: string -> Option<seq<LatLng>>, number: string -> real): Rendered
  {
    if mapData.Some? && mapData.value.legs.None? then Throws
    else
      var path := OverviewPath(mapData, decode);
      var legs := if mapData.Some? then mapData.value.legs.value else [];
      Drawn(TripView(currentLocation.GetOr(LatLng(0.0, 0.0)), Zoom, currentLocation, path.points,
                     ItineraryMarkers(itinerary, number), LegMarkers(legs), StepLines(legs, decode)),
            path.setsError)
  }

  /**
   * Rendering throws exactly when there is map data without a `legs` array. Otherwise the map
   * is centred on the current location when there is one, else on (0, 0), at zoom 12, with
   * the overview path and its error and two markers per leg.
   */
  lemma RenderedFrame(currentLocation: Option<LatLng>, itinerary: seq<Item>, mapData: Option<MapData>,
                      decode: string -> Option<seq<LatLng>>, number: string -> real)
    ensures Render(currentLocation, itinerary, mapData, decode, number).Throws? <==> mapData.Some? && mapData.value.legs.None?
    ensures var r := Render(currentLocation, itinerary, mapData, decode, number);
      r.Drawn? ==>
        && r.view.zoom == 12
        && (currentLocation.Some? ==> r.view.center == currentLocation.value && r.view.here == currentLocation)
        && (currentLocation.None? ==> r.view.center == LatLng(0.0, 0.0) && r.view.here.None?)
        && r.view.path == OverviewPath(mapData, decode).points
        && r.setsError == OverviewPath(mapData, decode).setsError
        && |r.view.legMarkers| == if mapData.Some? then 2 * |mapData.value.legs.value| else 0
  {
    if mapData.Some? && mapData.value.legs.Some? {
      LegMarkersInPairs(mapData.value.legs.value);
    }
  }
}
