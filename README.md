# Trip planner core, modelled in Dafny

This project models the logic of a trip-planning application: a Python backend, a
React trip form with its route map, and a Next.js itinerary page with a Google map.
The network, geocoding and language-model services it calls are parameters. The model
covers:

- **Route sampling** (`RouteSampling`). It picks points evenly spaced by distance
  along a decoded route, using a cumulative-distance table and a forward-only index.
  It then keeps the best-rated Places result per `place_id`. Scores are compared
  lexicographically on `(rating, user_ratings_total)`, and ties keep the first result
  seen.
- **LLM reply validation** (`SuggestionSchema`, `OpenAiSuggestions`,
  `LlamaSuggestions`).
  - The parsed reply must be a list of objects that each hold the required keys.
  - The OpenAI variant requires six keys, including `address`. The Ollama variant
    requires five, and first strips a "```json … ```" fence from the text.
  - The `suggest_*` functions wrap the result in success and failure envelopes.
- **Waypoint assembly**:
  - `BackendMapsService` models `backend/maps_service.py`: location formatting, route
    totals, and the lockstep of waypoints and markers.
  - `AppMapsService` models `app/backend/maps_service.py`.
  - `Directions` holds what both share: the origin / destination / intermediates split
    and the one-to-one leg and step simplification.
  - `OsrmRoute` models the `/get_route` handler of `backend/app.py`. It checks the
    request, geocodes the places, and builds the "lon,lat;…" OSRM URL.
- **Client state**:
  - `ItineraryPage.Page` (list edits and chat).
  - `TripPlannerForm.Form` (the stop list and the fetched route).
  - `HomePage.Home` (itinerary, map data and map error).
  - Each is a class whose handlers change its fields.
  - A handler that edits a list builds a fresh array from a copy, as the JavaScript
    does, and leaves the old array alone. `JsArrays` gives JavaScript's `splice` and
    index-assignment semantics on a copy.
- **Map derivations**. `RouteMap` models `Map.js`: the [lon, lat] → [lat, lon] swap,
  the centre and the markers. `TripMap` models `TripMap.tsx`: the path guard, the
  numbered itinerary markers, two markers per leg, and step lines coloured by leg
  with a cycle of 8.

Services appear as function-typed parameters, so every contract holds whatever they
answer:

- Google Directions, Geocoding and Places.
- Nominatim.
- The OSRM server.
- The OpenAI and Ollama clients.
- axios.
- `json.loads`.
- The polyline decoders.
- Python's `float()` and `str()`, and JavaScript's `Number()`.

Numbers are mathematical reals and integers.

## Model

| member | source | states |
|---|---|---|
| RouteSampling.Cumulative | backend/googlemapsroute.py:26-29 | the cumulative table has one entry per point (a single `[0.0]` for an empty route) and starts at 0 |
| RouteSampling.CumulativeNonDecreasing | backend/googlemapsroute.py:26-29 | with non-negative segment lengths the cumulative table never decreases |
| RouteSampling.PositiveTotalNeedsTwoPoints | backend/googlemapsroute.py:31-33 | a route whose total length is not 0 has at least two points, so the early return covers empty and one-point routes |
| RouteSampling.TargetMonotone | backend/googlemapsroute.py:36 | the evenly spaced targets `i * total / (n - 1)` grow with `i` when the total is not negative |
| RouteSampling.FirstReaching | backend/googlemapsroute.py:41-42 | the index the inner loop stops at: every earlier entry is below the target, and the index is the last one or its entry reaches the target |
| RouteSampling.FirstReachingUnique | backend/googlemapsroute.py:41-42 | an index with those properties is exactly that smallest reaching index |
| RouteSampling.FirstReachingMonotone | backend/googlemapsroute.py:38-42 | a larger target is reached no earlier, so the shared index only moves forward |
| RouteSampling.SampleIndex | backend/googlemapsroute.py:38-43 | each sample's index stays inside the route |
| RouteSampling.SampledShape | backend/googlemapsroute.py:31-44 | the route comes back unchanged when fewer than 2 samples are asked for or its length is 0; otherwise there are exactly `num_samples` samples, each a point of the route |
| RouteSampling.FirstSampleIsStart | backend/googlemapsroute.py:36-43 | the first sample is the first point of the route |
| RouteSampling.SampleIndexMonotone | backend/googlemapsroute.py:38-43 | the chosen indices never decrease from one sample to the next |
| RouteSampling.CumulativeDistances | backend/googlemapsroute.py:26-29 | the appending loop builds exactly the cumulative table |
| RouteSampling.SampleRoutePointsByDistance | backend/googlemapsroute.py:18-44 | the two nested loops with their shared forward-only index return exactly the sampled points, each the first point reaching its target |
| RouteSampling.OfferAllAppend | backend/googlemapsroute.py:95-115 | offering the results of two pages in turn is offering them all in order |
| RouteSampling.KeepBestWellFormed | backend/googlemapsroute.py:93-115 | `seen` holds one entry per place id that occurs in the results and nothing else; its keys keep insertion order without repeats, and each entry is stored under its own id |
| RouteSampling.KeepBestIsFirstMaximum | backend/googlemapsroute.py:104-115 | the entry kept for an id is the first result with the greatest `(rating, user_ratings_total)`, missing values counting as 0: a later result replaces it only when strictly greater |
| RouteSampling.StopsAreBestPerPlace | backend/googlemapsroute.py:117-121 | the returned stops have distinct ids, cover exactly the ids of the results, and are each the kept entry without `_score` |
| RouteSampling.FindStopsAlongRoute | backend/googlemapsroute.py:76-123 | a failed or empty directions answer gives empty `route` and `stops`; otherwise the route is the decoded first overview polyline and the stops are the best result per id around its sample points |
| RouteSampling.OfferPage | backend/googlemapsroute.py:102-115 | the loop over one page updates `seen` exactly as offering each result in turn |
| RouteSampling.SearchAround | backend/googlemapsroute.py:93-115 | the loops over sample points and pages fill `seen` with the best result per id over all results, point by point and page by page |
| SuggestionSchema.FirstOffender | backend/llm.py:94-98 | the checks run in order: every element before the reported index is accepted and the one at it is refused |
| SuggestionSchema.Validate | backend/llm.py:92-99 | a value is accepted exactly when it is a list of dicts each holding every required key, and is then returned unchanged; a non-list is refused as such; otherwise the error is that of the first refused element |
| SuggestionSchema.MissingKeysAreExact | backend/llm.py:97-98 | a dict that is refused names a non-empty set of missing keys: required keys it lacks, and only those |
| SuggestionSchema.ExtraKeysAccepted | backend/llm.py:97 | extra keys never turn an accepted suggestion into a refused one |
| SuggestionSchema.Envelop | backend/llm.py:80-84 | success exactly when the call and the parse both succeed, carrying the parsed suggestions; any exception from either gives the failure envelope with its message and details |
| OpenAiSuggestions.ParseLlmResponse | backend/llm.py:87-103 | accepted exactly when `json.loads` succeeds and the value is a list of dicts holding all six keys, and then returned unchanged; a JSON error gives "Failed to parse response as JSON"; a structural refusal gives "Error parsing response: …" |
| OpenAiSuggestions.EmptyListAccepted | backend/llm.py:92-99 | an empty list is accepted as it is |
| OpenAiSuggestions.AddressIsRequired | backend/llm.py:90-98 | a suggestion without `address` is refused, naming `address` among the missing keys |
| OpenAiSuggestions.ParseUserInput | backend/llm.py:34-84 | success exactly when the completion succeeds and its text validates, with the parsed suggestions; otherwise "Failed to generate suggestions", with the client's error or the parse error as details |
| OpenAiSuggestions.SuggestStops | backend/llm.py:105-124 | for the road-trip prompt: success exactly when the completion succeeds and its text validates, with the parsed suggestions; otherwise "Failed to generate suggestions", with the client's error or the parse error as details |
| OpenAiSuggestions.SuggestPlacesByTime | backend/llm.py:126-159 | success exactly when the reply validates, with the parsed suggestions and the four inputs echoed under `search_criteria`; otherwise "Failed to generate time-based suggestions", with the client's error or the parse error as details |
| LlamaSuggestions.FencedReplyCleansToBody | backend/llama.py:38-43 | whitespace, then a "```json" opener and a "```" closer around a body, are cleaned down to the trimmed body |
| LlamaSuggestions.FenceMarksDropped | backend/llama.py:39-42 | dropping the 7-character opener and then the 3-character closer of a fenced text leaves exactly its body |
| LlamaSuggestions.UnfencedReplyIsTrimmed | backend/llama.py:38-43 | a reply without fence marks is only stripped |
| LlamaSuggestions.BareFenceIsKept | backend/llama.py:39-40 | only the exact "```json" prefix is removed: a reply opening with a bare "```" still opens with it after cleaning |
| LlamaSuggestions.ParseCleaned | backend/llama.py:45-61 | accepted exactly when the cleaned text parses to a list of dicts holding the five keys, and then returned unchanged; a JSON error keeps the decoder's detail; other refusals are "Error parsing response: …" |
| LlamaSuggestions.FencedReplyValidatesAsBody | backend/llama.py:38-55 | a reply wrapped in a "```json" fence, with any whitespace around it, validates to the same result as its bare body |
| LlamaSuggestions.AddressNotRequired | backend/llama.py:46 | `address` is not among the five required keys |
| LlamaSuggestions.FiveKeysSuffice | backend/llama.py:46-55 | a list of one dict holding exactly the five keys is accepted unchanged |
| LlamaSuggestions.SuggestStops | backend/llama.py:63-83 | success exactly when the chat call succeeds and the cleaned reply validates, and the suggestions are then the parsed cleaned reply, each holding the five keys; otherwise "Failed to generate suggestions", with the chat error or the parse error as details |
| Common.TrimEmptyIffAllIn | frontend/src/components/ItineraryPage.js:34 | trimming leaves nothing exactly when every character is white space |
| Common.TrimIdempotent | backend/llama.py:38-43 | stripping twice is stripping once |
| Common.SplitJoin | backend/app.py:46 | splitting the ";"-joined waypoints gives them back when none contains ";" |
| Common.JoinSplit | backend/app.py:46 | joining the pieces of a split gives back the text |
| Directions.SplitWaypoints | app/backend/maps_service.py:18-28 | there is no request exactly when fewer than 2 waypoints are collected; otherwise origin is first, destination last, and the intermediates `waypoints[1:-1]` are given only when there are more than 2 |
| Directions.SplitWaypointsVisitsAll | app/backend/maps_service.py:23-28 | the request visits exactly the collected waypoints in order, and lists intermediates only when there are some |
| Directions.LegPathsCorrespond | app/backend/maps_service.py:38-57 | legs map one to one and in order, and so do the steps of each leg, keeping endpoints, measures and step polylines |
| Directions.LegPathsAppend | app/backend/maps_service.py:40-56 | simplifying the legs of two parts of a route is simplifying each part |
| BackendMapsService.FormatLocation | backend/maps_service.py:78-85 | a dict with `lat` and `lng` gives "lat,lng"; otherwise a dict with a text `formatted_address` gives that address; anything else gives `str(location)`, which is the text itself for a string |
| BackendMapsService.GetRoute | backend/maps_service.py:15-76 | an empty answer gives "No route found" and no route; an exception gives its text; a non-empty answer gives a route and no error, whose totals are the sums of the legs' distance and duration values and the legs and steps map one to one; exactly one of error and route is set |
| BackendMapsService.RouteTotalsMatchReportedLegs | backend/maps_service.py:41-69 | the totals of a returned route equal the sums over the legs it reports |
| BackendMapsService.TotalCoversEveryLeg | backend/maps_service.py:41 | with no negative leg distance, the total is not negative and is at least every leg's distance |
| BackendMapsService.TotalOfJoinedLegs | backend/maps_service.py:41-42 | the totals of a route made of two parts are the sums of the parts' totals |
| BackendMapsService.MarkerOf | backend/maps_service.py:108-116 | a marker sits at the resolved position, with title "Stop", description "" and type "stop" unless the item sets them |
| BackendMapsService.WaypointsMatchMarkers | backend/maps_service.py:107-116 | waypoints and markers are appended together: equally many, at most one per item, the i-th waypoint being "lat,lng" of the i-th marker's position |
| BackendMapsService.ItemWithoutLocationSkipped | backend/maps_service.py:93-94 | an item with neither a truthy `location` nor a truthy `address` adds no waypoint and no marker |
| BackendMapsService.CommaTextNotTwoNumbersSkipped | backend/maps_service.py:97-119 | text containing a comma that does not split into exactly two parts is skipped without asking the geocoder |
| BackendMapsService.WaypointTextResolvesBack | backend/maps_service.py:97-107 | a "lat,lng" waypoint read back as a location gives the same coordinates without geocoding, provided `float()` reads back what `str()` printed |
| BackendMapsService.FormattedCoordinatesResolve | backend/maps_service.py:80-82 | formatting a coordinate dict gives the waypoint text of those coordinates, which reads back to them |
| BackendMapsService.GetRouteData | backend/maps_service.py:87-169 | the loop collects exactly the waypoints and markers of the resolvable items; fewer than 2 gives "Not enough waypoints to create a route"; the directions request is the origin/destination/intermediates split; an empty answer gives "Could not generate route"; an exception gives its text; otherwise the overview polyline, the markers, the bounds and the simplified legs |
| AppMapsService.Locations | app/backend/maps_service.py:13-16 | the collected waypoints are all truthy and no more than the items |
| AppMapsService.LocationsAppend | app/backend/maps_service.py:13-16 | collecting over two parts of an itinerary collects over each, in order |
| AppMapsService.LocationsAreItemLocations | app/backend/maps_service.py:13-16 | every waypoint is some item's `location`, and every truthy `location` becomes a waypoint |
| AppMapsService.GetRouteData | app/backend/maps_service.py:12-62 | fewer than 2 waypoints gives "Not enough waypoints to create a route"; the request is the origin/destination/intermediates split; an empty answer gives "Could not generate route"; an exception gives its text; otherwise the overview polyline and the simplified legs |
| OsrmRoute.ResolvedStops | backend/app.py:41 | no more resolved stops than stops |
| OsrmRoute.ResolvedStopsAppend | backend/app.py:41 | resolving two lists of stops resolves each, keeping their order |
| OsrmRoute.ResolvedSingleStop | backend/app.py:41 | a stop is kept exactly when it geocodes, and then as its coordinates |
| OsrmRoute.ResolvedStopsAllDropped | backend/app.py:41 | when no stop geocodes, every stop is dropped |
| OsrmRoute.AllStopsResolve | backend/app.py:41 | when every stop geocodes, the coordinates come back one per stop, in order |
| OsrmRoute.OsrmWaypoints | backend/app.py:42-44 | 2 + the number of resolved stops entries, all "lon,lat": start first, end last, stops in order between |
| OsrmRoute.GetRoute | backend/app.py:26-49 | a falsy start or end gives "Start and End locations are required"; an endpoint that does not geocode gives "Could not get coordinates for locations"; the request is forwarded exactly when neither happens, to the OSRM URL of the waypoints, and OSRM's answer is returned |
| OsrmRoute.LonLatSplits | backend/app.py:42-44 | a waypoint text splits on "," into the longitude, then the latitude |
| OsrmRoute.ForwardedUrlListsWaypoints | backend/app.py:42-46 | the forwarded URL's path, between the route prefix and `?overview=full&geometries=geojson`, splits on ";" into 2 + the number of resolved stops waypoints, start first and end last |
| JsArrays.SpliceStart | frontend/src/components/ItineraryPage.js:23 | `splice` starts at the index, counts a negative index back from the end, and clamps to the array |
| JsArrays.SplicedRemovesElement | frontend/src/components/ItineraryPage.js:21-25 | an in-range index removes exactly that element: length minus one, earlier elements in place, later ones moved down by one, and the same elements otherwise |
| JsArrays.SplicedPastEndKeepsAll | frontend/src/components/ItineraryPage.js:23 | an index at or past the end removes nothing |
| JsArrays.SplicedBeforeStartRemovesFirst | frontend/src/components/ItineraryPage.js:23 | a negative index reaching before the start removes the first element |
| JsArrays.Assigned | frontend/src/App.js:17 | an index inside the array replaces only that element; the length appends; a negative index leaves the elements alone |
| JsArrays.AssignedOverwrites | frontend/src/App.js:15-19 | writing an element's own value changes nothing, and the second of two writes wins |
| ItineraryPage.ModifiedMergesFields | frontend/src/components/ItineraryPage.js:27-31 | modifying keeps the length and every other entry; in the modified entry the fields of `newValue` override and all others are kept |
| ItineraryPage.BlankIsAllWhitespace | frontend/src/components/ItineraryPage.js:34 | input counts as blank exactly when it is white space only |
| ItineraryPage.SendAddsTwoEntries | frontend/src/components/ItineraryPage.js:33-53 | a non-blank send adds exactly two entries after the old history: the user's message, then the llm reply or "Error: Unable to fetch response." |
| ItineraryPage.Page.constructor | frontend/src/components/ItineraryPage.js:7-9 | empty items, empty input, empty history |
| ItineraryPage.Page.HandleRemoveItem | frontend/src/components/ItineraryPage.js:21-25 | installs a fresh array holding the spliced copy; the previous array and the other fields are unchanged |
| ItineraryPage.Page.HandleModifyItem | frontend/src/components/ItineraryPage.js:27-31 | installs a fresh array, the copy with the merged entry at `index`; the previous array and the other fields are unchanged |
| ItineraryPage.Page.HandleLLM | frontend/src/components/ItineraryPage.js:33-54 | blank input changes nothing; otherwise the history gains the user's message and the reply or the failure message, and the input is cleared |
| ItineraryPage.Page.Send | frontend/src/components/ItineraryPage.js:36-53 | the two entries are appended in order and the input is cleared |
| TripPlannerForm.Payload | frontend/src/App.js:23-27 | the posted body carries the start, the end and every stop, in order |
| TripPlannerForm.EmptyEndpointRejected | backend/app.py:33-34 | submitting with an empty start or end field gets the 400 reply "Start and End locations are required" |
| TripPlannerForm.BlankStopsNeedGeocoding | frontend/src/App.js:11-13 | stops left blank, as `handleAddStop` creates them, are dropped when "" does not geocode |
| TripPlannerForm.Form.constructor | frontend/src/App.js:6-9 | empty start, end and stops, and no route |
| TripPlannerForm.Form.HandleAddStop | frontend/src/App.js:11-13 | installs a fresh array, the old stops followed by one ""; the old array and the other fields are unchanged |
| TripPlannerForm.Form.HandleStopChange | frontend/src/App.js:15-19 | installs a fresh array, the copy with `value` written at `index`; the old array and the other fields are unchanged |
| TripPlannerForm.Form.HandleSubmit | frontend/src/App.js:21-32 | a successful post sets `route` to the response data; a failed one leaves it unchanged; the form fields are unchanged |
| HomePage.GenerateErrorIsFresh | app/frontend/src/pages/index.tsx:57-78 | after a generate the map error is none or one of the two messages, never an earlier error; it is "Failed to generate itinerary. Please try again." exactly when the request failed |
| HomePage.GenerateWithoutItineraryKeepsData | app/frontend/src/pages/index.tsx:64-77 | a response without an itinerary, or a failed request, leaves the itinerary and the map data unchanged |
| HomePage.GeneratedMapOrError | app/frontend/src/pages/index.tsx:66-73 | with an itinerary stored, the map has usable route data exactly when there is no map error, and that happens exactly when the response's `map_data` is present without `error` |
| HomePage.WithoutId | app/frontend/src/pages/index.tsx:94 | no kept item has the removed id, and none is added |
| HomePage.WithoutIdAppend | app/frontend/src/pages/index.tsx:94 | filtering two parts of a list filters each, in order |
| HomePage.WithoutIdKeepsExactlyOthers | app/frontend/src/pages/index.tsx:94 | an item is kept exactly when it is in the list and its id differs, so every match is removed |
| HomePage.WithoutIdIdempotent | app/frontend/src/pages/index.tsx:94 | filtering twice is filtering once |
| HomePage.Home.constructor | app/frontend/src/pages/index.tsx:37-44 | empty itinerary, no map data, no map error |
| HomePage.Home.HandleGenerateItinerary | app/frontend/src/pages/index.tsx:57-78 | clears the map error first; a failure sets "Failed to generate itinerary. Please try again."; a response without an itinerary changes nothing more; otherwise the itinerary is stored with its usable map data, or with null map data and "Unable to load route map. Please try again." |
| HomePage.Home.HandleUpdateItinerary | app/frontend/src/pages/index.tsx:80-91 | posts the current itinerary; success replaces the itinerary and the map data, failure changes nothing |
| HomePage.Home.UpdateWith | app/frontend/src/pages/index.tsx:80-91 | the update with the itinerary the handler's closure holds |
| HomePage.Home.RemoveItem | app/frontend/src/pages/index.tsx:93-96 | the itinerary loses every item with that id; then "Remove item {id} from itinerary" is posted with the itinerary as it was before the filter, and a successful reply replaces the filtered one |
| RouteMap.PolylineCoordinates | frontend/src/components/Map.js:8-12 | no route, no `routes` or empty `routes` gives []; otherwise the first route's coordinates, each swapped from [lon, lat] to [lat, lon], same length and order |
| RouteMap.SwapRecoversRoute | frontend/src/components/Map.js:10-11 | swapping back gives the first route's OSRM coordinates, so no point is lost or reordered |
| RouteMap.OnlyFirstRouteDrawn | frontend/src/components/Map.js:10 | routes after the first play no part |
| RouteMap.RenderedMarkersFollowRoute | frontend/src/components/Map.js:14-36 | zoom 10; markers appear exactly when there are coordinates; the centre is the start marker, the first coordinate, or [40.1164, -88.2434] without one; the end marker is the last coordinate |
| TripMap.OverviewPath | app/frontend/src/components/TripMap.tsx:62-73 | no map data or an empty polyline gives an empty path; a decode failure gives an empty path and "Error decoding route."; otherwise the decoded points |
| TripMap.ItineraryMarkers | app/frontend/src/components/TripMap.tsx:114-134 | at most one marker per item |
| TripMap.MarkerNumbersCountSkippedItems | app/frontend/src/components/TripMap.tsx:114-130 | an item added at the end is labelled with its 1-based position in the whole itinerary, however many earlier items had no location |
| TripMap.MarkersComeFromLocatedItems | app/frontend/src/components/TripMap.tsx:114-134 | every marker is that of an item with a location, labelled with the item's 1-based position |
| TripMap.AllLocatedNumberedInOrder | app/frontend/src/components/TripMap.tsx:114-130 | when every item has a location, there is one marker per item, labelled 1, 2, 3, … in order |
| TripMap.LegMarkersInPairs | app/frontend/src/components/TripMap.tsx:135-162 | each leg gives exactly two markers, its start then its end, titled "Start of leg n" and "End of leg n" |
| TripMap.LegColoursCycle | app/frontend/src/components/TripMap.tsx:76-85 | leg colours repeat every 8 legs, and 8 consecutive legs all differ |
| TripMap.LegLinesDrawSteps | app/frontend/src/components/TripMap.tsx:163-184 | every line drawn for a leg is one of its steps, decoded, in the leg's colour |
| TripMap.StepLinesDrawSteps | app/frontend/src/components/TripMap.tsx:135-184 | every step line drawn is a step of the route, decoded, in the colour of its leg |
| TripMap.ViewOf | app/frontend/src/components/TripMap.tsx:30-42 | null map data is no map data; otherwise the view has a legs list exactly when the object holds a `legs` array |
| TripMap.RenderedFrame | app/frontend/src/components/TripMap.tsx:102-186 | rendering throws exactly when map data is present without a `legs` array (line 135); otherwise zoom 12, centred on the current location, which also gets a marker, or on (0, 0) without one, the overview path and its error, and two markers per leg |
| HomePage.UpdateWithErrorMapBreaksMap | app/frontend/src/pages/index.tsx:80-91 | an update reply whose `map_data` is an object without `legs`, such as the `{"error": …}` that app/backend/maps_service.py:18-19 returns for fewer than two located items, is stored as it is, and the map component then throws |

## Left out

- Polyline decoding. `polyline.decode` and `google.maps.geometry.encoding.decodePath`
  are library calls, so they are parameters (`decode`). A decoder that throws answers
  None. No encoder exists in the code, so there is no round trip to state.
- Geodesic segment lengths (geopy) are a parameter `dist`, assumed non-negative where
  a property needs it.
- Network and geocoding calls are parameters whose answers are given:
  - Google Directions, Geocoding and Places.
  - Nominatim.
  - OSRM.
  - axios.
  - The OpenAI and Ollama clients.
- The pagination of Places results (`_paginate_places`, with its two-second sleeps) is
  folded into the `nearby` parameter, which answers every page.
- Floating point. Coordinates, distances and targets are mathematical reals, so no
  property depends on rounding.
- RouteSampling.SampleRoutePointsByDistance: float rounding of the targets is not
  modelled.
- Number and text conversions are parameters whose answers are given: Python's
  `float()` and `str()`, and JavaScript's `Number()`. Properties that need a
  conversion to read back what another printed take that as a precondition.
- The system prompts and model settings (model name, temperature, token limit) are
  left out. Only the user prompt that reaches the client is modelled.
- `suggest_places_by_time` in backend/llama.py is not part of this model. It is the
  same envelope with another prompt.
- BackendMapsService.FormatLocation: a `formatted_address` that is not text is
  returned as it is by the code. The model has a text result and renders it with
  `str()` instead. The code declares the result as `str`, and no caller reaches this
  case.
- SuggestionSchema.Envelop: `details` carries the structured error, not its `str()`
  rendering.
- OpenAiSuggestions.ParseLlmResponse: the text of the set of missing keys is not
  rendered either.
- JSON replies from the services are typed records: `DirectionsRoute`, `Leg`, `Step`,
  `OsrmAnswer`, `GenerateReply`, `UpdateReply`. A reply missing a field the code
  indexes, which raises KeyError or TypeError, is not modelled. The one exception is
  the map data of `TripMap.tsx`, where a missing `legs` array is modelled.
- TripMap.ViewOf: the entries of a `legs` array are read by the `legsOf` parameter as
  typed legs, so a malformed leg or step is not modelled. An `overview_polyline` that
  is not text is read as absent.
- BackendMapsService.GetRouteData: the geocoder's results are typed coordinates. A
  result without `geometry.location`, which the code catches and skips, is not
  modelled.
- RouteSampling.FindStopsAlongRoute: `num_samples` and `radius` are plain parameters.
  The defaults of googlemapsroute.py:76 (10 samples, 500 metres) are not modelled.
- RouteSampling.FindStopsAlongRoute: an exception from the decoder or from Places
  (the code does not catch these) is not modelled. Only a failing directions call is.
- OsrmRoute.GetRoute: `get_coordinates` runs twice per stop, once in the filter and
  once for the value. It is modelled as one deterministic answer.
- OsrmRoute.GetRoute: a `stops` field that is not a list is not modelled. The query
  carries a list.
- `geocode_address` in both maps services is not part of this model. Neither `get_route`
  nor `get_route_data` calls it.
- The `MapsService` constructors (API keys) are not part of this model.
- The handlers in app/backend/app.py are request plumbing and are not part of this
  model. So are the LLM wrappers in backend/it_llm.py, backend/stopLLM.py and
  app/backend/llm_service.py.
- tests/test_route.py calls functions that backend/googlemapsroute.py does not define,
  so it states nothing about this model.
- React rendering, effects and geolocation are left out. Handlers run one after
  another as plain state updates, so batching and async interleaving are not modelled.
- ItineraryPage.Page.HandleModifyItem: requires `index <= items.Length`. Writing past
  the end of a JavaScript array leaves holes, which are not modelled.
- TripPlannerForm.Form.HandleStopChange: requires `index <= stops.Length`, for the
  same reason.
- ItineraryPage.Page.HandleLLM: the reply is a parameter, where the code uses the
  fixed text "Sample LLM response". `Some(SampleReply)` is the code's case, and None
  is the failure its catch block handles.
- TripMap.ItineraryMarkers: an item location given as an object is taken to hold
  numeric `lat` and `lng`. Text locations are read with `Number()` as a parameter.
- Logging, `print` and `console` output are left out.
