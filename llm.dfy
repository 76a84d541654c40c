/**
 * backend/llm.py: validating the OpenAI reply and wrapping it in the response
 * envelope. The chat-completion call is the parameter `complete` (the user prompt in,
 * the reply text or the exception message out) and `json.loads` is `parse`.
 */
module OpenAiSuggestions {
  import opened Common
  import opened SuggestionSchema

  const RequiredKeys: set<string> :=
    {"name", "category", "estimated_time_minutes", "address", "description", "worth_visiting"}

  const SuggestionsFailure := "Failed to generate suggestions"
  const TimedSuggestionsFailure := "Failed to generate time-based suggestions"

  /** `parse_llm_response`: json.loads, then a list of dicts that each hold the six required keys. */
  function ParseLlmResponse(text: string, parse: string -> Result<Json, string>): (r: Result<Json, ParseError>)
    ensures r.Ok? <==> parse(text).Ok? && AllSuggestions(parse(text).value, RequiredKeys)
    ensures r.Ok? ==> r.value == parse(text).value
    ensures parse(text).Err? ==> r == Err(InvalidJson(None))
    ensures parse(text).Ok? && r.Err? ==> r.error.Malformed?
  {
    match parse(text)
    case Err(_) => Err(InvalidJson(None))
    case Ok(v) =>
      match Validate(v, RequiredKeys)
      case Ok(accepted) => Ok(accepted)
      case Err(reason) => Err(Malformed(reason))
  }

  /** An empty list is accepted as it is. */
  lemma EmptyListAccepted(text: string, parse: string -> Result<Json, string>)
    requires parse(text) == Ok(JArr([]))
    ensures ParseLlmResponse(text, parse) == Ok(JArr([]))
  {
  }

  /** A suggestion lacking `address` is refused here (the llama front end does not ask for it). */
  lemma AddressIsRequired(text: string, parse: string -> Result<Json, string>, fields: map<string, Json>)
    requires "address" !in fields
    requires parse(text) == Ok(JArr([JObj(fields)]))
    ensures ParseLlmResponse(text, parse) == Err(Malformed(MissingKeys(RequiredKeys - fields.Keys)))
    ensures "address" in RequiredKeys - fields.Keys
  {
    assert FirstOffender([JObj(fields)], RequiredKeys) == 0;
  }

  function UserInputPrompt(data: map<string, string>): string {
    "I am driving from " + GetOr(data, "start", "unknown location")
    + " to " + GetOr(data, "end", "unknown location")
    + ", with " + GetOr(data, "stops", "unknown location")
    + " on the way. I want to know if " + GetOr(data, "message", "")
  }

  function StopsPrompt(data: map<string, string>): string {
    "I'm planning a road trip from " + GetOr(data, "start", "unknown location")
    + " to " + GetOr(data, "end", "unknown location")
    + ". Suggest some interesting stops along the way."
  }

  function TimedPrompt(location: string, placeType: string, maxMinutes: int, preferences: Option<string>): string {
    var base := "Find places matching these criteria: - Location: " + location + " - Type: " + placeType
      + " - Maximum travel time: " + IntToString(maxMinutes) + " minutes";
    if preferences.Some? && preferences.value != [] then base + "- Additional preferences: " + preferences.value + "\n"
    else base
  }

  /** `parse_user_input`. */
  function ParseUserInput(data: map<string, string>, complete: string -> Result<string, string>,
                          parse: string -> Result<Json, string>): (r: Envelope)
    ensures var reply := complete(UserInputPrompt(data));
      r.Suggested? <==> reply.Ok? && parse(reply.value).Ok? && AllSuggestions(parse(reply.value).value, RequiredKeys)
    ensures r.Suggested? ==> r.suggestions == parse(complete(UserInputPrompt(data)).value).value && r.criteria == None
    ensures r.Failed? ==> r.error == SuggestionsFailure
    ensures var reply := complete(UserInputPrompt(data));
      reply.Err? ==> r == Failed(SuggestionsFailure, ClientFailed(reply.error))
    ensures var reply := complete(UserInputPrompt(data));
      reply.Ok? && ParseLlmResponse(reply.value, parse).Err? ==>
        r == Failed(SuggestionsFailure, ParseFailed(ParseLlmResponse(reply.value, parse).error))
  {
    Envelop(complete(UserInputPrompt(data)), text => ParseLlmResponse(text, parse), SuggestionsFailure, None)
  }

  /** `suggest_stops`. */
  function SuggestStops(data: map<string, string>, complete: string -> Result<string, string>,
                        parse: string -> Result<Json, string>): (r: Envelope)
    ensures var reply := complete(StopsPrompt(data));
      r.Suggested? <==> reply.Ok? && parse(reply.value).Ok? && AllSuggestions(parse(reply.value).value, RequiredKeys)
    ensures r.Suggested? ==> r.suggestions == parse(complete(StopsPrompt(data)).value).value && r.criteria == None
    ensures r.Failed? ==> r.error == SuggestionsFailure
    ensures var reply := complete(StopsPrompt(data));
      reply.Err? ==> r == Failed(SuggestionsFailure, ClientFailed(reply.error))
    ensures var reply := complete(StopsPrompt(data));
      reply.Ok? && ParseLlmResponse(reply.value, parse).Err? ==>
        r == Failed(SuggestionsFailure, ParseFailed(ParseLlmResponse(reply.value, parse).error))
  {
    Envelop(complete(StopsPrompt(data)), text => ParseLlmResponse(text, parse), SuggestionsFailure, None)
  }

  /** `suggest_places_by_time`: on success the four inputs come back under `search_criteria`. */
  function SuggestPlacesByTime(location: string, placeType: string, maxMinutes: int, preferences: Option<string>,
                               complete: string -> Result<string, string>,
                               parse: string -> Result<Json, string>): (r: Envelope)
    ensures var reply := complete(TimedPrompt(location, placeType, maxMinutes, preferences));
      r.Suggested? <==> reply.Ok? && parse(reply.value).Ok? && AllSuggestions(parse(reply.value).value, RequiredKeys)
    ensures var reply := complete(TimedPrompt(location, placeType, maxMinutes, preferences));
      r.Suggested? ==> r.suggestions == parse(reply.value).value
    ensures r.Suggested? ==> r.criteria == Some(SearchCriteria(location, placeType, maxMinutes, preferences))
    ensures r.Failed? ==> r.error == TimedSuggestionsFailure
    ensures var reply := complete(TimedPrompt(location, placeType, maxMinutes, preferences));
      reply.Err? ==> r == Failed(TimedSuggestionsFailure, ClientFailed(reply.error))
    ensures var reply := complete(TimedPrompt(location, placeType, maxMinutes, preferences));
      reply.Ok? && ParseLlmResponse(reply.value, parse).Err? ==>
        r == Failed(TimedSuggestionsFailure, ParseFailed(ParseLlmResponse(reply.value, parse).error))
  {
    Envelop(complete(TimedPrompt(location, placeType, maxMinutes, preferences)),
            text => ParseLlmResponse(text, parse), TimedSuggestionsFailure,
            Some(SearchCriteria(location, placeType, maxMinutes, preferences)))
  }
}
