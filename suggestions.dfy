/**
 * The shape both LLM front ends (backend/llm.py and backend/llama.py) demand of a
 * parsed model reply, and the response envelopes their `suggest_*` functions return.
 */
module SuggestionSchema {
  import opened Common

  /** Why `parse_llm_response` refuses a parsed value; each becomes a ValueError. */
  datatype Refusal =
    | NotAList                           // "Response is not a list"
    | NotADictionary                     // "Suggestion is not a dictionary"
    | MissingKeys(missing: set<string>)  // "Suggestion missing required keys: ..."

  /** The ValueError that `parse_llm_response` raises. */
  datatype ParseError =
    | InvalidJson(detail: Option<string>)  // "Failed to parse response as JSON[: detail]"
    | Malformed(reason: Refusal)           // "Error parsing response: <reason>"

  /** An element the loop lets through: a dict holding every required key (more keys are fine). */
  predicate IsSuggestion(v: Json, required: set<string>) {
    v.JObj? && required <= v.fields.Keys
  }

  predicate AllSuggestions(v: Json, required: set<string>) {
    v.JArr? && forall k :: 0 <= k < |v.items| ==> IsSuggestion(v.items[k], required)
  }

  /** What is raised for a refused element. */
  function RefusalOf(v: Json, required: set<string>): Refusal {
    if !v.JObj? then NotADictionary else MissingKeys(required - v.fields.Keys)
  }

  /** Index of the first element the loop refuses, or |items| when it refuses none. */
  function FirstOffender(items: seq<Json>, required: set<string>): (i: nat)
    ensures i <= |items|
    ensures forall k :: 0 <= k < i ==> IsSuggestion(items[k], required)
    ensures i < |items| ==> !IsSuggestion(items[i], required)
  {
    if items == [] || !IsSuggestion(items[0], required) then 0
    else 1 + FirstOffender(items[1..], required)
  }

  /** The checks of `parse_llm_response` after `json.loads`: the value itself, or the first refusal met. */
  function Validate(v: Json, required: set<string>): (r: Result<Json, Refusal>)
    ensures r.Ok? <==> AllSuggestions(v, required)
    ensures r.Ok? ==> r.value == v
    ensures !v.JArr? ==> r == Err(NotAList)
    ensures v.JArr? && r.Err? ==>
      exists i :: 0 <= i < |v.items| && (forall k :: 0 <= k < i ==> IsSuggestion(v.items[k], required))
        && !IsSuggestion(v.items[i], required) && r.error == RefusalOf(v.items[i], required)
  {
    if !v.JArr? then Err(NotAList)
    else
      var i := FirstOffender(v.items, required);
      if i == |v.items| then Ok(v) else Err(RefusalOf(v.items[i], required))
  }

  /** A refused element names the keys it lacks, and only those. */
  lemma MissingKeysAreExact(v: Json, required: set<string>)
    requires v.JObj? && !IsSuggestion(v, required)
    ensures RefusalOf(v, required).MissingKeys?
    ensures var m := RefusalOf(v, required).missing;
      m != {} && m <= required && forall k :: k in m ==> k !in v.fields
  {
    var k :| k in required && k !in v.fields.Keys;
    assert k in RefusalOf(v, required).missing;
  }

  /** Adding keys to accepted elements keeps them accepted. */
  lemma ExtraKeysAccepted(items: seq<Json>, more: seq<map<string, Json>>, required: set<string>)
    requires AllSuggestions(JArr(items), required)
    requires |more| == |items|
    ensures AllSuggestions(JArr(seq(|items|, k requires 0 <= k < |items| => JObj(items[k].fields + more[k]))), required)
  {
  }

  /** The parameters `suggest_places_by_time` echoes back. */
  datatype SearchCriteria = SearchCriteria(location: string, placeType: string, maxMinutes: int,
                                           preferences: Option<string>)

  /** What the LLM call or the parse raised; it becomes the envelope's `details`. */
  datatype FailureDetail = ClientFailed(message: string) | ParseFailed(error: ParseError)

  /**
   * `{"success": True, "suggestions": ..., ["search_criteria": ...]}` or
   * `{"success": False, "error": ..., "details": str(e)}`.
   */
  datatype Envelope =
    | Suggested(suggestions: Json, criteria: Option<SearchCriteria>)
    | Failed(error: string, details: FailureDetail)

  /** The try/except around an LLM call and `parse_llm_response`. */
  function Envelop(reply: Result<string, string>, parseReply: string -> Result<Json, ParseError>,
                   failure: string, criteria: Option<SearchCriteria>): (r: Envelope)
    ensures r.Suggested? <==> reply.Ok? && parseReply(reply.value).Ok?
    ensures r.Suggested? ==> r.suggestions == parseReply(reply.value).value && r.criteria == criteria
    ensures r.Failed? ==> r.error == failure
    ensures reply.Err? ==> r == Failed(failure, ClientFailed(reply.error))
    ensures reply.Ok? && parseReply(reply.value).Err? ==> r == Failed(failure, ParseFailed(parseReply(reply.value).error))
  {
    match reply
    case Err(message) => Failed(failure, ClientFailed(message))
    case Ok(text) =>
      match parseReply(text)
      case Ok(suggestions) => Suggested(suggestions, criteria)
      case Err(e) => Failed(failure, ParseFailed(e))
  }
}
