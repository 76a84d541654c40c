/**
 * backend/llama.py: the same validation as backend/llm.py, after cleaning a markdown
 * code fence off the Ollama reply, and without `address` among the required keys.
 */
module LlamaSuggestions {
  import opened Common
  import opened SuggestionSchema

  const RequiredKeys: set<string> := {"name", "category", "estimated_time_minutes", "description", "worth_visiting"}

  const SuggestionsFailure := "Failed to generate suggestions"

  /** The characters Python's `str.strip()` removes. */
  const PyWhitespace: set<char> := {
    ' ', '\t', '\n', '\r', '\U{B}', '\U{C}', '\U{1C}', '\U{1D}', '\U{1E}', '\U{1F}',
    '\U{85}', '\U{A0}', '\U{1680}', '\U{2000}', '\U{2001}', '\U{2002}', '\U{2003}', '\U{2004}', '\U{2005}', '\U{2006}',
    '\U{2007}', '\U{2008}', '\U{2009}', '\U{200A}', '\U{2028}', '\U{2029}', '\U{202F}', '\U{205F}', '\U{3000}'
  }

  const JsonFence := "```json"
  const Fence := "```"

  /** The text cleaning of `parse_llm_response`: strip, drop a leading "```json", drop a trailing "```", strip. */
  function CleanResponse(text: string): string {
    CleanWith(text, PyWhitespace)
  }

  /** The cleaning, for any set of characters that strip removes. */
  function CleanWith(text: string, ws: set<char>): string {
    Trim(DropCloser(DropOpener(Trim(text, ws))), ws)
  }

  /** `text[7:]` when the text starts with "```json". */
  function DropOpener(text: string): string {
    if JsonFence <= text then text[|JsonFence|..] else text
  }

  /** `text[:-3]` when the text ends with "```". */
  function DropCloser(text: string): string {
    if EndsWith(text, Fence) then text[..|text| - |Fence|] else text
  }

  /** A reply fenced as "```json ... ```", with any whitespace around, cleans to its trimmed body. */
  lemma FencedReplyCleansToBody(before: string, body: string, after: string)
    requires AllIn(before, PyWhitespace) && AllIn(after, PyWhitespace)
    ensures CleanResponse(before + JsonFence + body + Fence + after) == Trim(body, PyWhitespace)
  {
    BacktickIsNotWhitespace();
    FencedCleansWith(before, body, after, PyWhitespace);
  }

  lemma FencedCleansWith(before: string, body: string, after: string, ws: set<char>)
    requires AllIn(before, ws) && AllIn(after, ws) && '`' !in ws
    ensures CleanWith(before + JsonFence + body + Fence + after, ws) == Trim(body, ws)
  {
    var fenced := JsonFence + body + Fence;
    assert before + JsonFence + body + Fence + after == before + fenced + after;
    assert fenced[0] == '`' && fenced[|fenced| - 1] == '`';
    TrimPadded(before, fenced, after, ws);
    FenceMarksDropped(body);
  }

  /** Dropping the opener and then the closer of a fenced text leaves its body. */
  lemma FenceMarksDropped(body: string)
    ensures DropCloser(DropOpener(JsonFence + body + Fence)) == body
  {
    var fenced := JsonFence + body + Fence;
    assert fenced[..|JsonFence|] == JsonFence;
    assert fenced[|JsonFence|..] == body + Fence;
    assert (body + Fence)[|body|..] == Fence;
    assert (body + Fence)[..|body|] == body;
  }

  /** A bare reply that does not itself carry fence marks is only trimmed. */
  lemma UnfencedReplyIsTrimmed(text: string)
    requires var t := Trim(text, PyWhitespace); !(JsonFence <= t) && !EndsWith(t, Fence)
    ensures CleanResponse(text) == Trim(text, PyWhitespace)
  {
    UnfencedTrimmedWith(text, PyWhitespace);
  }

  lemma UnfencedTrimmedWith(text: string, ws: set<char>)
    requires var t := Trim(text, ws); !(JsonFence <= t) && !EndsWith(t, Fence)
    ensures CleanWith(text, ws) == Trim(text, ws)
  {
    TrimIdempotent(text, ws);
  }

  lemma BacktickIsNotWhitespace()
    ensures '`' !in PyWhitespace
  {
  }

  /** Only the exact "```json" opener is removed: a reply opening with a bare "```" keeps it. */
  lemma BareFenceIsKept(text: string)
    requires var t := Trim(text, PyWhitespace); Fence <= t && !(JsonFence <= t) && |t| >= 2 * |Fence|
    ensures Fence <= CleanResponse(text)
  {
    BacktickIsNotWhitespace();
    BareFenceKeptWith(text, PyWhitespace);
  }

  lemma BareFenceKeptWith(text: string, ws: set<char>)
    requires '`' !in ws
    requires var t := Trim(text, ws); Fence <= t && !(JsonFence <= t) && |t| >= 2 * |Fence|
    ensures Fence <= CleanWith(text, ws)
  {
    BareFenceSurvives(Trim(text, ws), ws);
  }

  /** The cleaning after the first strip keeps a bare "```" opening. */
  lemma BareFenceSurvives(t: string, ws: set<char>)
    requires '`' !in ws
    requires Fence <= t && !(JsonFence <= t) && |t| >= 2 * |Fence|
    ensures Fence <= Trim(DropCloser(DropOpener(t)), ws)
  {
    DropCloserKeepsOpening(t);
    var closed := DropCloser(t);
    assert closed[..|Fence|] == Fence;
    assert closed[0] == '`' && closed[|Fence| - 1] == '`';
    TrimKeepsBarePrefix(closed, |Fence|, ws);
  }

  /** Dropping a closing fence from a text of six or more characters keeps its first three. */
  lemma DropCloserKeepsOpening(t: string)
    requires |t| >= 2 * |Fence|
    ensures |DropCloser(t)| >= |Fence| && DropCloser(t)[..|Fence|] == t[..|Fence|]
  {
  }

  /** `parse_llm_response`: clean the reply, then parse and validate it. */
  function ParseLlmResponse(text: string, parse: string -> Result<Json, string>): Result<Json, ParseError> {
    ParseCleaned(CleanResponse(text), parse)
  }

  /** What follows the cleaning: json.loads, then a list of dicts that each hold the five required keys. */
  function ParseCleaned(cleaned: string, parse: string -> Result<Json, string>): (r: Result<Json, ParseError>)
    ensures r.Ok? <==> parse(cleaned).Ok? && AllSuggestions(parse(cleaned).value, RequiredKeys)
    ensures r.Ok? ==> r.value == parse(cleaned).value
    ensures parse(cleaned).Err? ==> r == Err(InvalidJson(Some(parse(cleaned).error)))
    ensures parse(cleaned).Ok? && r.Err? ==> r.error.Malformed?
  {
    match parse(cleaned)
    case Err(detail) => Err(InvalidJson(Some(detail)))
    case Ok(v) =>
      match Validate(v, RequiredKeys)
      case Ok(accepted) => Ok(accepted)
      case Err(reason) => Err(Malformed(reason))
  }

  /** A reply wrapped in a "```json" fence validates exactly as its bare body does. */
  lemma FencedReplyValidatesAsBody(before: string, body: string, after: string, parse: string -> Result<Json, string>)
    requires AllIn(before, PyWhitespace) && AllIn(after, PyWhitespace)
    requires var t := Trim(body, PyWhitespace); !(JsonFence <= t) && !EndsWith(t, Fence)
    ensures ParseLlmResponse(before + JsonFence + body + Fence + after, parse) == ParseLlmResponse(body, parse)
  {
    FencedReplyCleansToBody(before, body, after);
    UnfencedReplyIsTrimmed(body);
    assert CleanResponse(before + JsonFence + body + Fence + after) == CleanResponse(body);
  }

  /** `address` is not among the required keys here, unlike in backend/llm.py. */
  lemma AddressNotRequired()
    ensures "address" !in RequiredKeys
  {
    assert |"address"| == 7;
  }

  /** A reply whose suggestions carry exactly the five required keys is accepted as it is. */
  lemma FiveKeysSuffice(cleaned: string, parse: string -> Result<Json, string>, fields: map<string, Json>)
    requires fields.Keys == RequiredKeys
    requires parse(cleaned) == Ok(JArr([JObj(fields)]))
    ensures ParseCleaned(cleaned, parse) == Ok(JArr([JObj(fields)]))
  {
    var v := JArr([JObj(fields)]);
    assert IsSuggestion(v.items[0], RequiredKeys);
    assert Validate(v, RequiredKeys) == Ok(v);
  }

  /** The user prompt of `suggest_stops`. */
  function StopsPrompt(data: map<string, string>): string {
    "I'm planning a trip from " + GetOr(data, "start", "unknown location")
    + " to " + GetOr(data, "end", "unknown location") + StopsRequest
  }

  const StopsRequest: string := ". \nSuggest 3-5 interesting stops along the way. \n"
    + "Return ONLY a JSON array of places with the exact format specified in the system prompt.\n"
    + "Do not include any other text or explanations."

  /** `suggest_stops`: `chat` is the Ollama call, the user prompt in, the message content or the exception out. */
  function SuggestStops(data: map<string, string>, chat: string -> Result<string, string>,
                        parse: string -> Result<Json, string>): (r: Envelope)
    ensures var reply := chat(StopsPrompt(data));
      r.Suggested? <==> reply.Ok? && ParseLlmResponse(reply.value, parse).Ok?
    ensures var reply := chat(StopsPrompt(data));
      r.Suggested? ==> r.suggestions == parse(CleanResponse(reply.value)).value && r.criteria == None
    ensures r.Suggested? ==> AllSuggestions(r.suggestions, RequiredKeys)
    ensures r.Failed? ==> r.error == SuggestionsFailure
    ensures var reply := chat(StopsPrompt(data));
      reply.Err? ==> r == Failed(SuggestionsFailure, ClientFailed(reply.error))
    ensures var reply := chat(StopsPrompt(data));
      reply.Ok? && ParseLlmResponse(reply.value, parse).Err? ==>
        r == Failed(SuggestionsFailure, ParseFailed(ParseLlmResponse(reply.value, parse).error))
  {
    Envelop(chat(StopsPrompt(data)), text => ParseLlmResponse(text, parse), SuggestionsFailure, None)
  }
}
