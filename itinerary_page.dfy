/**
 * frontend/src/components/ItineraryPage.js: the itinerary list and the chat panel. Each
 * handler builds a new array from a copy of the current one and installs it, so the
 * array a render was holding is never changed; the chat history grows by appending.
 */
module ItineraryPage {
  import opened Common
  import opened JsArrays

  /** An itinerary entry: a plain object. */
  type Item = map<string, Json>

  datatype ChatEntry = ChatEntry(sender: string, message: string)

  const LlmFailureMessage: string := "Error: Unable to fetch response."

  /** What the page currently answers in place of an LLM call. */
  const SampleReply: string := "Sample LLM response"

  /** The characters JavaScript's `String.prototype.trim` removes: white space and line terminators. */
  const JsWhitespace: set<char> := {
    '\t', '\n', '\U{000B}', '\U{000C}', '\r', ' ', '\U{00A0}', '\U{1680}',
    '\U{2000}', '\U{2001}', '\U{2002}', '\U{2003}', '\U{2004}', '\U{2005}', '\U{2006}', '\U{2007}',
    '\U{2008}', '\U{2009}', '\U{200A}', '\U{2028}', '\U{2029}', '\U{202F}', '\U{205F}', '\U{3000}',
    '\U{FEFF}'
  }

  /** `{ ...copy[index], ...newValue }`: fields of `newValue` win; a missing element spreads nothing. */
  function MergedAt(s: seq<Item>, index: int, newValue: Item): Item {
    if 0 <= index < |s| then s[index] + newValue else newValue
  }

  /** `handleModifyItem` on the list: only the entry at `index` changes. */
  function Modified(s: seq<Item>, index: int, newValue: Item): seq<Item>
    requires index <= |s|
  {
    Assigned(s, index, MergedAt(s, index, newValue))
  }

  /** Modifying an entry inside the list keeps the length and every other entry; in that entry the new fields override and the rest are kept. */
  lemma ModifiedMergesFields(s: seq<Item>, index: int, newValue: Item)
    requires 0 <= index < |s|
    ensures var r := Modified(s, index, newValue);
      && |r| == |s|
      && (forall j :: 0 <= j < |s| && j != index ==> r[j] == s[j])
      && r[index].Keys == s[index].Keys + newValue.Keys
      && (forall k :: k in newValue ==> r[index][k] == newValue[k])
      && (forall k :: k in s[index] && k !in newValue ==> r[index][k] == s[index][k])
  {
  }

  /** `!input.trim()`: the input is empty once trimmed. */
  predicate Blank(input: string) {
    Trim(input, JsWhitespace) == []
  }

  /** Blank input is input made of white space only. */
  lemma BlankIsAllWhitespace(input: string)
    ensures Blank(input) <==> AllIn(input, JsWhitespace)
  {
    TrimEmptyIffAllIn(input, JsWhitespace);
  }

  /** The chat after sending `input`: unchanged for blank input, else the user's message and then the reply or the failure message. */
  function ChatAfterSend(history: seq<ChatEntry>, input: string, reply: Option<string>): seq<ChatEntry> {
    if Blank(input) then history
    else history + [ChatEntry("user", input), ChatEntry("llm", reply.GetOr(LlmFailureMessage))]
  }

  /** A non-blank send adds exactly two entries, the user's message first; the reply is the placeholder's text when it answers. */
  lemma SendAddsTwoEntries(history: seq<ChatEntry>, input: string, reply: Option<string>)
    requires !Blank(input)
    ensures var h := ChatAfterSend(history, input, reply);
      && |h| == |history| + 2
      && h[..|history|] == history
      && h[|history|] == ChatEntry("user", input)
      && h[|history| + 1].sender == "llm"
      && (reply.None? ==> h[|history| + 1].message == LlmFailureMessage)
      && (reply == Some(SampleReply) ==> h[|history| + 1].message == "Sample LLM response")
  {
  }

  class Page {
    var items: array<Item>
    var llmInput: string
    var chatHistory: seq<ChatEntry>

    constructor()
      ensures fresh(items) && items.Length == 0
      ensures llmInput == "" && chatHistory == []
    {
      items := new Item[0];
      llmInput := "";
      chatHistory := [];
    }

    /** `handleRemoveItem`: installs a new array, the copy with `splice(index, 1)` applied. */
    method HandleRemoveItem(index: int)
      modifies this
      ensures fresh(items)
      ensures items[..] == Spliced(old(items[..]), index)
      ensures old(items)[..] == old(items[..])
      ensures llmInput == old(llmInput) && chatHistory == old(chatHistory)
    {
      var current := items;
      var n := current.Length;
      var start := SpliceStart(n, index);
      var newItems := new Item[if start < n then n - 1 else n];
      for i := 0 to newItems.Length
        modifies newItems
        invariant forall j :: 0 <= j < i ==> newItems[j] == current[if j < start then j else j + 1]
      {
        newItems[i] := current[if i < start then i else i + 1];
      }
      assert newItems[..] == Spliced(current[..], index);
      items := newItems;
    }

    /** `handleModifyItem`: installs a new array, the copy with the merged entry written at `index`. */
    method HandleModifyItem(index: int, newValue: Item)
      requires index <= items.Length
      modifies this
      ensures fresh(items)
      ensures items[..] == Modified(old(items[..]), index, newValue)
      ensures old(items)[..] == old(items[..])
      ensures llmInput == old(llmInput) && chatHistory == old(chatHistory)
    {
      var current := items;
      var n := current.Length;
      var merged := MergedAt(current[..], index, newValue);
      var newItems := new Item[if index == n then n + 1 else n];
      for i := 0 to n
        modifies newItems
        invariant forall j :: 0 <= j < i ==> newItems[j] == current[j]
      {
        newItems[i] := current[i];
      }
      if 0 <= index {
        newItems[index] := merged;
      }
      assert newItems[..] == Modified(current[..], index, newValue);
      items := newItems;
    }

    /**
     * `handleLLM`: ignores blank input; otherwise appends the user's message, then the reply
     * (None when the call fails), and clears the input.
     */
    method HandleLLM(reply: Option<string>)
      modifies this
      ensures chatHistory == ChatAfterSend(old(chatHistory), old(llmInput), reply)
      ensures llmInput == if Blank(old(llmInput)) then old(llmInput) else ""
      ensures items == old(items)
    {
      if Blank(llmInput) {
        return;
      }
      Send(reply);
    }

    /** The part of `handleLLM` after the blank check. */
    method Send(reply: Option<string>)
      modifies this
      ensures chatHistory == old(chatHistory) + [ChatEntry("user", old(llmInput)), ChatEntry("llm", reply.GetOr(LlmFailureMessage))]
      ensures llmInput == "" && items == old(items)
    {
      chatHistory := chatHistory + [ChatEntry("user", llmInput)];
      match reply {
        case Some(response) =>
          chatHistory := chatHistory + [ChatEntry("llm", response)];
        case None =>
          chatHistory := chatHistory + [ChatEntry("llm", LlmFailureMessage)];
      }
      llmInput := "";
    }
  }
}
