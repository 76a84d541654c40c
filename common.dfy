/**
 * Values shared by the backend (Python) and the frontends (JavaScript/TypeScript):
 * optional and failing results, JSON values as a parser produces them, and the few
 * string operations the handlers use (trimming whitespace, splitting on and joining
 * with a one-character separator).
 */
module Common {

  datatype Option<+T> = None | Some(value: T) {
    function GetOr(default: T): T {
      match this
      case Some(v) => v
      case None => default
    }
  }

  datatype Result<+T, +E> = Ok(value: T) | Err(error: E)

  /** A JSON value, as `json.loads` or `JSON.parse` hands it over. */
  datatype Json =
    | JNull
    | JBool(b: bool)
    | JNum(n: real)
    | JStr(s: string)
    | JArr(items: seq<Json>)
    | JObj(fields: map<string, Json>)

  /** Python's truth value of a JSON value (`if x:` / `x or y`). */
  predicate PyTruthy(v: Json) {
    match v
    case JNull => false
    case JBool(b) => b
    case JNum(n) => n != 0.0
    case JStr(s) => s != ""
    case JArr(items) => items != []
    case JObj(fields) => fields != map[]
  }

  /** JavaScript's truth value of a JSON value (`if (x)` / `x && y`): every array and object is truthy. */
  predicate JsTruthy(v: Json) {
    match v
    case JNull => false
    case JBool(b) => b
    case JNum(n) => n != 0.0
    case JStr(s) => s != ""
    case JArr(_) => true
    case JObj(_) => true
  }

  /** Python's `d.get(key)`: the value under `key`, or None when it is absent. */
  function Get(d: map<string, Json>, key: string): (r: Json)
    ensures key in d ==> r == d[key]
    ensures key !in d ==> r == JNull
  {
    if key in d then d[key] else JNull
  }

  /** Python's `d.get(key, default)`. */
  function GetOr<K, V>(d: map<K, V>, key: K, default: V): V {
    if key in d then d[key] else default
  }

  // ---------------------------------------------------------------------
  // Trimming

  /** Drops the longest prefix of characters from `ws`. */
  function TrimStart(s: string, ws: set<char>): (r: string)
    ensures |r| <= |s| && r == s[|s| - |r|..]
    ensures r == [] || r[0] !in ws
  {
    if s != [] && s[0] in ws then TrimStart(s[1..], ws) else s
  }

  /** Drops the longest suffix of characters from `ws`. */
  function TrimEnd(s: string, ws: set<char>): (r: string)
    ensures |r| <= |s| && r == s[..|r|]
    ensures r == [] || r[|r| - 1] !in ws
  {
    if s != [] && s[|s| - 1] in ws then TrimEnd(s[..|s| - 1], ws) else s
  }

  /** Whitespace trimmed from both ends (Python's `str.strip()`, JavaScript's `trim()`). */
  function Trim(s: string, ws: set<char>): (r: string)
  {
    TrimEnd(TrimStart(s, ws), ws)
  }

  predicate AllIn(s: string, ws: set<char>) {
    forall i :: 0 <= i < |s| ==> s[i] in ws
  }

  /** Everything `TrimStart` drops is whitespace. */
  lemma {:induction false} TrimStartDropsWhitespace(s: string, ws: set<char>)
    ensures AllIn(s[..|s| - |TrimStart(s, ws)|], ws)
    decreases |s|
  {
    if s != [] && s[0] in ws {
      TrimStartDropsWhitespace(s[1..], ws);
      assert s[..|s| - |TrimStart(s, ws)|] == [s[0]] + s[1..][..|s[1..]| - |TrimStart(s[1..], ws)|];
    }
  }

  /** Everything `TrimEnd` drops is whitespace. */
  lemma {:induction false} TrimEndDropsWhitespace(s: string, ws: set<char>)
    ensures AllIn(s[|TrimEnd(s, ws)|..], ws)
    decreases |s|
  {
    if s != [] && s[|s| - 1] in ws {
      var init := s[..|s| - 1];
      TrimEndDropsWhitespace(init, ws);
      assert s[|TrimEnd(s, ws)|..] == init[|TrimEnd(init, ws)|..] + [s[|s| - 1]];
    }
  }

  /** Whitespace padding around a text that starts and ends with other characters is exactly what trimming removes. */
  lemma {:induction false} TrimStartPadded(w: string, x: string, ws: set<char>)
    requires AllIn(w, ws)
    requires x == [] || x[0] !in ws
    ensures TrimStart(w + x, ws) == TrimStart(x, ws)
    decreases |w|
  {
    if w != [] {
      assert (w + x)[1..] == w[1..] + x;
      TrimStartPadded(w[1..], x, ws);
    } else {
      assert w + x == x;
    }
  }

  lemma {:induction false} TrimEndPadded(x: string, w: string, ws: set<char>)
    requires AllIn(w, ws)
    requires x == [] || x[|x| - 1] !in ws
    ensures TrimEnd(x + w, ws) == TrimEnd(x, ws)
    decreases |w|
  {
    if w != [] {
      assert (x + w)[..|x + w| - 1] == x + w[..|w| - 1];
      TrimEndPadded(x, w[..|w| - 1], ws);
    } else {
      assert x + w == x;
    }
  }

  /** Trimming `w1 + x + w2`, with whitespace pads and `x` bare at both ends, gives back `x`. */
  lemma TrimPadded(w1: string, x: string, w2: string, ws: set<char>)
    requires AllIn(w1, ws) && AllIn(w2, ws)
    requires x != [] && x[0] !in ws && x[|x| - 1] !in ws
    ensures Trim(w1 + x + w2, ws) == x
  {
    assert w1 + x + w2 == w1 + (x + w2);
    TrimStartPadded(w1, x + w2, ws);
    assert TrimStart(x + w2, ws) == x + w2;
    TrimEndPadded(x, w2, ws);
  }

  /** Trimming leaves nothing exactly when every character is whitespace. */
  lemma TrimEmptyIffAllIn(s: string, ws: set<char>)
    ensures Trim(s, ws) == [] <==> AllIn(s, ws)
  {
    if Trim(s, ws) == [] {
      EmptyTrimMeansAllIn(s, ws);
    }
    if AllIn(s, ws) {
      AllInTrimsAway(s, ws);
    }
  }

  lemma EmptyTrimMeansAllIn(s: string, ws: set<char>)
    requires Trim(s, ws) == []
    ensures AllIn(s, ws)
  {
    var t := TrimStart(s, ws);
    TrimStartDropsWhitespace(s, ws);
    TrimEndDropsWhitespace(t, ws);
    assert t[|TrimEnd(t, ws)|..] == t;
    assert t == [];
    assert s == s[..|s| - |t|];
  }

  lemma {:induction false} AllInTrimsAway(s: string, ws: set<char>)
    requires AllIn(s, ws)
    ensures TrimStart(s, ws) == []
    decreases |s|
  {
    if s != [] {
      AllInTrimsAway(s[1..], ws);
    }
  }

  /** Trimming keeps a prefix that starts and ends with characters other than whitespace. */
  lemma TrimKeepsBarePrefix(s: string, k: nat, ws: set<char>)
    requires 0 < k <= |s| && s[0] !in ws && s[k - 1] !in ws
    ensures |Trim(s, ws)| >= k && Trim(s, ws)[..k] == s[..k]
  {
    assert TrimStart(s, ws) == s;
    TrimEndKeepsPrefix(s, k, ws);
  }

  /** `TrimEnd` keeps a prefix whose last character is not whitespace. */
  lemma {:induction false} TrimEndKeepsPrefix(s: string, k: nat, ws: set<char>)
    requires 0 < k <= |s| && s[k - 1] !in ws
    ensures |TrimEnd(s, ws)| >= k && TrimEnd(s, ws)[..k] == s[..k]
    decreases |s|
  {
    if |s| > k && s[|s| - 1] in ws {
      TrimEndKeepsPrefix(s[..|s| - 1], k, ws);
    }
  }

  /** Trimming twice is trimming once. */
  lemma TrimIdempotent(s: string, ws: set<char>)
    ensures Trim(Trim(s, ws), ws) == Trim(s, ws)
  {
    var r := Trim(s, ws);
    if r != [] {
      TrimPadded([], r, [], ws);
      assert [] + r + [] == r;
    }
  }

  // ---------------------------------------------------------------------
  // Splitting and joining on one character

  predicate EndsWith(s: string, suffix: string) {
    |suffix| <= |s| && s[|s| - |suffix|..] == suffix
  }

  /** `s.split(sep)` for a one-character separator: the pieces between separators, at least one. */
  function Split(s: string, sep: char): (parts: seq<string>)
    ensures |parts| >= 1
    ensures forall k :: 0 <= k < |parts| ==> sep !in parts[k]
  {
    if s == [] then [[]]
    else
      var rest := Split(s[1..], sep);
      if s[0] == sep then [[]] + rest
      else [[s[0]] + rest[0]] + rest[1..]
  }

  /** `sep.join(parts)`. */
  function Join(parts: seq<string>, sep: char): string {
    if parts == [] then []
    else if |parts| == 1 then parts[0]
    else parts[0] + [sep] + Join(parts[1..], sep)
  }

  lemma {:induction false} SplitNoSeparator(x: string, sep: char)
    requires sep !in x
    ensures Split(x, sep) == [x]
    decreases |x|
  {
    if x != [] {
      SplitNoSeparator(x[1..], sep);
      assert [x[0]] + x[1..] == x;
    }
  }

  lemma {:induction false} SplitAtSeparator(x: string, sep: char, y: string)
    requires sep !in x
    ensures Split(x + [sep] + y, sep) == [x] + Split(y, sep)
    decreases |x|
  {
    if x == [] {
      assert (x + [sep] + y)[1..] == y;
    } else {
      assert (x + [sep] + y)[1..] == x[1..] + [sep] + y;
      SplitAtSeparator(x[1..], sep, y);
      assert [x[0]] + x[1..] == x;
    }
  }

  /** Splitting what `Join` built gives back the parts, provided no part holds the separator. */
  lemma {:induction false} SplitJoin(parts: seq<string>, sep: char)
    requires |parts| >= 1
    requires forall k :: 0 <= k < |parts| ==> sep !in parts[k]
    ensures Split(Join(parts, sep), sep) == parts
    decreases |parts|
  {
    if |parts| == 1 {
      SplitNoSeparator(parts[0], sep);
    } else {
      SplitJoin(parts[1..], sep);
      SplitAtSeparator(parts[0], sep, Join(parts[1..], sep));
      assert [parts[0]] + parts[1..] == parts;
    }
  }

  /** Joining the pieces of a split gives back the text. */
  lemma {:induction false} JoinSplit(s: string, sep: char)
    ensures Join(Split(s, sep), sep) == s
    decreases |s|
  {
    if s != [] {
      JoinSplit(s[1..], sep);
      var rest := Split(s[1..], sep);
      if s[0] == sep {
        assert ([[]] + rest)[1..] == rest;
      } else {
        var parts := [[s[0]] + rest[0]] + rest[1..];
        if |rest| == 1 {
          assert parts == [[s[0]] + rest[0]];
        } else {
          assert parts[1..] == rest[1..];
          assert Join(rest, sep) == rest[0] + [sep] + Join(rest[1..], sep);
        }
      }
    }
  }

  // ---------------------------------------------------------------------
  // Decimal rendering of integers (Python's `str(n)`, JavaScript's `${n}`)

  function DigitChar(d: nat): char
    requires d < 10
  {
    "0123456789"[d]
  }

  function NatToString(n: nat): string
  {
    if n < 10 then [DigitChar(n)] else NatToString(n / 10) + [DigitChar(n % 10)]
  }

  function IntToString(n: int): string
  {
    if n < 0 then "-" + NatToString(-n) else NatToString(n)
  }
}
