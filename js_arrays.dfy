/**
 * What the frontends' array edits do, as JavaScript defines them: `splice(index, 1)` on a
 * copy, and an index assignment on a copy.
 */
module JsArrays {

  /** Where `splice(index, 1)` starts: a negative index counts back from the end, and the start is clamped to the array. */
  function SpliceStart(n: nat, index: int): (start: nat)
    ensures start <= n
    ensures 0 <= index <= n ==> start == index
    ensures 0 <= n + index && index < 0 ==> start == n + index
    ensures n + index < 0 ==> start == 0
    ensures index > n ==> start == n
  {
    if index < 0 then (if n + index < 0 then 0 else n + index)
    else if index > n then n
    else index
  }

  /** The array `splice(index, 1)` leaves behind. */
  function Spliced<T>(s: seq<T>, index: int): seq<T> {
    var start := SpliceStart(|s|, index);
    if start < |s| then s[..start] + s[start + 1..] else s
  }

  /**
   * An index inside the array (negative ones counting from the end) removes exactly that
   * element: one fewer element, those before it in place, those after it moved down by one.
   */
  lemma SplicedRemovesElement<T>(s: seq<T>, index: int)
    requires -|s| <= index < |s|
    ensures var k := if index < 0 then |s| + index else index;
            var r := Spliced(s, index);
      && |r| == |s| - 1
      && (forall j :: 0 <= j < k ==> r[j] == s[j])
      && (forall j :: k <= j < |r| ==> r[j] == s[j + 1])
      && multiset(r) + multiset{s[k]} == multiset(s)
  {
    var k := if index < 0 then |s| + index else index;
    assert Spliced(s, index) == s[..k] + s[k + 1..];
    DroppingOneKeepsTheRest(s, k);
  }

  /** Removing the element at `k` keeps every other element, in order and as a multiset. */
  lemma DroppingOneKeepsTheRest<T>(s: seq<T>, k: nat)
    requires k < |s|
    ensures var r := s[..k] + s[k + 1..];
      && |r| == |s| - 1
      && (forall j :: 0 <= j < k ==> r[j] == s[j])
      && (forall j :: k <= j < |r| ==> r[j] == s[j + 1])
      && multiset(r) + multiset{s[k]} == multiset(s)
  {
    assert s == s[..k] + [s[k]] + s[k + 1..];
    calc {
      multiset(s);
      multiset(s[..k]) + multiset{s[k]} + multiset(s[k + 1..]);
      multiset(s[..k] + s[k + 1..]) + multiset{s[k]};
    }
  }

  /** An index at or past the end removes nothing. */
  lemma SplicedPastEndKeepsAll<T>(s: seq<T>, index: int)
    requires index >= |s|
    ensures Spliced(s, index) == s
  {
  }

  /** A negative index reaching before the start removes the first element. */
  lemma SplicedBeforeStartRemovesFirst<T>(s: seq<T>, index: int)
    requires s != [] && index < -|s|
    ensures Spliced(s, index) == s[1..]
  {
  }

  /**
   * `copy[index] = value`: an index inside the array replaces that element, index `|s|`
   * appends, and a negative index names a property rather than an element, so the
   * elements stay as they were.
   */
  function Assigned<T>(s: seq<T>, index: int, value: T): (r: seq<T>)
    requires index <= |s|
    ensures |r| == if index == |s| then |s| + 1 else |s|
    ensures 0 <= index ==> r[index] == value
    ensures forall j :: 0 <= j < |s| && j != index ==> r[j] == s[j]
  {
    if index < 0 then s
    else if index < |s| then s[index := value]
    else s + [value]
  }

  /** Assigning an element its own value changes nothing, and assigning twice keeps the second value. */
  lemma AssignedOverwrites<T>(s: seq<T>, index: int, v: T, w: T)
    requires 0 <= index < |s|
    ensures Assigned(s, index, s[index]) == s
    ensures Assigned(Assigned(s, index, v), index, w) == Assigned(s, index, w)
  {
  }
}
