/**
 * backend/googlemapsroute.py: sampling points evenly by distance along a decoded
 * route, and collecting the best-rated place per place id around those points.
 *
 * Geodesic segment lengths, the Directions and Places services and the polyline
 * decoder are parameters: `dist` gives the length of a segment, `nearby` the pages of
 * Places results around a point, `decode` the points of an overview polyline.
 */
module RouteSampling {
  import opened Common

  datatype Point = Point(lat: real, lng: real)

  /** Geodesic lengths are never negative. */
  ghost predicate NonNegative(dist: (Point, Point) -> real) {
    forall p, q :: dist(p, q) >= 0.0
  }

  // ---------------------------------------------------------------------
  // Cumulative distances

  /** Entry k is the length of the route up to its point k; one entry per point, and [0.0] for 0 or 1 points. */
  function Cumulative(route: seq<Point>, dist: (Point, Point) -> real): (cum: seq<real>)
    ensures |cum| == if |route| == 0 then 1 else |route|
    ensures cum[0] == 0.0
    ensures |route| <= 1 ==> cum == [0.0]
  {
    if |route| <= 1 then [0.0]
    else
      var prev := Cumulative(route[..|route| - 1], dist);
      prev + [prev[|prev| - 1] + dist(route[|route| - 2], route[|route| - 1])]
  }

  predicate NonDecreasing(cum: seq<real>) {
    forall i, j :: 0 <= i <= j < |cum| ==> cum[i] <= cum[j]
  }

  /** With non-negative segment lengths the table never decreases. */
  lemma {:induction false} CumulativeNonDecreasing(route: seq<Point>, dist: (Point, Point) -> real)
    requires NonNegative(dist)
    ensures NonDecreasing(Cumulative(route, dist))
    decreases |route|
  {
    if |route| > 1 {
      var prev := route[..|route| - 1];
      CumulativeNonDecreasing(prev, dist);
      var c := Cumulative(prev, dist);
      assert NonDecreasing(c);
      var cum := Cumulative(route, dist);
      assert dist(route[|route| - 2], route[|route| - 1]) >= 0.0;
      assert cum == c + [c[|c| - 1] + dist(route[|route| - 2], route[|route| - 1])];
      forall i, j | 0 <= i <= j < |cum| ensures cum[i] <= cum[j] {
        if j < |c| {
          assert cum[i] == c[i] && cum[j] == c[j];
        } else if i < |c| {
          assert cum[i] == c[i] && c[i] <= c[|c| - 1];
        }
      }
    }
  }

  /** The last entry is the total length of the route. */
  function Total(route: seq<Point>, dist: (Point, Point) -> real): real {
    var cum := Cumulative(route, dist);
    cum[|cum| - 1]
  }

  /** A route whose total length is not 0 has at least two points. */
  lemma PositiveTotalNeedsTwoPoints(route: seq<Point>, dist: (Point, Point) -> real)
    requires Total(route, dist) != 0.0
    ensures |route| >= 2
  {
  }

  // ---------------------------------------------------------------------
  // Sampling

  /** The i-th of n evenly spaced target distances, `i * total / (n - 1)`. */
  function Target(i: int, total: real, n: int): real
    requires n >= 2
  {
    (i as real) * total / ((n - 1) as real)
  }

  lemma TargetMonotone(i: int, j: int, total: real, n: int)
    requires n >= 2 && i <= j && total >= 0.0
    ensures Target(i, total, n) <= Target(j, total, n)
  {
    var d := (n - 1) as real;
    assert (i as real) * total <= (j as real) * total by {
      assert ((j - i) as real) * total >= 0.0;
    }
    assert (i as real) * total / d <= (j as real) * total / d;
  }

  /** The smallest index whose cumulative distance reaches `t`, or the last index if none does. */
  function FirstReaching(cum: seq<real>, t: real): (j: nat)
    requires |cum| >= 1
    ensures j < |cum|
    ensures forall k :: 0 <= k < j ==> cum[k] < t
    ensures j < |cum| - 1 ==> cum[j] >= t
  {
    if |cum| == 1 || cum[0] >= t then 0 else 1 + FirstReaching(cum[1..], t)
  }

  /** FirstReaching is the only index with its three properties. */
  lemma FirstReachingUnique(cum: seq<real>, t: real, j: nat)
    requires j < |cum|
    requires forall k :: 0 <= k < j ==> cum[k] < t
    requires j < |cum| - 1 ==> cum[j] >= t
    ensures j == FirstReaching(cum, t)
  {
  }

  /** A larger target is reached no earlier. */
  lemma FirstReachingMonotone(cum: seq<real>, t1: real, t2: real)
    requires |cum| >= 1 && t1 <= t2
    ensures FirstReaching(cum, t1) <= FirstReaching(cum, t2)
  {
  }

  /** Whether the route is given back as it is: fewer than 2 samples asked for, or a route of length 0. */
  predicate KeptWhole(route: seq<Point>, numSamples: int, dist: (Point, Point) -> real) {
    numSamples < 2 || Total(route, dist) == 0.0
  }

  /** Index into the route of sample i. */
  function SampleIndex(route: seq<Point>, numSamples: int, dist: (Point, Point) -> real, i: int): (k: nat)
    requires !KeptWhole(route, numSamples, dist)
    ensures k < |route|
  {
    var cum := Cumulative(route, dist);
    FirstReaching(cum, Target(i, cum[|cum| - 1], numSamples))
  }

  /** What `sample_route_points_by_distance` returns. */
  function SampledPoints(route: seq<Point>, numSamples: int, dist: (Point, Point) -> real): seq<Point> {
    if KeptWhole(route, numSamples, dist) then route
    else seq(numSamples, i requires 0 <= i < numSamples => route[SampleIndex(route, numSamples, dist, i)])
  }

  /** Exactly `numSamples` points when the route is sampled; each is a point of the route. */
  lemma SampledShape(route: seq<Point>, numSamples: int, dist: (Point, Point) -> real)
    ensures var s := SampledPoints(route, numSamples, dist);
      (KeptWhole(route, numSamples, dist) ==> s == route) &&
      (!KeptWhole(route, numSamples, dist) ==> |s| == numSamples) &&
      forall i :: 0 <= i < |s| ==> s[i] in route
  {
  }

  /** The first sample is the start of the route: target 0 is reached at cumulative distance 0. */
  lemma FirstSampleIsStart(route: seq<Point>, numSamples: int, dist: (Point, Point) -> real)
    requires !KeptWhole(route, numSamples, dist)
    ensures SampledPoints(route, numSamples, dist)[0] == route[0]
  {
    var cum := Cumulative(route, dist);
    assert Target(0, cum[|cum| - 1], numSamples) == 0.0;
    FirstReachingUnique(cum, 0.0, 0);
  }

  /** The sampled indices never decrease. */
  lemma SampleIndexMonotone(route: seq<Point>, numSamples: int, dist: (Point, Point) -> real, i: int, j: int)
    requires NonNegative(dist)
    requires !KeptWhole(route, numSamples, dist)
    requires 0 <= i <= j < numSamples
    ensures SampleIndex(route, numSamples, dist, i) <= SampleIndex(route, numSamples, dist, j)
  {
    var cum := Cumulative(route, dist);
    var total := cum[|cum| - 1];
    CumulativeNonDecreasing(route, dist);
    assert NonDecreasing(cum);
    assert cum[0] <= cum[|cum| - 1];
    TargetMonotone(i, j, total, numSamples);
    FirstReachingMonotone(cum, Target(i, total, numSamples), Target(j, total, numSamples));
  }

  /** The cumulative-distance loop of `sample_route_points_by_distance`. */
  method CumulativeDistances(route: seq<Point>, dist: (Point, Point) -> real) returns (cum: seq<real>)
    ensures cum == Cumulative(route, dist)
  {
    cum := [0.0];
    var k := 1;
    while k < |route|
      invariant |route| == 0 || 1 <= k <= |route|
      invariant cum == Cumulative(route[..if |route| == 0 then 0 else k], dist)
    {
      assert route[..k + 1][..k] == route[..k];
      cum := cum + [cum[|cum| - 1] + dist(route[k - 1], route[k])];
      k := k + 1;
    }
    assert route[..if |route| == 0 then 0 else k] == route;
  }

  /** `sample_route_points_by_distance`: one forward-only index that stops at the first point reaching each target. */
  method SampleRoutePointsByDistance(route: seq<Point>, numSamples: int, dist: (Point, Point) -> real)
    returns (samples: seq<Point>)
    requires NonNegative(dist)
    ensures samples == SampledPoints(route, numSamples, dist)
  {
    var cum := CumulativeDistances(route, dist);
    var total := cum[|cum| - 1];
    if numSamples < 2 || total == 0.0 {
      return route;
    }
    CumulativeNonDecreasing(route, dist);
    assert NonDecreasing(cum);
    assert cum[0] <= total;

    var targets := seq(numSamples, i requires 0 <= i < numSamples => Target(i, total, numSamples));
    samples := [];
    var idx := 0;
    for i := 0 to numSamples
      invariant |samples| == i && idx < |cum|
      invariant i < numSamples ==> forall j :: 0 <= j < idx ==> cum[j] < targets[i]
      invariant forall m :: 0 <= m < i ==> samples[m] == route[SampleIndex(route, numSamples, dist, m)]
    {
      var t := targets[i];
      while idx < |cum| - 1 && cum[idx] < t
        invariant idx < |cum|
        invariant forall j :: 0 <= j < idx ==> cum[j] < t
      {
        idx := idx + 1;
      }
      FirstReachingUnique(cum, t, idx);
      samples := samples + [route[idx]];
      if i + 1 < numSamples {
        TargetMonotone(i, i + 1, total, numSamples);
      }
    }
    ghost var expected := SampledPoints(route, numSamples, dist);
    assert |expected| == numSamples;
    assert forall m :: 0 <= m < numSamples ==> samples[m] == expected[m];
  }

  // ---------------------------------------------------------------------
  // The best-rated place per place id

  /** One Places result, with the fields `find_stops_along_route` reads; `location` stands for `geometry.location`. */
  datatype Place = Place(placeId: string, name: Option<string>, location: Option<Json>,
                         rating: Option<real>, ratingsTotal: Option<int>, vicinity: Option<string>)

  /** `(rating, user_ratings_total)`. */
  datatype Score = Score(rating: real, ratingsTotal: int)

  /** A missing rating or rating count counts as 0. */
  function ScoreOf(p: Place): Score {
    Score(p.rating.GetOr(0.0), p.ratingsTotal.GetOr(0))
  }

  /** Python's `>` on two tuples: lexicographic and strict. */
  predicate Greater(a: Score, b: Score) {
    a.rating > b.rating || (a.rating == b.rating && a.ratingsTotal > b.ratingsTotal)
  }

  /** A returned stop: the stored dict without its `_score`. */
  datatype Stop = Stop(placeId: string, name: Option<string>, location: Option<Json>,
                       rating: Option<real>, ratingsTotal: Option<int>, vicinity: Option<string>)

  /** A value of the `seen` dict: the stop and its `_score`. */
  datatype Entry = Entry(stop: Stop, score: Score)

  function EntryOf(p: Place): Entry {
    Entry(Stop(p.placeId, p.name, p.location, p.rating, p.ratingsTotal, p.vicinity), ScoreOf(p))
  }

  /** The `seen` dict: its entries, and its keys in insertion order, the order `seen.values()` follows. */
  datatype Seen = Seen(keys: seq<string>, entries: map<string, Entry>)

  ghost predicate WellFormed(s: Seen) {
    && (forall i, j :: 0 <= i < j < |s.keys| ==> s.keys[i] != s.keys[j])
    && (forall k :: k in s.entries <==> k in s.keys)
    && (forall k :: k in s.entries ==> s.entries[k].stop.placeId == k)
  }

  /** One result offered to `seen`: stored when its id is new or when it scores strictly higher than the stored one. */
  function Offer(s: Seen, p: Place): Seen {
    var pid := p.placeId;
    if pid !in s.entries then Seen(s.keys + [pid], s.entries[pid := EntryOf(p)])
    else if Greater(ScoreOf(p), s.entries[pid].score) then Seen(s.keys, s.entries[pid := EntryOf(p)])
    else s
  }

  /** `s` after the results `ps`, offered in order. */
  function OfferAll(s: Seen, ps: seq<Place>): Seen
    decreases |ps|
  {
    if ps == [] then s else Offer(OfferAll(s, ps[..|ps| - 1]), ps[|ps| - 1])
  }

  /** Offering `a + b` is offering `a`, then `b`. */
  lemma {:induction false} OfferAllAppend(s: Seen, a: seq<Place>, b: seq<Place>)
    ensures OfferAll(s, a + b) == OfferAll(OfferAll(s, a), b)
    decreases |b|
  {
    if b == [] {
      assert a + b == a;
    } else {
      assert (a + b)[..|a + b| - 1] == a + b[..|b| - 1];
      OfferAllAppend(s, a, b[..|b| - 1]);
    }
  }

  /** `seen` after all results, starting from an empty dict. */
  function KeepBest(results: seq<Place>): Seen {
    OfferAll(Seen([], map[]), results)
  }

  /** The returned stops: the values of `seen`, in key order, with `_score` left out. */
  function StripScores(s: Seen): seq<Stop>
    requires WellFormed(s)
  {
    seq(|s.keys|, i requires 0 <= i < |s.keys| => s.entries[s.keys[i]].stop)
  }

  function PlaceIds(results: seq<Place>): set<string> {
    set i | 0 <= i < |results| :: results[i].placeId
  }

  /** Result j is the one kept for `pid`: no result for `pid` scores higher, and every earlier one scores lower. */
  ghost predicate KeptAt(results: seq<Place>, pid: string, j: int) {
    && 0 <= j < |results| && results[j].placeId == pid
    && (forall k :: 0 <= k < |results| && results[k].placeId == pid ==> !Greater(ScoreOf(results[k]), ScoreOf(results[j])))
    && (forall k :: 0 <= k < j && results[k].placeId == pid ==> Greater(ScoreOf(results[j]), ScoreOf(results[k])))
  }

  /** `seen` holds one entry per place id that occurs in the results, and nothing else. */
  lemma {:induction false} KeepBestWellFormed(results: seq<Place>)
    ensures WellFormed(KeepBest(results))
    ensures KeepBest(results).entries.Keys == PlaceIds(results)
    decreases |results|
  {
    if results != [] {
      var xs, x := results[..|results| - 1], results[|results| - 1];
      KeepBestWellFormed(xs);
      assert results == xs + [x];
      assert PlaceIds(results) == PlaceIds(xs) + {x.placeId};
    }
  }

  /** A later result that does not score higher leaves the kept index in place. */
  lemma KeptAtExtend(xs: seq<Place>, x: Place, pid: string, j: int)
    requires KeptAt(xs, pid, j)
    requires x.placeId == pid ==> !Greater(ScoreOf(x), ScoreOf(xs[j]))
    ensures KeptAt(xs + [x], pid, j)
  {
    var ys := xs + [x];
    assert forall k :: 0 <= k < |xs| ==> ys[k] == xs[k];
  }

  /** A result that scores higher than every earlier one for its id is the one kept. */
  lemma KeptAtLast(xs: seq<Place>, x: Place, pid: string)
    requires x.placeId == pid
    requires forall k :: 0 <= k < |xs| && xs[k].placeId == pid ==> Greater(ScoreOf(x), ScoreOf(xs[k]))
    ensures KeptAt(xs + [x], pid, |xs|)
  {
    var ys := xs + [x];
    assert forall k :: 0 <= k < |xs| ==> ys[k] == xs[k];
  }

  /** The entry stored for each id is that of the first result with the highest score for that id. */
  lemma {:induction false} KeepBestIsFirstMaximum(results: seq<Place>, pid: string)
    requires pid in KeepBest(results).entries
    ensures exists j :: KeptAt(results, pid, j) && KeepBest(results).entries[pid] == EntryOf(results[j])
    decreases |results|
  {
    var xs, x := results[..|results| - 1], results[|results| - 1];
    assert results == xs + [x];
    var before := KeepBest(xs);
    assert KeepBest(results) == Offer(before, x);
    KeepBestWellFormed(xs);
    if pid in before.entries {
      KeepBestIsFirstMaximum(xs, pid);
      var j :| KeptAt(xs, pid, j) && before.entries[pid] == EntryOf(xs[j]);
      if x.placeId == pid && Greater(ScoreOf(x), before.entries[pid].score) {
        KeptAtLast(xs, x, pid);
      } else {
        KeptAtExtend(xs, x, pid, j);
      }
    } else {
      assert forall k :: 0 <= k < |xs| ==> xs[k].placeId in PlaceIds(xs);
      KeptAtLast(xs, x, pid);
    }
  }

  /** The returned stops: one per place id of the results, each the first best-scoring result for its id. */
  lemma StopsAreBestPerPlace(results: seq<Place>)
    ensures WellFormed(KeepBest(results))
    ensures var stops := StripScores(KeepBest(results));
      && (forall i, j :: 0 <= i < j < |stops| ==> stops[i].placeId != stops[j].placeId)
      && (set i | 0 <= i < |stops| :: stops[i].placeId) == PlaceIds(results)
      && (forall i :: 0 <= i < |stops| ==>
            exists j :: KeptAt(results, stops[i].placeId, j) && stops[i] == EntryOf(results[j]).stop)
  {
    KeepBestWellFormed(results);
    var s := KeepBest(results);
    var stops := StripScores(s);
    forall i | 0 <= i < |stops|
      ensures exists j :: KeptAt(results, stops[i].placeId, j) && stops[i] == EntryOf(results[j]).stop
    {
      KeepBestIsFirstMaximum(results, s.keys[i]);
    }
    assert (set i | 0 <= i < |stops| :: stops[i].placeId) == s.entries.Keys by {
      forall k | k in s.entries ensures k in (set i | 0 <= i < |stops| :: stops[i].placeId) {
        var i :| 0 <= i < |s.keys| && s.keys[i] == k;
        assert stops[i].placeId == k;
      }
    }
  }

  // ---------------------------------------------------------------------
  // find_stops_along_route

  datatype StopsAlongRoute = StopsAlongRoute(route: seq<Point>, stops: seq<Stop>)

  /** All results of a series of pages, page by page. */
  function Flatten(pages: seq<seq<Place>>): seq<Place> {
    if pages == [] then [] else Flatten(pages[..|pages| - 1]) + pages[|pages| - 1]
  }

  /** All results around the sample points, point by point, in the order they are offered to `seen`. */
  function ResultsAround(points: seq<Point>, radius: int, keyword: string,
                         nearby: (Point, int, string) -> seq<seq<Place>>): seq<Place>
  {
    if points == [] then []
    else ResultsAround(points[..|points| - 1], radius, keyword, nearby) + Flatten(nearby(points[|points| - 1], radius, keyword))
  }

  /**
   * `find_stops_along_route`. `directions(start, end)` gives the overview polylines of the routes found, or None
   * when the request raises; `nearby(point, radius, keyword)` gives every page of Places results around a point.
   */
  method FindStopsAlongRoute(start: string, end: string, stopType: string, numSamples: int, radius: int,
                             directions: (string, string) -> Option<seq<string>>,
                             decode: string -> seq<Point>,
                             dist: (Point, Point) -> real,
                             nearby: (Point, int, string) -> seq<seq<Place>>)
    returns (r: StopsAlongRoute)
    requires NonNegative(dist)
    ensures match directions(start, end)
      case None => r == StopsAlongRoute([], [])
      case Some(routes) =>
        if routes == [] then r == StopsAlongRoute([], [])
        else
          var route := decode(routes[0]);
          var results := ResultsAround(SampledPoints(route, numSamples, dist), radius, stopType, nearby);
          && r.route == route
          && WellFormed(KeepBest(results))
          && r.stops == StripScores(KeepBest(results))
  {
    var found := directions(start, end);
    if found.None? || found.value == [] {
      return StopsAlongRoute([], []);
    }
    var route := decode(found.value[0]);
    var samplePoints := SampleRoutePointsByDistance(route, numSamples, dist);

    var keys, seen := SearchAround(samplePoints, radius, stopType, nearby);
    KeepBestWellFormed(ResultsAround(samplePoints, radius, stopType, nearby));
    r := StopsAlongRoute(route, StripScores(Seen(keys, seen)));
  }

  /** The innermost loop of `find_stops_along_route`: each result of one page offered to `seen`. */
  method OfferPage(keys: seq<string>, seen: map<string, Entry>, page: seq<Place>)
    returns (keys': seq<string>, seen': map<string, Entry>)
    ensures Seen(keys', seen') == OfferAll(Seen(keys, seen), page)
  {
    keys', seen' := keys, seen;
    for k := 0 to |page|
      invariant Seen(keys', seen') == OfferAll(Seen(keys, seen), page[..k])
    {
      var p := page[k];
      var pid := p.placeId;
      if pid !in seen' || Greater(ScoreOf(p), seen'[pid].score) {
        if pid !in seen' {
          keys' := keys' + [pid];
        }
        seen' := seen'[pid := EntryOf(p)];
      }
      assert page[..k + 1][..k] == page[..k];
    }
    assert page[..|page|] == page;
  }

  /** The loops of `find_stops_along_route` over sample points and result pages, filling `seen`. */
  method SearchAround(samplePoints: seq<Point>, radius: int, stopType: string,
                      nearby: (Point, int, string) -> seq<seq<Place>>)
    returns (keys: seq<string>, seen: map<string, Entry>)
    ensures Seen(keys, seen) == KeepBest(ResultsAround(samplePoints, radius, stopType, nearby))
  {
    keys, seen := [], map[];
    for i := 0 to |samplePoints|
      invariant Seen(keys, seen) == KeepBest(ResultsAround(samplePoints[..i], radius, stopType, nearby))
    {
      ghost var before := Seen(keys, seen);
      var pages := nearby(samplePoints[i], radius, stopType);
      for j := 0 to |pages|
        invariant Seen(keys, seen) == OfferAll(before, Flatten(pages[..j]))
      {
        keys, seen := OfferPage(keys, seen, pages[j]);
        assert pages[..j + 1][..j] == pages[..j];
        OfferAllAppend(before, Flatten(pages[..j]), pages[j]);
      }
      assert pages[..|pages|] == pages;
      assert samplePoints[..i + 1][..i] == samplePoints[..i];
      OfferAllAppend(Seen([], map[]), ResultsAround(samplePoints[..i], radius, stopType, nearby), Flatten(pages));
    }
    assert samplePoints[..|samplePoints|] == samplePoints;
  }
}
