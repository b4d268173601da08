/** Ordering, slicing, counting and de-duplication of analysis lists, as the sector and
    scan-all handlers do it. */
module Ranking {

  import opened Schema

  /** The value a null margin of safety takes when results are compared. */
  const MissingMargin: real := -999.0

  /** The sort key: the margin of safety, or -999 when it is null. */
  function SortKey(a: StockAnalysis): (k: real)
    ensures a.marginOfSafety.Some? ==> k == a.marginOfSafety.value
    ensures a.marginOfSafety.None? ==> k == MissingMargin
  {
    if a.marginOfSafety.Some? then a.marginOfSafety.value else MissingMargin
  }

  /** Non-increasing by sort key (highest margin of safety first). */
  predicate SortedByMargin(s: seq<StockAnalysis>) {
    forall i, j :: 0 <= i < j < |s| ==> SortKey(s[i]) >= SortKey(s[j])
  }

  /** Places `x` in front of the first element whose key does not exceed its own. */
  function Insert(x: StockAnalysis, s: seq<StockAnalysis>): (r: seq<StockAnalysis>)
    requires SortedByMargin(s)
    ensures SortedByMargin(r)
    ensures multiset(r) == multiset(s) + multiset{x}
    ensures |r| == |s| + 1
    ensures r[0] == x || (s != [] && r[0] == s[0])
  {
    if s == [] || SortKey(s[0]) <= SortKey(x) then [x] + s
    else
      var rest := Insert(x, s[1..]);
      InsertBehindHead(x, s, rest);
      [s[0]] + rest
  }

  /** The recursive case of `Insert`: the head stays in front of the tail with `x` inserted. */
  lemma InsertBehindHead(x: StockAnalysis, s: seq<StockAnalysis>, rest: seq<StockAnalysis>)
    requires SortedByMargin(s) && s != [] && SortKey(x) < SortKey(s[0])
    requires SortedByMargin(rest) && multiset(rest) == multiset(s[1..]) + multiset{x}
    requires |rest| == |s| && (rest[0] == x || (|s| > 1 && rest[0] == s[1]))
    ensures SortedByMargin([s[0]] + rest)
    ensures multiset([s[0]] + rest) == multiset(s) + multiset{x}
  {
    assert s == [s[0]] + s[1..];
    SortedCons(s[0], rest);
  }

  /** A head whose key is no smaller than the first key of a sorted tail keeps the list sorted. */
  lemma SortedCons(h: StockAnalysis, t: seq<StockAnalysis>)
    requires SortedByMargin(t)
    requires t != [] ==> SortKey(t[0]) <= SortKey(h)
    ensures SortedByMargin([h] + t)
  {
    assert forall j :: 0 <= j < |t| ==> SortKey(t[j]) <= SortKey(h) by {
      if t != [] {
        assert forall j :: 0 <= j < |t| ==> SortKey(t[j]) <= SortKey(t[0]);
      }
    }
  }

  /** `[...results].sort((a, b) => bVal - aVal)`: the results reordered by descending margin of
      safety, null margins read as -999. */
  function SortByMargin(s: seq<StockAnalysis>): (r: seq<StockAnalysis>)
    ensures SortedByMargin(r)
    ensures multiset(r) == multiset(s)
    ensures |r| == |s|
  {
    if s == [] then []
    else
      assert s == [s[0]] + s[1..];
      Insert(s[0], SortByMargin(s[1..]))
  }

  /** The records whose sort key is `v`, in their order in `s`. */
  function WithKey(s: seq<StockAnalysis>, v: real): (r: seq<StockAnalysis>)
    ensures forall i :: 0 <= i < |r| ==> SortKey(r[i]) == v
  {
    if s == [] then []
    else if SortKey(s[0]) == v then [s[0]] + WithKey(s[1..], v)
    else WithKey(s[1..], v)
  }

  /** Inserting `x` puts it ahead of every record with the same key and keeps their order. */
  lemma {:induction false} InsertWithKey(x: StockAnalysis, s: seq<StockAnalysis>, v: real)
    requires SortedByMargin(s)
    ensures WithKey(Insert(x, s), v) == if SortKey(x) == v then [x] + WithKey(s, v) else WithKey(s, v)
  {
    if s == [] || SortKey(s[0]) <= SortKey(x) {
      assert ([x] + s)[1..] == s;
    } else {
      var rest := Insert(x, s[1..]);
      InsertWithKey(x, s[1..], v);
      assert Insert(x, s) == [s[0]] + rest;
      assert ([s[0]] + rest)[1..] == rest;
    }
  }

  /** The sort is stable: for every key, the records with that key appear in the output in the
      order they had in the input. With sortedness and the permutation this fixes the output. */
  lemma {:induction false} SortByMarginStable(s: seq<StockAnalysis>, v: real)
    ensures WithKey(SortByMargin(s), v) == WithKey(s, v)
  {
    if s != [] {
      SortByMarginStable(s[1..], v);
      InsertWithKey(s[0], SortByMargin(s[1..]), v);
    }
  }

  function Min(a: nat, b: nat): nat { if a <= b then a else b }

  /** `sorted.slice(0, k)`: the first min(k, n) elements. */
  function TopK(s: seq<StockAnalysis>, k: nat): (r: seq<StockAnalysis>)
    ensures |r| == Min(k, |s|)
    ensures r <= s
  {
    s[..Min(k, |s|)]
  }

  /** Taken from a sorted list, the top k have keys no smaller than any element left out. */
  lemma TopKHoldsLargestMargins(s: seq<StockAnalysis>, k: nat)
    requires SortedByMargin(s)
    ensures SortedByMargin(TopK(s, k))
    ensures forall i, j :: 0 <= i < |TopK(s, k)| <= j < |s| ==> SortKey(TopK(s, k)[i]) >= SortKey(s[j])
  {
  }

  /** `results.filter(s => s.Rating === g)`. */
  function WithRating(rs: seq<StockAnalysis>, g: Rating): (r: seq<StockAnalysis>)
    ensures |r| <= |rs|
    ensures forall i :: 0 <= i < |r| ==> r[i].rating == g && r[i] in rs
    ensures forall i :: 0 <= i < |rs| && rs[i].rating == g ==> rs[i] in r
  {
    if rs == [] then []
    else if rs[0].rating == g then [rs[0]] + WithRating(rs[1..], g)
    else WithRating(rs[1..], g)
  }

  /** The filter keeps every result with the rating as often as it occurs, and no other. */
  lemma {:induction false} WithRatingMultiplicity(rs: seq<StockAnalysis>, g: Rating, x: StockAnalysis)
    ensures multiset(WithRating(rs, g))[x] == if x.rating == g then multiset(rs)[x] else 0
  {
    if rs != [] {
      var t := WithRating(rs[1..], g);
      WithRatingMultiplicity(rs[1..], g, x);
      assert rs == [rs[0]] + rs[1..];
      assert multiset(rs) == multiset{rs[0]} + multiset(rs[1..]);
      if rs[0].rating == g {
        assert WithRating(rs, g) == [rs[0]] + t;
        assert multiset([rs[0]] + t) == multiset{rs[0]} + multiset(t);
      } else {
        assert WithRating(rs, g) == t;
      }
    }
  }

  datatype RatingSummary = RatingSummary(buy: nat, hold: nat, avoid: nat, incomplete: nat)

  /** Each result has exactly one of the four ratings, so the four filters split the list. */
  lemma {:induction false} RatingsPartition(rs: seq<StockAnalysis>)
    ensures |WithRating(rs, Buy)| + |WithRating(rs, Hold)| + |WithRating(rs, Avoid)|
            + |WithRating(rs, DataIncomplete)| == |rs|
  {
    if rs != [] {
      RatingsPartition(rs[1..]);
      WithRatingStep(rs, Buy);
      WithRatingStep(rs, Hold);
      WithRatingStep(rs, Avoid);
      WithRatingStep(rs, DataIncomplete);
    }
  }

  /** The filter keeps the head exactly when it has the rating. */
  lemma WithRatingStep(rs: seq<StockAnalysis>, g: Rating)
    requires rs != []
    ensures |WithRating(rs, g)| == |WithRating(rs[1..], g)| + if rs[0].rating == g then 1 else 0
  {
  }

  /** The `summary` object of scan-all: one count per rating, adding up to the number of results. */
  function Summarize(rs: seq<StockAnalysis>): (s: RatingSummary)
    ensures s.buy + s.hold + s.avoid + s.incomplete == |rs|
    ensures s.buy == |WithRating(rs, Buy)| && s.hold == |WithRating(rs, Hold)|
    ensures s.avoid == |WithRating(rs, Avoid)| && s.incomplete == |WithRating(rs, DataIncomplete)|
  {
    RatingsPartition(rs);
    RatingSummary(
      |WithRating(rs, Buy)|, |WithRating(rs, Hold)|,
      |WithRating(rs, Avoid)|, |WithRating(rs, DataIncomplete)|)
  }

  /** The position of the first occurrence of `x` in `s`. */
  function FirstIndex(s: seq<string>, x: string): (i: nat)
    requires x in s
    ensures i < |s| && s[i] == x
    ensures forall j :: 0 <= j < i ==> s[j] != x
  {
    if s[0] == x then 0 else 1 + FirstIndex(s[1..], x)
  }

  /** `Array.from(new Set(s))`: each distinct element once, in order of first occurrence. */
  function Dedupe(s: seq<string>): (r: seq<string>)
    ensures NoDuplicates(r)
    ensures forall x :: x in r <==> x in s
    ensures |r| <= |s|
  {
    if s == [] then []
    else
      var p := s[..|s| - 1];
      var d := Dedupe(p);
      assert s == p + [s[|s| - 1]];
      if s[|s| - 1] in d then d else d + [s[|s| - 1]]
  }

  lemma {:induction false} FirstIndexInExtension(p: seq<string>, x: string, y: string)
    requires y in p
    ensures FirstIndex(p + [x], y) == FirstIndex(p, y)
  {
    if p[0] != y {
      assert (p + [x])[1..] == p[1..] + [x];
      FirstIndexInExtension(p[1..], x, y);
    }
  }

  /** The de-duplicated list keeps the order in which elements first occur. */
  lemma {:induction false} DedupeKeepsFirstOccurrenceOrder(s: seq<string>)
    ensures forall i, j :: 0 <= i < j < |Dedupe(s)| ==>
              FirstIndex(s, Dedupe(s)[i]) < FirstIndex(s, Dedupe(s)[j])
  {
    if s != [] {
      var p, x := s[..|s| - 1], s[|s| - 1];
      assert s == p + [x];
      DedupeKeepsFirstOccurrenceOrder(p);
      var d := Dedupe(p);
      forall i | 0 <= i < |d| ensures FirstIndex(s, d[i]) == FirstIndex(p, d[i]) {
        FirstIndexInExtension(p, x, d[i]);
      }
      if x !in d {
        assert FirstIndex(s, x) == |p|;
      }
    }
  }

  /** A list without repeated elements is its own de-duplication. */
  lemma {:induction false} DedupeOfDistinct(s: seq<string>)
    requires NoDuplicates(s)
    ensures Dedupe(s) == s
  {
    if s != [] {
      var p := s[..|s| - 1];
      assert NoDuplicates(p);
      DedupeOfDistinct(p);
      assert s[|s| - 1] !in p;
      assert s == p + [s[|s| - 1]];
    }
  }
}
