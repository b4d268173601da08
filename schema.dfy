/** Record shapes shared by the analyzer and the HTTP layer, the static sector table
    and the validation rule for portfolio requests. */
module Schema {

  import Text

  /** A JSON field that may be `null`. */
  datatype Option<T> = None | Some(value: T)

  datatype Result<T, E> = Ok(value: T) | Err(error: E)

  /** The four ratings; no other value can be built. */
  datatype Rating = Buy | Hold | Avoid | DataIncomplete

  /** One analysis per ticker: every metric may be null, the ticker and the rating never are. */
  datatype StockAnalysis = StockAnalysis(
    ticker: string,
    price: Option<real>,
    roe: Option<real>,
    roic: Option<real>,
    fcfYield: Option<real>,
    debtToEquity: Option<real>,
    intrinsicValue: Option<real>,
    marginOfSafety: Option<real>,
    rating: Rating)

  /** The record invariant every analysis satisfies: the rating is DATA_INCOMPLETE exactly
      when price or intrinsic value is missing, and a margin of safety exists only beside both. */
  predicate Consistent(a: StockAnalysis) {
    && (a.rating == DataIncomplete <==> a.price.None? || a.intrinsicValue.None?)
    && (a.marginOfSafety.Some? ==> a.price.Some? && a.intrinsicValue.Some?)
  }

  datatype SectorResult = SectorResult(
    sector: string,
    tickers: seq<string>,
    top5ByMarginOfSafety: seq<StockAnalysis>,
    allResults: seq<StockAnalysis>)

  datatype PortfolioRequest = PortfolioRequest(capital: real, tickers: seq<string>)

  /** One reason a portfolio request body is rejected. */
  datatype RequestIssue = CapitalNotPositive | TooFewTickers | TooManyTickers | EmptyTicker(index: nat)

  const MaxPortfolioTickers: nat := 20

  /** The issues for the empty symbols at positions `from` and later, in position order. */
  function EmptyTickerIssues(tickers: seq<string>, from: nat): (r: seq<RequestIssue>)
    requires from <= |tickers|
    ensures forall k :: 0 <= k < |r| ==>
              r[k].EmptyTicker? && from <= r[k].index < |tickers| && tickers[r[k].index] == ""
    ensures forall i :: from <= i < |tickers| && tickers[i] == "" ==> EmptyTicker(i) in r
    ensures r == [] <==> forall i :: from <= i < |tickers| ==> |tickers[i]| >= 1
    ensures forall k, l :: 0 <= k < l < |r| ==> r[k].index < r[l].index
    decreases |tickers| - from
  {
    if from == |tickers| then []
    else if tickers[from] == "" then [EmptyTicker(from)] + EmptyTickerIssues(tickers, from + 1)
    else EmptyTickerIssues(tickers, from + 1)
  }

  /** The issues of the rules on the capital and on the number of symbols, in that order. */
  function RuleIssues(capital: real, count: nat): (r: seq<RequestIssue>)
    ensures forall x :: x in r ==> !x.EmptyTicker?
    ensures CapitalNotPositive in r <==> capital <= 0.0
    ensures TooFewTickers in r <==> count == 0
    ensures TooManyTickers in r <==> count > MaxPortfolioTickers
    ensures r == [] <==> capital > 0.0 && 1 <= count <= MaxPortfolioTickers
    ensures NoDuplicates(r)
  {
    var c := if capital > 0.0 then [] else [CapitalNotPositive];
    var n := if count < 1 then [TooFewTickers] else if count > MaxPortfolioTickers then [TooManyTickers] else [];
    c + n
  }

  /** Rule issues without repeats followed by empty-symbol issues in increasing position order
      hold no issue twice. */
  lemma AppendEmptyTickerIssues(rules: seq<RequestIssue>, empties: seq<RequestIssue>)
    requires NoDuplicates(rules) && forall x :: x in rules ==> !x.EmptyTicker?
    requires forall k :: 0 <= k < |empties| ==> empties[k].EmptyTicker?
    requires forall k, l :: 0 <= k < l < |empties| ==> empties[k].index < empties[l].index
    ensures NoDuplicates(rules + empties)
  {
    var s := rules + empties;
    forall i, j | 0 <= i < j < |s| ensures s[i] != s[j] {
      if j < |rules| {
        assert s[i] == rules[i] && s[j] == rules[j];
      } else if i < |rules| {
        assert s[i] == rules[i] && s[j] == empties[j - |rules|];
      } else {
        assert s[i] == empties[i - |rules|] && s[j] == empties[j - |rules|];
      }
    }
  }

  /** `portfolioRequestSchema`: capital strictly positive, 1 to 20 symbols, none empty.
      A rejected body carries one issue per violated rule, each once. */
  function ValidatePortfolioRequest(capital: real, tickers: seq<string>): (r: Result<PortfolioRequest, seq<RequestIssue>>)
    ensures r.Ok? <==>
              capital > 0.0 && 1 <= |tickers| <= MaxPortfolioTickers
              && forall i :: 0 <= i < |tickers| ==> |tickers[i]| >= 1
    ensures r.Ok? ==> r.value == PortfolioRequest(capital, tickers)
    ensures r.Err? ==> r.error != []
    ensures r.Err? ==> (CapitalNotPositive in r.error <==> capital <= 0.0)
    ensures r.Err? ==> (TooFewTickers in r.error <==> |tickers| == 0)
    ensures r.Err? ==> (TooManyTickers in r.error <==> |tickers| > MaxPortfolioTickers)
    ensures r.Err? ==> forall i :: 0 <= i < |tickers| ==> (EmptyTicker(i) in r.error <==> tickers[i] == "")
    ensures r.Err? ==> forall x :: x in r.error && x.EmptyTicker? ==> x.index < |tickers|
    ensures r.Err? ==> NoDuplicates(r.error)
  {
    var rules := RuleIssues(capital, |tickers|);
    var empties := EmptyTickerIssues(tickers, 0);
    AppendEmptyTickerIssues(rules, empties);
    var issues := rules + empties;
    if issues == [] then Ok(PortfolioRequest(capital, tickers)) else Err(issues)
  }

  /** `PortfolioAllocation`: `weight` is the only optional field and `price` is a plain number. */
  datatype PortfolioAllocation = PortfolioAllocation(
    ticker: string,
    rating: Rating,
    price: real,
    weight: Option<real>,
    allocatedCash: real,
    shares: int)

  datatype PortfolioResult = PortfolioResult(
    strategy: string,
    totalCapital: real,
    allocations: seq<PortfolioAllocation>)

  /** `SECTOR_TICKERS`, with its keys in declaration order (the order `Object.keys` reports). */
  const SectorTickers: seq<(string, seq<string>)> := [
    ("tech", Tech), ("energy", Energy), ("finance", Finance),
    ("consumer", Consumer), ("healthcare", Healthcare)
  ]

  const Tech: seq<string> := ["AAPL", "MSFT", "NVDA", "GOOGL", "META", "ADBE", "ORCL", "AMD", "CRM", "AVGO"]
  const Energy: seq<string> := ["XOM", "CVX", "COP", "EOG", "SLB", "MPC", "PSX"]
  const Finance: seq<string> := ["JPM", "BAC", "WFC", "GS", "MS", "BLK", "SCHW"]
  const Consumer: seq<string> := ["PG", "KO", "PEP", "MCD", "COST", "WMT", "DIS"]
  const Healthcare: seq<string> := ["JNJ", "UNH", "PFE", "ABBV", "MRK", "LLY", "TMO"]

  /** `Object.keys(SECTOR_TICKERS)`. */
  function SectorKeys(): (keys: seq<string>)
    ensures |keys| == |SectorTickers|
    ensures forall i :: 0 <= i < |keys| ==> keys[i] == SectorTickers[i].0
  {
    seq(|SectorTickers|, i requires 0 <= i < |SectorTickers| => SectorTickers[i].0)
  }

  /** The ticker list stored under a key of the table, looked up among its own keys only. */
  function LookupSector(key: string): (r: Option<seq<string>>)
    ensures r.Some? <==> key in SectorKeys()
    ensures r.Some? ==> exists i :: 0 <= i < |SectorTickers| && SectorTickers[i] == (key, r.value)
  {
    LookupFrom(key, 0)
  }

  function LookupFrom(key: string, from: nat): (r: Option<seq<string>>)
    requires from <= |SectorTickers|
    ensures r.Some? <==> key in SectorKeys()[from..]
    ensures r.Some? ==> exists i :: from <= i < |SectorTickers| && SectorTickers[i] == (key, r.value)
    decreases |SectorTickers| - from
  {
    if from == |SectorTickers| then None
    else if SectorTickers[from].0 == key then
      assert SectorKeys()[from..][0] == key;
      Some(SectorTickers[from].1)
    else
      assert SectorKeys()[from..] == [SectorTickers[from].0] + SectorKeys()[from + 1..];
      LookupFrom(key, from + 1)
  }

  /** Scanning from `from`, a key that no earlier entry carries finds its own list. */
  lemma {:induction false} LookupFromFinds(i: nat, from: nat)
    requires from <= i < |SectorTickers|
    requires forall j :: from <= j < i ==> SectorTickers[j].0 != SectorTickers[i].0
    ensures LookupFrom(SectorTickers[i].0, from) == Some(SectorTickers[i].1)
    decreases i - from
  {
    if from < i {
      LookupFromFinds(i, from + 1);
    }
  }

  /** Each key of the table finds its own list (the keys are distinct). */
  lemma LookupEachKey()
    ensures forall i :: 0 <= i < |SectorTickers| ==> LookupSector(SectorTickers[i].0) == Some(SectorTickers[i].1)
  {
    forall i | 0 <= i < |SectorTickers|
      ensures LookupSector(SectorTickers[i].0) == Some(SectorTickers[i].1)
    {
      assert forall j :: 0 <= j < i ==> SectorTickers[j].0 != SectorTickers[i].0;
      LookupFromFinds(i, 0);
    }
  }

  /** The concatenation of all sector lists in key order (`Object.values(SECTOR_TICKERS).flat()`). */
  function AllSectorTickers(): seq<string> {
    FlattenEntries(SectorTickers)
  }

  function FlattenEntries(table: seq<(string, seq<string>)>): seq<string>
  {
    if table == [] then [] else table[0].1 + FlattenEntries(table[1..])
  }

  predicate NoDuplicates<T(==)>(s: seq<T>) {
    forall i, j :: 0 <= i < j < |s| ==> s[i] != s[j]
  }

  /** The table has exactly the five lower-case keys, with lists of 10, 7, 7, 7 and 7 symbols. */
  lemma SectorTableShape()
    ensures SectorKeys() == ["tech", "energy", "finance", "consumer", "healthcare"]
    ensures forall i :: 0 <= i < |SectorTickers| ==> Text.HasNoUpperAscii(SectorTickers[i].0)
    ensures [|SectorTickers[0].1|, |SectorTickers[1].1|, |SectorTickers[2].1|,
             |SectorTickers[3].1|, |SectorTickers[4].1|] == [10, 7, 7, 7, 7]
  {
  }

  /** Sector key i has no capital letter. */
  lemma KeyHasNoCapitals(i: nat)
    requires i < |SectorTickers|
    ensures Text.HasNoUpperAscii(SectorTickers[i].0)
  {
    SectorTableShape();
  }

  predicate Disjoint(a: seq<string>, b: seq<string>) {
    forall i, j :: 0 <= i < |a| && 0 <= j < |b| ==> a[i] != b[j]
  }

  lemma NoDuplicatesConcat(a: seq<string>, b: seq<string>)
    requires NoDuplicates(a) && NoDuplicates(b) && Disjoint(a, b)
    ensures NoDuplicates(a + b)
  {
    forall i, j | 0 <= i < j < |a + b| ensures (a + b)[i] != (a + b)[j] {
      if j < |a| {
      } else if i < |a| {
        assert (a + b)[j] == b[j - |a|];
      } else {
        assert (a + b)[i] == b[i - |a|] && (a + b)[j] == b[j - |a|];
      }
    }
  }

  lemma DisjointConcat(a: seq<string>, b: seq<string>, c: seq<string>)
    requires Disjoint(a, b) && Disjoint(a, c)
    ensures Disjoint(a, b + c)
  {
    forall i, j | 0 <= i < |a| && 0 <= j < |b + c| ensures a[i] != (b + c)[j] {
      if j >= |b| {
        assert (b + c)[j] == c[j - |b|];
      }
    }
  }

  lemma AllSectorTickersUnfold()
    ensures AllSectorTickers() == Tech + (Energy + (Finance + (Consumer + Healthcare)))
  {
    var tb := SectorTickers;
    assert FlattenEntries(tb[5..]) == [];
    assert FlattenEntries(tb[4..]) == Healthcare + FlattenEntries(tb[5..]);
    assert FlattenEntries(tb[3..]) == Consumer + FlattenEntries(tb[4..]);
    assert FlattenEntries(tb[2..]) == Finance + FlattenEntries(tb[3..]);
    assert FlattenEntries(tb[1..]) == Energy + FlattenEntries(tb[2..]);
    assert FlattenEntries(tb) == Tech + FlattenEntries(tb[1..]);
  }

  lemma SectorListsDistinctWithin()
    ensures NoDuplicates(Tech) && NoDuplicates(Energy) && NoDuplicates(Finance)
    ensures NoDuplicates(Consumer) && NoDuplicates(Healthcare)
  {
  }

  lemma SectorListsDisjointFromTech()
    ensures Disjoint(Tech, Energy) && Disjoint(Tech, Finance)
    ensures Disjoint(Tech, Consumer) && Disjoint(Tech, Healthcare)
  {
  }

  lemma SectorListsDisjointOthers()
    ensures Disjoint(Energy, Finance) && Disjoint(Energy, Consumer) && Disjoint(Energy, Healthcare)
    ensures Disjoint(Finance, Consumer) && Disjoint(Finance, Healthcare) && Disjoint(Consumer, Healthcare)
  {
  }

  /** No symbol appears twice, within one sector list or across two. */
  lemma {:induction false} SectorTickersDistinct()
    ensures |AllSectorTickers()| == 38
    ensures NoDuplicates(AllSectorTickers())
  {
    var t, e, f, c, h := Tech, Energy, Finance, Consumer, Healthcare;
    AllSectorTickersUnfold();
    SectorListsDistinctWithin();
    SectorListsDisjointFromTech();
    SectorListsDisjointOthers();
    NoDuplicatesConcat(c, h);
    DisjointConcat(f, c, h);
    NoDuplicatesConcat(f, c + h);
    DisjointConcat(e, c, h);
    DisjointConcat(e, f, c + h);
    NoDuplicatesConcat(e, f + (c + h));
    DisjointConcat(t, c, h);
    DisjointConcat(t, f, c + h);
    DisjointConcat(t, e, f + (c + h));
    NoDuplicatesConcat(t, e + (f + (c + h)));
  }
}
