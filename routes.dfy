/** The request handlers of the HTTP layer, as compositions of the analyzer, the ranking
    helpers and the allocator. Status codes become the `Ok`/`Err` of a `Result`. */
module Routes {

  import opened Schema
  import Text
  import opened StockAnalyzer
  import opened Ranking
  import Portfolio

  /** The longest symbol the single-ticker scan accepts. */
  const MaxTickerLength: nat := 10

  /** The 400 answers of the handlers. */
  datatype RouteError =
    | InvalidTicker
    | UnknownSector(sector: string, availableSectors: seq<string>)
    | InvalidRequest(issues: seq<RequestIssue>)

  /** `GET /api/scan/:ticker`: an empty symbol or one longer than 10 UTF-16 code units is refused;
      any other is analysed (upper-cased, so the reported symbol has the same length). */
  function ScanTicker(ticker: string, provider: Provider): (r: Result<StockAnalysis, RouteError>)
    ensures r.Err? <==> |ticker| == 0 || Text.Utf16Length(ticker) > MaxTickerLength
    ensures r.Err? ==> r.error == InvalidTicker
    ensures r.Ok? ==> r.value == AnalyzeTicker(ticker, provider)
    ensures r.Ok? ==> 1 <= |r.value.ticker| <= MaxTickerLength && Consistent(r.value)
  {
    if |ticker| == 0 || Text.Utf16Length(ticker) > MaxTickerLength then Err(InvalidTicker)
    else Ok(AnalyzeTicker(ticker, provider))
  }

  /** Six characters above the Basic Multilingual Plane are twelve code units, so they are refused. */
  lemma AstralTickerRejected(provider: Provider)
    ensures ScanTicker("\U{1D400}\U{1D400}\U{1D400}\U{1D400}\U{1D400}\U{1D400}", provider).Err?
  {
    var t := "\U{1D400}\U{1D400}\U{1D400}\U{1D400}\U{1D400}\U{1D400}";
    assert forall i :: 0 <= i < |t| ==> t[i] as int >= Text.FirstAstral;
  }

  /** `GET /api/sector/:sectorName`: the name is lower-cased and looked up among the table's own
      keys; a known sector's tickers are analysed in chunks of 5 and reported in descending order
      of margin of safety, with the first five repeated as the top five. */
  method ScanSector(sectorName: string, provider: Provider) returns (r: Result<SectorResult, RouteError>)
    ensures r.Err? <==> Text.Lower(sectorName) !in SectorKeys()
    ensures r.Err? ==> r.error == UnknownSector(sectorName, SectorKeys())
    ensures r.Ok? ==> r.value.sector == Text.Lower(sectorName)
    ensures r.Ok? ==> LookupSector(r.value.sector) == Some(r.value.tickers)
    ensures r.Ok? ==> SortedByMargin(r.value.allResults)
    ensures r.Ok? ==> multiset(r.value.allResults) == multiset(AnalyzeAll(r.value.tickers, provider))
    ensures r.Ok? ==> r.value.allResults == SortByMargin(AnalyzeAll(r.value.tickers, provider))
    ensures r.Ok? ==> r.value.top5ByMarginOfSafety == TopK(r.value.allResults, 5)
  {
    var key := Text.Lower(sectorName);
    var entry := LookupSector(key);
    if entry.None? {
      return Err(UnknownSector(sectorName, SectorKeys()));
    }
    var tickers := entry.value;
    var results, _ := AnalyzeTickersBatch(tickers, 5, provider);
    var sorted := SortByMargin(results);
    return Ok(SectorResult(key, tickers, TopK(sorted, 5), sorted));
  }

  /** The names every object inherits from `Object.prototype`, which the `in` operator also finds. */
  const ObjectPrototypeNames: seq<string> := [
    "constructor", "__defineGetter__", "__defineSetter__", "hasOwnProperty",
    "__lookupGetter__", "__lookupSetter__", "isPrototypeOf", "propertyIsEnumerable",
    "toString", "valueOf", "__proto__", "toLocaleString"]

  /** The sector guard as written, `key in SECTOR_TICKERS`: an own key of the table, or a name the
      table inherits. */
  function SectorGuardAsWritten(key: string): (admitted: bool)
    ensures LookupSector(key).Some? ==> admitted
    ensures admitted && LookupSector(key).None? ==> key in ObjectPrototypeNames
  {
    key in SectorKeys() || key in ObjectPrototypeNames
  }

  /** Ten of the inherited names contain a capital letter. */
  lemma InheritedNamesWithoutCapitals()
    ensures forall p :: p in ObjectPrototypeNames && Text.HasNoUpperAscii(p) ==>
              p == "constructor" || p == "__proto__"
  {
    assert Text.IsUpperAscii("__defineGetter__"[8]);
    assert Text.IsUpperAscii("__defineSetter__"[8]);
    assert Text.IsUpperAscii("hasOwnProperty"[3]);
    assert Text.IsUpperAscii("__lookupGetter__"[8]);
    assert Text.IsUpperAscii("__lookupSetter__"[8]);
    assert Text.IsUpperAscii("isPrototypeOf"[2]);
    assert Text.IsUpperAscii("propertyIsEnumerable"[8]);
    assert Text.IsUpperAscii("toString"[2]);
    assert Text.IsUpperAscii("valueOf"[5]);
    assert Text.IsUpperAscii("toLocaleString"[2]);
  }

  /** A lower-cased name passes the guard as written exactly when it is a sector or one of the
      two inherited names without capitals, `constructor` and `__proto__`. */
  lemma SectorGuardOnLowerCased(name: string)
    ensures SectorGuardAsWritten(Text.Lower(name)) <==>
              Text.Lower(name) in SectorKeys() || Text.Lower(name) in ["constructor", "__proto__"]
  {
    InheritedNamesWithoutCapitals();
    assert Text.HasNoUpperAscii(Text.Lower(name));
  }

  /** The guard as written lets `/api/sector/Constructor` past the 400 branch although the table
      holds no ticker list under that key (the source then fails with 500 when it slices the
      `Object` function); the modelled handler answers it with 400. */
  lemma SectorGuardAdmitsInheritedKey()
    ensures SectorGuardAsWritten(Text.Lower("Constructor"))
    ensures LookupSector(Text.Lower("Constructor")).None?
  {
    var key := Text.Lower("Constructor");
    assert key == "constructor";
    SectorTableShape();
  }

  /** The body of `GET /api/sectors`. */
  datatype SectorsOverview = SectorsOverview(sectors: seq<string>, tickerCounts: seq<(string, nat)>)

  /** `GET /api/sectors`: the keys in table order, each paired with the length of its list. */
  function ListSectors(): (r: SectorsOverview)
    ensures r.sectors == SectorKeys()
    ensures |r.tickerCounts| == |r.sectors| == |SectorTickers|
    ensures forall i :: 0 <= i < |r.tickerCounts| ==>
              r.tickerCounts[i].0 == r.sectors[i] && r.tickerCounts[i].1 == |SectorTickers[i].1|
  {
    var counts := seq(|SectorTickers|, i requires 0 <= i < |SectorTickers| =>
                        (SectorTickers[i].0, |SectorTickers[i].1|));
    SectorsOverview(SectorKeys(), counts)
  }

  /** Every listed sector is one the sector scan accepts, and its count is the length of the
      list that scan would analyse. */
  lemma ListedCountsMatchLookup()
    ensures forall i :: 0 <= i < |ListSectors().sectors| ==>
              LookupSector(ListSectors().sectors[i]).Some?
              && ListSectors().tickerCounts[i].1 == |LookupSector(ListSectors().sectors[i]).value|
  {
    LookupEachKey();
  }

  /** Every sector the overview lists is its own lower-case form and is found by the lookup, so
      requesting it by the listed name never takes the 400 branch. */
  lemma ListedSectorsReachable()
    ensures forall k :: k in ListSectors().sectors ==> Text.Lower(k) == k && LookupSector(Text.Lower(k)).Some?
  {
    var keys := ListSectors().sectors;
    forall k | k in keys
      ensures Text.Lower(k) == k && LookupSector(k).Some?
    {
      var i :| 0 <= i < |keys| && keys[i] == k;
      assert k == SectorTickers[i].0;
      KeyHasNoCapitals(i);
      Text.LowerOfLowercase(k);
      LookupEachKey();
    }
  }


  /** The overview lists the five sectors with 10, 7, 7, 7 and 7 symbols. */
  lemma SectorsOverviewContents()
    ensures ListSectors().tickerCounts ==
              [("tech", 10), ("energy", 7), ("finance", 7), ("consumer", 7), ("healthcare", 7)]
  {
    SectorTableShape();
  }

  /** `Array.from(new Set(Object.values(SECTOR_TICKERS).flat()))`. */
  function AllTickers(): (r: seq<string>)
    ensures NoDuplicates(r)
    ensures forall t :: t in r <==> t in AllSectorTickers()
  {
    Dedupe(AllSectorTickers())
  }

  /** No symbol is listed under two sectors, so de-duplication changes nothing: scan-all covers
      the 38 table symbols in table order. */
  lemma AllTickersAreTheTable()
    ensures AllTickers() == AllSectorTickers()
    ensures |AllTickers()| == 38
  {
    SectorTickersDistinct();
    DedupeOfDistinct(AllSectorTickers());
  }

  /** The body of `GET /api/scan-all`. */
  datatype ScanAllResult = ScanAllResult(
    totalStocks: nat,
    summary: RatingSummary,
    top10ByMarginOfSafety: seq<StockAnalysis>,
    allResults: seq<StockAnalysis>)

  /** `GET /api/scan-all`: every distinct table symbol analysed in chunks of 10, sorted by
      descending margin of safety, counted per rating, and the first ten repeated. */
  method ScanAll(provider: Provider) returns (r: ScanAllResult)
    ensures r.totalStocks == |AllTickers()| == 38
    ensures SortedByMargin(r.allResults)
    ensures multiset(r.allResults) == multiset(AnalyzeAll(AllTickers(), provider))
    ensures r.allResults == SortByMargin(AnalyzeAll(AllTickers(), provider))
    ensures r.summary == Summarize(r.allResults)
    ensures r.summary.buy + r.summary.hold + r.summary.avoid + r.summary.incomplete == r.totalStocks
    ensures r.top10ByMarginOfSafety == TopK(r.allResults, 10)
  {
    var tickers := AllTickers();
    assert |tickers| == 38 by {
      AllTickersAreTheTable();
    }
    var results, _ := AnalyzeTickersBatch(tickers, 10, provider);
    var sorted := SortByMargin(results);
    r := ScanAllResult(|tickers|, Summarize(sorted), TopK(sorted, 10), sorted);
  }

  /** `POST /api/portfolio`: a body the schema refuses gets its issues back; a valid one has each
      symbol analysed (all at once, in request order) and the capital allocated over them. */
  function BuildPortfolio(capital: real, tickers: seq<string>, provider: Provider)
    : (r: Result<PortfolioResult, RouteError>)
    ensures r.Err? <==> ValidatePortfolioRequest(capital, tickers).Err?
    ensures r.Err? ==> r.error == InvalidRequest(ValidatePortfolioRequest(capital, tickers).error)
    ensures r.Ok? ==> r.value == Portfolio.Allocate(capital, AnalyzeAll(tickers, provider))
    ensures r.Ok? ==> r.value.totalCapital == capital && |r.value.allocations| == |tickers|
    ensures r.Ok? ==> forall i :: 0 <= i < |tickers| ==> r.value.allocations[i].ticker == Text.Upper(tickers[i])
  {
    var v := ValidatePortfolioRequest(capital, tickers);
    if v.Err? then Err(InvalidRequest(v.error))
    else
      var analyses := AnalyzeAll(tickers, provider);
      var p := Portfolio.Allocate(capital, analyses);
      Portfolio.AllocationTickers(capital, analyses);
      Ok(p)
  }
}
