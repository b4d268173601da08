/** The per-ticker analysis (metric extraction, intrinsic value, margin of safety, rating)
    and the batched scan that applies it to a list of tickers. */
module StockAnalyzer {

  import opened Schema
  import Text

  /** Constant growth rate g of the single-stage discount model. */
  const GrowthRate: real := 0.05
  /** Discount rate r of the single-stage discount model. */
  const DiscountRate: real := 0.09
  /** A price below this fraction of intrinsic value is a BUY. */
  const BuyThreshold: real := 0.7

  /** The fields read from the provider's `quote` answer; a field it omits is None. */
  datatype Quote = Quote(regularMarketPrice: Option<real>, marketCap: Option<real>)

  /** The fields read from the provider's `quoteSummary` answer (its financialData,
      defaultKeyStatistics and price modules); a field or module it omits is None. */
  datatype Summary = Summary(
    returnOnEquity: Option<real>,
    returnOnAssets: Option<real>,
    freeCashflow: Option<real>,
    debtToEquity: Option<real>,
    trailingEps: Option<real>,
    marketCap: Option<real>)

  /** What the provider gave for one symbol. In `Fetched`, each call's answer is None when that
      call threw (each is caught on its own); `Threw` stands for an exception raised anywhere
      else in the analysis, which the outer handler turns into the all-null record. */
  datatype Fetch = Fetched(quote: Option<Quote>, summary: Option<Summary>) | Threw

  /** The market-data provider, queried with the upper-cased symbol. */
  type Provider = string -> Fetch

  const NoQuote := Quote(None, None)
  const NoSummary := Summary(None, None, None, None, None, None)

  /** ROIC approximated as the mean of ROE and ROA, or whichever of the two is present. */
  function Roic(roe: Option<real>, roa: Option<real>): (r: Option<real>)
    ensures r.None? <==> roe.None? && roa.None?
    ensures roe.Some? && roa.Some? ==>
              r.value - roe.value == roa.value - r.value
              && (roe.value <= r.value <= roa.value || roa.value <= r.value <= roe.value)
    ensures roe.Some? && roa.None? ==> r == roe
    ensures roe.None? && roa.Some? ==> r == roa
  {
    if roe.Some? && roa.Some? then Some((roe.value + roa.value) / 2.0)
    else if roe.Some? then roe
    else roa
  }

  /** Market capitalisation: the summary's price module first, then the quote. */
  function MarketCap(quote: Quote, summary: Summary): (r: Option<real>)
    ensures summary.marketCap.Some? ==> r == summary.marketCap
    ensures summary.marketCap.None? ==> r == quote.marketCap
  {
    if summary.marketCap.Some? then summary.marketCap else quote.marketCap
  }

  /** Free-cash-flow yield. The truthiness test on the cash flow makes a zero cash flow give null. */
  function FcfYield(fcf: Option<real>, marketCap: Option<real>): (r: Option<real>)
    ensures r.Some? <==> fcf.Some? && fcf.value != 0.0 && marketCap.Some? && marketCap.value > 0.0
    ensures r.Some? ==> r.value * marketCap.value == fcf.value
    ensures r.Some? ==> (r.value > 0.0 <==> fcf.value > 0.0)
  {
    if fcf.Some? && fcf.value != 0.0 && marketCap.Some? && marketCap.value > 0.0
    then Some(fcf.value / marketCap.value)
    else None
  }

  /** The provider reports debt/equity as a percentage; the ratio is that value over 100. */
  function DebtToEquityRatio(raw: Option<real>): (r: Option<real>)
    ensures r.Some? <==> raw.Some?
    ensures r.Some? ==> r.value * 100.0 == raw.value
  {
    if raw.Some? then Some(raw.value / 100.0) else None
  }

  /** Single-stage constant-growth value eps * (1 + g) / (r - g), defined for a positive eps only. */
  function IntrinsicValue(eps: Option<real>): (r: Option<real>)
    ensures r.Some? <==> eps.Some? && eps.value > 0.0
    ensures r.Some? ==> r.value > 0.0
    ensures r.Some? ==> r.value * (DiscountRate - GrowthRate) == eps.value * (1.0 + GrowthRate)
  {
    if eps.Some? && eps.value > 0.0
    then Some(eps.value * (1.0 + GrowthRate) / (DiscountRate - GrowthRate))
    else None
  }

  /** Fraction by which intrinsic value exceeds price. The truthiness test on the price makes
      a zero price give null. */
  function MarginOfSafety(price: Option<real>, intrinsic: Option<real>): (r: Option<real>)
    ensures r.Some? <==>
              price.Some? && price.value != 0.0 && intrinsic.Some? && intrinsic.value > 0.0
    ensures r.Some? ==> r.value * intrinsic.value == intrinsic.value - price.value
    ensures r.Some? && price.value > 0.0 ==> r.value < 1.0
  {
    if intrinsic.Some? && intrinsic.value != 0.0 && price.Some? && price.value != 0.0 && intrinsic.value > 0.0
    then Some((intrinsic.value - price.value) / intrinsic.value)
    else None
  }

  /** The rating policy, with strict `<` at both thresholds. */
  function Classify(price: Option<real>, intrinsic: Option<real>): (r: Rating)
    ensures r == DataIncomplete <==> price.None? || intrinsic.None?
    ensures r == Buy <==>
              price.Some? && intrinsic.Some? && price.value < intrinsic.value * BuyThreshold
    ensures r == Hold <==>
              price.Some? && intrinsic.Some?
              && intrinsic.value * BuyThreshold <= price.value < intrinsic.value
    ensures r == Avoid <==>
              price.Some? && intrinsic.Some?
              && intrinsic.value <= price.value && intrinsic.value * BuyThreshold <= price.value
  {
    if intrinsic.None? || price.None? then DataIncomplete
    else if price.value < intrinsic.value * BuyThreshold then Buy
    else if price.value < intrinsic.value then Hold
    else Avoid
  }

  /** The record returned when the analysis fails as a whole: every metric null. */
  function IncompleteAnalysis(symbol: string): (a: StockAnalysis)
    ensures a.ticker == symbol && a.rating == DataIncomplete && Consistent(a)
    ensures a.price.None? && a.roe.None? && a.roic.None? && a.fcfYield.None?
    ensures a.debtToEquity.None? && a.intrinsicValue.None? && a.marginOfSafety.None?
  {
    StockAnalysis(symbol, None, None, None, None, None, None, None, DataIncomplete)
  }

  /** Assembles the analysis of `symbol` from what the provider gave for it. */
  function Analyze(symbol: string, fetch: Fetch): (a: StockAnalysis)
    ensures a.ticker == symbol
    ensures Consistent(a)
    ensures a.intrinsicValue.Some? ==> a.intrinsicValue.value > 0.0
    ensures a.marginOfSafety.Some? && a.price.value > 0.0 ==> a.marginOfSafety.value < 1.0
    ensures fetch.Threw? ==> a == IncompleteAnalysis(symbol)
  {
    match fetch
    case Threw => IncompleteAnalysis(symbol)
    case Fetched(quote, summary) =>
      var q := if quote.Some? then quote.value else NoQuote;
      var s := if summary.Some? then summary.value else NoSummary;
      var price := q.regularMarketPrice;
      var intrinsic := IntrinsicValue(s.trailingEps);
      StockAnalysis(
        symbol,
        price,
        s.returnOnEquity,
        Roic(s.returnOnEquity, s.returnOnAssets),
        FcfYield(s.freeCashflow, MarketCap(q, s)),
        DebtToEquityRatio(s.debtToEquity),
        intrinsic,
        MarginOfSafety(price, intrinsic),
        Classify(price, intrinsic))
  }

  /** `analyzeTicker`: upper-cases the symbol, queries the provider with it and never fails. */
  function AnalyzeTicker(ticker: string, provider: Provider): (a: StockAnalysis)
    ensures a.ticker == Text.Upper(ticker)
    ensures Consistent(a)
    ensures provider(Text.Upper(ticker)).Threw? ==>
              a.rating == DataIncomplete
              && a.price.None? && a.roe.None? && a.roic.None? && a.fcfYield.None?
              && a.debtToEquity.None? && a.intrinsicValue.None? && a.marginOfSafety.None?
  {
    var symbol := Text.Upper(ticker);
    Analyze(symbol, provider(symbol))
  }

  /** The analyses of all tickers, one per ticker in input order (`Promise.all(tickers.map(analyzeTicker))`). */
  function AnalyzeAll(tickers: seq<string>, provider: Provider): (rs: seq<StockAnalysis>)
    ensures |rs| == |tickers|
    ensures forall k :: 0 <= k < |tickers| ==> rs[k] == AnalyzeTicker(tickers[k], provider)
  {
    seq(|tickers|, k requires 0 <= k < |tickers| => AnalyzeTicker(tickers[k], provider))
  }

  /** The number of consecutive chunks of `size` that cover `n` items. */
  function ChunkCount(n: nat, size: nat): nat
    requires size >= 1
  {
    if n == 0 then 0 else if n <= size then 1 else 1 + ChunkCount(n - size, size)
  }

  /** ChunkCount is ceil(n / size): its chunks cover the items, and the last one is not empty. */
  lemma {:induction false} ChunkCountIsCeiling(n: nat, size: nat)
    requires size >= 1
    ensures n == 0 ==> ChunkCount(n, size) == 0
    ensures n > 0 ==> (ChunkCount(n, size) - 1) * size < n <= ChunkCount(n, size) * size
  {
    if n > size {
      ChunkCountIsCeiling(n - size, size);
      var c := ChunkCount(n - size, size);
      assert (c + 1) * size == c * size + size;
    }
  }

  /** Analysing two lists one after the other is analysing their concatenation. */
  lemma AnalyzeAllConcat(xs: seq<string>, ys: seq<string>, provider: Provider)
    ensures AnalyzeAll(xs + ys, provider) == AnalyzeAll(xs, provider) + AnalyzeAll(ys, provider)
  {
    var l, r := AnalyzeAll(xs + ys, provider), AnalyzeAll(xs, provider) + AnalyzeAll(ys, provider);
    forall k | 0 <= k < |l| ensures l[k] == r[k] {
      if k < |xs| {
        assert (xs + ys)[k] == xs[k];
      } else {
        assert (xs + ys)[k] == ys[k - |xs|];
      }
    }
  }

  /** `analyzeTickersBatch`: analyses consecutive chunks of `batchSize` tickers, appends each
      chunk's results in order and pauses between chunks (counted in `pauses`). The result is
      the unbatched analysis, whatever the batch size; there is a pause after every chunk but
      the last. */
  method AnalyzeTickersBatch(tickers: seq<string>, batchSize: nat, provider: Provider)
    returns (results: seq<StockAnalysis>, pauses: nat)
    requires batchSize >= 1
    ensures results == AnalyzeAll(tickers, provider)
    ensures pauses == if |tickers| == 0 then 0 else ChunkCount(|tickers|, batchSize) - 1
  {
    var n := |tickers|;
    results := [];
    pauses := 0;
    var i := 0;
    while i < n
      invariant results == AnalyzeAll(tickers[..if i < n then i else n], provider)
      invariant n == 0 ==> pauses == 0
      invariant i < n ==> ChunkCount(n, batchSize) == pauses + ChunkCount(n - i, batchSize)
      invariant i >= n > 0 ==> ChunkCount(n, batchSize) == pauses + 1
      decreases n - i
    {
      var end := if i + batchSize < n then i + batchSize else n;
      var batch := tickers[i..end];
      var batchResults := AnalyzeAll(batch, provider);
      AnalyzeAllExtend(tickers, i, end, provider);
      results := results + batchResults;
      if i + batchSize < n {
        pauses := pauses + 1;
        assert ChunkCount(n - i, batchSize) == 1 + ChunkCount(n - (i + batchSize), batchSize);
      }
      i := i + batchSize;
    }
    assert tickers[..n] == tickers;
  }

  /** Analysing a prefix and then the next chunk is analysing the longer prefix. */
  lemma AnalyzeAllExtend(tickers: seq<string>, i: nat, end: nat, provider: Provider)
    requires i <= end <= |tickers|
    ensures AnalyzeAll(tickers[..i], provider) + AnalyzeAll(tickers[i..end], provider)
            == AnalyzeAll(tickers[..end], provider)
  {
    AnalyzeAllConcat(tickers[..i], tickers[i..end], provider);
    assert tickers[..i] + tickers[i..end] == tickers[..end];
  }

  /** eps 2 gives 2 * 1.05 / 0.04 = 52.5. */
  lemma IntrinsicValueOfTwo()
    ensures IntrinsicValue(Some(2.0)) == Some(52.5)
  {
  }

  /** With a positive price the rating is a function of the margin of safety alone:
      BUY above 30 %, HOLD in (0, 30 %], AVOID at or below 0. */
  lemma RatingMatchesMargin(price: real, intrinsic: real)
    requires price > 0.0 && intrinsic > 0.0
    ensures MarginOfSafety(Some(price), Some(intrinsic)).Some?
    ensures var m := MarginOfSafety(Some(price), Some(intrinsic)).value;
            && m < 1.0
            && (Classify(Some(price), Some(intrinsic)) == Buy <==> m > 0.3)
            && (Classify(Some(price), Some(intrinsic)) == Hold <==> 0.0 < m <= 0.3)
            && (Classify(Some(price), Some(intrinsic)) == Avoid <==> m <= 0.0)
  {
    var m := MarginOfSafety(Some(price), Some(intrinsic)).value;
    assert (m - 0.3) * intrinsic == intrinsic * BuyThreshold - price;
    PositiveFactor(m - 0.3, intrinsic);
    assert m > 0.3 <==> price < intrinsic * BuyThreshold;
    PositiveFactor(m, intrinsic);
  }

  /** Multiplying by a positive number keeps the sign. */
  lemma PositiveFactor(x: real, y: real)
    requires y > 0.0
    ensures x > 0.0 <==> x * y > 0.0
  {
    if x > 0.0 {
      assert x * y > 0.0;
    } else {
      assert (0.0 - x) * y >= 0.0;
    }
  }

  /** The boundary cases at intrinsic value 100. */
  lemma RatingBoundaries()
    ensures Classify(Some(69.99), Some(100.0)) == Buy
    ensures Classify(Some(70.0), Some(100.0)) == Hold
    ensures Classify(Some(99.99), Some(100.0)) == Hold
    ensures Classify(Some(100.0), Some(100.0)) == Avoid
    ensures Classify(Some(100.01), Some(100.0)) == Avoid
  {
  }

  /** A price of exactly 0 is rated BUY against any intrinsic value, yet its margin of safety is
      null, because the margin is guarded by the truthiness of the price and the rating is not. */
  lemma ZeroPriceRatedWithoutMargin(intrinsic: real)
    requires intrinsic > 0.0
    ensures Classify(Some(0.0), Some(intrinsic)) == Buy
    ensures MarginOfSafety(Some(0.0), Some(intrinsic)).None?
  {
  }

  /** With both calls answered, the price is the quote's, ROE is the summary's unchanged, and the
      derived metrics are those of the summary's fields. */
  lemma FetchedMetrics(symbol: string, q: Quote, s: Summary)
    ensures var a := Analyze(symbol, Fetched(Some(q), Some(s)));
            && a.price == q.regularMarketPrice
            && a.roe == s.returnOnEquity
            && a.roic == Roic(s.returnOnEquity, s.returnOnAssets)
            && a.fcfYield == FcfYield(s.freeCashflow, MarketCap(q, s))
            && a.debtToEquity == DebtToEquityRatio(s.debtToEquity)
            && a.intrinsicValue == IntrinsicValue(s.trailingEps)
            && a.marginOfSafety == MarginOfSafety(q.regularMarketPrice, IntrinsicValue(s.trailingEps))
            && a.rating == Classify(q.regularMarketPrice, IntrinsicValue(s.trailingEps))
  {
  }

  /** A failed quote call costs the price (so the rating is DATA_INCOMPLETE), and the market cap
      falls back to none; every metric taken from the summary is kept. */
  lemma QuoteFailureKeepsSummaryMetrics(symbol: string, quote: Option<Quote>, summary: Option<Summary>)
    ensures var full := Analyze(symbol, Fetched(quote, summary));
            var lost := Analyze(symbol, Fetched(None, summary));
            && lost.price.None? && lost.marginOfSafety.None? && lost.rating == DataIncomplete
            && lost.roe == full.roe && lost.roic == full.roic
            && lost.debtToEquity == full.debtToEquity && lost.intrinsicValue == full.intrinsicValue
            && (summary.Some? && summary.value.marketCap.Some? ==> lost.fcfYield == full.fcfYield)
  {
  }

  /** A failed summary call nulls every summary metric (so the rating is DATA_INCOMPLETE);
      the price from the quote is kept. */
  lemma SummaryFailureKeepsQuotePrice(symbol: string, quote: Option<Quote>, summary: Option<Summary>)
    ensures var full := Analyze(symbol, Fetched(quote, summary));
            var lost := Analyze(symbol, Fetched(quote, None));
            && lost.price == full.price
            && lost.roe.None? && lost.roic.None? && lost.fcfYield.None? && lost.debtToEquity.None?
            && lost.intrinsicValue.None? && lost.marginOfSafety.None? && lost.rating == DataIncomplete
  {
  }
}
