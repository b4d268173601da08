# BuffettMode analysis engine in Dafny

This project models the core of the BuffettMode value-investing screener. That core is the
decision logic between the market-data provider and the HTTP layer:

- **Per-ticker analysis** (`StockAnalyzer`). It reads the fields the provider returns and derives:
  - price, ROE and ROIC;
  - free-cash-flow yield and debt/equity;
  - an intrinsic value from a single-stage constant-growth discount model (g = 0.05, r = 0.09);
  - the margin of safety;
  - one of four ratings: BUY, HOLD, AVOID or DATA_INCOMPLETE.
- **Batched scan** (`StockAnalyzer.AnalyzeTickersBatch`). It analyses tickers in consecutive chunks, with a pause between chunks.
- **Request handlers** (`Routes`), built from the pieces in `Ranking`:
  - the single-ticker check;
  - the sector lookup;
  - the descending sort by margin of safety, with null read as -999;
  - top-k slicing;
  - scan-all de-duplication;
  - per-rating summary counts;
  - the sector overview.
- **Portfolio allocator** (`Portfolio`). Its scores are the positive margins of safety. It allocates equally when the total score is 0, and by weight otherwise, with cents and thousandths rounding and whole shares.
- **Shared schema** (`Schema`): the record shapes, the static sector table and the portfolio request rule. `Text` holds ASCII case mapping.

How the source's behaviour is represented:

- The provider is a function from the upper-cased symbol to what its two calls returned. Each call's answer is `None` when that call failed. `Threw` stands for an exception that reaches the outer handler.
- JavaScript truthiness is modelled literally:
  - a zero free cash flow gives a null yield;
  - a zero price gives a null margin of safety.
- `Math.round(x * k) / k` is `floor(x * k + 1/2) / k`, and `Math.floor` is `.Floor`.
- Arithmetic is on exact reals.
- `Array.prototype.sort` is modelled as an insertion sort. It is proved sorted, a permutation of its input, and stable: records with equal keys keep their input order.

The margin of safety needs a truthy, that is non-zero, price as well as a positive intrinsic value, while the rating only tests that both are present. `StockAnalyzer.ZeroPriceRatedWithoutMargin` shows the consequence: a price of 0 is rated BUY with a null margin.

## Model

| member | source | states |
|---|---|---|
| `StockAnalyzer.Roic` | server/stock-analyzer.ts:39-41 | null iff ROE and ROA are both null; with both present, their midpoint; otherwise whichever one is present |
| `StockAnalyzer.MarketCap` | server/stock-analyzer.ts:44 | the summary's market cap when present, otherwise the quote's |
| `StockAnalyzer.FcfYield` | server/stock-analyzer.ts:43-45 | present iff the cash flow is present and non-zero and the market cap is positive; then yield times market cap is the cash flow, and the yield has the sign of the cash flow |
| `StockAnalyzer.DebtToEquityRatio` | server/stock-analyzer.ts:47-48 | present iff the raw value is present, and then 100 times the ratio is the raw percentage |
| `StockAnalyzer.IntrinsicValue` | server/stock-analyzer.ts:50-58 | present iff eps is present and positive; then strictly positive, and times (r - g) it equals eps * (1 + g) |
| `StockAnalyzer.MarginOfSafety` | server/stock-analyzer.ts:60-64 | present iff price is present and non-zero and intrinsic value is present and positive; then margin * intrinsic = intrinsic - price, and the margin is below 1 for a positive price |
| `StockAnalyzer.Classify` | server/stock-analyzer.ts:66-76 | DATA_INCOMPLETE iff price or intrinsic is null; BUY iff price < 0.7 * intrinsic; HOLD iff 0.7 * intrinsic <= price < intrinsic; AVOID iff price >= intrinsic |
| `StockAnalyzer.Analyze` | server/stock-analyzer.ts:10-102 | keeps the symbol, always satisfies the record invariant (DATA_INCOMPLETE exactly when price or intrinsic is null, a margin only beside both), and a thrown analysis gives the all-null record |
| `StockAnalyzer.AnalyzeTicker` | server/stock-analyzer.ts:7-103 | the reported ticker is the input upper-cased; the record invariant holds; an escaping exception gives every metric null and DATA_INCOMPLETE |
| `StockAnalyzer.FetchedMetrics` | server/stock-analyzer.ts:33-87 | with both calls answered: price from the quote, ROE passed through unchanged, and every derived metric and the rating computed from the fetched fields |
| `StockAnalyzer.QuoteFailureKeepsSummaryMetrics` | server/stock-analyzer.ts:15-19 | losing the quote call costs the price, the margin and the rating, and keeps ROE, ROIC, debt/equity, intrinsic value and, when the summary has a market cap, the FCF yield |
| `StockAnalyzer.SummaryFailureKeepsQuotePrice` | server/stock-analyzer.ts:21-27 | losing the summary call nulls every summary metric and rates DATA_INCOMPLETE, but keeps the quote's price |
| `StockAnalyzer.IntrinsicValueOfTwo` | server/stock-analyzer.ts:54-58 | eps 2 gives intrinsic value 52.5 |
| `StockAnalyzer.RatingMatchesMargin` | server/stock-analyzer.ts:61-76 | for a positive price, margin < 1, and BUY iff margin > 0.3, HOLD iff 0 < margin <= 0.3, AVOID iff margin <= 0 |
| `StockAnalyzer.RatingBoundaries` | server/stock-analyzer.ts:70-76 | at intrinsic 100: 69.99 is BUY, 70 and 99.99 are HOLD, 100 and 100.01 are AVOID |
| `StockAnalyzer.ZeroPriceRatedWithoutMargin` | server/stock-analyzer.ts:62-71 | a price of 0 with positive intrinsic value is rated BUY while its margin of safety is null |
| `StockAnalyzer.IncompleteAnalysis` | server/stock-analyzer.ts:89-101 | the record for an analysis that threw: the upper-cased symbol, every metric null, DATA_INCOMPLETE, and the record invariant holds |
| `StockAnalyzer.AnalyzeAll` | server/routes.ts:136-138 | one analysis per ticker, element k being the analysis of ticker k |
| `StockAnalyzer.AnalyzeAllConcat` | server/stock-analyzer.ts:109-112 | analysing a concatenation is concatenating the analyses, so appending chunk results keeps input order |
| `StockAnalyzer.AnalyzeTickersBatch` | server/stock-analyzer.ts:106-121 | the results equal the unbatched per-ticker analyses in input order, for every batch size >= 1 (empty input gives empty output); the number of pauses is the number of chunks minus one |
| `StockAnalyzer.ChunkCountIsCeiling` | server/stock-analyzer.ts:109-117 | the chunk count is ceil(n / size): 0 for no items, otherwise (count - 1) * size < n <= count * size |
| `Routes.ScanTicker` | server/routes.ts:15-28 | rejected iff the ticker is empty or its JavaScript length (UTF-16 code units) exceeds 10, before any analysis; otherwise the analysis of that ticker, whose reported symbol has 1 to 10 characters |
| `Routes.AstralTickerRejected` | server/routes.ts:18 | six characters outside the Basic Multilingual Plane count as twelve code units and are refused |
| `Routes.ScanSector` | server/routes.ts:31-68 | an error iff the lower-cased name is not a table key, and then it carries the name and all keys; otherwise the sector is the lower-cased key, the tickers its table entry, the results a permutation of their analyses sorted by descending margin (null as -999), and top 5 their first min(5, n) |
| `Routes.SectorGuardAsWritten` | server/routes.ts:36 | the guard `key in SECTOR_TICKERS` admits every key the lookup finds, and anything else it admits is one of the twelve names inherited from `Object.prototype` |
| `Routes.InheritedNamesWithoutCapitals` | server/routes.ts:34-36 | of the twelve inherited names only `constructor` and `__proto__` contain no capital letter |
| `Routes.SectorGuardOnLowerCased` | server/routes.ts:34-36 | for every requested name, its lower-cased form passes the guard as written iff it is a table key, `constructor` or `__proto__` |
| `Routes.SectorGuardAdmitsInheritedKey` | server/routes.ts:34-44 | `Constructor` passes the guard as written, yet the table holds no ticker list under it |
| `Routes.ListSectors` | server/routes.ts:71-78 | the sector keys in table order, each paired with the length of its list |
| `Routes.ListedCountsMatchLookup` | server/routes.ts:71-78 | every listed sector is accepted by the sector lookup, and its count is the length of the list that lookup returns |
| `Routes.ListedSectorsReachable` | server/routes.ts:34-44 | every sector `/api/sectors` lists is its own lower-case form and is found by the lookup, so requesting it never takes the 400 branch |
| `Routes.SectorsOverviewContents` | server/routes.ts:73-76 | the overview reports tech 10, energy 7, finance 7, consumer 7, healthcare 7 |
| `Routes.AllTickers` | server/routes.ts:84-85 | the scan-all universe has no duplicates and holds exactly the symbols of the table |
| `Routes.AllTickersAreTheTable` | server/routes.ts:84-87 | de-duplication leaves the 38 table symbols in table order |
| `Routes.ScanAll` | server/routes.ts:81-120 | total_stocks is the 38 distinct symbols; results are a permutation of their analyses sorted by descending margin; the summary counts each rating and the counts add up to the total; top 10 is the first min(10, n) |
| `Routes.BuildPortfolio` | server/routes.ts:123-197 | rejected iff the schema rejects the body, and then it carries the schema's issues; otherwise the allocation over the analyses in request order, keeping the capital, one allocation per ticker, each reporting the ticker upper-cased |
| `Ranking.Insert` | server/routes.ts:50-54 | inserting into a sorted list keeps it sorted and adds exactly that element |
| `Ranking.SortByMargin` | server/routes.ts:50-54 | non-increasing by margin of safety (null as -999) and a permutation of its input |
| `Ranking.InsertWithKey` | server/routes.ts:50-54 | inserting a record puts it ahead of every record with the same key and leaves their relative order unchanged |
| `Ranking.SortByMarginStable` | server/routes.ts:50-54 | for every key, the records with that key appear in the sorted list in their input order (the stability `Array.prototype.sort` guarantees), which decides how ties, such as all null margins at -999, fill the top 5 and top 10 |
| `Ranking.TopK` | server/routes.ts:59 | the first min(k, n) elements, a prefix of the list |
| `Ranking.TopKHoldsLargestMargins` | server/routes.ts:113 | from a sorted list, no element left out of the top k has a larger margin than one kept |
| `Ranking.SortKey` | server/routes.ts:51-52 | the margin of safety when present, otherwise -999 |
| `Ranking.WithRating` | server/routes.ts:100-103 | keeps only results with the given rating, every one of them, and never more results than the input |
| `Ranking.WithRatingMultiplicity` | server/routes.ts:100-103 | each record occurs in the filtered list as often as in the input when it has the rating, and not at all otherwise |
| `Ranking.WithRatingStep` | server/routes.ts:100-103 | the filter of a non-empty list has one more element than the filter of its tail exactly when the head has the rating |
| `Ranking.RatingsPartition` | server/routes.ts:100-112 | the four rating filters together hold as many results as the list |
| `Ranking.Summarize` | server/routes.ts:107-112 | each count is the size of its rating filter, and buy + hold + avoid + incomplete is the number of results |
| `Ranking.FirstIndex` | server/routes.ts:84 | the position of the first occurrence |
| `Ranking.Dedupe` | server/routes.ts:84-85 | no duplicates, exactly the input's elements, never longer than the input |
| `Ranking.DedupeKeepsFirstOccurrenceOrder` | server/routes.ts:84-85 | the de-duplicated elements appear in the order of their first occurrence |
| `Ranking.DedupeOfDistinct` | server/routes.ts:84-85 | a list without duplicates is its own de-duplication |
| `Portfolio.Score` | server/routes.ts:141-144 | non-negative; positive iff the margin of safety is present and positive, and then equal to it |
| `Portfolio.Scores` | server/routes.ts:141-144 | one score per analysis, score i being that analysis's score |
| `Portfolio.SumConcat` | server/routes.ts:146 | the left-to-right total (the fold `Sum`) is additive over concatenation |
| `Portfolio.TotalScoreZeroIffNoPositiveMargin` | server/routes.ts:146-148 | the total score is non-negative, and 0 iff no ticker has a positive margin of safety |
| `Portfolio.SumOfNonNegative` | server/routes.ts:146 | a sum of non-negative scores is at least each of them, and 0 iff all of them are |
| `Portfolio.Weights` | server/routes.ts:172 | one weight per analysis, and weight i times the total score is score i |
| `Portfolio.WeightsFormDistribution` | server/routes.ts:171-172 | with a non-zero total the unrounded weights lie in [0, 1], sum to 1, and a zero score weighs 0 |
| `Portfolio.RoundTo` | server/routes.ts:157 | the result is a whole number of 1/scale steps and moves the value by more than -1/(2 scale) and at most 1/(2 scale), which singles out rounding half up; 0 stays 0 |
| `Portfolio.Round2` | server/routes.ts:181 | a whole number of cents within half a cent of the input (half up), and 0 stays 0 |
| `Portfolio.Round3` | server/routes.ts:180 | a whole number of thousandths within half a thousandth of the input (half up), and 0 stays 0 |
| `Portfolio.Shares` | server/routes.ts:158 | 0 unless the price is positive; otherwise the largest whole number of shares the cash pays for |
| `Portfolio.PriceOrZero` | server/routes.ts:152 | the price when present, otherwise 0 |
| `Portfolio.CashFor` | server/routes.ts:173 | the capital times the weight; so a weight in [0, 1] of a non-negative capital is worth between 0 and the capital, and weight 0 is worth 0 |
| `Portfolio.CashForBounds` | server/routes.ts:173 | a weight in [0, 1] of a non-negative capital is worth between 0 and the capital |
| `Portfolio.EqualAllocation` | server/routes.ts:151-159 | no weight, the input's ticker and rating, price or 0, cash rounded to cents, whole shares of the per-stock cash |
| `Portfolio.WeightedAllocation` | server/routes.ts:171-183 | weight rounded to thousandths, cash rounded to cents, shares of the unrounded cash |
| `Portfolio.Allocate` | server/routes.ts:140-190 | keeps the capital and the input length; equal-weight strategy iff the total score is 0, with each allocation the equal one of capital / n; otherwise the weighted strategy, with allocation i at weight score_i / total |
| `Portfolio.WeightedAllocationBounds` | server/routes.ts:171-184 | in the weighted branch each unrounded cash lies in [0, capital], shares are non-negative and cost at most it, the reported cash is within half a cent of it, and a zero-score ticker gets weight 0, no cash and no shares |
| `Portfolio.AllocationTickers` | server/routes.ts:150-184 | allocation i names the ticker of analysis i, in either branch |
| `Portfolio.EqualAllocationBounds` | server/routes.ts:150-160 | in the equal-weight branch each allocation has no weight, non-negative shares costing at most capital / n, and cash within half a cent of capital / n |
| `Portfolio.Priced` | server/stock-analyzer.ts:60-76 | a record with the given price and intrinsic value, its margin and rating derived as the analyzer derives them, satisfying the record invariant |
| `Portfolio.EqualExampleInputValues` | server/stock-analyzer.ts:60-76 | prices 150, 40, 1000 against intrinsic values 125, 40, 400 give margins -0.2, 0 and -1.5, all AVOID |
| `Portfolio.EqualWeightExample` | server/routes.ts:148-167 | capital 9000 over those three tickers, none with a positive margin, gives 3000.00 each (20, 75 and 3 shares) |
| `Portfolio.WeightedExampleInputValues` | server/stock-analyzer.ts:60-76 | prices 100, 70, 10 against intrinsic values 200, 100, 10 give margins 0.5 (BUY), 0.3 (HOLD) and 0 (AVOID) |
| `Portfolio.WeightedExampleWeights` | server/routes.ts:141-146 | margins 0.5, 0.3 and 0 give total 0.8 and weights 0.625, 0.375 and 0 |
| `Portfolio.WeightedExample` | server/routes.ts:171-190 | capital 1000 over those margins: weighted strategy, 625.00 and 375.00 dollars, 6 shares at 100 and 5 at 70, nothing for the zero-margin ticker |
| `Schema.RuleIssues` | shared/schema.ts:25-28 | the capital and count issues: each present iff its rule is violated, none repeated, none iff both rules hold |
| `Schema.EmptyTickerIssues` | shared/schema.ts:27 | exactly one issue per empty symbol, naming its position, in increasing position order, and none iff every symbol is non-empty |
| `Schema.AppendEmptyTickerIssues` | shared/schema.ts:25-28 | rule issues followed by the per-symbol issues repeat nothing |
| `Schema.ValidatePortfolioRequest` | shared/schema.ts:25-28 | valid iff capital > 0 and there are 1 to 20 symbols, each non-empty; a rejection lists each violated rule exactly once, each empty symbol's position and no other |
| `Schema.SectorKeys` | server/routes.ts:39-40 | `Object.keys(SECTOR_TICKERS)`: the table's keys, in insertion order |
| `Schema.AllSectorTickersUnfold` | server/routes.ts:84 | `Object.values(SECTOR_TICKERS).flat()` is the five lists concatenated in table order |
| `Schema.KeyHasNoCapitals` | shared/schema.ts:49-55 | no sector key contains a capital letter |
| `Schema.LookupSector` | shared/schema.ts:49-55 | finds a list iff the key is one of the table's own keys, and the list found is the one stored under it |
| `Schema.LookupEachKey` | shared/schema.ts:49-55 | every key of the table finds its own list |
| `Schema.SectorTableShape` | shared/schema.ts:49-55 | exactly the lower-case keys tech, energy, finance, consumer and healthcare, with lists of 10, 7, 7, 7 and 7 symbols |
| `Schema.SectorTickersDistinct` | shared/schema.ts:49-55 | no symbol repeats within or across the sector lists, 38 symbols in all |
| `Text.Upper` | server/stock-analyzer.ts:8 | same length, no lower-case ASCII letter left, other characters unchanged |
| `Text.Lower` | server/routes.ts:34 | same length, no upper-case ASCII letter left, other characters unchanged |
| `Text.Utf16Length` | server/routes.ts:18 | `String.prototype.length`: between the number of characters and twice it, equal to it when no character lies above the Basic Multilingual Plane and twice it when all do; a single character counts 1 below U+10000 and 2 from there on |
| `Text.Utf16LengthConcat` | server/routes.ts:18 | the length of a concatenation is the sum of the lengths, which with the one-character case fixes the length of every string |
| `Text.Utf16LengthMixed` | server/routes.ts:18 | nine ASCII letters followed by U+1D400 have length 11 |
| `Text.LowerOfLowercase` | server/routes.ts:34 | a string without capitals is its own lower-case form; `Routes.ListedSectorsReachable` uses it to show every table key reaches its own entry |

## Left out

- The Yahoo Finance `quote` and `quoteSummary` calls are a network library. They are replaced by the `Provider` parameter, which maps a symbol to what each call returned.
- `Promise.all` concurrency and the 100 ms `setTimeout` between chunks concern scheduling, not logic. Chunks are processed in order, and the pauses are counted.
- Express request and response plumbing, status codes as transport, and `console` logging are left out. The 400 answers become `Err` values.
- The 500 responses are transport. The handlers' `try` blocks can only reach them through the guard defect listed under Findings: `Routes.ScanSector` models the corrected guard, which answers such names with 400.
- The Finnhub market-news proxy (server/routes.ts:199 onward) is a fetch wrapper and is not part of this model.
- The client UI and the GitHub deployment scripts are not part of this model.
- IEEE-754 floating point, NaN and Infinity are left out. Arithmetic is on exact reals.
- Case mapping covers ASCII letters only. Unicode case rules are not modelled.
- `StockAnalyzer.DebtToEquityRatio`: an explicit `null` debt/equity field is treated like an absent one. In JavaScript an explicit `null` passes the `!== undefined` test and gives `null / 100 = 0`. The model gives null.
- `StockAnalyzer.AnalyzeTickersBatch`: requires a batch size of at least 1. With 0 the source's loop never advances.
- `Schema.ValidatePortfolioRequest`: schema issues for wrongly typed fields (capital not a number, tickers not an array of strings) are left out, since the model's inputs are already typed. Each issue is a tag, without zod's message text.

## Findings

| source | as written | input that shows it | evidently intended | confidence | as-written member | corrected member |
|---|---|---|---|---|---|---|
| server/routes.ts:36 | `key in SECTOR_TICKERS` also finds properties inherited from `Object.prototype`, so `constructor` and `__proto__` pass the guard and reach the scan with a value that is not a ticker list. For `Constructor` the value is the `Object` function: its `length` is 1, so the batching loop of `analyzeTickersBatch` runs and `tickers.slice` throws, answering 500. For `__proto__` the value is `Object.prototype`: it has no `length`, so the loop never runs and the answer is 200 with empty result lists | `GET /api/sector/Constructor`, `GET /api/sector/__proto__` | a 400 naming the available sectors for any name that is not a sector | not executed | `Routes.SectorGuardAsWritten`, `Routes.SectorGuardAdmitsInheritedKey` | `Routes.ScanSector` |
