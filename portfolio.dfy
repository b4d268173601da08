/** The portfolio builder: capital spread over analysed tickers in proportion to their
    positive margins of safety, or equally when no ticker has one. */
module Portfolio {

  import opened Schema
  import StockAnalyzer

  const WeightedStrategy: string := "margin_of_safety_weighted"
  const EqualWeightStrategy: string := "equal_weight (no positive margin_of_safety found)"

  /** `r` is a whole number of steps of 1/k. */
  predicate WholeSteps(r: real, k: real) {
    (r * k).Floor as real == r * k
  }

  /** `Math.round(x * scale) / scale`. `Math.round` rounds halves up, i.e. floor(y + 1/2): the
      result lies within half of 1/scale of `x`, and 0 stays 0. */
  function RoundTo(x: real, scale: nat): (r: real)
    requires scale >= 1
    ensures WholeSteps(r, scale as real)
    ensures -0.5 < (r - x) * (scale as real) <= 0.5
    ensures x == 0.0 ==> r == 0.0
  {
    var n := (x * (scale as real) + 0.5).Floor;
    var r := n as real / (scale as real);
    assert r * (scale as real) == n as real;
    assert WholeSteps(r, scale as real);
    r
  }

  /** Rounding to cents gives a whole number of cents, moves a value by at most half a cent
      and keeps 0 at 0. */
  function Round2(x: real): (r: real)
    ensures WholeSteps(r, 100.0)
    ensures -0.005 < r - x <= 0.005
    ensures x == 0.0 ==> r == 0.0
  {
    var r := RoundTo(x, 100);
    assert (r - x) * 100.0 == r * 100.0 - x * 100.0;
    r
  }

  /** Rounding to thousandths gives a whole number of thousandths, moves a value by at most half
      of 0.001 and keeps 0 at 0. */
  function Round3(x: real): (r: real)
    ensures WholeSteps(r, 1000.0)
    ensures -0.0005 < r - x <= 0.0005
    ensures x == 0.0 ==> r == 0.0
  {
    var r := RoundTo(x, 1000);
    assert (r - x) * 1000.0 == r * 1000.0 - x * 1000.0;
    r
  }

  /** Whole shares bought with `cash` at `price`: none unless the price is positive; otherwise as
      many as the cash pays for in full (`Math.floor(cash / price)`). */
  function Shares(cash: real, price: real): (n: int)
    ensures price <= 0.0 ==> n == 0
    ensures price > 0.0 ==> n as real * price <= cash < (n + 1) as real * price
    ensures price > 0.0 && cash >= 0.0 ==> n >= 0
    ensures price > 0.0 && 0.0 <= cash < price ==> n == 0
  {
    if price > 0.0 then
      var q := cash / price;
      var n := q.Floor;
      assert q * price == cash;
      assert n as real * price <= cash by {
        assert (q - n as real) * price >= 0.0;
      }
      assert cash < (n + 1) as real * price by {
        assert ((n + 1) as real - q) * price > 0.0;
      }
      assert cash < price ==> q < 1.0;
      n
    else 0
  }

  /** A ticker's score: its margin of safety when that is present and positive, else 0. */
  function Score(a: StockAnalysis): (s: real)
    ensures s >= 0.0
    ensures s > 0.0 <==> a.marginOfSafety.Some? && a.marginOfSafety.value > 0.0
    ensures s > 0.0 ==> s == a.marginOfSafety.value
  {
    if a.marginOfSafety.Some? && a.marginOfSafety.value > 0.0 then a.marginOfSafety.value else 0.0
  }

  function Scores(analyses: seq<StockAnalysis>): (s: seq<real>)
    ensures |s| == |analyses|
    ensures forall i :: 0 <= i < |s| ==> s[i] == Score(analyses[i])
  {
    seq(|analyses|, i requires 0 <= i < |analyses| => Score(analyses[i]))
  }

  /** `xs.reduce((a, b) => a + b, 0)`, folding from the left. */
  function Sum(xs: seq<real>): real {
    if xs == [] then 0.0 else Sum(xs[..|xs| - 1]) + xs[|xs| - 1]
  }

  /** The fold is additive over concatenation: splitting the list anywhere gives the same total. */
  lemma {:induction false} SumConcat(xs: seq<real>, ys: seq<real>)
    ensures Sum(xs + ys) == Sum(xs) + Sum(ys)
    decreases |ys|
  {
    if ys == [] {
      assert xs + ys == xs;
    } else {
      var p := ys[..|ys| - 1];
      SumConcat(xs, p);
      assert (xs + ys)[..|xs + ys| - 1] == xs + p;
    }
  }

  predicate NonNegative(xs: seq<real>) {
    forall i :: 0 <= i < |xs| ==> xs[i] >= 0.0
  }

  /** A sum of non-negative numbers bounds each of them, and is 0 only when all of them are. */
  lemma {:induction false} SumOfNonNegative(xs: seq<real>)
    requires NonNegative(xs)
    ensures Sum(xs) >= 0.0
    ensures forall i :: 0 <= i < |xs| ==> xs[i] <= Sum(xs)
    ensures Sum(xs) == 0.0 <==> forall i :: 0 <= i < |xs| ==> xs[i] == 0.0
  {
    if xs != [] {
      var p := xs[..|xs| - 1];
      assert NonNegative(p);
      SumOfNonNegative(p);
      assert forall i :: 0 <= i < |p| ==> xs[i] == p[i];
    }
  }

  /** The total score is 0 exactly when no ticker has a positive margin of safety. */
  lemma TotalScoreZeroIffNoPositiveMargin(analyses: seq<StockAnalysis>)
    ensures Sum(Scores(analyses)) >= 0.0
    ensures Sum(Scores(analyses)) == 0.0 <==>
              forall i :: 0 <= i < |analyses| ==>
                analyses[i].marginOfSafety.None? || analyses[i].marginOfSafety.value <= 0.0
  {
    SumOfNonNegative(Scores(analyses));
  }

  /** Each element divided by `t`. */
  function Scale(xs: seq<real>, t: real): (r: seq<real>)
    requires t != 0.0
    ensures |r| == |xs|
    ensures forall i :: 0 <= i < |r| ==> r[i] * t == xs[i]
  {
    seq(|xs|, i requires 0 <= i < |xs| => xs[i] / t)
  }

  lemma {:induction false} SumOfScaled(xs: seq<real>, t: real)
    requires t != 0.0
    ensures Sum(Scale(xs, t)) * t == Sum(xs)
  {
    if xs != [] {
      var p := xs[..|xs| - 1];
      SumOfScaled(p, t);
      assert Scale(xs, t)[..|xs| - 1] == Scale(p, t);
      var a, b := Sum(Scale(p, t)), Scale(xs, t)[|xs| - 1];
      assert (a + b) * t == a * t + b * t;
    }
  }

  /** The unrounded weights score_i / total. */
  function Weights(analyses: seq<StockAnalysis>): (w: seq<real>)
    requires Sum(Scores(analyses)) != 0.0
    ensures |w| == |analyses|
    ensures forall i :: 0 <= i < |w| ==> w[i] * Sum(Scores(analyses)) == Score(analyses[i])
  {
    Scale(Scores(analyses), Sum(Scores(analyses)))
  }

  /** Non-negative numbers with a non-zero sum `t`, each divided by `t`, lie in [0, 1] and keep
      their zeros. */
  lemma ScaledByTotalBounds(s: seq<real>, t: real)
    requires NonNegative(s) && t != 0.0 && t == Sum(s)
    ensures forall i :: 0 <= i < |s| ==> 0.0 <= Scale(s, t)[i] <= 1.0
    ensures forall i :: 0 <= i < |s| && s[i] == 0.0 ==> Scale(s, t)[i] == 0.0
  {
    SumOfNonNegative(s);
    forall i | 0 <= i < |s|
      ensures 0.0 <= Scale(s, t)[i] <= 1.0 && (s[i] == 0.0 ==> Scale(s, t)[i] == 0.0)
    {
      UnitFraction(Scale(s, t)[i], s[i], t);
    }
  }

  /** Numbers divided by their own non-zero sum `t` add up to 1. */
  lemma ScaledByTotalSum(s: seq<real>, t: real)
    requires t != 0.0 && t == Sum(s)
    ensures Sum(Scale(s, t)) == 1.0
  {
    SumOfScaled(s, t);
    CancelFactor(Sum(Scale(s, t)), t);
  }

  /** With a positive total the unrounded weights lie in [0, 1], sum to 1, and a ticker without a
      positive margin of safety weighs 0. */
  lemma WeightsFormDistribution(analyses: seq<StockAnalysis>)
    requires Sum(Scores(analyses)) != 0.0
    ensures forall i :: 0 <= i < |analyses| ==> 0.0 <= Weights(analyses)[i] <= 1.0
    ensures forall i :: 0 <= i < |analyses| && Score(analyses[i]) == 0.0 ==> Weights(analyses)[i] == 0.0
    ensures Sum(Weights(analyses)) == 1.0
  {
    ScaledByTotalBounds(Scores(analyses), Sum(Scores(analyses)));
    ScaledByTotalSum(Scores(analyses), Sum(Scores(analyses)));
  }

  lemma UnitFraction(w: real, s: real, t: real)
    requires t > 0.0 && 0.0 <= s <= t && w * t == s
    ensures 0.0 <= w <= 1.0
    ensures s == 0.0 ==> w == 0.0
  {
    assert w == s / t;
  }

  lemma CancelFactor(x: real, t: real)
    requires t != 0.0 && x * t == t
    ensures x == 1.0
  {
    assert (x - 1.0) * t == 0.0;
  }

  /** The price an allocation reports: a null price becomes 0. */
  function PriceOrZero(a: StockAnalysis): (p: real)
    ensures a.price.Some? ==> p == a.price.value
    ensures a.price.None? ==> p == 0.0
  {
    if a.price.Some? then a.price.value else 0.0
  }

  /** One allocation of the equal-weight branch: no weight, the per-ticker cash rounded to cents. */
  function EqualAllocation(a: StockAnalysis, perStock: real): (p: PortfolioAllocation)
    ensures p.ticker == a.ticker && p.rating == a.rating && p.price == PriceOrZero(a)
    ensures p.weight.None?
    ensures p.allocatedCash == Round2(perStock)
    ensures p.shares == Shares(perStock, PriceOrZero(a))
  {
    PortfolioAllocation(a.ticker, a.rating, PriceOrZero(a), None, Round2(perStock), Shares(perStock, PriceOrZero(a)))
  }

  /** `cashForThis`: the unrounded cash a weight is worth. A weight in [0, 1] of a non-negative
      capital is worth between nothing and the whole capital. */
  function CashFor(capital: real, w: real): (c: real)
    ensures c == capital * w
    ensures capital >= 0.0 && 0.0 <= w <= 1.0 ==> 0.0 <= c <= capital
    ensures w == 0.0 ==> c == 0.0
  {
    CashForBounds(capital, w);
    capital * w
  }

  /** A weight in [0, 1] of a non-negative capital lies between 0 and the capital. */
  lemma CashForBounds(capital: real, w: real)
    ensures capital >= 0.0 && 0.0 <= w <= 1.0 ==> 0.0 <= capital * w <= capital
  {
    if capital >= 0.0 && 0.0 <= w <= 1.0 {
      assert capital * (1.0 - w) >= 0.0;
    }
  }

  /** One allocation of the weighted branch, for the unrounded weight `w`. */
  function WeightedAllocation(a: StockAnalysis, w: real, capital: real): (p: PortfolioAllocation)
    ensures p.ticker == a.ticker && p.rating == a.rating && p.price == PriceOrZero(a)
    ensures p.weight == Some(Round3(w))
    ensures p.allocatedCash == Round2(CashFor(capital, w))
    ensures p.shares == Shares(CashFor(capital, w), PriceOrZero(a))
  {
    PortfolioAllocation(a.ticker, a.rating, PriceOrZero(a), Some(Round3(w)), Round2(CashFor(capital, w)),
                        Shares(CashFor(capital, w), PriceOrZero(a)))
  }

  /** The allocation step of `POST /api/portfolio`, given the analyses of the requested tickers. */
  function Allocate(capital: real, analyses: seq<StockAnalysis>): (r: PortfolioResult)
    ensures r.totalCapital == capital
    ensures |r.allocations| == |analyses|
    ensures r.strategy == EqualWeightStrategy <==> Sum(Scores(analyses)) == 0.0
    ensures r.strategy == EqualWeightStrategy || r.strategy == WeightedStrategy
    ensures r.strategy == EqualWeightStrategy ==>
              var perStock := capital / (if |analyses| > 1 then |analyses| else 1) as real;
              forall i :: 0 <= i < |analyses| ==> r.allocations[i] == EqualAllocation(analyses[i], perStock)
    ensures r.strategy == WeightedStrategy ==>
              forall i :: 0 <= i < |analyses| ==>
                r.allocations[i] == WeightedAllocation(analyses[i], Weights(analyses)[i], capital)
  {
    var total := Sum(Scores(analyses));
    if total == 0.0 then
      var perStock := capital / (if |analyses| > 1 then |analyses| else 1) as real;
      PortfolioResult(EqualWeightStrategy, capital,
        seq(|analyses|, i requires 0 <= i < |analyses| => EqualAllocation(analyses[i], perStock)))
    else
      var w := Weights(analyses);
      PortfolioResult(WeightedStrategy, capital,
        seq(|analyses|, i requires 0 <= i < |analyses| => WeightedAllocation(analyses[i], w[i], capital)))
  }

  /** One weighted allocation for a weight in [0, 1]: its unrounded cash is a share of the
      capital, its whole shares cost at most that cash, its reported cash is within half a cent of
      it, and a zero weight buys nothing. */
  lemma WeightedAllocationWithin(a: StockAnalysis, w: real, capital: real, p: PortfolioAllocation)
    requires capital > 0.0 && 0.0 <= w <= 1.0
    requires p == WeightedAllocation(a, w, capital)
    ensures && 0.0 <= CashFor(capital, w) <= capital
            && p.shares >= 0
            && p.shares as real * p.price <= CashFor(capital, w)
            && -0.005 < p.allocatedCash - CashFor(capital, w) <= 0.005
            && (w == 0.0 ==> p.weight == Some(0.0) && p.allocatedCash == 0.0 && p.shares == 0)
  {
  }

  /** One equal-weight allocation of a positive amount: whole shares cost at most the amount, and
      the reported cash is within half a cent of it. */
  lemma EqualAllocationWithin(a: StockAnalysis, perStock: real, p: PortfolioAllocation)
    requires perStock > 0.0
    requires p == EqualAllocation(a, perStock)
    ensures && p.weight.None?
            && p.shares >= 0
            && p.shares as real * p.price <= perStock
            && -0.005 < p.allocatedCash - perStock <= 0.005
  {
  }

  /** With a positive total, allocation i is the weighted allocation for weight i. */
  lemma WeightedAllocationAt(capital: real, analyses: seq<StockAnalysis>, i: nat)
    requires i < |analyses| && Sum(Scores(analyses)) != 0.0
    ensures Allocate(capital, analyses).allocations[i]
              == WeightedAllocation(analyses[i], Weights(analyses)[i], capital)
  {
  }

  /** With a zero total, allocation i is the equal-weight allocation of capital / n. */
  lemma EqualAllocationAt(capital: real, analyses: seq<StockAnalysis>, i: nat)
    requires i < |analyses| && Sum(Scores(analyses)) == 0.0
    ensures Allocate(capital, analyses).allocations[i]
              == EqualAllocation(analyses[i], capital / |analyses| as real)
  {
  }

  /** Allocation i is for the ticker of analysis i, in either branch. */
  lemma AllocationTickers(capital: real, analyses: seq<StockAnalysis>)
    ensures forall i :: 0 <= i < |analyses| ==>
              Allocate(capital, analyses).allocations[i].ticker == analyses[i].ticker
  {
    forall i | 0 <= i < |analyses|
      ensures Allocate(capital, analyses).allocations[i].ticker == analyses[i].ticker
    {
      if Sum(Scores(analyses)) == 0.0 {
        EqualAllocationAt(capital, analyses, i);
      } else {
        WeightedAllocationAt(capital, analyses, i);
      }
    }
  }

  /** In the weighted branch, allocation `p` at position i: a zero-score ticker gets weight 0, no
      cash and no shares; every ticker's shares cost at most its unrounded cash, and its reported
      cash is within half a cent of that unrounded cash. */
  lemma WeightedAllocationBounds(capital: real, analyses: seq<StockAnalysis>, i: nat, p: PortfolioAllocation)
    requires capital > 0.0 && i < |analyses|
    requires Sum(Scores(analyses)) != 0.0
    requires p == Allocate(capital, analyses).allocations[i]
    ensures 0.0 <= CashFor(capital, Weights(analyses)[i]) <= capital
    ensures p.shares >= 0
    ensures p.shares as real * p.price <= CashFor(capital, Weights(analyses)[i])
    ensures -0.005 < p.allocatedCash - CashFor(capital, Weights(analyses)[i]) <= 0.005
    ensures Score(analyses[i]) == 0.0 ==> p.weight == Some(0.0) && p.allocatedCash == 0.0 && p.shares == 0
  {
    WeightsFormDistribution(analyses);
    WeightedAllocationAt(capital, analyses, i);
    WeightedAllocationWithin(analyses[i], Weights(analyses)[i], capital, p);
  }

  /** In the equal-weight branch, allocation `p` at position i has no weight, whole shares costing
      at most capital / n, and capital / n rounded to cents as its cash. */
  lemma EqualAllocationBounds(capital: real, analyses: seq<StockAnalysis>, i: nat, p: PortfolioAllocation)
    requires capital > 0.0 && i < |analyses|
    requires Sum(Scores(analyses)) == 0.0
    requires p == Allocate(capital, analyses).allocations[i]
    ensures p.weight.None?
    ensures p.shares >= 0
    ensures p.shares as real * p.price <= capital / |analyses| as real
    ensures -0.005 < p.allocatedCash - capital / |analyses| as real <= 0.005
  {
    EqualAllocationAt(capital, analyses, i);
    EqualAllocationWithin(analyses[i], capital / |analyses| as real, p);
  }

  /** The analysis of a ticker whose provider gave only a price and an intrinsic value: margin
      of safety and rating are the analyzer's, every other metric is null. */
  function Priced(ticker: string, price: real, intrinsic: real): (a: StockAnalysis)
    ensures Consistent(a)
    ensures a.price == Some(price) && a.intrinsicValue == Some(intrinsic)
  {
    StockAnalysis(ticker, Some(price), None, None, None, None, Some(intrinsic),
                  StockAnalyzer.MarginOfSafety(Some(price), Some(intrinsic)),
                  StockAnalyzer.Classify(Some(price), Some(intrinsic)))
  }

  /** Three tickers priced above or at their intrinsic values: margins -0.2, 0 and -1.5. */
  function EqualExampleInput(): seq<StockAnalysis> {
    [Priced("A", 150.0, 125.0), Priced("B", 40.0, 40.0), Priced("C", 1000.0, 400.0)]
  }

  lemma EqualExampleInputValues()
    ensures EqualExampleInput() == [
              StockAnalysis("A", Some(150.0), None, None, None, None, Some(125.0), Some(-0.2), Avoid),
              StockAnalysis("B", Some(40.0), None, None, None, None, Some(40.0), Some(0.0), Avoid),
              StockAnalysis("C", Some(1000.0), None, None, None, None, Some(400.0), Some(-1.5), Avoid)]
  {
    assert StockAnalyzer.MarginOfSafety(Some(150.0), Some(125.0)) == Some(-0.2);
    assert StockAnalyzer.MarginOfSafety(Some(1000.0), Some(400.0)) == Some(-1.5);
  }

  /** Capital 9000 over three tickers without a positive margin: 3000.00 each. */
  lemma EqualWeightExample()
    ensures var r := Allocate(9000.0, EqualExampleInput());
            && r.strategy == EqualWeightStrategy
            && |r.allocations| == 3
            && r.allocations[0].allocatedCash == 3000.0 && r.allocations[0].shares == 20
            && r.allocations[1].allocatedCash == 3000.0 && r.allocations[1].shares == 75
            && r.allocations[2].allocatedCash == 3000.0 && r.allocations[2].shares == 3
  {
    var a := EqualExampleInput();
    EqualExampleInputValues();
    TotalScoreZeroIffNoPositiveMargin(a);
    assert Sum(Scores(a)) == 0.0;
    assert Round2(3000.0) == 3000.0;
  }

  /** Three tickers with margins 0.5 (BUY), 0.3 (HOLD) and 0 (AVOID). */
  function WeightedExampleInput(): seq<StockAnalysis> {
    [Priced("A", 100.0, 200.0), Priced("B", 70.0, 100.0), Priced("C", 10.0, 10.0)]
  }

  lemma WeightedExampleInputValues()
    ensures WeightedExampleInput() == [
              StockAnalysis("A", Some(100.0), None, None, None, None, Some(200.0), Some(0.5), Buy),
              StockAnalysis("B", Some(70.0), None, None, None, None, Some(100.0), Some(0.3), Hold),
              StockAnalysis("C", Some(10.0), None, None, None, None, Some(10.0), Some(0.0), Avoid)]
  {
    assert StockAnalyzer.MarginOfSafety(Some(100.0), Some(200.0)) == Some(0.5);
    assert StockAnalyzer.MarginOfSafety(Some(70.0), Some(100.0)) == Some(0.3);
  }

  /** Margins 0.5, 0.3 and 0 give scores summing to 0.8 and weights 0.625, 0.375 and 0. */
  lemma WeightedExampleWeights()
    ensures Sum(Scores(WeightedExampleInput())) == 0.8
    ensures Weights(WeightedExampleInput()) == [0.625, 0.375, 0.0]
  {
    WeightedExampleInputValues();
    var s := Scores(WeightedExampleInput());
    assert s == [0.5, 0.3, 0.0];
    assert Sum([0.5]) == 0.5 by {
      assert [0.5][..0] == [];
    }
    assert Sum([0.5, 0.3]) == 0.8 by {
      assert [0.5, 0.3][..1] == [0.5];
    }
    assert s[..2] == [0.5, 0.3];
  }

  /** The allocations expected for capital 1000 over margins 0.5, 0.3 and 0. */
  const WeightedExampleAllocations: seq<PortfolioAllocation> := [
    PortfolioAllocation("A", Buy, 100.0, Some(0.625), 625.0, 6),
    PortfolioAllocation("B", Hold, 70.0, Some(0.375), 375.0, 5),
    PortfolioAllocation("C", Avoid, 10.0, Some(0.0), 0.0, 0)]

  /** Each ticker of the example at its weight: cash rounded to cents, weight to thousandths,
      whole shares. */
  lemma WeightedExampleRecord(i: nat)
    requires i < 3
    ensures WeightedAllocation(WeightedExampleInput()[i], [0.625, 0.375, 0.0][i], 1000.0)
              == WeightedExampleAllocations[i]
  {
    WeightedExampleInputValues();
    if i == 0 {
    } else if i == 1 {
    } else {
    }
  }

  /** Capital 1000 over margins 0.5, 0.3 and 0: the weighted strategy, with 625.00 and 375.00
      dollars, 6 shares at 100 and 5 at 70, and nothing for the third ticker. */
  lemma WeightedExample()
    ensures Allocate(1000.0, WeightedExampleInput()).strategy == WeightedStrategy
    ensures Allocate(1000.0, WeightedExampleInput()).allocations == WeightedExampleAllocations
  {
    var a := WeightedExampleInput();
    WeightedExampleWeights();
    forall i | 0 <= i < 3
      ensures Allocate(1000.0, a).allocations[i] == WeightedExampleAllocations[i]
    {
      WeightedAllocationAt(1000.0, a, i);
      WeightedExampleRecord(i);
    }
  }
}
