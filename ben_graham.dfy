/** The Ben Graham agent's scoring (src/agents/ben_graham.py): earnings stability,
    financial strength and Graham valuation, summed and mapped to a signal against a
    declared maximum of 15. The three parts can in fact reach 4 + 5 + 7 = 16. */
module BenGraham {
  import opened Common
  import opened Financials

  // ------------------------------------------------------------ earnings stability

  /** `analyze_earnings_stability`; `haveMetrics` is whether the metrics list is non-empty
      (the function reads nothing else from it). */
  function EarningsScore(haveMetrics: bool, items: seq<LineItem>): (n: nat)
    ensures n <= 4
    ensures !haveMetrics || items == [] || |ValuesOf(items, EarningsPerShare)| < 2 ==> n == 0
  {
    if !haveMetrics || items == [] then 0
    else
      var eps := ValuesOf(items, EarningsPerShare);
      if |eps| < 2 then 0
      else
        var positive := CountPositive(eps);
        (if positive == |eps| then 3 else if positive as real >= |eps| as real * 0.8 then 2 else 0)
        + (if eps[0] > eps[|eps| - 1] then 1 else 0)
  }

  /** Three points for positive EPS in every period, and the top score of 4 exactly when,
      besides, the latest EPS is above the earliest one. */
  lemma EarningsTopScore(haveMetrics: bool, items: seq<LineItem>)
    requires haveMetrics && |ValuesOf(items, EarningsPerShare)| >= 2
    ensures var eps := ValuesOf(items, EarningsPerShare);
      EarningsScore(haveMetrics, items) == 4 <==> (forall i :: 0 <= i < |eps| ==> eps[i] > 0.0) && eps[0] > eps[|eps| - 1]
  {
    CountPositiveAll(ValuesOf(items, EarningsPerShare));
  }

  /** Lines 111-142, with the EPS collected by the append loop. */
  method AnalyzeEarningsStability(haveMetrics: bool, items: seq<LineItem>) returns (score: nat)
    ensures score == EarningsScore(haveMetrics, items)
  {
    score := 0;
    if !haveMetrics || items == [] {
      return;
    }
    var epsVals: seq<real> := [];
    var i := 0;
    while i < |items|
      invariant 0 <= i <= |items|
      invariant epsVals == ValuesOf(items[..i], EarningsPerShare)
    {
      TakeTake(items, i);
      if items[i].earningsPerShare.Some? {
        epsVals := epsVals + [items[i].earningsPerShare.value];
      }
      i := i + 1;
    }
    assert items[..i] == items;
    if |epsVals| < 2 {
      return;
    }
    var positiveYears := CountPositive(epsVals);
    var totalYears := |epsVals|;
    if positiveYears == totalYears {
      score := score + 3;
    } else if positiveYears as real >= totalYears as real * 0.8 {
      score := score + 2;
    }
    if epsVals[0] > epsVals[|epsVals| - 1] {
      score := score + 1;
    }
  }

  // ------------------------------------------------------------ financial strength

  /** Two points for a current ratio of at least 2, one for at least 1.5; nothing without
      positive current liabilities. */
  function CurrentRatioPoints(currentAssets: real, currentLiabilities: real): (n: nat)
    ensures n <= 2
    ensures currentLiabilities <= 0.0 ==> n == 0
  {
    if currentLiabilities > 0.0 then
      var ratio := currentAssets / currentLiabilities;
      if ratio >= 2.0 then 2 else if ratio >= 1.5 then 1 else 0
    else 0
  }

  /** Two points for liabilities under half the assets, one under 80%; nothing without
      positive total assets. */
  function DebtRatioPoints(totalAssets: real, totalLiabilities: real): (n: nat)
    ensures n <= 2
    ensures totalAssets <= 0.0 ==> n == 0
  {
    if totalAssets > 0.0 then
      var ratio := totalLiabilities / totalAssets;
      if ratio < 0.5 then 2 else if ratio < 0.8 then 1 else 0
    else 0
  }

  /** The dividend point as written: some payment, and payments (negative entries) in at
      least `len // 2 + 1` of the reported periods. */
  function DividendPoint(dividends: seq<real>): (n: nat)
    ensures n <= 1
  {
    if dividends == [] then 0
    else
      var paid := CountNegative(dividends);
      if paid > 0 then (if paid >= |dividends| / 2 + 1 then 1 else 0) else 0
  }

  /** The point is earned exactly when dividends were paid in a strict majority of the
      periods that report them; the separate "some payment" test is implied. */
  lemma DividendPointIsMajority(dividends: seq<real>)
    ensures DividendPoint(dividends) == 1 <==> CountNegative(dividends) >= |dividends| / 2 + 1
    ensures DividendPoint(dividends) == 1 <==> 2 * CountNegative(dividends) > |dividends|
  {
  }

  /** `analyze_financial_strength`. */
  function StrengthScore(items: seq<LineItem>): (n: nat)
    ensures n <= 5
    ensures items == [] ==> n == 0
  {
    if items == [] then 0
    else
      var latest := items[0];
      CurrentRatioPoints(OrZero(latest.currentAssets), OrZero(latest.currentLiabilities))
      + DebtRatioPoints(OrZero(latest.totalAssets), OrZero(latest.totalLiabilities))
      + DividendPoint(ValuesOf(items, Dividends))
  }

  /** Lines 155-208. */
  method AnalyzeFinancialStrength(items: seq<LineItem>) returns (score: nat)
    ensures score == StrengthScore(items)
  {
    score := 0;
    if items == [] {
      return;
    }
    var latest := items[0];
    var totalAssets := OrZero(latest.totalAssets);
    var totalLiabilities := OrZero(latest.totalLiabilities);
    var currentAssets := OrZero(latest.currentAssets);
    var currentLiabilities := OrZero(latest.currentLiabilities);
    if currentLiabilities > 0.0 {
      var currentRatio := currentAssets / currentLiabilities;
      if currentRatio >= 2.0 {
        score := score + 2;
      } else if currentRatio >= 1.5 {
        score := score + 1;
      }
    }
    if totalAssets > 0.0 {
      var debtRatio := totalLiabilities / totalAssets;
      if debtRatio < 0.5 {
        score := score + 2;
      } else if debtRatio < 0.8 {
        score := score + 1;
      }
    }
    var divPeriods := ValuesOf(items, Dividends);
    if divPeriods != [] {
      var divPaidYears := CountNegative(divPeriods);
      if divPaidYears > 0 && divPaidYears >= |divPeriods| / 2 + 1 {
        score := score + 1;
      }
    }
  }

  // ------------------------------------------------------------ valuation

  /** The net-net check: four points when net current assets exceed the market cap, else
      two when they cover two thirds of the price per share; both need positive NCAV and
      a positive share count. */
  function NetNetPoints(ncav: real, shares: real, marketCap: real): (n: nat)
    ensures n <= 4
    ensures ncav <= 0.0 || shares <= 0.0 ==> n == 0
    ensures n == 4 <==> ncav > 0.0 && shares > 0.0 && ncav > marketCap
  {
    if ncav > 0.0 && shares > 0.0 then
      if ncav > marketCap then 4
      else if ncav / shares >= (marketCap / shares) * 0.67 then 2
      else 0
    else 0
  }

  /** Margin of safety against the Graham number: three points above 50%, one above 20%. */
  function MarginPoints(graham: Option<real>, shares: real, marketCap: real): (n: nat)
    ensures n <= 3
    ensures graham.None? || shares <= 0.0 ==> n == 0
  {
    if graham.Some? && graham.value != 0.0 && shares > 0.0 then
      var price := marketCap / shares;
      if price > 0.0 then
        var margin := (graham.value - price) / price;
        if margin > 0.5 then 3 else if margin > 0.2 then 1 else 0
      else 0
    else 0
  }

  /** `sqrt(22.5 * EPS * BVPS)` when both are positive; `sqrt` is the square root. */
  function GrahamNumber(eps: real, bookValuePerShare: real, sqrt: real -> real): (g: Option<real>)
    ensures g.Some? <==> eps > 0.0 && bookValuePerShare > 0.0
    ensures g.Some? ==> g.value == sqrt(22.5 * eps * bookValuePerShare)
  {
    if eps > 0.0 && bookValuePerShare > 0.0 then Some(sqrt(22.5 * eps * bookValuePerShare)) else None
  }

  /** `analyze_valuation_graham`. */
  function ValuationScore(items: seq<LineItem>, marketCap: Option<real>, sqrt: real -> real): (n: nat)
    ensures n <= 7
    ensures items == [] || !TruthyNum(marketCap) || marketCap.value <= 0.0 ==> n == 0
  {
    if items == [] || !TruthyNum(marketCap) || marketCap.value <= 0.0 then 0
    else
      var latest := items[0];
      var shares := OrZero(latest.outstandingShares);
      var ncav := OrZero(latest.currentAssets) - OrZero(latest.totalLiabilities);
      NetNetPoints(ncav, shares, marketCap.value)
      + MarginPoints(GrahamNumber(OrZero(latest.earningsPerShare), OrZero(latest.bookValuePerShare), sqrt), shares, marketCap.value)
  }

  /** Without a positive share count the valuation earns nothing at all. */
  lemma ValuationNeedsShares(items: seq<LineItem>, marketCap: Option<real>, sqrt: real -> real)
    requires items != [] && OrZero(items[0].outstandingShares) <= 0.0
    ensures ValuationScore(items, marketCap, sqrt) == 0
  {
  }

  /** Lines 218-281. */
  method AnalyzeValuationGraham(items: seq<LineItem>, marketCap: Option<real>, sqrt: real -> real) returns (score: nat)
    ensures score == ValuationScore(items, marketCap, sqrt)
  {
    score := 0;
    if items == [] || !TruthyNum(marketCap) || marketCap.value <= 0.0 {
      return;
    }
    var mc := marketCap.value;
    var latest := items[0];
    var currentAssets := OrZero(latest.currentAssets);
    var totalLiabilities := OrZero(latest.totalLiabilities);
    var bookValuePs := OrZero(latest.bookValuePerShare);
    var eps := OrZero(latest.earningsPerShare);
    var sharesOutstanding := OrZero(latest.outstandingShares);
    var ncav := currentAssets - totalLiabilities;
    if ncav > 0.0 && sharesOutstanding > 0.0 {
      var ncavPerShare := ncav / sharesOutstanding;
      var pricePerShare := mc / sharesOutstanding;
      if ncav > mc {
        score := score + 4;
      } else if ncavPerShare >= pricePerShare * 0.67 {
        score := score + 2;
      }
    }
    assert score == NetNetPoints(ncav, sharesOutstanding, mc);
    var grahamNumber := GrahamNumber(eps, bookValuePs, sqrt);
    if grahamNumber.Some? && grahamNumber.value != 0.0 && sharesOutstanding > 0.0 {
      var currentPrice := mc / sharesOutstanding;
      if currentPrice > 0.0 {
        var marginOfSafety := (grahamNumber.value - currentPrice) / currentPrice;
        if marginOfSafety > 0.5 {
          score := score + 3;
        } else if marginOfSafety > 0.2 {
          score := score + 1;
        }
      }
    }
  }

  // ------------------------------------------------------------ aggregate

  const MaxPossibleScore: int := 15

  /** The signal against the declared maximum: bullish from 70% of it, bearish up to 30%. */
  function GrahamSignal(total: int): (s: Signal)
    ensures s == Bullish <==> total as real >= 0.7 * MaxPossibleScore as real
    ensures s == Bearish <==> total as real <= 0.3 * MaxPossibleScore as real
  {
    if total as real >= 0.7 * MaxPossibleScore as real then Bullish
    else if total as real <= 0.3 * MaxPossibleScore as real then Bearish
    else Neutral
  }

  /** On whole-number totals the thresholds are 11 and 4. */
  lemma GrahamSignalOnIntegers(total: int)
    ensures GrahamSignal(total) == Bullish <==> total >= 11
    ensures GrahamSignal(total) == Bearish <==> total <= 4
  {
  }

  function GrahamTotal(haveMetrics: bool, items: seq<LineItem>, marketCap: Option<real>, sqrt: real -> real): (n: nat)
    ensures n <= 16
  {
    EarningsScore(haveMetrics, items) + StrengthScore(items) + ValuationScore(items, marketCap, sqrt)
  }

  const NoItem := LineItem(None, None, None, None, None, None, None, None, None, None, None, None, None, None, None, None)

  /** Two periods on which every sub-score is at its maximum. */
  const TopScoringItems: seq<LineItem> := [
    NoItem.(earningsPerShare := Some(2.0), totalAssets := Some(10.0), totalLiabilities := Some(1.0),
            currentAssets := Some(4.0), currentLiabilities := Some(1.0), dividends := Some(-1.0),
            bookValuePerShare := Some(5.0), outstandingShares := Some(1.0)),
    NoItem.(earningsPerShare := Some(1.0))]

  /** The total can reach 16, one more than `max_possible_score`. */
  lemma TotalExceedsDeclaredMaximum(sqrt: real -> real)
    requires sqrt(225.0) == 15.0
    ensures GrahamTotal(true, TopScoringItems, Some(1.0), sqrt) == 16 > MaxPossibleScore
  {
    var items := TopScoringItems;
    assert ValuesOf(items, EarningsPerShare) == [2.0, 1.0] by {
      assert items[..1][..0] == [];
      assert items[..1] == [items[0]];
    }
    assert ValuesOf(items, Dividends) == [-1.0] by {
      assert items[..1][..0] == [];
      assert items[..1] == [items[0]];
    }
    assert 22.5 * 2.0 * 5.0 == 225.0;
    var eps: seq<real> := [2.0, 1.0];
    assert eps[..1] == [2.0] && eps[..1][..0] == [];
    assert CountPositive(eps) == 2;
    assert EarningsScore(true, items) == 4;
    assert StrengthScore(items) == 5;
    assert GrahamNumber(2.0, 5.0, sqrt) == Some(15.0);
    assert NetNetPoints(3.0, 1.0, 1.0) == 4;
    assert MarginPoints(Some(15.0), 1.0, 1.0) == 3;
    assert ValuationScore(items, Some(1.0), sqrt) == 7;
  }
}
