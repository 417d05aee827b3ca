/** The Stanley Druckenmiller agent's scoring (src/agents/stanley_druckenmiller.py):
    growth and price momentum, risk/reward from leverage and volatility, an
    enterprise-value valuation and the weighted total. Its insider and sentiment scores
    are the Fisher agent's, which the file repeats verbatim. */
module StanleyDruckenmiller {
  import opened Common
  import opened Financials
  import opened Sorting
  import PhilFisher

  // ------------------------------------------------------------ price series

  function TimeOf(bar: PriceBar): string { bar.time }

  /** `[p.close for p in bars if p.close is not None]`. */
  function Closes(bars: seq<PriceBar>): (r: seq<real>)
    ensures |r| <= |bars|
    decreases |bars|
  {
    if bars == [] then []
    else
      var c := bars[|bars| - 1].close;
      Closes(bars[..|bars| - 1]) + (if c.Some? then [c.value] else [])
  }

  /** The closes in timestamp order, `sorted(prices, key=lambda p: p.time)`. */
  function ClosesByTime(prices: seq<PriceBar>): (r: seq<real>)
    ensures |r| <= |prices|
  {
    Closes(SortBy(prices, TimeOf, false))
  }

  // ------------------------------------------------------------ growth and momentum

  /** Annualised growth bands: 3 above 8%, 2 above 4%, 1 above 1%. */
  function GrowthPoints(growth: real): (n: nat)
    ensures n <= 3
    ensures n == 0 <==> growth <= 0.01
  {
    if growth > 0.08 then 3 else if growth > 0.04 then 2 else if growth > 0.01 then 1 else 0
  }

  /** The CAGR points of a newest-first value list: needs two values with positive
      oldest and latest; `pow` stands for Python's float `**`. */
  function CagrPoints(values: seq<real>, pow: (real, real) -> real): (n: nat)
    ensures n <= 3
    ensures |values| < 2 ==> n == 0
  {
    if |values| >= 2 && values[|values| - 1] > 0.0 && values[0] > 0.0 then
      var years := |values| - 1;
      GrowthPoints(pow(values[0] / values[|values| - 1], 1.0 / years as real) - 1.0)
    else 0
  }

  /** Momentum bands on the fractional change: 3 above 50%, 2 above 20%, 1 above 0. */
  function ChangePoints(change: real): (n: nat)
    ensures n <= 3
    ensures n == 0 <==> change <= 0.0
  {
    if change > 0.50 then 3 else if change > 0.20 then 2 else if change > 0.0 then 1 else 0
  }

  /** Momentum compares the first and last close in time order, only with more than 30
      bars, two closes and a positive starting price. */
  function MomentumPoints(prices: seq<PriceBar>): (n: nat)
    ensures n <= 3
    ensures |prices| <= 30 ==> n == 0
  {
    if |prices| > 30 then
      var closes := ClosesByTime(prices);
      if |closes| >= 2 && closes[0] > 0.0 then
        ChangePoints((closes[|closes| - 1] - closes[0]) / closes[0])
      else 0
    else 0
  }

  /** With a positive starting price, momentum scores exactly when the last close in
      time order is above the first. */
  lemma MomentumScoresOnRise(prices: seq<PriceBar>)
    requires |prices| > 30
    requires var c := ClosesByTime(prices); |c| >= 2 && c[0] > 0.0
    ensures var c := ClosesByTime(prices); MomentumPoints(prices) > 0 <==> c[|c| - 1] > c[0]
  {
    var c := ClosesByTime(prices);
    DivCompare(c[|c| - 1] - c[0], c[0], 0.0);
  }

  /** `analyze_growth_and_momentum` before scaling: revenue CAGR, EPS CAGR, momentum. */
  function GrowthMomentumRaw(items: seq<LineItem>, prices: seq<PriceBar>, pow: (real, real) -> real): (n: nat)
    ensures n <= 9
  {
    CagrPoints(ValuesOf(items, Revenue), pow) + CagrPoints(ValuesOf(items, EarningsPerShare), pow) + MomentumPoints(prices)
  }

  function GrowthMomentumScore(items: seq<LineItem>, prices: seq<PriceBar>, pow: (real, real) -> real): (r: real)
    ensures 0.0 <= r <= 10.0
    ensures |items| < 2 ==> r == 0.0
  {
    if |items| < 2 then 0.0
    else
      ScaledInRange(GrowthMomentumRaw(items, prices, pow) as real, 9.0);
      Scaled(GrowthMomentumRaw(items, prices, pow) as real, 9.0)
  }

  /** Lines 179-276, accumulating `raw_score`. */
  method AnalyzeGrowthAndMomentum(items: seq<LineItem>, prices: seq<PriceBar>, pow: (real, real) -> real) returns (score: real)
    ensures score == GrowthMomentumScore(items, prices, pow)
  {
    if |items| < 2 {
      return 0.0;
    }
    var rawScore: nat := 0;
    var revenues := ValuesOf(items, Revenue);
    if |revenues| >= 2 {
      var latestRev, olderRev := revenues[0], revenues[|revenues| - 1];
      if olderRev > 0.0 && latestRev > 0.0 {
        var revGrowth := pow(latestRev / olderRev, 1.0 / (|revenues| - 1) as real) - 1.0;
        rawScore := rawScore + GrowthPoints(revGrowth);
      }
    }
    var epsValues := ValuesOf(items, EarningsPerShare);
    if |epsValues| >= 2 {
      var latestEps, olderEps := epsValues[0], epsValues[|epsValues| - 1];
      if olderEps > 0.0 && latestEps > 0.0 {
        var epsGrowth := pow(latestEps / olderEps, 1.0 / (|epsValues| - 1) as real) - 1.0;
        rawScore := rawScore + GrowthPoints(epsGrowth);
      }
    }
    if |prices| > 30 {
      var closePrices := Closes(SortBy(prices, TimeOf, false));
      if |closePrices| >= 2 {
        var startPrice, endPrice := closePrices[0], closePrices[|closePrices| - 1];
        if startPrice > 0.0 {
          var pctChange := (endPrice - startPrice) / startPrice;
          if pctChange > 0.50 {
            rawScore := rawScore + 3;
          } else if pctChange > 0.20 {
            rawScore := rawScore + 2;
          } else if pctChange > 0.0 {
            rawScore := rawScore + 1;
          }
        }
      }
    }
    score := MinReal(10.0, rawScore as real / 9.0 * 10.0);
  }

  // ------------------------------------------------------------ risk and reward

  /** D/E bands: 3 under 0.3, 2 under 0.7, 1 under 1.5; zero equity reads as 1e-9. */
  function LeveragePoints(debt: real, equity: real): (n: nat)
    ensures n <= 3
  {
    var ratio := debt / PhilFisher.EquityDivisor(equity);
    if ratio < 0.3 then 3 else if ratio < 0.7 then 2 else if ratio < 1.5 then 1 else 0
  }

  /** Day-over-day returns of a close series, skipping a day whose previous close is not
      positive. */
  function DailyReturns(closes: seq<real>): (r: seq<real>)
    decreases |closes|
  {
    if |closes| < 2 then []
    else
      var prev := closes[|closes| - 2];
      DailyReturns(closes[..|closes| - 1]) + (if prev > 0.0 then [(closes[|closes| - 1] - prev) / prev] else [])
  }

  /** One return per positive previous close. */
  lemma {:induction false} DailyReturnsCount(closes: seq<real>)
    requires closes != []
    ensures |DailyReturns(closes)| == CountPositive(closes[..|closes| - 1])
    decreases |closes|
  {
    if |closes| >= 2 {
      var init := closes[..|closes| - 1];
      DailyReturnsCount(init);
      assert init[..|init| - 1] == closes[..|closes| - 2];
      assert closes[..|closes| - 1] == init;
    }
  }

  /** With every close positive there is a return for every day after the first, and
      the k-th is the change from close k to close k+1. */
  lemma {:induction false} DailyReturnsAllPositive(closes: seq<real>)
    requires closes != []
    requires forall i :: 0 <= i < |closes| ==> closes[i] > 0.0
    ensures |DailyReturns(closes)| == |closes| - 1
    ensures forall k :: 0 <= k < |closes| - 1 ==> DailyReturns(closes)[k] == (closes[k + 1] - closes[k]) / closes[k]
    decreases |closes|
  {
    if |closes| >= 2 {
      var init := closes[..|closes| - 1];
      DailyReturnsAllPositive(init);
      assert forall k :: 0 <= k < |init| ==> init[k] == closes[k];
    }
  }

  /** The daily-returns loop of lines 395-399. */
  method ComputeDailyReturns(closePrices: seq<real>) returns (dailyReturns: seq<real>)
    ensures dailyReturns == DailyReturns(closePrices)
  {
    dailyReturns := [];
    if closePrices == [] {
      return;
    }
    var i := 1;
    while i < |closePrices|
      invariant 1 <= i <= |closePrices|
      invariant dailyReturns == DailyReturns(closePrices[..i])
    {
      TakeTake(closePrices, i);
      var prevClose := closePrices[i - 1];
      if prevClose > 0.0 {
        dailyReturns := dailyReturns + [(closePrices[i] - prevClose) / prevClose];
      }
      i := i + 1;
    }
    assert closePrices[..i] == closePrices;
  }

  /** Volatility bands on the population standard deviation of daily returns: 3 under
      1%, 2 under 2%, 1 under 4%. */
  function VolatilityPoints(stdev: real): (n: nat)
    ensures n <= 3
    ensures n == 0 <==> stdev >= 0.04
  {
    if stdev < 0.01 then 3 else if stdev < 0.02 then 2 else if stdev < 0.04 then 1 else 0
  }

  /** `analyze_risk_reward` before scaling; `pstdev` stands for `statistics.pstdev`.
      Volatility needs more than ten bars and more than ten closes. */
  function RiskRewardRaw(items: seq<LineItem>, prices: seq<PriceBar>, pstdev: seq<real> -> real): (n: nat)
    ensures n <= 6
  {
    var debt := ValuesOf(items, TotalDebt);
    var equity := ValuesOf(items, ShareholdersEquity);
    var leverage := if debt != [] && equity != [] && |debt| == |equity| then LeveragePoints(debt[0], equity[0]) else 0;
    var closes := ClosesByTime(prices);
    var volatility :=
      if |prices| > 10 && |closes| > 10 && DailyReturns(closes) != [] then VolatilityPoints(pstdev(DailyReturns(closes))) else 0;
    leverage + volatility
  }

  function RiskRewardScore(items: seq<LineItem>, prices: seq<PriceBar>, pstdev: seq<real> -> real): (r: real)
    ensures 0.0 <= r <= 10.0
    ensures items == [] || prices == [] ==> r == 0.0
  {
    if items == [] || prices == [] then 0.0
    else
      ScaledInRange(RiskRewardRaw(items, prices, pstdev) as real, 6.0);
      Scaled(RiskRewardRaw(items, prices, pstdev) as real, 6.0)
  }

  /** Lines 364-405, accumulating `raw_score`. */
  method AnalyzeRiskReward(items: seq<LineItem>, prices: seq<PriceBar>, pstdev: seq<real> -> real) returns (score: real)
    ensures score == RiskRewardScore(items, prices, pstdev)
  {
    if items == [] || prices == [] {
      return 0.0;
    }
    var rawScore: nat := 0;
    var debtValues := ValuesOf(items, TotalDebt);
    var equityValues := ValuesOf(items, ShareholdersEquity);
    if debtValues != [] && equityValues != [] && |debtValues| == |equityValues| {
      var recentEquity := if equityValues[0] != 0.0 then equityValues[0] else 0.000000001;
      var deRatio := debtValues[0] / recentEquity;
      if deRatio < 0.3 {
        rawScore := rawScore + 3;
      } else if deRatio < 0.7 {
        rawScore := rawScore + 2;
      } else if deRatio < 1.5 {
        rawScore := rawScore + 1;
      }
    }
    if |prices| > 10 {
      var closePrices := Closes(SortBy(prices, TimeOf, false));
      if |closePrices| > 10 {
        var dailyReturns := ComputeDailyReturns(closePrices);
        if dailyReturns != [] {
          rawScore := rawScore + VolatilityPoints(pstdev(dailyReturns));
        }
      }
    }
    score := MinReal(10.0, rawScore as real / 6.0 * 10.0);
  }

  // ------------------------------------------------------------ valuation

  /** The latest value, or 0 when none was reported. */
  function LatestOrZero(values: seq<real>): real { if values == [] then 0.0 else values[0] }

  /** Market cap plus the latest debt minus the latest cash. */
  function EnterpriseValue(items: seq<LineItem>, marketCap: real): (ev: real)
    ensures ValuesOf(items, TotalDebt) == [] && ValuesOf(items, CashAndEquivalents) == [] ==> ev == marketCap
  {
    marketCap + LatestOrZero(ValuesOf(items, TotalDebt)) - LatestOrZero(ValuesOf(items, CashAndEquivalents))
  }

  /** An enterprise-value multiple scores only when the enterprise value is positive. */
  function EvPoints(ev: real, denominator: Option<real>, attractive: real, fair: real): (n: nat)
    ensures n <= 2
    ensures ev <= 0.0 ==> n == 0
  {
    if ev > 0.0 then BandedMultiple(ev, denominator, attractive, fair) else 0
  }

  /** `analyze_druckenmiller_valuation` before scaling: P/E and P/FCF (15 / 25), EV/EBIT
      (15 / 25) and EV/EBITDA (10 / 18). */
  function ValuationRaw(items: seq<LineItem>, marketCap: real): (n: nat)
    ensures n <= 8
  {
    var ev := EnterpriseValue(items, marketCap);
    BandedMultiple(marketCap, FirstOf(ValuesOf(items, NetIncome)), 15.0, 25.0)
      + BandedMultiple(marketCap, FirstOf(ValuesOf(items, FreeCashFlow)), 15.0, 25.0)
      + EvPoints(ev, FirstOf(ValuesOf(items, Ebit)), 15.0, 25.0)
      + EvPoints(ev, FirstOf(ValuesOf(items, Ebitda)), 10.0, 18.0)
  }

  /** Without a positive enterprise value only the two price multiples count, so the
      raw score is at most 4. */
  lemma NonPositiveEvCountsPricesOnly(items: seq<LineItem>, marketCap: real)
    requires EnterpriseValue(items, marketCap) <= 0.0
    ensures ValuationRaw(items, marketCap) ==
      BandedMultiple(marketCap, FirstOf(ValuesOf(items, NetIncome)), 15.0, 25.0)
      + BandedMultiple(marketCap, FirstOf(ValuesOf(items, FreeCashFlow)), 15.0, 25.0)
    ensures ValuationRaw(items, marketCap) <= 4
  {
  }

  function ValuationScore(items: seq<LineItem>, marketCap: Option<real>): (r: real)
    ensures 0.0 <= r <= 10.0
    ensures items == [] || marketCap.None? ==> r == 0.0
  {
    if items == [] || marketCap.None? then 0.0
    else
      ScaledInRange(ValuationRaw(items, marketCap.value) as real, 8.0);
      Scaled(ValuationRaw(items, marketCap.value) as real, 8.0)
  }

  /** One `if recent and recent > 0:` block: adds the multiple's band points to `raw`. */
  method AddMultiple(raw: nat, numerator: real, denominator: Option<real>, attractive: real, fair: real) returns (r: nat)
    ensures r == raw + BandedMultiple(numerator, denominator, attractive, fair)
  {
    r := raw;
    if denominator.Some? && denominator.value > 0.0 {
      var multiple := numerator / denominator.value;
      if multiple < attractive {
        r := r + 2;
      } else if multiple < fair {
        r := r + 1;
      }
    }
  }

  /** Lines 453-530, accumulating `raw_score`. */
  method AnalyzeDruckenmillerValuation(items: seq<LineItem>, marketCap: Option<real>) returns (score: real)
    ensures score == ValuationScore(items, marketCap)
  {
    if items == [] || marketCap.None? {
      return 0.0;
    }
    var mc := marketCap.value;
    var debtValues := ValuesOf(items, TotalDebt);
    var cashValues := ValuesOf(items, CashAndEquivalents);
    var recentDebt := if debtValues != [] then debtValues[0] else 0.0;
    var recentCash := if cashValues != [] then cashValues[0] else 0.0;
    var enterpriseValue := mc + recentDebt - recentCash;
    var rawScore: nat := 0;
    rawScore := AddMultiple(rawScore, mc, FirstOf(ValuesOf(items, NetIncome)), 15.0, 25.0);
    rawScore := AddMultiple(rawScore, mc, FirstOf(ValuesOf(items, FreeCashFlow)), 15.0, 25.0);
    if enterpriseValue > 0.0 {
      rawScore := AddMultiple(rawScore, enterpriseValue, FirstOf(ValuesOf(items, Ebit)), 15.0, 25.0);
      rawScore := AddMultiple(rawScore, enterpriseValue, FirstOf(ValuesOf(items, Ebitda)), 10.0, 18.0);
    }
    assert rawScore == ValuationRaw(items, mc);
    score := MinReal(10.0, rawScore as real / 8.0 * 10.0);
  }

  // ------------------------------------------------------------ total

  /** 35% growth and momentum, 20% risk/reward, 20% valuation, 15% sentiment, 10%
      insiders. */
  function DruckenmillerTotal(growth: real, risk: real, valuation: real, sentiment: real, insider: real): real {
    growth * 0.35 + risk * 0.20 + valuation * 0.20 + sentiment * 0.15 + insider * 0.10
  }

  /** The weights sum to 1: sub-scores on the 0-10 scale give a total on it, and equal
      sub-scores give that score back. */
  lemma DruckenmillerTotalInRange(growth: real, risk: real, valuation: real, sentiment: real, insider: real)
    requires PhilFisher.OnTenScale(growth) && PhilFisher.OnTenScale(risk) && PhilFisher.OnTenScale(valuation)
    requires PhilFisher.OnTenScale(sentiment) && PhilFisher.OnTenScale(insider)
    ensures PhilFisher.OnTenScale(DruckenmillerTotal(growth, risk, valuation, sentiment, insider))
    ensures DruckenmillerTotal(growth, growth, growth, growth, growth) == growth
  {
  }

  /** The agent's total score from its inputs; every part lies on the 0-10 scale. */
  function TotalScore(items: seq<LineItem>, prices: seq<PriceBar>, marketCap: Option<real>,
                      trades: seq<InsiderTrade>, news: seq<NewsItem>,
                      pow: (real, real) -> real, pstdev: seq<real> -> real): real {
    DruckenmillerTotal(GrowthMomentumScore(items, prices, pow), RiskRewardScore(items, prices, pstdev),
                       ValuationScore(items, marketCap), PhilFisher.SentimentScore(news) as real,
                       PhilFisher.InsiderScore(trades) as real)
  }

  /** The total always lies on the 0-10 scale, whatever the inputs. */
  lemma TotalScoreInRange(items: seq<LineItem>, prices: seq<PriceBar>, marketCap: Option<real>,
                          trades: seq<InsiderTrade>, news: seq<NewsItem>,
                          pow: (real, real) -> real, pstdev: seq<real> -> real)
    ensures PhilFisher.OnTenScale(TotalScore(items, prices, marketCap, trades, news, pow, pstdev))
  {
    DruckenmillerTotalInRange(GrowthMomentumScore(items, prices, pow), RiskRewardScore(items, prices, pstdev),
                              ValuationScore(items, marketCap), PhilFisher.SentimentScore(news) as real,
                              PhilFisher.InsiderScore(trades) as real);
  }

  function DruckenmillerSignal(total: real): (s: Signal)
    ensures s == Bullish <==> total >= 7.5
    ensures s == Bearish <==> total <= 4.5
  {
    TenPointSignal(total)
  }
}
