/** The Michael Burry agent's scoring (src/agents/michael_burry.py): deep value,
    balance sheet, insider activity and contrarian sentiment, each with a declared
    maximum, and a signal from the total's share of the summed maxima. */
module MichaelBurry {
  import opened Common
  import opened Financials

  const ValueMax: nat := 6
  const BalanceSheetMax: nat := 3
  const InsiderMax: nat := 2
  const ContrarianMax: nat := 1

  // ------------------------------------------------------------ value

  /** Free-cash-flow yield bands: 4, 3 and 2 points from 15%, 12% and 8%. */
  function FcfYieldPoints(fcfYield: real): (n: nat)
    ensures n <= 4
    ensures n == 4 <==> fcfYield >= 0.15
    ensures n == 0 <==> fcfYield < 0.08
  {
    if fcfYield >= 0.15 then 4 else if fcfYield >= 0.12 then 3 else if fcfYield >= 0.08 then 2 else 0
  }

  /** EV/EBIT under 6 earns 2, under 10 earns 1. */
  function EvEbitPoints(evEbit: real): (n: nat)
    ensures n <= 2
    ensures n == 0 <==> evEbit >= 10.0
  {
    if evEbit < 6.0 then 2 else if evEbit < 10.0 then 1 else 0
  }

  /** `_analyze_value`: the yield needs a free cash flow on the latest line item and a
      truthy market cap; EV/EBIT needs it on the latest metrics. */
  function ValueScore(metrics: seq<FinancialMetrics>, items: seq<LineItem>, marketCap: Option<real>): (n: nat)
    ensures n <= ValueMax
  {
    var fcf := if items != [] then items[0].freeCashFlow else None;
    var yieldPoints := if fcf.Some? && TruthyNum(marketCap) then FcfYieldPoints(fcf.value / marketCap.value) else 0;
    var evPoints := if metrics != [] && metrics[0].evToEbit.Some? then EvEbitPoints(metrics[0].evToEbit.value) else 0;
    yieldPoints + evPoints
  }

  /** Lines 182-219. */
  method AnalyzeValue(metrics: seq<FinancialMetrics>, items: seq<LineItem>, marketCap: Option<real>) returns (score: nat)
    ensures score == ValueScore(metrics, items, marketCap)
  {
    score := 0;
    var fcf := if items != [] then items[0].freeCashFlow else None;
    if fcf.Some? && TruthyNum(marketCap) {
      var fcfYield := fcf.value / marketCap.value;
      if fcfYield >= 0.15 {
        score := score + 4;
      } else if fcfYield >= 0.12 {
        score := score + 3;
      } else if fcfYield >= 0.08 {
        score := score + 2;
      }
    }
    if metrics != [] {
      var evEbit := metrics[0].evToEbit;
      if evEbit.Some? {
        if evEbit.value < 6.0 {
          score := score + 2;
        } else if evEbit.value < 10.0 {
          score := score + 1;
        }
      }
    }
  }

  // ------------------------------------------------------------ balance sheet

  /** D/E under 0.5 earns 2, under 1 earns 1. */
  function LeveragePoints(debtToEquity: real): (n: nat)
    ensures n <= 2
    ensures n == 0 <==> debtToEquity >= 1.0
  {
    if debtToEquity < 0.5 then 2 else if debtToEquity < 1.0 then 1 else 0
  }

  /** `_analyze_balance_sheet`: leverage from the latest metrics, and a point for strictly
      more cash than debt on the latest line item. */
  function BalanceSheetScore(metrics: seq<FinancialMetrics>, items: seq<LineItem>): (n: nat)
    ensures n <= BalanceSheetMax
  {
    var de := if metrics != [] then metrics[0].debtToEquity else None;
    var leverage := if de.Some? then LeveragePoints(de.value) else 0;
    var netCash :=
      if items != [] && items[0].cashAndEquivalents.Some? && items[0].totalDebt.Some? &&
         items[0].cashAndEquivalents.value > items[0].totalDebt.value
      then 1 else 0;
    leverage + netCash
  }

  /** Lines 224-261. */
  method AnalyzeBalanceSheet(metrics: seq<FinancialMetrics>, items: seq<LineItem>) returns (score: nat)
    ensures score == BalanceSheetScore(metrics, items)
  {
    score := 0;
    var debtToEquity := if metrics != [] then metrics[0].debtToEquity else None;
    if debtToEquity.Some? {
      if debtToEquity.value < 0.5 {
        score := score + 2;
      } else if debtToEquity.value < 1.0 {
        score := score + 1;
      }
    }
    if items != [] {
      var cash := items[0].cashAndEquivalents;
      var totalDebt := items[0].totalDebt;
      if cash.Some? && totalDebt.Some? && cash.value > totalDebt.value {
        score := score + 1;
      }
    }
  }

  // ------------------------------------------------------------ insider activity

  /** `t.transaction_shares or 0`. */
  function SharesOf(t: InsiderTrade): real { OrZero(t.transactionShares) }

  /** Total shares of the buying trades. */
  function SharesBought(trades: seq<InsiderTrade>): (r: real)
    ensures r >= 0.0
    decreases |trades|
  {
    if trades == [] then 0.0
    else
      var s := SharesOf(trades[|trades| - 1]);
      SharesBought(trades[..|trades| - 1]) + (if s > 0.0 then s else 0.0)
  }

  /** Total shares of the selling trades, as a positive amount. */
  function SharesSold(trades: seq<InsiderTrade>): (r: real)
    ensures r >= 0.0
    decreases |trades|
  {
    if trades == [] then 0.0
    else
      var s := SharesOf(trades[|trades| - 1]);
      SharesSold(trades[..|trades| - 1]) + (if s < 0.0 then -s else 0.0)
  }

  /** `_analyze_insider_activity`: net buying earns 2 when it exceeds the shares sold
      (or 1 share when nothing was sold), otherwise 1; net selling or no trades earns 0. */
  function InsiderScore(trades: seq<InsiderTrade>): (n: nat)
    ensures n <= InsiderMax
    ensures n == 0 <==> trades == [] || SharesBought(trades) - SharesSold(trades) <= 0.0
  {
    if trades == [] then 0
    else
      var net := SharesBought(trades) - SharesSold(trades);
      if net > 0.0 then (if net / MaxReal(SharesSold(trades), 1.0) > 1.0 then 2 else 1) else 0
  }

  /** Trades without a share count weigh nothing: dropping them leaves the score unchanged. */
  lemma {:induction false} MissingSharesIgnored(trades: seq<InsiderTrade>, t: InsiderTrade)
    requires t.transactionShares.None?
    ensures SharesBought(trades + [t]) == SharesBought(trades)
    ensures SharesSold(trades + [t]) == SharesSold(trades)
  {
    assert (trades + [t])[..|trades|] == trades;
  }

  /** The top insider score means the net buying is more than the selling, measured
      against at least one share. */
  lemma InsiderTopScore(trades: seq<InsiderTrade>)
    ensures InsiderScore(trades) == 2 <==>
      trades != [] && SharesBought(trades) - SharesSold(trades) > MaxReal(SharesSold(trades), 1.0)
  {
    if trades != [] {
      var net := SharesBought(trades) - SharesSold(trades);
      var d := MaxReal(SharesSold(trades), 1.0);
      DivCompare(net, d, 1.0);
    }
  }

  // ------------------------------------------------------------ contrarian sentiment

  /** The sentiment is truthy and lower-cases to "negative" or "bearish". */
  predicate NegativeSentiment(n: NewsItem) {
    n.sentiment.Some? && n.sentiment.value != "" && Lower(n.sentiment.value) in ["negative", "bearish"]
  }

  function NegativeCount(news: seq<NewsItem>): (c: nat)
    ensures c <= |news|
    decreases |news|
  {
    if news == [] then 0 else NegativeCount(news[..|news| - 1]) + (if NegativeSentiment(news[|news| - 1]) then 1 else 0)
  }

  /** `_analyze_contrarian_sentiment`: a point for at least five negative headlines. */
  function ContrarianScore(news: seq<NewsItem>): (n: nat)
    ensures n <= ContrarianMax
    ensures n == 1 <==> NegativeCount(news) >= 5
    ensures |news| < 5 ==> n == 0
  {
    if news == [] then 0 else if NegativeCount(news) >= 5 then 1 else 0
  }

  // ------------------------------------------------------------ aggregate

  const MaxScore: nat := ValueMax + BalanceSheetMax + InsiderMax + ContrarianMax

  function BurryTotal(metrics: seq<FinancialMetrics>, items: seq<LineItem>, marketCap: Option<real>,
                      trades: seq<InsiderTrade>, news: seq<NewsItem>): (n: nat)
    ensures n <= MaxScore
  {
    ValueScore(metrics, items, marketCap) + BalanceSheetScore(metrics, items) + InsiderScore(trades) + ContrarianScore(news)
  }

  /** Bullish from 70% of the maximum, bearish up to 30%. */
  function BurrySignal(total: nat): (s: Signal)
    ensures s == Bullish <==> total as real >= 0.7 * MaxScore as real
    ensures s == Bearish <==> total as real <= 0.3 * MaxScore as real
  {
    if total as real >= 0.7 * MaxScore as real then Bullish
    else if total as real <= 0.3 * MaxScore as real then Bearish
    else Neutral
  }

  /** The maximum is 12, so on whole-number totals bullish means 9 or more and bearish
      3 or less. */
  lemma BurryThresholds(total: nat)
    ensures MaxScore == 12
    ensures BurrySignal(total) == Bullish <==> total >= 9
    ensures BurrySignal(total) == Bearish <==> total <= 3
  {
  }
}
