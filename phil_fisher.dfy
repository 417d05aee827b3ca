/** The Phil Fisher agent's scoring (src/agents/phil_fisher.py): insider activity,
    headline sentiment, valuation and management efficiency, each scaled to 0-10, and
    the weighted total. Growth/quality and margin stability enter the total as given
    scores. The insider and sentiment helpers are repeated verbatim in
    src/agents/stanley_druckenmiller.py, which uses these definitions. */
module PhilFisher {
  import opened Common
  import opened Financials

  // ------------------------------------------------------------ insider activity

  function CountBuys(trades: seq<InsiderTrade>): (n: nat)
    ensures n <= |trades|
    decreases |trades|
  {
    if trades == [] then 0
    else
      var s := trades[|trades| - 1].transactionShares;
      CountBuys(trades[..|trades| - 1]) + (if s.Some? && s.value > 0.0 then 1 else 0)
  }

  function CountSells(trades: seq<InsiderTrade>): (n: nat)
    ensures n <= |trades|
    decreases |trades|
  {
    if trades == [] then 0
    else
      var s := trades[|trades| - 1].transactionShares;
      CountSells(trades[..|trades| - 1]) + (if s.Some? && s.value < 0.0 then 1 else 0)
  }

  /** `analyze_insider_activity`: neutral 5 without trades or without any non-zero
      share count; otherwise 8, 6 or 4 as the share of buying trades exceeds 70%, 40% or
      neither. */
  function InsiderScore(trades: seq<InsiderTrade>): (r: int)
    ensures r in {4, 5, 6, 8}
    ensures r == 5 <==> CountBuys(trades) + CountSells(trades) == 0
  {
    var total := CountBuys(trades) + CountSells(trades);
    if trades == [] || total == 0 then 5
    else
      var buyRatio := CountBuys(trades) as real / total as real;
      if buyRatio > 0.7 then 8 else if buyRatio > 0.4 then 6 else 4
  }

  /** Only buying gives 8 and only selling gives 4. */
  lemma InsiderExtremes(trades: seq<InsiderTrade>)
    ensures CountBuys(trades) > 0 && CountSells(trades) == 0 ==> InsiderScore(trades) == 8
    ensures CountSells(trades) > 0 && CountBuys(trades) == 0 ==> InsiderScore(trades) == 4
  {
    var b := CountBuys(trades) as real;
    if b > 0.0 && CountSells(trades) == 0 {
      assert b / b == 1.0;
    }
  }

  /** The counting loop of lines 481-490. */
  method AnalyzeInsiderActivity(trades: seq<InsiderTrade>) returns (score: int)
    ensures score == InsiderScore(trades)
  {
    score := 5;
    if trades == [] {
      return;
    }
    var buys, sells := 0, 0;
    var i := 0;
    while i < |trades|
      invariant 0 <= i <= |trades|
      invariant buys == CountBuys(trades[..i]) && sells == CountSells(trades[..i])
    {
      TakeTake(trades, i);
      var shares := trades[i].transactionShares;
      if shares.Some? {
        if shares.value > 0.0 {
          buys := buys + 1;
        } else if shares.value < 0.0 {
          sells := sells + 1;
        }
      }
      i := i + 1;
    }
    assert trades[..i] == trades;
    var total := buys + sells;
    if total == 0 {
      return;
    }
    var buyRatio := buys as real / total as real;
    if buyRatio > 0.7 {
      score := 8;
    } else if buyRatio > 0.4 {
      score := 6;
    } else {
      score := 4;
    }
  }

  // ------------------------------------------------------------ sentiment

  const NegativeKeywords: seq<string> := ["lawsuit", "fraud", "negative", "downturn", "decline", "investigation", "recall"]

  /** The lower-cased title (a missing one reads as "") contains a negative keyword. */
  predicate NegativeHeadline(n: NewsItem) {
    var titleLower := Lower(if n.title.Some? then n.title.value else "");
    exists k :: 0 <= k < |NegativeKeywords| && Contains(titleLower, NegativeKeywords[k])
  }

  function NegativeCount(news: seq<NewsItem>): (c: nat)
    ensures c <= |news|
    decreases |news|
  {
    if news == [] then 0 else NegativeCount(news[..|news| - 1]) + (if NegativeHeadline(news[|news| - 1]) then 1 else 0)
  }

  /** `analyze_sentiment`: 5 without news; otherwise 3 when more than 30% of the headlines
      are negative, 6 when some are, 8 when none are. */
  function SentimentScore(news: seq<NewsItem>): (r: int)
    ensures r in {3, 5, 6, 8}
    ensures r == 5 <==> news == []
    ensures r == 8 <==> news != [] && NegativeCount(news) == 0
  {
    if news == [] then 5
    else
      var negative := NegativeCount(news);
      if negative as real > |news| as real * 0.3 then 3 else if negative > 0 then 6 else 8
  }

  /** An item without a title never counts as negative. */
  lemma UntitledIsNotNegative(n: NewsItem)
    requires n.title.None?
    ensures !NegativeHeadline(n)
  {
    forall k | 0 <= k < |NegativeKeywords| ensures !Contains("", NegativeKeywords[k]) {
      assert Find("", NegativeKeywords[k]) == -1;
    }
  }

  /** The headline loop of lines 520-523. */
  method AnalyzeSentiment(news: seq<NewsItem>) returns (score: int)
    ensures score == SentimentScore(news)
  {
    if news == [] {
      return 5;
    }
    var negativeCount := 0;
    var i := 0;
    while i < |news|
      invariant 0 <= i <= |news|
      invariant negativeCount == NegativeCount(news[..i])
    {
      TakeTake(news, i);
      if NegativeHeadline(news[i]) {
        negativeCount := negativeCount + 1;
      }
      i := i + 1;
    }
    assert news[..i] == news;
    if negativeCount as real > |news| as real * 0.3 {
      score := 3;
    } else if negativeCount > 0 {
      score := 6;
    } else {
      score := 8;
    }
  }

  // ------------------------------------------------------------ valuation

  /** `analyze_fisher_valuation`: P/E and P/FCF on the latest reported net income and
      free cash flow, each 2 points under 20 and 1 under 30, raw maximum 4, scaled to 0-10. */
  function ValuationScore(items: seq<LineItem>, marketCap: Option<real>): (r: real)
    ensures 0.0 <= r <= 10.0
    ensures items == [] || marketCap.None? ==> r == 0.0
  {
    if items == [] || marketCap.None? then 0.0
    else
      var raw := BandedMultiple(marketCap.value, FirstOf(ValuesOf(items, NetIncome)), 20.0, 30.0)
               + BandedMultiple(marketCap.value, FirstOf(ValuesOf(items, FreeCashFlow)), 20.0, 30.0);
      ScaledInRange(raw as real, 4.0);
      Scaled(raw as real, 4.0)
  }

  /** Lines 418-464, accumulating `raw_score`. */
  method AnalyzeFisherValuation(items: seq<LineItem>, marketCap: Option<real>) returns (score: real)
    ensures score == ValuationScore(items, marketCap)
  {
    if items == [] || marketCap.None? {
      return 0.0;
    }
    var rawScore: nat := 0;
    var recentNetIncome := FirstOf(ValuesOf(items, NetIncome));
    if recentNetIncome.Some? && recentNetIncome.value > 0.0 {
      var pe := marketCap.value / recentNetIncome.value;
      if pe < 20.0 {
        rawScore := rawScore + 2;
      } else if pe < 30.0 {
        rawScore := rawScore + 1;
      }
    }
    var recentFcf := FirstOf(ValuesOf(items, FreeCashFlow));
    if recentFcf.Some? && recentFcf.value > 0.0 {
      var pfcf := marketCap.value / recentFcf.value;
      if pfcf < 20.0 {
        rawScore := rawScore + 2;
      } else if pfcf < 30.0 {
        rawScore := rawScore + 1;
      }
    }
    score := MinReal(10.0, rawScore as real / 4.0 * 10.0);
  }

  // ------------------------------------------------------------ management efficiency

  /** Zero equity is replaced by 1e-9 before dividing. */
  function EquityDivisor(equity: real): (d: real)
    ensures d != 0.0
  {
    if equity != 0.0 then equity else 0.000000001
  }

  /** ROE bands: 3 above 20%, 2 above 10%, 1 above 0; only for positive net income. */
  function RoePoints(netIncome: real, equity: real): (n: nat)
    ensures n <= 3
    ensures netIncome <= 0.0 ==> n == 0
  {
    if netIncome > 0.0 then
      var roe := netIncome / EquityDivisor(equity);
      if roe > 0.2 then 3 else if roe > 0.1 then 2 else if roe > 0.0 then 1 else 0
    else 0
  }

  /** D/E under 0.3 earns 2, under 1 earns 1. */
  function DebtEquityPoints(debt: real, equity: real): (n: nat)
    ensures n <= 2
  {
    var dte := debt / EquityDivisor(equity);
    if dte < 0.3 then 2 else if dte < 1.0 then 1 else 0
  }

  /** A point when more than 80% of at least two reported free cash flows are positive. */
  function FcfConsistencyPoint(fcf: seq<real>): (n: nat)
    ensures n <= 1
  {
    if |fcf| >= 2 && CountPositive(fcf) as real / |fcf| as real > 0.8 then 1 else 0
  }

  /** `analyze_management_efficiency_leverage` before scaling; the ROE and D/E parts need
      as many equity values as net incomes (or debts). */
  function ManagementRaw(items: seq<LineItem>): (n: nat)
    ensures n <= 6
  {
    var ni := ValuesOf(items, NetIncome);
    var eq := ValuesOf(items, ShareholdersEquity);
    var debt := ValuesOf(items, TotalDebt);
    var roe := if ni != [] && eq != [] && |ni| == |eq| then RoePoints(ni[0], eq[0]) else 0;
    var dte := if debt != [] && eq != [] && |debt| == |eq| then DebtEquityPoints(debt[0], eq[0]) else 0;
    roe + dte + FcfConsistencyPoint(ValuesOf(items, FreeCashFlow))
  }

  function ManagementScore(items: seq<LineItem>): (r: real)
    ensures 0.0 <= r <= 10.0
    ensures items == [] ==> r == 0.0
  {
    if items == [] then 0.0
    else
      ScaledInRange(ManagementRaw(items) as real, 6.0);
      Scaled(ManagementRaw(items) as real, 6.0)
  }

  /** Lines 341-407, accumulating `raw_score`. */
  method AnalyzeManagementEfficiency(items: seq<LineItem>) returns (score: real)
    ensures score == ManagementScore(items)
  {
    if items == [] {
      return 0.0;
    }
    var rawScore: nat := 0;
    var niValues := ValuesOf(items, NetIncome);
    var eqValues := ValuesOf(items, ShareholdersEquity);
    if niValues != [] && eqValues != [] && |niValues| == |eqValues| {
      var recentNi := niValues[0];
      var recentEq := if eqValues[0] != 0.0 then eqValues[0] else 0.000000001;
      if recentNi > 0.0 {
        var roe := recentNi / recentEq;
        if roe > 0.2 {
          rawScore := rawScore + 3;
        } else if roe > 0.1 {
          rawScore := rawScore + 2;
        } else if roe > 0.0 {
          rawScore := rawScore + 1;
        }
      }
    }
    var debtValues := ValuesOf(items, TotalDebt);
    if debtValues != [] && eqValues != [] && |debtValues| == |eqValues| {
      var dte := debtValues[0] / (if eqValues[0] != 0.0 then eqValues[0] else 0.000000001);
      if dte < 0.3 {
        rawScore := rawScore + 2;
      } else if dte < 1.0 {
        rawScore := rawScore + 1;
      }
    }
    var fcfValues := ValuesOf(items, FreeCashFlow);
    if |fcfValues| >= 2 {
      var positiveFcfCount := CountPositive(fcfValues);
      if positiveFcfCount as real / |fcfValues| as real > 0.8 {
        rawScore := rawScore + 1;
      }
    }
    score := MinReal(10.0, rawScore as real / 6.0 * 10.0);
  }

  /** Zero equity counts as a tiny positive equity: any net income above 2e-10 then
      earns the top ROE points. */
  lemma ZeroEquityMaximisesRoe(netIncome: real)
    requires netIncome > 0.0000000002
    ensures RoePoints(netIncome, 0.0) == 3
  {
    DivCompare(netIncome, 0.000000001, 0.2);
  }

  // ------------------------------------------------------------ total

  /** Each sub-score lies on the 0-10 scale. */
  predicate OnTenScale(x: real) { 0.0 <= x <= 10.0 }

  /** 30% growth and quality, 25% margins, 20% management, 15% valuation, 5% insiders
      and 5% sentiment. */
  function FisherTotal(growth: real, margins: real, management: real, valuation: real, insider: real, sentiment: real): real {
    growth * 0.30 + margins * 0.25 + management * 0.20 + valuation * 0.15 + insider * 0.05 + sentiment * 0.05
  }

  /** The weights sum to 1, so sub-scores on the 0-10 scale give a total on it too, and
      equal sub-scores give that score back. */
  lemma FisherTotalInRange(growth: real, margins: real, management: real, valuation: real, insider: real, sentiment: real)
    requires OnTenScale(growth) && OnTenScale(margins) && OnTenScale(management)
    requires OnTenScale(valuation) && OnTenScale(insider) && OnTenScale(sentiment)
    ensures OnTenScale(FisherTotal(growth, margins, management, valuation, insider, sentiment))
    ensures FisherTotal(growth, growth, growth, growth, growth, growth) == growth
  {
  }

  /** The agent's preliminary signal. */
  function FisherSignal(items: seq<LineItem>, marketCap: Option<real>, trades: seq<InsiderTrade>, news: seq<NewsItem>,
                        growth: real, margins: real): Signal {
    TenPointSignal(FisherTotal(growth, margins, ManagementScore(items), ValuationScore(items, marketCap),
                               InsiderScore(trades) as real, SentimentScore(news) as real))
  }

  /** With the given sub-scores on the 0-10 scale, the total is too. */
  lemma FisherSignalInputsInRange(items: seq<LineItem>, marketCap: Option<real>, trades: seq<InsiderTrade>, news: seq<NewsItem>,
                                  growth: real, margins: real)
    requires OnTenScale(growth) && OnTenScale(margins)
    ensures OnTenScale(FisherTotal(growth, margins, ManagementScore(items), ValuationScore(items, marketCap),
                                   InsiderScore(trades) as real, SentimentScore(news) as real))
  {
    FisherTotalInRange(growth, margins, ManagementScore(items), ValuationScore(items, marketCap),
                       InsiderScore(trades) as real, SentimentScore(news) as real);
  }
}
