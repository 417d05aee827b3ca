/** The fundamentals analyst (src/agents/fundamentals.py): four area signals from the
    most recent financial metrics, a majority vote over them and a confidence that is
    the winning share in whole quarters. */
module Fundamentals {
  import opened Common
  import opened Financials

  /** `metric is not None and metric > threshold`. */
  predicate Above(metric: Option<real>, threshold: real) { metric.Some? && metric.value > threshold }

  function Point(b: bool): nat { if b then 1 else 0 }

  /** How many of three metrics clear their thresholds. */
  function ThresholdScore(m1: Option<real>, t1: real, m2: Option<real>, t2: real, m3: Option<real>, t3: real): (n: nat)
    ensures n <= 3
    ensures n == 0 <==> !Above(m1, t1) && !Above(m2, t2) && !Above(m3, t3)
    ensures n == 3 <==> Above(m1, t1) && Above(m2, t2) && Above(m3, t3)
  {
    Point(Above(m1, t1)) + Point(Above(m2, t2)) + Point(Above(m3, t3))
  }

  function ProfitabilityScore(m: FinancialMetrics): nat {
    ThresholdScore(m.returnOnEquity, 0.15, m.netMargin, 0.20, m.operatingMargin, 0.15)
  }

  function GrowthScore(m: FinancialMetrics): nat {
    ThresholdScore(m.revenueGrowth, 0.10, m.earningsGrowth, 0.10, m.bookValueGrowth, 0.10)
  }

  function PriceRatioScore(m: FinancialMetrics): nat {
    ThresholdScore(m.priceToEarnings, 25.0, m.priceToBook, 3.0, m.priceToSales, 5.0)
  }

  /** The health points test truthiness, so a ratio of exactly zero earns nothing. */
  predicate LiquidityPoint(m: FinancialMetrics) { TruthyNum(m.currentRatio) && m.currentRatio.value > 1.5 }
  predicate LeveragePoint(m: FinancialMetrics) { TruthyNum(m.debtToEquity) && m.debtToEquity.value < 0.5 }
  predicate CashConversionPoint(m: FinancialMetrics) {
    TruthyNum(m.freeCashFlowPerShare) && TruthyNum(m.earningsPerShare) &&
    m.freeCashFlowPerShare.value > m.earningsPerShare.value * 0.8
  }

  function HealthScore(m: FinancialMetrics): (n: nat)
    ensures n <= 3
  {
    Point(LiquidityPoint(m)) + Point(LeveragePoint(m)) + Point(CashConversionPoint(m))
  }

  /** A zero debt-to-equity ratio scores as if it were missing: it does not earn the
      conservative-debt point although 0 < 0.5. Zero current ratio and zero free cash
      flow per share are likewise treated as missing. */
  lemma ZeroRatiosCountAsMissing(m: FinancialMetrics)
    ensures m.debtToEquity == Some(0.0) ==> HealthScore(m) == HealthScore(m.(debtToEquity := None))
    ensures m.currentRatio == Some(0.0) ==> HealthScore(m) == HealthScore(m.(currentRatio := None))
    ensures m.freeCashFlowPerShare == Some(0.0) ==> HealthScore(m) == HealthScore(m.(freeCashFlowPerShare := None))
    ensures m.debtToEquity == Some(0.0) ==> !LeveragePoint(m)
  {
  }

  /** Two or more points is bullish, none bearish, one neutral. */
  function AreaSignal(score: nat): (s: Signal)
    ensures s == Bullish <==> score >= 2
    ensures s == Bearish <==> score == 0
  {
    if score >= 2 then Bullish else if score == 0 then Bearish else Neutral
  }

  /** The price-ratio area reads the other way: expensive on two or more ratios is bearish. */
  function ValuationSignal(score: nat): (s: Signal)
    ensures s == Bearish <==> score >= 2
    ensures s == Bullish <==> score == 0
  {
    if score >= 2 then Bearish else if score == 0 then Bullish else Neutral
  }

  lemma ValuationSignalIsInverted(score: nat)
    ensures ValuationSignal(score) == Opposite(AreaSignal(score))
  {
  }

  /** Profitability, growth, financial health and price ratios, in that order. */
  function AreaSignals(m: FinancialMetrics): (s: seq<Signal>)
    ensures |s| == 4
  {
    [AreaSignal(ProfitabilityScore(m)), AreaSignal(GrowthScore(m)), AreaSignal(HealthScore(m)), ValuationSignal(PriceRatioScore(m))]
  }

  /** A strict majority of bullish over bearish areas, or the reverse; a tie is neutral. */
  function Vote(bullish: nat, bearish: nat): (s: Signal)
    ensures s == Bullish <==> bullish > bearish
    ensures s == Bearish <==> bearish > bullish
    ensures s == Neutral <==> bullish == bearish
  {
    if bullish > bearish then Bullish else if bearish > bullish then Bearish else Neutral
  }

  /** `round(max(bullish, bearish) / 4, 2) * 100`. */
  function Confidence(bullish: nat, bearish: nat): real {
    Round2(MaxInt(bullish, bearish) as real / 4.0) * 100.0
  }

  /** With at most four areas the confidence is a whole quarter: 0, 25, 50, 75 or 100. */
  lemma ConfidenceIsQuarter(bullish: nat, bearish: nat)
    requires bullish <= 4 && bearish <= 4
    ensures Confidence(bullish, bearish) in {0.0, 25.0, 50.0, 75.0, 100.0}
    ensures Confidence(bullish, bearish) == MaxInt(bullish, bearish) as real * 25.0
  {
    var k := MaxInt(bullish, bearish);
    assert k as real / 4.0 == (25 * k) as real / 100.0;
    Round2OfCents(25 * k);
  }

  datatype Report = Report(signal: Signal, confidence: real)

  /** The ticker's entry in `fundamental_analysis`. */
  function FundamentalReport(m: FinancialMetrics): Report {
    var areas := AreaSignals(m);
    var bullish := CountSignal(areas, Bullish);
    var bearish := CountSignal(areas, Bearish);
    Report(Vote(bullish, bearish), Confidence(bullish, bearish))
  }

  /** The report's confidence is the winning side's share of the four areas, as a
      percentage in whole quarters. */
  lemma ReportConfidence(m: FinancialMetrics)
    ensures var areas := AreaSignals(m);
      FundamentalReport(m).confidence == MaxInt(CountSignal(areas, Bullish), CountSignal(areas, Bearish)) as real * 25.0
    ensures FundamentalReport(m).confidence in {0.0, 25.0, 50.0, 75.0, 100.0}
  {
    var areas := AreaSignals(m);
    ConfidenceIsQuarter(CountSignal(areas, Bullish), CountSignal(areas, Bearish));
  }

  /** The inline per-ticker analysis of lines 41-138: build the four signals one by one,
      then vote. */
  method AnalyzeMetrics(m: FinancialMetrics) returns (r: Report)
    ensures r == FundamentalReport(m)
  {
    var signals: seq<Signal> := [];
    signals := signals + [AreaSignal(ProfitabilityScore(m))];
    signals := signals + [AreaSignal(GrowthScore(m))];
    var healthScore := 0;
    if TruthyNum(m.currentRatio) && m.currentRatio.value > 1.5 {
      healthScore := healthScore + 1;
    }
    if TruthyNum(m.debtToEquity) && m.debtToEquity.value < 0.5 {
      healthScore := healthScore + 1;
    }
    if TruthyNum(m.freeCashFlowPerShare) && TruthyNum(m.earningsPerShare) &&
       m.freeCashFlowPerShare.value > m.earningsPerShare.value * 0.8 {
      healthScore := healthScore + 1;
    }
    signals := signals + [AreaSignal(healthScore)];
    signals := signals + [ValuationSignal(PriceRatioScore(m))];
    assert signals == AreaSignals(m);
    var bullish := CountSignal(signals, Bullish);
    var bearish := CountSignal(signals, Bearish);
    var overall := if bullish > bearish then Bullish else if bearish > bullish then Bearish else Neutral;
    r := Report(overall, Round2(MaxInt(bullish, bearish) as real / 4.0) * 100.0);
  }

  function MetricsFor(metricsOf: map<string, seq<FinancialMetrics>>, t: string): seq<FinancialMetrics> {
    if t in metricsOf then metricsOf[t] else []
  }

  /** `fundamentals_analyst_agent`'s loop: a ticker without metrics gets no entry, every
      other ticker the report on its most recent metrics. `metricsOf` stands for what
      `get_financial_metrics` returns per ticker. */
  method FundamentalsAnalyst(tickers: seq<string>, metricsOf: map<string, seq<FinancialMetrics>>) returns (analysis: map<string, Report>)
    ensures forall t :: t in analysis <==> t in tickers && MetricsFor(metricsOf, t) != []
    ensures forall t :: t in analysis ==> analysis[t] == FundamentalReport(MetricsFor(metricsOf, t)[0])
  {
    analysis := map[];
    var i := 0;
    while i < |tickers|
      invariant 0 <= i <= |tickers|
      invariant forall t :: t in analysis <==> t in tickers[..i] && MetricsFor(metricsOf, t) != []
      invariant forall t :: t in analysis ==> analysis[t] == FundamentalReport(MetricsFor(metricsOf, t)[0])
    {
      var ticker := tickers[i];
      TakeSnoc(tickers, i);
      var financialMetrics := MetricsFor(metricsOf, ticker);
      if financialMetrics != [] {
        var report := AnalyzeMetrics(financialMetrics[0]);
        analysis := analysis[ticker := report];
      }
      i := i + 1;
    }
    assert tickers[..i] == tickers;
  }
}
