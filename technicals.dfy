/** The technical analyst: five threshold rules over the latest indicator values and
    the confidence-weighted ensemble that combines them (src/agents/technicals.py).
    The indicators themselves (EMA, ADX, z-scores, Bollinger position, Hurst exponent,
    skew) are inputs. */
module Technicals {
  import opened Common

  datatype StrategySignal = StrategySignal(signal: Signal, confidence: real)

  /** `{"bullish": 1, "neutral": 0, "bearish": -1}`. */
  function SignalValue(s: Signal): (v: int)
    ensures -1 <= v <= 1
    ensures v == 1 <==> s == Bullish
    ensures v == -1 <==> s == Bearish
  {
    match s
    case Bullish => 1
    case Neutral => 0
    case Bearish => -1
  }

  // ------------------------------------------------------------ strategy rules

  /** `calculate_trend_signals`: both EMA crossings up is bullish, both down is bearish,
      each with the ADX as a fraction; a split is neutral at 0.5. */
  function TrendSignal(ema8: real, ema21: real, ema55: real, adx: real): (r: StrategySignal)
    ensures r.signal == Bullish <==> ema8 > ema21 && ema21 > ema55
    ensures r.signal == Bearish <==> ema8 <= ema21 && ema21 <= ema55
    ensures r.signal != Neutral ==> r.confidence == adx / 100.0
    ensures r.signal == Neutral ==> r.confidence == 0.5
  {
    var shortTrend := ema8 > ema21;
    var mediumTrend := ema21 > ema55;
    var strength := adx / 100.0;
    if shortTrend && mediumTrend then StrategySignal(Bullish, strength)
    else if !shortTrend && !mediumTrend then StrategySignal(Bearish, strength)
    else StrategySignal(Neutral, 0.5)
  }

  /** `calculate_mean_reversion_signals`: a price far below its mean and near the lower
      band is bullish, far above and near the upper band bearish. */
  function MeanReversionSignal(z: real, priceVsBb: real): (r: StrategySignal)
    ensures r.signal == Bullish <==> z < -2.0 && priceVsBb < 0.2
    ensures r.signal == Bearish <==> z > 2.0 && priceVsBb > 0.8
    ensures r.signal != Neutral ==> 0.5 < r.confidence <= 1.0 && r.confidence == MinReal(AbsReal(z) / 4.0, 1.0)
    ensures r.signal == Neutral ==> r.confidence == 0.5
  {
    if z < -2.0 && priceVsBb < 0.2 then StrategySignal(Bullish, MinReal(AbsReal(z) / 4.0, 1.0))
    else if z > 2.0 && priceVsBb > 0.8 then StrategySignal(Bearish, MinReal(AbsReal(z) / 4.0, 1.0))
    else StrategySignal(Neutral, 0.5)
  }

  /** The momentum score: 40% one-month, 30% three-month and 30% six-month return. */
  function MomentumScore(m1: real, m3: real, m6: real): real {
    0.4 * m1 + 0.3 * m3 + 0.3 * m6
  }

  /** `calculate_momentum_signals`: a score beyond 0.05 either way, confirmed by volume
      above its average, sets the direction. */
  function MomentumSignal(m1: real, m3: real, m6: real, volumeRatio: real): (r: StrategySignal)
    ensures r.signal == Bullish <==> MomentumScore(m1, m3, m6) > 0.05 && volumeRatio > 1.0
    ensures r.signal == Bearish <==> MomentumScore(m1, m3, m6) < -0.05 && volumeRatio > 1.0
    ensures r.signal != Neutral ==> 0.25 < r.confidence <= 1.0 && r.confidence == MinReal(5.0 * AbsReal(MomentumScore(m1, m3, m6)), 1.0)
    ensures r.signal == Neutral ==> r.confidence == 0.5
  {
    var score := MomentumScore(m1, m3, m6);
    var confirmed := volumeRatio > 1.0;
    if score > 0.05 && confirmed then StrategySignal(Bullish, MinReal(AbsReal(score) * 5.0, 1.0))
    else if score < -0.05 && confirmed then StrategySignal(Bearish, MinReal(AbsReal(score) * 5.0, 1.0))
    else StrategySignal(Neutral, 0.5)
  }

  /** `calculate_volatility_signals`: a low regime with a low volatility z-score is
      bullish, a high regime with a high z-score bearish. */
  function VolatilitySignal(regime: real, volZ: real): (r: StrategySignal)
    ensures r.signal == Bullish <==> regime < 0.8 && volZ < -1.0
    ensures r.signal == Bearish <==> regime > 1.2 && volZ > 1.0
    ensures r.signal != Neutral ==> 1.0 / 3.0 < r.confidence <= 1.0 && r.confidence == MinReal(AbsReal(volZ) / 3.0, 1.0)
    ensures r.signal == Neutral ==> r.confidence == 0.5
  {
    if regime < 0.8 && volZ < -1.0 then StrategySignal(Bullish, MinReal(AbsReal(volZ) / 3.0, 1.0))
    else if regime > 1.2 && volZ > 1.0 then StrategySignal(Bearish, MinReal(AbsReal(volZ) / 3.0, 1.0))
    else StrategySignal(Neutral, 0.5)
  }

  /** `calculate_stat_arb_signals`: a mean-reverting series (Hurst below 0.4) with a
      strong skew takes the skew's direction. */
  function StatArbSignal(hurst: real, skew: real): (r: StrategySignal)
    ensures r.signal == Bullish <==> hurst < 0.4 && skew > 1.0
    ensures r.signal == Bearish <==> hurst < 0.4 && skew < -1.0
    ensures r.signal != Neutral ==> r.confidence > 0.2 && r.confidence == (0.5 - hurst) * 2.0
    ensures r.signal == Neutral ==> r.confidence == 0.5
  {
    if hurst < 0.4 && skew > 1.0 then StrategySignal(Bullish, (0.5 - hurst) * 2.0)
    else if hurst < 0.4 && skew < -1.0 then StrategySignal(Bearish, (0.5 - hurst) * 2.0)
    else StrategySignal(Neutral, 0.5)
  }

  /** The statistical-arbitrage confidence is not capped at 1: a Hurst exponent of -1
      gives confidence 3. */
  lemma StatArbConfidenceUncapped()
    ensures StatArbSignal(-1.0, 2.0) == StrategySignal(Bullish, 3.0)
  {
  }

  /** Mirroring the z-score and the band position mirrors the mean-reversion call. */
  lemma MeanReversionMirror(z: real, priceVsBb: real)
    ensures MeanReversionSignal(-z, 1.0 - priceVsBb).signal == Opposite(MeanReversionSignal(z, priceVsBb).signal)
    ensures MeanReversionSignal(-z, 1.0 - priceVsBb).confidence == MeanReversionSignal(z, priceVsBb).confidence
  {
  }

  /** Negating every return mirrors the momentum call. */
  lemma MomentumMirror(m1: real, m3: real, m6: real, volumeRatio: real)
    ensures MomentumSignal(-m1, -m3, -m6, volumeRatio).signal == Opposite(MomentumSignal(m1, m3, m6, volumeRatio).signal)
    ensures MomentumSignal(-m1, -m3, -m6, volumeRatio).confidence == MomentumSignal(m1, m3, m6, volumeRatio).confidence
  {
  }

  // ------------------------------------------------------------ the ensemble

  /** Signals keyed by strategy name, in the dict's order. */
  type Signals = seq<(string, StrategySignal)>

  predicate AllWeighted(signals: Signals, weights: map<string, real>) {
    forall i :: 0 <= i < |signals| ==> signals[i].0 in weights
  }

  /** Sum of signal value times weight times confidence. */
  function WeightedSum(signals: Signals, weights: map<string, real>): real
    requires AllWeighted(signals, weights)
    decreases |signals|
  {
    if signals == [] then 0.0
    else
      var last := signals[|signals| - 1];
      WeightedSum(signals[..|signals| - 1], weights) + SignalValue(last.1.signal) as real * weights[last.0] * last.1.confidence
  }

  /** Sum of weight times confidence. */
  function TotalConfidence(signals: Signals, weights: map<string, real>): real
    requires AllWeighted(signals, weights)
    decreases |signals|
  {
    if signals == [] then 0.0
    else
      var last := signals[|signals| - 1];
      TotalConfidence(signals[..|signals| - 1], weights) + weights[last.0] * last.1.confidence
  }

  /** The weighted sum normalised by the total confidence, or 0 when that total is not positive. */
  function FinalScore(signals: Signals, weights: map<string, real>): real
    requires AllWeighted(signals, weights)
  {
    var total := TotalConfidence(signals, weights);
    if total > 0.0 then WeightedSum(signals, weights) / total else 0.0
  }

  /** Strict thresholds at plus and minus 0.2. */
  function Direction(score: real): (s: Signal)
    ensures s == Bullish <==> score > 0.2
    ensures s == Bearish <==> score < -0.2
  {
    if score > 0.2 then Bullish else if score < -0.2 then Bearish else Neutral
  }

  /** What `weighted_signal_combination` returns; a strategy without a weight raises `KeyError`. */
  function Combine(signals: Signals, weights: map<string, real>): Result<StrategySignal> {
    if AllWeighted(signals, weights)
    then Success(StrategySignal(Direction(FinalScore(signals, weights)), AbsReal(FinalScore(signals, weights))))
    else Failure("KeyError")
  }

  /** The accumulation loop of `weighted_signal_combination`. */
  method WeightedSignalCombination(signals: Signals, weights: map<string, real>) returns (r: Result<StrategySignal>)
    ensures r == Combine(signals, weights)
  {
    var weightedSum := 0.0;
    var totalConfidence := 0.0;
    var i := 0;
    while i < |signals|
      invariant 0 <= i <= |signals|
      invariant AllWeighted(signals[..i], weights)
      invariant weightedSum == WeightedSum(signals[..i], weights)
      invariant totalConfidence == TotalConfidence(signals[..i], weights)
    {
      var strategy := signals[i].0;
      var signal := signals[i].1;
      if strategy !in weights {
        return Failure("KeyError");
      }
      TakeTake(signals, i);
      var weight := weights[strategy];
      weightedSum := weightedSum + SignalValue(signal.signal) as real * weight * signal.confidence;
      totalConfidence := totalConfidence + weight * signal.confidence;
      i := i + 1;
    }
    assert signals[..i] == signals;
    var finalScore := if totalConfidence > 0.0 then weightedSum / totalConfidence else 0.0;
    var direction := if finalScore > 0.2 then Bullish else if finalScore < -0.2 then Bearish else Neutral;
    r := Success(StrategySignal(direction, AbsReal(finalScore)));
  }

  /** When the weighted confidences do not add up to anything positive the ensemble is
      neutral with confidence 0. */
  lemma NoConfidenceIsNeutral(signals: Signals, weights: map<string, real>)
    requires AllWeighted(signals, weights) && TotalConfidence(signals, weights) <= 0.0
    ensures Combine(signals, weights) == Success(StrategySignal(Neutral, 0.0))
  {
  }

  predicate NonNegative(signals: Signals, weights: map<string, real>)
    requires AllWeighted(signals, weights)
  {
    forall i :: 0 <= i < |signals| ==> weights[signals[i].0] >= 0.0 && signals[i].1.confidence >= 0.0
  }

  /** With non-negative weights and confidences the weighted sum never exceeds the total
      confidence in size. */
  lemma {:induction false} WeightedSumBounded(signals: Signals, weights: map<string, real>)
    requires AllWeighted(signals, weights) && NonNegative(signals, weights)
    ensures 0.0 <= TotalConfidence(signals, weights)
    ensures -TotalConfidence(signals, weights) <= WeightedSum(signals, weights) <= TotalConfidence(signals, weights)
    decreases |signals|
  {
    if signals != [] {
      var init := signals[..|signals| - 1];
      assert forall i :: 0 <= i < |init| ==> init[i] == signals[i];
      WeightedSumBounded(init, weights);
      var last := signals[|signals| - 1];
      var wc := weights[last.0] * last.1.confidence;
      assert wc >= 0.0;
      assert SignalValue(last.1.signal) as real * weights[last.0] * last.1.confidence == SignalValue(last.1.signal) as real * wc;
    }
  }

  lemma QuotientInUnitRange(x: real, y: real)
    requires y > 0.0 && -y <= x <= y
    ensures -1.0 <= x / y <= 1.0
  {
    var q := x / y;
    assert (q - 1.0) * y == x - y <= 0.0;
    assert (q + 1.0) * y == x + y >= 0.0;
  }

  /** The combined confidence is the size of a score in [-1, 1]. */
  lemma CombinedConfidenceInUnitRange(signals: Signals, weights: map<string, real>)
    requires AllWeighted(signals, weights) && NonNegative(signals, weights)
    ensures -1.0 <= FinalScore(signals, weights) <= 1.0
    ensures 0.0 <= Combine(signals, weights).value.confidence <= 1.0
  {
    WeightedSumBounded(signals, weights);
    var total := TotalConfidence(signals, weights);
    if total > 0.0 {
      QuotientInUnitRange(WeightedSum(signals, weights), total);
    }
  }

  predicate AllNeutral(signals: Signals) {
    forall i :: 0 <= i < |signals| ==> signals[i].1.signal == Neutral
  }

  lemma {:induction false} AllNeutralSumsToZero(signals: Signals, weights: map<string, real>)
    requires AllWeighted(signals, weights) && AllNeutral(signals)
    ensures WeightedSum(signals, weights) == 0.0
    decreases |signals|
  {
    if signals != [] {
      var init := signals[..|signals| - 1];
      assert forall i :: 0 <= i < |init| ==> init[i] == signals[i];
      AllNeutralSumsToZero(init, weights);
    }
  }

  /** Neutral strategies alone give a neutral ensemble with confidence 0. */
  lemma AllNeutralIsNeutral(signals: Signals, weights: map<string, real>)
    requires AllWeighted(signals, weights) && AllNeutral(signals)
    ensures Combine(signals, weights) == Success(StrategySignal(Neutral, 0.0))
  {
    AllNeutralSumsToZero(signals, weights);
  }

  /** Every strategy's direction swapped, confidences kept. */
  function Mirror(signals: Signals): (m: Signals)
    ensures |m| == |signals|
    ensures forall i :: 0 <= i < |signals| ==>
      m[i].0 == signals[i].0 && m[i].1 == StrategySignal(Opposite(signals[i].1.signal), signals[i].1.confidence)
  {
    seq(|signals|, i requires 0 <= i < |signals| => (signals[i].0, StrategySignal(Opposite(signals[i].1.signal), signals[i].1.confidence)))
  }

  lemma {:induction false} MirrorSums(signals: Signals, weights: map<string, real>)
    requires AllWeighted(signals, weights)
    ensures AllWeighted(Mirror(signals), weights)
    ensures WeightedSum(Mirror(signals), weights) == -WeightedSum(signals, weights)
    ensures TotalConfidence(Mirror(signals), weights) == TotalConfidence(signals, weights)
    decreases |signals|
  {
    if signals != [] {
      var n := |signals| - 1;
      var init := signals[..n];
      assert forall i :: 0 <= i < |init| ==> init[i] == signals[i];
      MirrorSums(init, weights);
      assert Mirror(signals)[..n] == Mirror(init);
      var last := signals[n];
      assert SignalValue(Opposite(last.1.signal)) == -SignalValue(last.1.signal);
    }
  }

  /** Swapping bullish and bearish in every input negates the score, swaps the
      ensemble's direction and keeps its confidence. */
  lemma MirrorSymmetry(signals: Signals, weights: map<string, real>)
    requires AllWeighted(signals, weights)
    ensures AllWeighted(Mirror(signals), weights)
    ensures FinalScore(Mirror(signals), weights) == -FinalScore(signals, weights)
    ensures Combine(Mirror(signals), weights).value.signal == Opposite(Combine(signals, weights).value.signal)
    ensures Combine(Mirror(signals), weights).value.confidence == Combine(signals, weights).value.confidence
  {
    MirrorSums(signals, weights);
    var total := TotalConfidence(signals, weights);
    if total > 0.0 {
      assert -WeightedSum(signals, weights) / total == -(WeightedSum(signals, weights) / total);
    }
  }

  // ------------------------------------------------------------ the agent's per-ticker report

  /** The latest indicator values for one ticker. */
  datatype Indicators = Indicators(
    ema8: real, ema21: real, ema55: real, adx: real,
    zScore: real, priceVsBb: real,
    mom1m: real, mom3m: real, mom6m: real, volumeMomentum: real,
    volRegime: real, volZ: real,
    hurst: real, skew: real)

  /** The fixed strategy weights of `technical_analyst_agent`. */
  const StrategyWeights: map<string, real> :=
    map["trend" := 0.25, "mean_reversion" := 0.20, "momentum" := 0.25, "volatility" := 0.15, "stat_arb" := 0.15]

  lemma StrategyWeightsSumToOne()
    ensures StrategyWeights["trend"] + StrategyWeights["mean_reversion"] + StrategyWeights["momentum"]
      + StrategyWeights["volatility"] + StrategyWeights["stat_arb"] == 1.0
  {
  }

  function StrategySignals(ind: Indicators): (s: Signals)
    ensures AllWeighted(s, StrategyWeights)
  {
    [("trend", TrendSignal(ind.ema8, ind.ema21, ind.ema55, ind.adx)),
     ("mean_reversion", MeanReversionSignal(ind.zScore, ind.priceVsBb)),
     ("momentum", MomentumSignal(ind.mom1m, ind.mom3m, ind.mom6m, ind.volumeMomentum)),
     ("volatility", VolatilitySignal(ind.volRegime, ind.volZ)),
     ("stat_arb", StatArbSignal(ind.hurst, ind.skew))]
  }

  /** The ticker's entry: the ensemble's direction and its confidence as a rounded percentage. */
  function TechnicalReport(ind: Indicators): (Signal, int) {
    var c := Combine(StrategySignals(ind), StrategyWeights).value;
    (c.signal, RoundHalfEven(c.confidence * 100.0))
  }

  /** With a non-negative ADX every strategy's confidence is non-negative, so the reported
      confidence is a whole percentage between 0 and 100. */
  lemma ReportConfidenceIsPercentage(ind: Indicators)
    requires ind.adx >= 0.0
    ensures 0 <= TechnicalReport(ind).1 <= 100
  {
    var s := StrategySignals(ind);
    assert NonNegative(s, StrategyWeights);
    CombinedConfidenceInUnitRange(s, StrategyWeights);
  }
}
