/** The sentiment analyst (src/agents/sentiment.py): insider trades and news
    sentiment classified one by one, then combined with weights 0.3 and 0.7. */
module Sentiment {
  import opened Common

  /** A trade's share count decides it: selling (negative) is bearish, anything else bullish. */
  function InsiderSignal(shares: real): Signal {
    if shares < 0.0 then Bearish else Bullish
  }

  /** Trades without a share count are dropped; the rest are classified in order. */
  function InsiderSignals(transactionShares: seq<Option<real>>): (s: seq<Signal>)
    ensures |s| == |Present(transactionShares)|
    ensures forall i :: 0 <= i < |s| ==> s[i] == InsiderSignal(Present(transactionShares)[i])
  {
    var shares := Present(transactionShares);
    seq(|shares|, i requires 0 <= i < |shares| => InsiderSignal(shares[i]))
  }

  function NewsSignal(sentiment: string): Signal {
    if sentiment == "negative" then Bearish else if sentiment == "positive" then Bullish else Neutral
  }

  /** Articles without a sentiment are dropped; "negative" is bearish, "positive"
      bullish, any other value neutral. */
  function NewsSignals(sentiments: seq<Option<string>>): (s: seq<Signal>)
    ensures |s| == |Present(sentiments)|
    ensures forall i :: 0 <= i < |s| ==> s[i] == NewsSignal(Present(sentiments)[i])
  {
    var present := Present(sentiments);
    seq(|present|, i requires 0 <= i < |present| => NewsSignal(present[i]))
  }

  /** Insider trades never read neutral. */
  lemma InsidersNeverNeutral(transactionShares: seq<Option<real>>)
    ensures CountSignal(InsiderSignals(transactionShares), Neutral) == 0
  {
    var s := InsiderSignals(transactionShares);
    NoNeutralCountsZero(s);
  }

  lemma {:induction false} NoNeutralCountsZero(s: seq<Signal>)
    requires forall i :: 0 <= i < |s| ==> s[i] != Neutral
    ensures CountSignal(s, Neutral) == 0
    decreases |s|
  {
    if s != [] {
      NoNeutralCountsZero(s[..|s| - 1]);
    }
  }

  const InsiderWeight: real := 0.3
  const NewsWeight: real := 0.7

  /** The weighted number of signals reading `x` from both sources. */
  function Weighted(insider: seq<Signal>, news: seq<Signal>, x: Signal): real {
    CountSignal(insider, x) as real * InsiderWeight + CountSignal(news, x) as real * NewsWeight
  }

  function TotalWeighted(insider: seq<Signal>, news: seq<Signal>): real {
    |insider| as real * InsiderWeight + |news| as real * NewsWeight
  }

  /** Strict comparison of the weighted counts; a tie is neutral. */
  function Overall(insider: seq<Signal>, news: seq<Signal>): (s: Signal)
    ensures s == Bullish <==> Weighted(insider, news, Bullish) > Weighted(insider, news, Bearish)
    ensures s == Bearish <==> Weighted(insider, news, Bearish) > Weighted(insider, news, Bullish)
  {
    var bullish := Weighted(insider, news, Bullish);
    var bearish := Weighted(insider, news, Bearish);
    if bullish > bearish then Bullish else if bearish > bullish then Bearish else Neutral
  }

  /** 0 without signals, else the winning weight's share as a percentage to two places. */
  function OverallConfidence(insider: seq<Signal>, news: seq<Signal>): real {
    var total := TotalWeighted(insider, news);
    if total > 0.0
    then Round2(MaxReal(Weighted(insider, news, Bullish), Weighted(insider, news, Bearish)) / total * 100.0)
    else 0.0
  }

  /** A rounded percentage of a share in [0, 1] stays in [0, 100]. */
  lemma Round2Percentage(x: real)
    requires 0.0 <= x <= 100.0
    ensures 0.0 <= Round2(x) <= 100.0
  {
    var k := RoundHalfEven(x * 100.0);
    assert 0 <= k <= 10000;
  }

  lemma QuotientAtMostOne(x: real, y: real)
    requires y > 0.0 && 0.0 <= x <= y
    ensures 0.0 <= x / y <= 1.0
  {
    var q := x / y;
    assert (q - 1.0) * y == x - y <= 0.0;
  }

  /** The overall confidence lies in [0, 100]: each weighted count is at most the
      weighted total, and neutral articles only add to the total. No signal gives 0. */
  lemma OverallConfidenceBounded(insider: seq<Signal>, news: seq<Signal>)
    ensures 0.0 <= OverallConfidence(insider, news) <= 100.0
    ensures insider == [] && news == [] ==> OverallConfidence(insider, news) == 0.0
  {
    var total := TotalWeighted(insider, news);
    if total > 0.0 {
      var best := MaxReal(Weighted(insider, news, Bullish), Weighted(insider, news, Bearish));
      assert best <= total;
      QuotientAtMostOne(best, total);
      Round2Percentage(best / total * 100.0);
    }
  }

  /** A single source's signal: a strict majority of bullish over bearish or the reverse. */
  function SourceSignal(s: seq<Signal>): (r: Signal)
    ensures r == Bullish <==> CountSignal(s, Bullish) > CountSignal(s, Bearish)
    ensures r == Bearish <==> CountSignal(s, Bearish) > CountSignal(s, Bullish)
  {
    if CountSignal(s, Bullish) > CountSignal(s, Bearish) then Bullish
    else if CountSignal(s, Bearish) > CountSignal(s, Bullish) then Bearish
    else Neutral
  }

  /** `round(max(bullish, bearish) / max(len, 1) * 100)`. */
  function SourceConfidence(s: seq<Signal>): int {
    RoundHalfEven(MaxInt(CountSignal(s, Bullish), CountSignal(s, Bearish)) as real / MaxInt(|s|, 1) as real * 100.0)
  }

  /** A source's confidence is a whole percentage, 0 for an empty source. */
  lemma SourceConfidenceBounded(s: seq<Signal>)
    ensures 0 <= SourceConfidence(s) <= 100
    ensures s == [] ==> SourceConfidence(s) == 0
  {
    var best := MaxInt(CountSignal(s, Bullish), CountSignal(s, Bearish));
    QuotientAtMostOne(best as real, MaxInt(|s|, 1) as real);
  }

  datatype Report = Report(signal: Signal, confidence: real)

  /** The ticker's entry in `sentiment_analysis`. */
  function SentimentReport(transactionShares: seq<Option<real>>, sentiments: seq<Option<string>>): Report {
    var insider := InsiderSignals(transactionShares);
    var news := NewsSignals(sentiments);
    Report(Overall(insider, news), OverallConfidence(insider, news))
  }

  function TradesFor(tradesOf: map<string, seq<Option<real>>>, t: string): seq<Option<real>> {
    if t in tradesOf then tradesOf[t] else []
  }

  function NewsFor(newsOf: map<string, seq<Option<string>>>, t: string): seq<Option<string>> {
    if t in newsOf then newsOf[t] else []
  }

  /** `sentiment_analyst_agent`'s loop: every ticker gets an entry, even one with no
      trades and no news. `tradesOf` and `newsOf` stand for the share counts of
      `get_insider_trades` and the sentiments of `get_company_news` per ticker. */
  method SentimentAnalyst(tickers: seq<string>, tradesOf: map<string, seq<Option<real>>>, newsOf: map<string, seq<Option<string>>>)
    returns (analysis: map<string, Report>)
    ensures analysis.Keys == set t | t in tickers
    ensures forall t :: t in analysis ==> analysis[t] == SentimentReport(TradesFor(tradesOf, t), NewsFor(newsOf, t))
  {
    analysis := map[];
    var i := 0;
    while i < |tickers|
      invariant 0 <= i <= |tickers|
      invariant analysis.Keys == set t | t in tickers[..i]
      invariant forall t :: t in analysis ==> analysis[t] == SentimentReport(TradesFor(tradesOf, t), NewsFor(newsOf, t))
    {
      var ticker := tickers[i];
      TakeSnoc(tickers, i);
      analysis := analysis[ticker := SentimentReport(TradesFor(tradesOf, ticker), NewsFor(newsOf, ticker))];
      i := i + 1;
    }
    assert tickers[..i] == tickers;
  }
}
