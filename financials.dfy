/** The records the persona agents score: financial line items, insider trades,
    news items and price bars, each with the fields the agents read, plus the
    clamp-and-scale step every Fisher and Druckenmiller sub-score ends with. */
module Financials {
  import opened Common

  /** The fields of a `FinancialMetrics` record the agents read; `None` where the API
      gave nothing. */
  datatype FinancialMetrics = FinancialMetrics(
    returnOnEquity: Option<real>, netMargin: Option<real>, operatingMargin: Option<real>,
    revenueGrowth: Option<real>, earningsGrowth: Option<real>, bookValueGrowth: Option<real>,
    currentRatio: Option<real>, debtToEquity: Option<real>,
    freeCashFlowPerShare: Option<real>, earningsPerShare: Option<real>,
    priceToEarnings: Option<real>, priceToBook: Option<real>, priceToSales: Option<real>,
    evToEbit: Option<real>)

  /** One period of `search_line_items`; a field the API did not return is `None`. */
  datatype LineItem = LineItem(
    earningsPerShare: Option<real>, revenue: Option<real>, netIncome: Option<real>,
    bookValuePerShare: Option<real>, totalAssets: Option<real>, totalLiabilities: Option<real>,
    currentAssets: Option<real>, currentLiabilities: Option<real>, dividends: Option<real>,
    outstandingShares: Option<real>, freeCashFlow: Option<real>, cashAndEquivalents: Option<real>,
    totalDebt: Option<real>, shareholdersEquity: Option<real>, ebit: Option<real>, ebitda: Option<real>)

  datatype Field =
    | EarningsPerShare | Revenue | NetIncome | BookValuePerShare | TotalAssets | TotalLiabilities
    | CurrentAssets | CurrentLiabilities | Dividends | OutstandingShares | FreeCashFlow
    | CashAndEquivalents | TotalDebt | ShareholdersEquity | Ebit | Ebitda

  function Get(item: LineItem, f: Field): Option<real> {
    match f
    case EarningsPerShare => item.earningsPerShare
    case Revenue => item.revenue
    case NetIncome => item.netIncome
    case BookValuePerShare => item.bookValuePerShare
    case TotalAssets => item.totalAssets
    case TotalLiabilities => item.totalLiabilities
    case CurrentAssets => item.currentAssets
    case CurrentLiabilities => item.currentLiabilities
    case Dividends => item.dividends
    case OutstandingShares => item.outstandingShares
    case FreeCashFlow => item.freeCashFlow
    case CashAndEquivalents => item.cashAndEquivalents
    case TotalDebt => item.totalDebt
    case ShareholdersEquity => item.shareholdersEquity
    case Ebit => item.ebit
    case Ebitda => item.ebitda
  }

  /** How many values are strictly positive. */
  function CountPositive(s: seq<real>): (n: nat)
    ensures n <= |s|
    decreases |s|
  {
    if s == [] then 0 else CountPositive(s[..|s| - 1]) + (if s[|s| - 1] > 0.0 then 1 else 0)
  }

  /** How many values are strictly negative. */
  function CountNegative(s: seq<real>): (n: nat)
    ensures n <= |s|
    decreases |s|
  {
    if s == [] then 0 else CountNegative(s[..|s| - 1]) + (if s[|s| - 1] < 0.0 then 1 else 0)
  }

  lemma {:induction false} CountPositiveAll(s: seq<real>)
    ensures CountPositive(s) == |s| <==> forall i :: 0 <= i < |s| ==> s[i] > 0.0
    decreases |s|
  {
    if s != [] {
      var init := s[..|s| - 1];
      CountPositiveAll(init);
      assert forall i :: 0 <= i < |init| ==> init[i] == s[i];
    }
  }

  /** `[fi.f for fi in items if fi.f is not None]`, in the items' order (newest first). */
  function ValuesOf(items: seq<LineItem>, f: Field): (r: seq<real>)
    ensures |r| <= |items|
    decreases |items|
  {
    if items == [] then []
    else
      var last := Get(items[|items| - 1], f);
      ValuesOf(items[..|items| - 1], f) + (if last.Some? then [last.value] else [])
  }

  /** The first present value is the first item's when that item has the field. */
  lemma {:induction false} ValuesOfHead(items: seq<LineItem>, f: Field)
    requires items != [] && Get(items[0], f).Some?
    ensures ValuesOf(items, f) != [] && ValuesOf(items, f)[0] == Get(items[0], f).value
    decreases |items|
  {
    if |items| > 1 {
      ValuesOfHead(items[..|items| - 1], f);
    }
  }

  /** The value list is empty exactly when no item carries the field. */
  lemma {:induction false} ValuesOfEmpty(items: seq<LineItem>, f: Field)
    ensures ValuesOf(items, f) == [] <==> forall i :: 0 <= i < |items| ==> Get(items[i], f).None?
    decreases |items|
  {
    if items != [] {
      var init := items[..|items| - 1];
      ValuesOfEmpty(init, f);
      assert forall i :: 0 <= i < |init| ==> init[i] == items[i];
    }
  }

  /** The first present value, if any: `values[0] if values else None`. */
  function FirstOf(values: seq<real>): Option<real> {
    if values == [] then None else Some(values[0])
  }

  /** An insider trade; only the share count is read. */
  datatype InsiderTrade = InsiderTrade(transactionShares: Option<real>)

  /** A news item; the title and the sentiment label are read. */
  datatype NewsItem = NewsItem(title: Option<string>, sentiment: Option<string>)

  /** A daily price bar: its timestamp text and closing price. */
  datatype PriceBar = PriceBar(time: string, close: Option<real>)

  /** `min(10, raw / max * 10)`. */
  function Scaled(raw: real, max: real): real
    requires max > 0.0
  {
    MinReal(10.0, raw / max * 10.0)
  }

  /** A raw score between 0 and its maximum scales into [0, 10], proportionally. */
  lemma ScaledInRange(raw: real, max: real)
    requires max > 0.0 && 0.0 <= raw <= max
    ensures 0.0 <= Scaled(raw, max) <= 10.0
    ensures Scaled(raw, max) == raw / max * 10.0
  {
    var q := raw / max;
    assert (q - 1.0) * max == raw - max <= 0.0;
    assert q * max == raw >= 0.0;
  }

  /** A price multiple `numerator / denominator` earns 2 points below `attractive`, 1
      below `fair`, and nothing without a positive denominator (`recent and recent > 0`). */
  function BandedMultiple(numerator: real, denominator: Option<real>, attractive: real, fair: real): (n: nat)
    ensures n <= 2
    ensures denominator.None? || denominator.value <= 0.0 ==> n == 0
    ensures n == 2 <==> denominator.Some? && denominator.value > 0.0 && numerator / denominator.value < attractive
  {
    if denominator.Some? && denominator.value > 0.0 then
      var multiple := numerator / denominator.value;
      if multiple < attractive then 2 else if multiple < fair then 1 else 0
    else 0
  }

  /** Bullish at 7.5 or more, bearish at 4.5 or less, on the 0-10 scale. */
  function TenPointSignal(total: real): (s: Signal)
    ensures s == Bullish <==> total >= 7.5
    ensures s == Bearish <==> total <= 4.5
  {
    if total >= 7.5 then Bullish else if total <= 4.5 then Bearish else Neutral
  }
}
