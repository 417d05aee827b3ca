/** The portfolio manager's deterministic core: the per-ticker limits read
    from the risk manager, the allowed-actions constraint solver, signal
    compaction, and the reconciliation of the language model's decisions
    (pre-filled holds, merge, and the rule that unanimous neutral signals force
    a hold). The language model itself is an arbitrary input map. */
module PortfolioManager {
  import opened Common

  datatype Action = Buy | Sell | Short | Cover | Hold

  function ActionName(a: Action): string {
    match a
    case Buy => "buy"
    case Sell => "sell"
    case Short => "short"
    case Cover => "cover"
    case Hold => "hold"
  }

  /** A JSON object, read as a Python dict: its (key, value) pairs in order. */
  type Payload = seq<(string, Json)>

  /** One ticker's signals: analyst agent name and that agent's payload, in dict order. */
  type AgentPayloads = seq<(string, Payload)>

  /** `analyst_signals`: agent name and that agent's ticker-to-payload dict, in dict order. */
  type AnalystSignals = seq<(string, map<string, Payload>)>

  /** A held position's share counts; `None` is a missing key or a falsy value. */
  datatype Position = Position(long: Option<int>, short: Option<int>)

  /** The portfolio dict; each `None` is a missing key. `positions` is `None`
      also when the stored value is None or empty. */
  datatype Portfolio = Portfolio(
    cash: Option<real>,
    positions: Option<map<string, Position>>,
    marginRequirement: Option<real>,
    marginUsed: Option<real>,
    equity: Option<real>)

  datatype Decision = Decision(action: Action, quantity: int, confidence: int, reasoning: string)

  // ------------------------------------------------------------ defaults

  function Cash(p: Portfolio): real { if p.cash.Some? then p.cash.value else 0.0 }
  function MarginRequirement(p: Portfolio): real {
    if p.marginRequirement.Some? then p.marginRequirement.value else 0.5
  }
  function MarginUsed(p: Portfolio): real { if p.marginUsed.Some? then p.marginUsed.value else 0.0 }
  function Equity(p: Portfolio): real { if p.equity.Some? then p.equity.value else Cash(p) }

  function HeldPosition(p: Portfolio, t: string): Position {
    if p.positions.Some? && t in p.positions.value then p.positions.value[t]
    else Position(Some(0), Some(0))
  }

  function SharesOf(n: Option<int>): int { if n.Some? then n.value else 0 }

  function PriceOf(prices: map<string, real>, t: string): real {
    if t in prices then prices[t] else 0.0
  }

  function MaxQtyOf(maxShares: map<string, int>, t: string): int {
    if t in maxShares then maxShares[t] else 0
  }

  // ------------------------------------------------------------ limits

  /** The share cap for one ticker: the whole number of shares the remaining
      position limit buys at the current price, and 0 without a positive price. */
  function MaxShares(limit: real, price: real): (n: int)
    ensures price > 0.0 ==> n as real * price <= limit < (n + 1) as real * price
    ensures price <= 0.0 ==> n == 0
  {
    if price > 0.0 then
      var n := FloorDiv(limit, price);
      FloorDivIff(limit, price, n);
      FloorDivIff(limit, price, n + 1);
      n
    else 0
  }

  /** `n` shares at `price` cost no more than `budget`. */
  predicate Affordable(n: int, price: real, budget: real) {
    n as real * price <= budget
  }

  /** The most shares the cash buys, capped by `maxQty`; 0 without cash or a positive price. */
  function BuyQuota(cash: real, price: real, maxQty: int): (b: int)
    ensures 0 <= b
    ensures b > 0 ==> cash > 0.0 && price > 0.0 && b <= maxQty && Affordable(b, price, cash)
    ensures cash > 0.0 && price > 0.0 ==>
      forall n: int :: 0 <= n <= maxQty && Affordable(n, price, cash) ==> n <= b
  {
    if cash > 0.0 && price > 0.0 then
      var f := FloorDiv(cash, price);
      FloorDivIff(cash, price, MinInt(maxQty, f));
      assert forall n: int :: Affordable(n, price, cash) ==> n <= f by {
        forall n: int | Affordable(n, price, cash) ensures n <= f {
          FloorDivIff(cash, price, n);
        }
      }
      MaxInt(0, MinInt(maxQty, f))
    else 0
  }

  /** The margin left for new shorts: equity over the margin requirement, less margin in use. */
  function AvailableMargin(equity: real, marginRequirement: real, marginUsed: real): (m: real)
    requires marginRequirement > 0.0
    ensures m >= 0.0
  {
    MaxReal(0.0, equity / marginRequirement - marginUsed)
  }

  /** The most shares that may be shorted: `maxQty` when no margin is required,
      otherwise also limited by the available margin. */
  function ShortQuota(price: real, maxQty: int, marginRequirement: real, marginUsed: real, equity: real): (s: int)
    ensures 0 <= s
    ensures s > 0 ==> price > 0.0 && s <= maxQty
    ensures price > 0.0 && maxQty > 0 && marginRequirement <= 0.0 ==> s == maxQty
    ensures marginRequirement > 0.0 && s > 0 ==>
      Affordable(s, price, AvailableMargin(equity, marginRequirement, marginUsed))
    ensures price > 0.0 && marginRequirement > 0.0 ==>
      forall n: int :: 0 <= n <= maxQty && Affordable(n, price, AvailableMargin(equity, marginRequirement, marginUsed)) ==> n <= s
  {
    if price > 0.0 && maxQty > 0 then
      if marginRequirement <= 0.0 then maxQty
      else
        var avail := AvailableMargin(equity, marginRequirement, marginUsed);
        var f := FloorDiv(avail, price);
        FloorDivIff(avail, price, MinInt(maxQty, f));
        assert forall n: int :: Affordable(n, price, avail) ==> n <= f by {
          forall n: int | Affordable(n, price, avail) ensures n <= f {
            FloorDivIff(avail, price, n);
          }
        }
        MaxInt(0, MinInt(maxQty, f))
    else 0
  }

  /** Closing capacity: a held share count when it is positive, else 0. */
  function CloseQuota(held: int): int { if held > 0 then held else 0 }

  datatype Quotas = Quotas(buy: int, sell: int, short: int, cover: int)

  function Quota(q: Quotas, k: Action): int {
    match k
    case Buy => q.buy
    case Sell => q.sell
    case Short => q.short
    case Cover => q.cover
    case Hold => 0
  }

  /** The capacities of lines 124-145 for one ticker. */
  function TickerQuotas(t: string, prices: map<string, real>, maxShares: map<string, int>, p: Portfolio): Quotas {
    var price := PriceOf(prices, t);
    var pos := HeldPosition(p, t);
    var maxQty := MaxQtyOf(maxShares, t);
    Quotas(
      BuyQuota(Cash(p), price, maxQty),
      CloseQuota(SharesOf(pos.long)),
      ShortQuota(price, maxQty, MarginRequirement(p), MarginUsed(p), Equity(p)),
      CloseQuota(SharesOf(pos.short)))
  }

  /** The `actions` dict before pruning: every action with its capacity, hold at 0. */
  function Capacities(q: Quotas): map<Action, int> {
    map[Buy := q.buy, Sell := q.sell, Short := q.short, Cover := q.cover, Hold := 0]
  }

  /** Pruning keeps hold at 0 and every other action whose quantity is positive. */
  function PruneZero(actions: map<Action, int>): (m: map<Action, int>)
    ensures Hold in m && m[Hold] == 0
    ensures forall k :: k in m && k != Hold ==> k in actions && actions[k] > 0 && m[k] == actions[k]
    ensures forall k :: k in actions && k != Hold && actions[k] > 0 ==> k in m
  {
    map k | k in actions.Keys + {Hold} && (k == Hold || actions[k] > 0) :: if k == Hold then 0 else actions[k]
  }

  function AllowedFor(t: string, prices: map<string, real>, maxShares: map<string, int>, p: Portfolio): map<Action, int> {
    PruneZero(Capacities(TickerQuotas(t, prices, maxShares, p)))
  }

  /** The capacity computation of one iteration of `compute_allowed_actions` (lines 121-148). */
  method TickerCapacities(cash: real, price: real, longShares: int, shortShares: int, maxQty: int,
                          marginRequirement: real, marginUsed: real, equity: real)
    returns (actions: map<Action, int>)
    ensures actions == Capacities(Quotas(
      BuyQuota(cash, price, maxQty), CloseQuota(longShares),
      ShortQuota(price, maxQty, marginRequirement, marginUsed, equity), CloseQuota(shortShares)))
  {
    actions := map[Buy := 0, Sell := 0, Short := 0, Cover := 0, Hold := 0];
    if longShares > 0 {
      actions := actions[Sell := longShares];
    }
    if cash > 0.0 && price > 0.0 {
      var maxBuyCash := (cash / price).Floor;
      var maxBuy := MaxInt(0, MinInt(maxQty, maxBuyCash));
      if maxBuy > 0 {
        actions := actions[Buy := maxBuy];
      }
    }
    if shortShares > 0 {
      actions := actions[Cover := shortShares];
    }
    if price > 0.0 && maxQty > 0 {
      var maxShort;
      if marginRequirement <= 0.0 {
        maxShort := maxQty;
      } else {
        var availableMargin := MaxReal(0.0, equity / marginRequirement - marginUsed);
        var maxShortMargin := (availableMargin / price).Floor;
        maxShort := MaxInt(0, MinInt(maxQty, maxShortMargin));
      }
      if maxShort > 0 {
        actions := actions[Short := maxShort];
      }
    }
    actions := actions[Hold := 0];
  }

  /** The pruning loop of lines 151-154, visiting the actions in dict order `order`. */
  method Prune(actions: map<Action, int>, order: seq<Action>) returns (pruned: map<Action, int>)
    requires forall k :: k in actions <==> k in order
    ensures pruned == PruneZero(actions)
  {
    pruned := map[Hold := 0];
    var j := 0;
    while j < |order|
      invariant 0 <= j <= |order|
      invariant Hold in pruned && pruned[Hold] == 0
      invariant forall k :: k in pruned && k != Hold ==> k in actions && actions[k] > 0 && pruned[k] == actions[k]
      invariant forall k :: k in order[..j] && k != Hold && actions[k] > 0 ==> k in pruned
    {
      var k := order[j];
      if k != Hold && actions[k] > 0 {
        pruned := pruned[k := actions[k]];
      }
      TakeSnoc(order, j);
      j := j + 1;
    }
    assert order[..j] == order;
    assert pruned.Keys == PruneZero(actions).Keys;
  }

  /** The body of the ticker loop of `compute_allowed_actions`. */
  method AllowedForTicker(ticker: string, prices: map<string, real>, maxShares: map<string, int>, portfolio: Portfolio,
                          cash: real, positions: map<string, Position>, marginRequirement: real, marginUsed: real, equity: real)
    returns (pruned: map<Action, int>)
    requires cash == Cash(portfolio)
    requires positions == (if portfolio.positions.Some? then portfolio.positions.value else map[])
    requires marginRequirement == (if portfolio.marginRequirement.Some? then portfolio.marginRequirement.value else 0.5)
    requires marginUsed == (if portfolio.marginUsed.Some? then portfolio.marginUsed.value else 0.0)
    requires equity == (if portfolio.equity.Some? then portfolio.equity.value else cash)
    ensures pruned == AllowedFor(ticker, prices, maxShares, portfolio)
  {
    var price := if ticker in prices then prices[ticker] else 0.0;
    var pos := if ticker in positions then positions[ticker] else Position(Some(0), Some(0));
    var longShares := if pos.long.Some? then pos.long.value else 0;
    var shortShares := if pos.short.Some? then pos.short.value else 0;
    var maxQty := if ticker in maxShares then maxShares[ticker] else 0;
    assert pos == HeldPosition(portfolio, ticker);
    assert price == PriceOf(prices, ticker) && maxQty == MaxQtyOf(maxShares, ticker);
    assert longShares == SharesOf(pos.long) && shortShares == SharesOf(pos.short);
    var actions := TickerCapacities(cash, price, longShares, shortShares, maxQty, marginRequirement, marginUsed, equity);
    assert actions == Capacities(TickerQuotas(ticker, prices, maxShares, portfolio));
    pruned := Prune(actions, [Buy, Sell, Short, Cover, Hold]);
  }

  /** `compute_allowed_actions`: one pruned map per ticker. */
  method ComputeAllowedActions(tickers: seq<string>, prices: map<string, real>, maxShares: map<string, int>, portfolio: Portfolio)
    returns (allowed: map<string, map<Action, int>>)
    ensures allowed.Keys == set t | t in tickers
    ensures forall t :: t in allowed ==> allowed[t] == AllowedFor(t, prices, maxShares, portfolio)
  {
    var cash := if portfolio.cash.Some? then portfolio.cash.value else 0.0;
    var positions := if portfolio.positions.Some? then portfolio.positions.value else map[];
    var marginRequirement := if portfolio.marginRequirement.Some? then portfolio.marginRequirement.value else 0.5;
    var marginUsed := if portfolio.marginUsed.Some? then portfolio.marginUsed.value else 0.0;
    var equity := if portfolio.equity.Some? then portfolio.equity.value else cash;

    allowed := map[];
    var i := 0;
    while i < |tickers|
      invariant 0 <= i <= |tickers|
      invariant forall t :: t in allowed <==> t in tickers[..i]
      invariant forall t :: t in allowed ==> allowed[t] == AllowedFor(t, prices, maxShares, portfolio)
    {
      var ticker := tickers[i];
      var pruned := AllowedForTicker(ticker, prices, maxShares, portfolio, cash, positions, marginRequirement, marginUsed, equity);
      TakeSnoc(tickers, i);
      allowed := allowed[ticker := pruned];
      i := i + 1;
    }
    assert tickers[..i] == tickers;
  }

  /** Every allowed map offers hold at 0, and every other action it offers has a positive quantity. */
  lemma AllowedShape(t: string, prices: map<string, real>, maxShares: map<string, int>, p: Portfolio)
    ensures var m := AllowedFor(t, prices, maxShares, p);
      Hold in m && m[Hold] == 0 && forall k :: k in m && k != Hold ==> m[k] > 0
  {
  }

  /** Selling closes exactly the long position and covering exactly the short one;
      each is offered iff that position is positive. */
  lemma SellAndCoverMatchPosition(t: string, prices: map<string, real>, maxShares: map<string, int>, p: Portfolio)
    ensures var m := AllowedFor(t, prices, maxShares, p);
      var pos := HeldPosition(p, t);
      (Sell in m <==> SharesOf(pos.long) > 0) && (Sell in m ==> m[Sell] == SharesOf(pos.long)) &&
      (Cover in m <==> SharesOf(pos.short) > 0) && (Cover in m ==> m[Cover] == SharesOf(pos.short))
  {
  }

  /** The offered buy quantity is the largest whole number of shares that is
      within the cap and affordable with the cash. */
  lemma BuyIsLargestAffordable(t: string, prices: map<string, real>, maxShares: map<string, int>, p: Portfolio)
    ensures var m := AllowedFor(t, prices, maxShares, p);
      var price := PriceOf(prices, t);
      var cap := MaxQtyOf(maxShares, t);
      (Buy in m ==> m[Buy] <= cap && Affordable(m[Buy], price, Cash(p)) && price > 0.0 && Cash(p) > 0.0) &&
      (Cash(p) > 0.0 && price > 0.0 ==>
        forall n: int :: 1 <= n <= cap && Affordable(n, price, Cash(p)) ==> Buy in m && n <= m[Buy])
  {
    var q := TickerQuotas(t, prices, maxShares, p);
    assert q.buy == BuyQuota(Cash(p), PriceOf(prices, t), MaxQtyOf(maxShares, t));
    assert Capacities(q)[Buy] == q.buy;
  }

  /** Shorting needs a positive price and cap; without a margin requirement it
      is the whole cap, otherwise the largest count the available margin covers. */
  lemma ShortIsLargestCovered(t: string, prices: map<string, real>, maxShares: map<string, int>, p: Portfolio)
    ensures var m := AllowedFor(t, prices, maxShares, p);
      var price := PriceOf(prices, t);
      var cap := MaxQtyOf(maxShares, t);
      var mr := MarginRequirement(p);
      (Short in m ==> price > 0.0 && cap > 0 && m[Short] <= cap) &&
      (price > 0.0 && cap > 0 && mr <= 0.0 ==> Short in m && m[Short] == cap) &&
      (mr > 0.0 && Short in m ==> Affordable(m[Short], price, AvailableMargin(Equity(p), mr, MarginUsed(p)))) &&
      (price > 0.0 && mr > 0.0 ==>
        forall n: int :: 1 <= n <= cap && Affordable(n, price, AvailableMargin(Equity(p), mr, MarginUsed(p))) ==>
          Short in m && n <= m[Short])
  {
    var q := TickerQuotas(t, prices, maxShares, p);
    assert q.short == ShortQuota(PriceOf(prices, t), MaxQtyOf(maxShares, t), MarginRequirement(p), MarginUsed(p), Equity(p));
    assert Capacities(q)[Short] == q.short;
  }

  /** An empty portfolio dict: no cash, no positions, margin requirement 0.5 and
      equity equal to the (zero) cash, so only hold is possible for any ticker. */
  lemma EmptyPortfolioOnlyHolds(t: string, prices: map<string, real>, maxShares: map<string, int>)
    ensures AllowedFor(t, prices, maxShares, Portfolio(None, None, None, None, None)) == map[Hold := 0]
  {
    var m := AllowedFor(t, prices, maxShares, Portfolio(None, None, None, None, None));
    assert forall k :: k in m ==> k == Hold;
  }

  // ------------------------------------------------------------ risk data and signals

  /** The risk manager paired with a portfolio manager: `risk_management_agent_<suffix>`
      for `portfolio_manager_<...>_<suffix>`, else `risk_management_agent`. */
  function RiskManagerId(agentId: string): (r: string)
    ensures StartsWith(r, "risk_management_agent")
    ensures !StartsWith(agentId, "portfolio_manager_") ==> r == "risk_management_agent"
    ensures StartsWith(agentId, "portfolio_manager_") ==> StartsWith(r, "risk_management_agent_")
    ensures StartsWith(agentId, "portfolio_manager_") ==> r == "risk_management_agent_" + AfterLast(agentId, '_')
    ensures StartsWith(agentId, "portfolio_manager_") ==>
      var suffix := r[|"risk_management_agent_"|..];
      && EndsWith(agentId, suffix) && (forall i :: 0 <= i < |suffix| ==> suffix[i] != '_')
      && |suffix| < |agentId| && agentId[|agentId| - |suffix| - 1] == '_'
  {
    if StartsWith(agentId, "portfolio_manager_") then
      var suffix := AfterLast(agentId, '_');
      assert agentId[17] == "portfolio_manager_"[17];
      var r := "risk_management_agent_" + suffix;
      assert r[..|"risk_management_agent"|] == "risk_management_agent";
      assert r[|"risk_management_agent_"|..] == suffix;
      r
    else "risk_management_agent"
  }

  /** `float(v)` for a JSON number or bool; `None` where Python raises. */
  function AsNumber(v: Json): (r: Option<real>)
    ensures r.Some? <==> v.JInt? || v.JReal? || v.JBool?
    ensures v.JInt? ==> r == Some(v.i as real)
    ensures v.JReal? ==> r == Some(v.r)
  {
    match v
    case JInt(i) => Some(i as real)
    case JReal(r) => Some(r)
    case JBool(b) => Some(if b then 1.0 else 0.0)
    case _ => None
  }

  /** A numeric field of a risk payload, 0.0 when missing; `None` when it is not a number. */
  function RiskNumber(risk: Payload, key: string): Option<real> {
    match AssocGet(risk, key)
    case None => Some(0.0)
    case Some(v) => AsNumber(v)
  }

  function RiskEntry(signals: AnalystSignals, riskId: string, t: string): Payload {
    match AssocGet(signals, riskId)
    case None => []
    case Some(byTicker) => if t in byTicker then byTicker[t] else []
  }

  /** The analyst signal as read through `sig` or else `signal`. */
  function Sig(p: Payload): Json {
    PyOr(GetOrNull(p, "sig"), GetOrNull(p, "signal"))
  }

  /** The analyst confidence: `conf` when that key exists (even if None), else `confidence`. */
  function Conf(p: Payload): Json {
    if HasKey(p, "conf") then GetOrNull(p, "conf") else GetOrNull(p, "confidence")
  }

  function SigConfPayload(sig: Json, conf: Json): Payload { [("sig", sig), ("conf", conf)] }

  /** A compacted payload gives back the `sig` and `conf` stored in it. */
  lemma SigConfPayloadFields(sig: Json, conf: Json)
    ensures GetOrNull(SigConfPayload(sig, conf), "sig") == sig
    ensures Conf(SigConfPayload(sig, conf)) == conf
  {
    var p := SigConfPayload(sig, conf);
    assert "sig" != "conf" by { assert |"sig"| != |"conf"|; }
    assert p[..1] == [("sig", sig)];
    assert AssocGet(p, "sig") == AssocGet(p[..1], "sig") == Some(sig);
  }

  /** The compact payload of an analyst's report: its `signal` and `confidence`. */
  function ReportedPayload(report: Payload): Payload {
    SigConfPayload(GetOrNull(report, "signal"), GetOrNull(report, "confidence"))
  }

  /** One analyst's entry for a ticker, as the agent loop records it. */
  function AnalystEntry(agent: string, byTicker: map<string, Payload>, t: string): seq<(string, Payload)> {
    if !StartsWith(agent, "risk_management_agent") && t in byTicker
       && GetOrNull(byTicker[t], "signal") != JNull && GetOrNull(byTicker[t], "confidence") != JNull
    then [(agent, SigConfPayload(GetOrNull(byTicker[t], "signal"), GetOrNull(byTicker[t], "confidence")))]
    else []
  }

  /** The signals kept for ticker `t`, agent by agent (lines 58-65). */
  function TickerSignals(signals: AnalystSignals, t: string): AgentPayloads
    decreases |signals|
  {
    if signals == [] then []
    else
      var last := signals[|signals| - 1];
      TickerSignals(signals[..|signals| - 1], t) + AnalystEntry(last.0, last.1, t)
  }

  /** Only analysts report signals: no risk-manager entry is kept, and every kept entry
      stores a non-None `sig` and `conf`. */
  lemma {:induction false} TickerSignalsAreAnalysts(signals: AnalystSignals, t: string)
    ensures forall i :: 0 <= i < |TickerSignals(signals, t)| ==>
      var e := TickerSignals(signals, t)[i];
      !StartsWith(e.0, "risk_management_agent") && GetOrNull(e.1, "sig") != JNull && Conf(e.1) != JNull &&
      (exists j :: 0 <= j < |signals| && signals[j].0 == e.0 && t in signals[j].1 && e.1 == ReportedPayload(signals[j].1[t]))
    decreases |signals|
  {
    if signals != [] {
      var init := signals[..|signals| - 1];
      var last := signals[|signals| - 1];
      TickerSignalsAreAnalysts(init, t);
      var s := TickerSignals(signals, t);
      forall i | 0 <= i < |s|
        ensures !StartsWith(s[i].0, "risk_management_agent") && GetOrNull(s[i].1, "sig") != JNull && Conf(s[i].1) != JNull &&
          (exists j :: 0 <= j < |signals| && signals[j].0 == s[i].0 && t in signals[j].1 && s[i].1 == ReportedPayload(signals[j].1[t]))
      {
        if i < |TickerSignals(init, t)| {
          assert s[i] == TickerSignals(init, t)[i];
          var j :| 0 <= j < |init| && init[j].0 == s[i].0 && t in init[j].1 && s[i].1 == ReportedPayload(init[j].1[t]);
          assert signals[j] == init[j];
        } else {
          assert s[i] == AnalystEntry(last.0, last.1, t)[0];
          assert signals[|signals| - 1] == last;
          var payload := last.1[t];
          SigConfPayloadFields(GetOrNull(payload, "signal"), GetOrNull(payload, "confidence"));
        }
      }
    }
  }

  /** Every analyst other than a risk manager that reports on `t` with a non-None
      `signal` and `confidence` has an entry holding exactly those two values. */
  lemma {:induction false} TickerSignalsKeepAnalysts(signals: AnalystSignals, t: string, j: nat)
    requires j < |signals| && !StartsWith(signals[j].0, "risk_management_agent") && t in signals[j].1
    requires GetOrNull(signals[j].1[t], "signal") != JNull && GetOrNull(signals[j].1[t], "confidence") != JNull
    ensures (signals[j].0, ReportedPayload(signals[j].1[t])) in TickerSignals(signals, t)
    decreases |signals|
  {
    var init := signals[..|signals| - 1];
    if j < |signals| - 1 {
      assert signals[j] == init[j];
      TickerSignalsKeepAnalysts(init, t, j);
    } else {
      assert AnalystEntry(signals[j].0, signals[j].1, t) == [(signals[j].0, ReportedPayload(signals[j].1[t]))];
    }
  }

  datatype Inputs = Inputs(prices: map<string, real>, maxShares: map<string, int>, signals: map<string, AgentPayloads>)

  /** The price and share cap of one ticker (lines 47-55), or `None` where Python raises
      `TypeError`: a current price that is not a number, or, with a positive price, a
      remaining limit that is not one. */
  function RiskFigures(signals: AnalystSignals, riskId: string, t: string): (r: Option<(real, int)>)
    ensures var risk := RiskEntry(signals, riskId, t);
      var price := RiskNumber(risk, "current_price");
      var limit := RiskNumber(risk, "remaining_position_limit");
      (r.Some? <==> price.Some? && (price.value > 0.0 ==> limit.Some?)) &&
      (r.Some? ==> r.value.0 == price.value) &&
      (r.Some? && price.value > 0.0 ==>
        Affordable(r.value.1, price.value, limit.value) && !Affordable(r.value.1 + 1, price.value, limit.value)) &&
      (r.Some? && price.value <= 0.0 ==> r.value.1 == 0)
  {
    var risk := RiskEntry(signals, riskId, t);
    match RiskNumber(risk, "current_price")
    case None => None
    case Some(price) =>
      if price > 0.0 then
        match RiskNumber(risk, "remaining_position_limit")
        case None => None
        case Some(limit) => Some((price, MaxShares(limit, price)))
      else Some((price, 0))
  }

  /** Lines 47-55 for one ticker: the risk manager's price and the share cap. */
  method ReadRiskFigures(signals: AnalystSignals, riskId: string, ticker: string) returns (r: Option<(real, int)>)
    ensures r == RiskFigures(signals, riskId, ticker)
  {
    var risk := RiskEntry(signals, riskId, ticker);
    var price := RiskNumber(risk, "current_price");
    if price.None? {
      return None;
    }
    if price.value > 0.0 {
      var limit := RiskNumber(risk, "remaining_position_limit");
      if limit.None? {
        return None;
      }
      r := Some((price.value, (limit.value / price.value).Floor));
    } else {
      r := Some((price.value, 0));
    }
  }

  /** The signal-collecting loop of lines 58-64 for one ticker. */
  method AnalystSignalsFor(signals: AnalystSignals, ticker: string) returns (tickerSignals: AgentPayloads)
    ensures tickerSignals == TickerSignals(signals, ticker)
  {
    tickerSignals := [];
    var j := 0;
    while j < |signals|
      invariant 0 <= j <= |signals|
      invariant tickerSignals == TickerSignals(signals[..j], ticker)
    {
      var agent := signals[j].0;
      var perTicker := signals[j].1;
      if !StartsWith(agent, "risk_management_agent") && ticker in perTicker {
        var sig := GetOrNull(perTicker[ticker], "signal");
        var conf := GetOrNull(perTicker[ticker], "confidence");
        if sig != JNull && conf != JNull {
          tickerSignals := tickerSignals + [(agent, SigConfPayload(sig, conf))];
        }
      }
      TakeTake(signals, j);
      j := j + 1;
    }
    assert signals[..j] == signals;
  }

  /** The first half of `portfolio_management_agent`: the price, share cap and
      analyst signals of each ticker, or a `TypeError` when a risk figure is not a number. */
  method CollectInputs(agentId: string, tickers: seq<string>, signals: AnalystSignals) returns (r: Result<Inputs>)
    ensures r.Success? <==> forall t :: t in tickers ==> RiskFigures(signals, RiskManagerId(agentId), t).Some?
    ensures r.Success? ==>
      (forall t :: t in r.value.prices <==> t in tickers) &&
      (forall t :: t in r.value.maxShares <==> t in tickers) &&
      (forall t :: t in r.value.signals <==> t in tickers) &&
      forall t :: t in tickers ==>
        RiskFigures(signals, RiskManagerId(agentId), t) == Some((r.value.prices[t], r.value.maxShares[t])) &&
        r.value.signals[t] == TickerSignals(signals, t)
  {
    var riskId := RiskManagerId(agentId);
    var prices: map<string, real> := map[];
    var maxShares: map<string, int> := map[];
    var byTicker: map<string, AgentPayloads> := map[];
    var i := 0;
    while i < |tickers|
      invariant 0 <= i <= |tickers|
      invariant forall t :: t in prices <==> t in tickers[..i]
      invariant forall t :: t in maxShares <==> t in prices
      invariant forall t :: t in byTicker <==> t in prices
      invariant forall t :: t in tickers[..i] ==>
        RiskFigures(signals, riskId, t) == Some((prices[t], maxShares[t])) && byTicker[t] == TickerSignals(signals, t)
    {
      var ticker := tickers[i];
      var figures := ReadRiskFigures(signals, riskId, ticker);
      if figures.None? {
        return Failure("TypeError");
      }
      prices := prices[ticker := figures.value.0];
      maxShares := maxShares[ticker := figures.value.1];
      var tickerSignals := AnalystSignalsFor(signals, ticker);
      byTicker := byTicker[ticker := tickerSignals];
      TakeSnoc(tickers, i);
      i := i + 1;
    }
    assert tickers[..i] == tickers;
    r := Success(Inputs(prices, maxShares, byTicker));
  }

  // ------------------------------------------------------------ compaction

  datatype SigConf = SigConf(sig: Json, conf: Json)

  /** The compact form of one ticker's agents: those with a non-None signal and confidence. */
  function CompactAgents(agents: AgentPayloads): seq<(string, SigConf)>
    decreases |agents|
  {
    if agents == [] then []
    else
      var last := agents[|agents| - 1];
      CompactAgents(agents[..|agents| - 1]) +
        (if Sig(last.1) != JNull && Conf(last.1) != JNull then [(last.0, SigConf(Sig(last.1), Conf(last.1)))] else [])
  }

  /** An agent's compact entry exists exactly when its payload has both a
      signal and a confidence, and it then carries those two values. */
  lemma CompactKeepsIff(agents: AgentPayloads, agent: string, sc: SigConf)
    ensures (agent, sc) in CompactAgents(agents) <==>
      exists i :: 0 <= i < |agents| && Contributes(agents[i], agent, sc)
  {
    if (agent, sc) in CompactAgents(agents) {
      CompactEntryHasSource(agents, agent, sc);
    }
    if exists i :: 0 <= i < |agents| && Contributes(agents[i], agent, sc) {
      var i :| 0 <= i < |agents| && Contributes(agents[i], agent, sc);
      CompactEntryFromSource(agents, agent, sc, i);
    }
  }

  lemma {:induction false} CompactEntryHasSource(agents: AgentPayloads, agent: string, sc: SigConf)
    requires (agent, sc) in CompactAgents(agents)
    ensures exists i :: 0 <= i < |agents| && Contributes(agents[i], agent, sc)
    decreases |agents|
  {
    var init := agents[..|agents| - 1];
    var last := agents[|agents| - 1];
    var tail := if Sig(last.1) != JNull && Conf(last.1) != JNull then [(last.0, SigConf(Sig(last.1), Conf(last.1)))] else [];
    assert CompactAgents(agents) == CompactAgents(init) + tail;
    if (agent, sc) in CompactAgents(init) {
      CompactEntryHasSource(init, agent, sc);
      var i :| 0 <= i < |init| && Contributes(init[i], agent, sc);
      assert agents[i] == init[i];
    } else {
      assert (agent, sc) in tail;
      assert Contributes(agents[|agents| - 1], agent, sc);
    }
  }

  lemma {:induction false} CompactEntryFromSource(agents: AgentPayloads, agent: string, sc: SigConf, i: nat)
    requires i < |agents| && Contributes(agents[i], agent, sc)
    ensures (agent, sc) in CompactAgents(agents)
    decreases |agents|
  {
    var init := agents[..|agents| - 1];
    var last := agents[|agents| - 1];
    var tail := if Sig(last.1) != JNull && Conf(last.1) != JNull then [(last.0, SigConf(Sig(last.1), Conf(last.1)))] else [];
    assert CompactAgents(agents) == CompactAgents(init) + tail;
    if i < |init| {
      assert init[i] == agents[i];
      CompactEntryFromSource(init, agent, sc, i);
    } else {
      assert agents[i] == last;
      assert tail == [(agent, sc)];
    }
  }

  /** The agent entry `p` yields the compact entry `(agent, sc)`. */
  predicate Contributes(p: (string, Payload), agent: string, sc: SigConf) {
    p.0 == agent && Sig(p.1) != JNull && Conf(p.1) != JNull && sc == SigConf(Sig(p.1), Conf(p.1))
  }

  /** `_compact_signals`: each ticker's agents reduced to `{sig, conf}`. */
  method CompactSignals(signalsByTicker: map<string, AgentPayloads>) returns (out: map<string, seq<(string, SigConf)>>)
    ensures out.Keys == signalsByTicker.Keys
    ensures forall t :: t in out ==> out[t] == CompactAgents(signalsByTicker[t])
  {
    out := map[];
    var remaining := signalsByTicker.Keys;
    while remaining != {}
      invariant remaining <= signalsByTicker.Keys
      invariant out.Keys == signalsByTicker.Keys - remaining
      invariant forall t :: t in out ==> out[t] == CompactAgents(signalsByTicker[t])
      decreases remaining
    {
      var t :| t in remaining;
      var agents := signalsByTicker[t];
      if agents == [] {
        out := out[t := []];
      } else {
        var compact := [];
        var j := 0;
        while j < |agents|
          invariant 0 <= j <= |agents|
          invariant compact == CompactAgents(agents[..j])
        {
          var payload := agents[j].1;
          var sig := PyOr(GetOrNull(payload, "sig"), GetOrNull(payload, "signal"));
          var conf := if HasKey(payload, "conf") then GetOrNull(payload, "conf") else GetOrNull(payload, "confidence");
          if sig != JNull && conf != JNull {
            compact := compact + [(agents[j].0, SigConf(sig, conf))];
          }
          TakeTake(agents, j);
          j := j + 1;
        }
        assert agents[..j] == agents;
        out := out[t := compact];
      }
      remaining := remaining - {t};
    }
  }

  // ------------------------------------------------------------ reconciliation

  datatype Counts = Counts(bullish: nat, bearish: nat, neutral: nat)

  /** The agent's signal is a string that lower-cases to `direction`. */
  predicate SaysDirection(p: Payload, direction: string) {
    Sig(p).JStr? && Lower(Sig(p).s) == direction
  }

  /** A signal the tally accepts: falsy (skipped) or a string; `.lower()` raises
      `AttributeError` on anything else. */
  predicate WellTypedSig(p: Payload) { !Truthy(Sig(p)) || Sig(p).JStr? }

  /** How many agents' signals read `direction`. */
  function CountSaying(agents: AgentPayloads, direction: string): nat
    decreases |agents|
  {
    if agents == [] then 0
    else CountSaying(agents[..|agents| - 1], direction) + (if SaysDirection(agents[|agents| - 1].1, direction) then 1 else 0)
  }

  /** The signal counts of lines 352-365: agents whose signal reads bullish, bearish and
      neutral in any letter case; other text is not counted. */
  function Tally(agents: AgentPayloads): Result<Counts> {
    if forall i :: 0 <= i < |agents| ==> WellTypedSig(agents[i].1)
    then Success(Counts(CountSaying(agents, "bullish"), CountSaying(agents, "bearish"), CountSaying(agents, "neutral")))
    else Failure("AttributeError")
  }

  predicate UnanimousNeutral(c: Counts) { c.neutral > 0 && c.bullish == 0 && c.bearish == 0 }

  /** The source's form of the test: a positive total that is all neutral. */
  lemma UnanimousNeutralIsAllNeutral(c: Counts)
    ensures UnanimousNeutral(c) <==>
      c.bullish + c.bearish + c.neutral > 0 && c.neutral == c.bullish + c.bearish + c.neutral && c.bullish == 0 && c.bearish == 0
  {
  }

  /** A direction's count is zero exactly when no agent's signal reads that direction. */
  lemma {:induction false} CountSayingZero(agents: AgentPayloads, direction: string)
    ensures CountSaying(agents, direction) == 0 <==> forall i :: 0 <= i < |agents| ==> !SaysDirection(agents[i].1, direction)
    decreases |agents|
  {
    if agents != [] {
      var init := agents[..|agents| - 1];
      CountSayingZero(init, direction);
      assert forall i :: 0 <= i < |init| ==> agents[i] == init[i];
    }
  }

  /** The tally succeeds with a unanimous neutral vote exactly when every truthy
      signal is a string, at least one reads "neutral" in any case, and none reads
      "bullish" or "bearish"; signals with other text are ignored. */
  lemma TallyNeutralIff(agents: AgentPayloads)
    ensures (Tally(agents).Success? && UnanimousNeutral(Tally(agents).value)) <==>
      (forall i :: 0 <= i < |agents| ==> WellTypedSig(agents[i].1)) &&
      (exists i :: 0 <= i < |agents| && SaysDirection(agents[i].1, "neutral")) &&
      (forall i :: 0 <= i < |agents| ==> !SaysDirection(agents[i].1, "bullish") && !SaysDirection(agents[i].1, "bearish"))
  {
    CountSayingZero(agents, "bullish");
    CountSayingZero(agents, "bearish");
    CountSayingZero(agents, "neutral");
  }

  /** The counting loop of lines 352-365 over one ticker's agents. */
  lemma CountSayingStep(agents: AgentPayloads, j: nat, direction: string)
    requires j < |agents|
    ensures CountSaying(agents[..j + 1], direction) ==
      CountSaying(agents[..j], direction) + (if SaysDirection(agents[j].1, direction) then 1 else 0)
  {
    TakeTake(agents, j);
  }

  /** One agent's part of the tally: whether its signal can be lower-cased, and which
      count it adds to. */
  method ClassifySignal(p: Payload) returns (wellTyped: bool, isBullish: bool, isBearish: bool, isNeutral: bool)
    ensures wellTyped == WellTypedSig(p)
    ensures wellTyped ==> isBullish == SaysDirection(p, "bullish") && isBearish == SaysDirection(p, "bearish") &&
                          isNeutral == SaysDirection(p, "neutral")
    ensures (isBullish ==> !isBearish && !isNeutral) && (isBearish ==> !isNeutral)
  {
    var sig := PyOr(GetOrNull(p, "sig"), GetOrNull(p, "signal"));
    isBullish, isBearish, isNeutral := false, false, false;
    if !Truthy(sig) {
      assert !SaysDirection(p, "bullish") && !SaysDirection(p, "bearish") && !SaysDirection(p, "neutral");
      return true, false, false, false;
    }
    if !sig.JStr? {
      return false, false, false, false;
    }
    var sigLower := Lower(sig.s);
    if sigLower == "bullish" {
      isBullish := true;
    } else if sigLower == "bearish" {
      isBearish := true;
    } else if sigLower == "neutral" {
      isNeutral := true;
    }
    wellTyped := true;
  }

  method CountSignals(agents: AgentPayloads) returns (r: Result<Counts>)
    ensures r == Tally(agents)
  {
    var bullish, bearish, neutral := 0, 0, 0;
    var j := 0;
    while j < |agents|
      invariant 0 <= j <= |agents|
      invariant forall i :: 0 <= i < j ==> WellTypedSig(agents[i].1)
      invariant bullish == CountSaying(agents[..j], "bullish")
      invariant bearish == CountSaying(agents[..j], "bearish")
      invariant neutral == CountSaying(agents[..j], "neutral")
    {
      CountSayingStep(agents, j, "bullish");
      CountSayingStep(agents, j, "bearish");
      CountSayingStep(agents, j, "neutral");
      var wellTyped, isBullish, isBearish, isNeutral := ClassifySignal(agents[j].1);
      if !wellTyped {
        return Failure("AttributeError");
      }
      if isBullish {
        bullish := bullish + 1;
      } else if isBearish {
        bearish := bearish + 1;
      } else if isNeutral {
        neutral := neutral + 1;
      }
      j := j + 1;
    }
    assert agents[..j] == agents;
    r := Success(Counts(bullish, bearish, neutral));
  }

  const NoTradeDecision := Decision(Hold, 0, 100, "No valid trade available")
  const DefaultHold := Decision(Hold, 0, 0, "Default decision: hold")

  predicate OnlyHold(m: map<Action, int>) { m.Keys == {Hold} }

  /** `allowed.get(t, {"hold": 0})`. */
  function AllowedOrHold(allowed: map<string, map<Action, int>>, t: string): map<Action, int> {
    if t in allowed then allowed[t] else map[Hold := 0]
  }

  /** The allowed maps of all tickers, as `compute_allowed_actions` returns them. */
  function AllowedMap(tickers: seq<string>, prices: map<string, real>, maxShares: map<string, int>, p: Portfolio)
    : (m: map<string, map<Action, int>>)
    ensures forall t :: t in m <==> t in tickers
    ensures forall t :: t in m ==> m[t] == AllowedFor(t, prices, maxShares, p)
  {
    map t | t in tickers :: AllowedFor(t, prices, maxShares, p)
  }

  /** The tickers that go to the language model: those with some action besides hold, in order. */
  function RoutedToLlm(tickers: seq<string>, allowed: map<string, map<Action, int>>): (r: seq<string>)
    decreases |tickers|
  {
    if tickers == [] then []
    else
      var t := tickers[|tickers| - 1];
      RoutedToLlm(tickers[..|tickers| - 1], allowed) + (if OnlyHold(AllowedOrHold(allowed, t)) then [] else [t])
  }

  /** Exactly the tickers with some action besides hold go to the model. */
  lemma {:induction false} RoutedMembers(tickers: seq<string>, allowed: map<string, map<Action, int>>)
    ensures forall t :: t in RoutedToLlm(tickers, allowed) <==> t in tickers && !OnlyHold(AllowedOrHold(allowed, t))
    decreases |tickers|
  {
    if tickers != [] {
      var init := tickers[..|tickers| - 1];
      RoutedMembers(init, allowed);
      assert tickers == init + [tickers[|tickers| - 1]];
    }
  }

  /** The pre-filled decisions: a no-trade hold for each ticker whose only allowed action is hold. */
  function Prefilled(tickers: seq<string>, allowed: map<string, map<Action, int>>): (m: map<string, Decision>)
    decreases |tickers|
  {
    if tickers == [] then map[]
    else
      var t := tickers[|tickers| - 1];
      var init := Prefilled(tickers[..|tickers| - 1], allowed);
      if OnlyHold(AllowedOrHold(allowed, t)) then init[t := NoTradeDecision] else init
  }

  /** Exactly the tickers whose only allowed action is hold are pre-filled, each with the
      no-trade decision. */
  lemma {:induction false} PrefilledMembers(tickers: seq<string>, allowed: map<string, map<Action, int>>)
    ensures forall t :: t in Prefilled(tickers, allowed) <==> t in tickers && OnlyHold(AllowedOrHold(allowed, t))
    ensures forall t :: t in Prefilled(tickers, allowed) ==> Prefilled(tickers, allowed)[t] == NoTradeDecision
    decreases |tickers|
  {
    if tickers != [] {
      var init := tickers[..|tickers| - 1];
      PrefilledMembers(init, allowed);
      assert tickers == init + [tickers[|tickers| - 1]];
    }
  }

  /** What `call_llm` hands back: the model's decisions, or, when it fell back to
      the default factory, the pre-filled decisions plus a default hold per routed ticker. */
  function LlmDecisions(reply: Option<map<string, Decision>>, routed: seq<string>, prefilled: map<string, Decision>): map<string, Decision> {
    if reply.Some? then reply.value
    else prefilled + map t | t in routed :: DefaultHold
  }

  function NeutralReason(neutral: nat, original: Action): string {
    "All " + NatToString(neutral) + " analyst(s) are NEUTRAL. Following rule: NEUTRAL signals \U{2192} HOLD. Original decision was "
      + ActionName(original) + ", but corrected to HOLD per system rules."
  }

  function ForcedHold(d: Decision, neutral: nat): Decision {
    Decision(Hold, 0, d.confidence, NeutralReason(neutral, d.action))
  }

  function SignalsOf(signalsByTicker: map<string, AgentPayloads>, t: string): AgentPayloads {
    if t in signalsByTicker then signalsByTicker[t] else []
  }

  /** The post-processing step raises for this ticker. */
  predicate TallyFails(t: string, merged: map<string, Decision>, signalsByTicker: map<string, AgentPayloads>) {
    t in merged && SignalsOf(signalsByTicker, t) != [] && Tally(SignalsOf(signalsByTicker, t)).Failure?
  }

  /** The neutral rule rewrites a decision taken against these signals. */
  predicate Overrides(d: Decision, signals: AgentPayloads) {
    signals != [] && Tally(signals).Success? && UnanimousNeutral(Tally(signals).value) && d.action != Hold
  }

  /** The post-processing step turns this ticker's decision into a hold. */
  predicate Overridden(t: string, merged: map<string, Decision>, signalsByTicker: map<string, AgentPayloads>) {
    t in merged && Overrides(merged[t], SignalsOf(signalsByTicker, t))
  }

  /** A decision after the neutral rule. */
  function NeutralRule(d: Decision, signals: AgentPayloads): Decision {
    if Overrides(d, signals) then ForcedHold(d, Tally(signals).value.neutral) else d
  }

  function Reconciled(routed: seq<string>, merged: map<string, Decision>, signalsByTicker: map<string, AgentPayloads>): Result<map<string, Decision>> {
    if exists t :: t in routed && TallyFails(t, merged, signalsByTicker) then Failure("AttributeError")
    else Success(map t | t in merged :: if t in routed then NeutralRule(merged[t], SignalsOf(signalsByTicker, t)) else merged[t])
  }

  /** Applying the neutral rule a second time changes nothing, so a ticker listed twice
      for the model is rewritten once. */
  lemma NeutralRuleIdempotent(d: Decision, signals: AgentPayloads)
    ensures NeutralRule(NeutralRule(d, signals), signals) == NeutralRule(d, signals)
    ensures NeutralRule(d, signals).action == Hold <==> d.action == Hold || Overrides(d, signals)
    ensures NeutralRule(d, signals).confidence == d.confidence
  {
  }

  /** The outcome of `generate_trading_decision`. */
  function TradingDecisions(tickers: seq<string>, signalsByTicker: map<string, AgentPayloads>, prices: map<string, real>,
                            maxShares: map<string, int>, p: Portfolio, reply: Option<map<string, Decision>>): Result<map<string, Decision>> {
    Decide(tickers, AllowedMap(tickers, prices, maxShares, p), signalsByTicker, reply)
  }

  /** Pre-fill, merge with the model's reply, and apply the neutral rule, given the allowed maps. */
  function Decide(tickers: seq<string>, allowed: map<string, map<Action, int>>, signalsByTicker: map<string, AgentPayloads>,
                  reply: Option<map<string, Decision>>): Result<map<string, Decision>> {
    var routed := RoutedToLlm(tickers, allowed);
    var prefilled := Prefilled(tickers, allowed);
    if routed == [] then Success(prefilled)
    else Reconciled(routed, prefilled + LlmDecisions(reply, routed, prefilled), signalsByTicker)
  }

  /** Lines 193-203: a no-trade decision for every ticker whose allowed map is only
      hold (a missing map counts as that), and the rest listed for the language model. */
  method PrefillHolds(tickers: seq<string>, allowed: map<string, map<Action, int>>)
    returns (prefilled: map<string, Decision>, routed: seq<string>)
    ensures routed == RoutedToLlm(tickers, allowed)
    ensures prefilled == Prefilled(tickers, allowed)
  {
    prefilled := map[];
    routed := [];
    var i := 0;
    while i < |tickers|
      invariant 0 <= i <= |tickers|
      invariant routed == RoutedToLlm(tickers[..i], allowed)
      invariant prefilled == Prefilled(tickers[..i], allowed)
    {
      var t := tickers[i];
      var aa := if t in allowed then allowed[t] else map[Hold := 0];
      ghost var prefix := tickers[..i + 1];
      assert prefix[..i] == tickers[..i] && prefix[i] == t;
      if aa.Keys == {Hold} {
        prefilled := prefilled[t := NoTradeDecision];
      } else {
        routed := routed + [t];
      }
      i := i + 1;
    }
    assert tickers[..i] == tickers;
  }

  /** When no routed ticker's tally fails, the reconciled decisions are the merged ones
      with the neutral rule applied to exactly the routed tickers. */
  lemma ReconciledWhenNoneFails(routed: seq<string>, base: map<string, Decision>, signalsByTicker: map<string, AgentPayloads>,
                                merged: map<string, Decision>)
    requires forall t :: t in routed ==> !TallyFails(t, base, signalsByTicker)
    requires merged.Keys == base.Keys
    requires forall t :: t in merged ==>
      merged[t] == if t in routed then NeutralRule(base[t], SignalsOf(signalsByTicker, t)) else base[t]
    ensures Reconciled(routed, base, signalsByTicker) == Success(merged)
  {
    assert merged == map t | t in base :: if t in routed then NeutralRule(base[t], SignalsOf(signalsByTicker, t)) else base[t];
  }

  /** One pass of the post-processing loop (lines 347-377) for a ticker present in the
      merged decisions. */
  method NeutralStep(d: Decision, signals: AgentPayloads) returns (r: Result<Decision>)
    ensures r.Failure? <==> signals != [] && Tally(signals).Failure?
    ensures r.Success? ==> r.value == NeutralRule(d, signals)
  {
    if signals == [] {
      assert !Overrides(d, signals);
      return Success(d);
    }
    var counts := CountSignals(signals);
    if counts.Failure? {
      return Failure("AttributeError");
    }
    var c := counts.value;
    var total := c.bullish + c.bearish + c.neutral;
    var unanimous := total > 0 && c.neutral == total && c.bullish == 0 && c.bearish == 0;
    UnanimousNeutralIsAllNeutral(c);
    assert unanimous == UnanimousNeutral(Tally(signals).value);
    if unanimous && d.action != Hold {
      assert Overrides(d, signals) && Tally(signals).value == c;
      return Success(ForcedHold(d, c.neutral));
    }
    assert !Overrides(d, signals);
    return Success(d);
  }

  /** The merged decisions once the tickers in `done` have been post-processed. */
  function PartlyReconciled(done: seq<string>, base: map<string, Decision>, signalsByTicker: map<string, AgentPayloads>)
    : map<string, Decision>
  {
    map t | t in base :: if t in done then NeutralRule(base[t], SignalsOf(signalsByTicker, t)) else base[t]
  }

  lemma PartlyReconciledStep(done: seq<string>, t: string, base: map<string, Decision>, signalsByTicker: map<string, AgentPayloads>)
    requires t in base
    ensures var before := PartlyReconciled(done, base, signalsByTicker);
      PartlyReconciled(done + [t], base, signalsByTicker) == before[t := NeutralRule(before[t], SignalsOf(signalsByTicker, t))]
  {
    var before := PartlyReconciled(done, base, signalsByTicker);
    var after := PartlyReconciled(done + [t], base, signalsByTicker);
    PartlyReconciledAt(done, t, base, signalsByTicker);
    PartlyReconciledElsewhere(done, t, base, signalsByTicker);
    assert after.Keys == before.Keys;
  }

  lemma PartlyReconciledAt(done: seq<string>, t: string, base: map<string, Decision>, signalsByTicker: map<string, AgentPayloads>)
    requires t in base
    ensures var before := PartlyReconciled(done, base, signalsByTicker);
      PartlyReconciled(done + [t], base, signalsByTicker)[t] == NeutralRule(before[t], SignalsOf(signalsByTicker, t))
  {
    var signals := SignalsOf(signalsByTicker, t);
    var before := PartlyReconciled(done, base, signalsByTicker);
    var after := PartlyReconciled(done + [t], base, signalsByTicker);
    var once := NeutralRule(base[t], signals);
    assert t in done + [t];
    assert after[t] == once;
    if t in done {
      assert before[t] == once;
      NeutralRuleIdempotent(base[t], signals);
    } else {
      assert before[t] == base[t];
    }
  }

  lemma PartlyReconciledElsewhere(done: seq<string>, t: string, base: map<string, Decision>, signalsByTicker: map<string, AgentPayloads>)
    ensures var before := PartlyReconciled(done, base, signalsByTicker);
      var after := PartlyReconciled(done + [t], base, signalsByTicker);
      forall u :: u in base && u != t ==> after[u] == before[u]
  {
    var before := PartlyReconciled(done, base, signalsByTicker);
    var after := PartlyReconciled(done + [t], base, signalsByTicker);
    forall u | u in base && u != t ensures after[u] == before[u] {
      assert u in done + [t] <==> u in done;
    }
  }

  lemma PartlyReconciledSkip(done: seq<string>, t: string, base: map<string, Decision>, signalsByTicker: map<string, AgentPayloads>)
    requires t !in base
    ensures PartlyReconciled(done + [t], base, signalsByTicker) == PartlyReconciled(done, base, signalsByTicker)
  {
    var after := PartlyReconciled(done + [t], base, signalsByTicker);
    forall u | u in base ensures after[u] == PartlyReconciled(done, base, signalsByTicker)[u] {
      assert u in done + [t] <==> u in done;
    }
  }

  /** The post-processing loop of lines 342-379 over the tickers sent to the model. */
  method ApplyNeutralRule(routed: seq<string>, base: map<string, Decision>, signalsByTicker: map<string, AgentPayloads>)
    returns (r: Result<map<string, Decision>>)
    ensures r == Reconciled(routed, base, signalsByTicker)
  {
    var merged := base;
    var k := 0;
    assert merged == PartlyReconciled(routed[..0], base, signalsByTicker);
    while k < |routed|
      invariant 0 <= k <= |routed|
      invariant forall t :: t in routed[..k] ==> !TallyFails(t, base, signalsByTicker)
      invariant merged == PartlyReconciled(routed[..k], base, signalsByTicker)
    {
      var ticker := routed[k];
      TakeSnoc(routed, k);
      if ticker in merged {
        var tickerSignals := if ticker in signalsByTicker then signalsByTicker[ticker] else [];
        var step := NeutralStep(merged[ticker], tickerSignals);
        if step.Failure? {
          assert ticker in routed && TallyFails(ticker, base, signalsByTicker);
          return Failure("AttributeError");
        }
        PartlyReconciledStep(routed[..k], ticker, base, signalsByTicker);
        merged := merged[ticker := step.value];
      } else {
        PartlyReconciledSkip(routed[..k], ticker, base, signalsByTicker);
      }
      k := k + 1;
    }
    assert routed[..k] == routed;
    r := Success(merged);
  }

  /** `generate_trading_decision`: `routed` is the list of tickers put to the language
      model (empty when it is not called), and `reply` is what the model returns. */
  method GenerateTradingDecision(tickers: seq<string>, signalsByTicker: map<string, AgentPayloads>, prices: map<string, real>,
                                 maxShares: map<string, int>, portfolio: Portfolio, reply: Option<map<string, Decision>>)
    returns (r: Result<map<string, Decision>>, routed: seq<string>)
    ensures routed == RoutedToLlm(tickers, AllowedMap(tickers, prices, maxShares, portfolio))
    ensures r == TradingDecisions(tickers, signalsByTicker, prices, maxShares, portfolio, reply)
  {
    var allowed := ComputeAllowedActions(tickers, prices, maxShares, portfolio);
    var prefilled;
    assert allowed == AllowedMap(tickers, prices, maxShares, portfolio);
    prefilled, routed := PrefillHolds(tickers, allowed);
    if routed == [] {
      return Success(prefilled), routed;
    }
    var llmOut := if reply.Some? then reply.value else prefilled + map t | t in routed :: DefaultHold;
    r := ApplyNeutralRule(routed, prefilled + llmOut, signalsByTicker);
  }

  // ------------------------------------------------------------ properties of the reconciliation

  /** When no ticker can trade, the language model is not consulted: every ticker is a
      no-trade hold, whatever the model would have said. */
  lemma NothingTradableSkipsLlm(tickers: seq<string>, allowed: map<string, map<Action, int>>,
                                signalsByTicker: map<string, AgentPayloads>, reply: Option<map<string, Decision>>)
    requires forall t :: t in tickers ==> OnlyHold(AllowedOrHold(allowed, t))
    ensures RoutedToLlm(tickers, allowed) == []
    ensures var r := Decide(tickers, allowed, signalsByTicker, reply);
      r.Success? && r.value.Keys == (set t | t in tickers) && forall t :: t in r.value ==> r.value[t] == NoTradeDecision
  {
    RoutedMembers(tickers, allowed);
    PrefilledMembers(tickers, allowed);
  }

  /** With an empty portfolio dict the model is never consulted and every ticker holds. */
  lemma EmptyPortfolioSkipsLlm(tickers: seq<string>, signalsByTicker: map<string, AgentPayloads>, prices: map<string, real>,
                               maxShares: map<string, int>, reply: Option<map<string, Decision>>)
    ensures var r := TradingDecisions(tickers, signalsByTicker, prices, maxShares, Portfolio(None, None, None, None, None), reply);
      r.Success? && r.value.Keys == (set t | t in tickers) && forall t :: t in r.value ==> r.value[t] == NoTradeDecision
  {
    var allowed := AllowedMap(tickers, prices, maxShares, Portfolio(None, None, None, None, None));
    forall t | t in tickers ensures OnlyHold(AllowedOrHold(allowed, t)) {
      EmptyPortfolioOnlyHolds(t, prices, maxShares);
    }
    NothingTradableSkipsLlm(tickers, allowed, signalsByTicker, reply);
  }

  /** The model's decisions are taken as they come: every ticker it returns is in the
      result, unchanged unless the neutral rule rewrites it, with no check against the
      allowed actions or quantities. */
  lemma LlmRepliesKeptUnchecked(tickers: seq<string>, allowed: map<string, map<Action, int>>,
                                signalsByTicker: map<string, AgentPayloads>, reply: map<string, Decision>, t: string)
    requires RoutedToLlm(tickers, allowed) != []
    requires t in reply
    ensures var r := Decide(tickers, allowed, signalsByTicker, Some(reply));
      var merged := Prefilled(tickers, allowed) + reply;
      r.Success? ==> (t in r.value &&
        (r.value[t] == reply[t] || (t in RoutedToLlm(tickers, allowed) && Overridden(t, merged, signalsByTicker))))
  {
  }

  /** A ticker that cannot trade is a no-trade hold unless the model itself
      returned a decision for it. */
  lemma NoTradeTickersPrefilled(tickers: seq<string>, allowed: map<string, map<Action, int>>,
                                signalsByTicker: map<string, AgentPayloads>, reply: Option<map<string, Decision>>, t: string)
    requires t in tickers && OnlyHold(AllowedOrHold(allowed, t))
    requires reply.Some? ==> t !in reply.value
    ensures var r := Decide(tickers, allowed, signalsByTicker, reply);
      r.Success? ==> t in r.value && r.value[t] == NoTradeDecision
  {
    RoutedMembers(tickers, allowed);
    PrefilledMembers(tickers, allowed);
  }

  /** Unanimous neutral signals on a routed ticker force a hold at quantity 0, keeping the
      confidence and naming the original action; a decision that already holds keeps its
      quantity. */
  lemma NeutralSignalsForceHold(tickers: seq<string>, allowed: map<string, map<Action, int>>,
                                signalsByTicker: map<string, AgentPayloads>, reply: Option<map<string, Decision>>, t: string)
    requires t in RoutedToLlm(tickers, allowed)
    requires Tally(SignalsOf(signalsByTicker, t)).Success? && UnanimousNeutral(Tally(SignalsOf(signalsByTicker, t)).value)
    ensures var routed := RoutedToLlm(tickers, allowed);
      var prefilled := Prefilled(tickers, allowed);
      var merged := prefilled + LlmDecisions(reply, routed, prefilled);
      var r := Decide(tickers, allowed, signalsByTicker, reply);
      r.Success? && t in merged ==>
        t in r.value && r.value[t].action == Hold && r.value[t].confidence == merged[t].confidence &&
        (merged[t].action != Hold ==>
          r.value[t].quantity == 0 &&
          r.value[t].reasoning == NeutralReason(Tally(SignalsOf(signalsByTicker, t)).value.neutral, merged[t].action)) &&
        (merged[t].action == Hold ==> r.value[t] == merged[t])
  {
    var routed := RoutedToLlm(tickers, allowed);
    var prefilled := Prefilled(tickers, allowed);
    var merged := prefilled + LlmDecisions(reply, routed, prefilled);
    assert routed != [];
    assert Decide(tickers, allowed, signalsByTicker, reply) == Reconciled(routed, merged, signalsByTicker);
    if t in merged {
      ReconciledNeutralHold(routed, merged, signalsByTicker, t);
    }
  }

  /** The neutral rule at one routed ticker of the merged decisions. */
  lemma ReconciledNeutralHold(routed: seq<string>, merged: map<string, Decision>, signalsByTicker: map<string, AgentPayloads>, t: string)
    requires t in routed && t in merged
    requires Tally(SignalsOf(signalsByTicker, t)).Success? && UnanimousNeutral(Tally(SignalsOf(signalsByTicker, t)).value)
    ensures var r := Reconciled(routed, merged, signalsByTicker);
      r.Success? ==>
        t in r.value && r.value[t].action == Hold && r.value[t].confidence == merged[t].confidence &&
        (merged[t].action != Hold ==>
          r.value[t].quantity == 0 &&
          r.value[t].reasoning == NeutralReason(Tally(SignalsOf(signalsByTicker, t)).value.neutral, merged[t].action)) &&
        (merged[t].action == Hold ==> r.value[t] == merged[t])
  {
    var r := Reconciled(routed, merged, signalsByTicker);
    var signals := SignalsOf(signalsByTicker, t);
    if r.Success? {
      assert r.value[t] == NeutralRule(merged[t], signals);
      if merged[t].action != Hold {
        assert signals != [] by {
          assert Tally([]).value.neutral == 0;
        }
        assert Overrides(merged[t], signals);
      }
    }
  }
}
