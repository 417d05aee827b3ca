/** The data-layer rules of src/tools/api.py: which tickers are treated as Chinese or Hong
    Kong listings, how API errors are classified and rendered, the retry and back-off
    schedule of a request, and how the three financial statements of a Chinese listing
    are merged into one list of line items by report period. */
module Api {
  import opened Common
  import opened Sorting

  // ------------------------------------------------------------ ticker market

  /** `_looks_like_cn_or_hk_ticker`: an upper-cased `.SH`, `.SZ` or `.HK` suffix, or a
      run of at least four digits before the first dot. */
  predicate LooksLikeCnOrHkTicker(ticker: string) {
    var t := Upper(ticker);
    EndsWith(t, ".SH") || EndsWith(t, ".SZ") || EndsWith(t, ".HK") ||
    (var base := BeforeFirst(t, "."); AllDigits(base) && |base| >= 4)
  }

  /** The classification ignores letter case. */
  lemma TickerClassificationIgnoresCase(ticker: string)
    ensures LooksLikeCnOrHkTicker(Lower(ticker)) == LooksLikeCnOrHkTicker(ticker)
    ensures LooksLikeCnOrHkTicker(Upper(ticker)) == LooksLikeCnOrHkTicker(ticker)
  {
    UpperOfLower(ticker);
    UpperIdempotent(ticker);
  }

  lemma NoDotNoSuffix(t: string, suffix: string)
    requires forall i :: 0 <= i < |t| ==> t[i] != '.'
    requires |suffix| > 0 && suffix[0] == '.'
    ensures !EndsWith(t, suffix)
  {
    if |suffix| <= |t| {
      assert t[|t| - |suffix|..][0] == t[|t| - |suffix|];
    }
  }

  /** Without a dot the whole ticker must be four or more digits. */
  lemma DotlessTickers(ticker: string)
    requires forall i :: 0 <= i < |ticker| ==> ticker[i] != '.'
    ensures LooksLikeCnOrHkTicker(ticker) <==> AllDigits(ticker) && |ticker| >= 4
  {
    var t := Upper(ticker);
    assert forall i :: 0 <= i < |t| ==> t[i] != '.';
    NoDotNoSuffix(t, ".SH");
    NoDotNoSuffix(t, ".SZ");
    NoDotNoSuffix(t, ".HK");
    forall j | 0 <= j <= |t| ensures !OccursAt(t, ".", j) {
      if j < |t| {
        assert t[j..j + 1][0] == t[j];
      }
    }
    assert AllDigits(t) <==> AllDigits(ticker);
  }

  // ------------------------------------------------------------ API errors

  /** `APIError`: a message with the optional status code and ticker it concerns. */
  datatype ApiError = ApiError(message: string, statusCode: Option<int>, ticker: Option<string>, recoverable: bool)

  /** `APIError.__str__`: "[ticker] " first, then "HTTP code: " outside it, each only when
      the field is set and truthy. */
  function ApiErrorText(e: ApiError): (r: string)
    ensures e.ticker.None? && e.statusCode.None? ==> r == e.message
    ensures EndsWith(r, e.message)
  {
    var withTicker := if e.ticker.Some? && e.ticker.value != "" then "[" + e.ticker.value + "] " + e.message else e.message;
    if e.statusCode.Some? && e.statusCode.value != 0 then "HTTP " + IntToString(e.statusCode.value) + ": " + withTicker else withTicker
  }

  /** Both prefixes present: the status code is outermost. */
  lemma ApiErrorTextOrder(e: ApiError)
    requires e.ticker.Some? && e.ticker.value != "" && e.statusCode.Some? && e.statusCode.value != 0
    ensures ApiErrorText(e) == "HTTP " + IntToString(e.statusCode.value) + ": [" + e.ticker.value + "] " + e.message
  {
  }

  /** A 429 or any 5xx. */
  predicate Recoverable(status: int) { status == 429 || 500 <= status < 600 }

  /** The error detail of a failed response: `body` is the decoded JSON (None when the
      body is not JSON) and `render` stands for Python's `str`. A JSON object gives its
      "error", else its "message", else itself; other JSON leaves "Unknown error"; a body
      that is not JSON gives its first 200 characters. */
  function ErrorDetail(body: Option<Json>, text: string, render: Json -> string): (r: string)
    ensures body.None? ==> |r| <= 200 && StartsWith(text, r)
  {
    match body
    case None => text[..MinInt(200, |text|)]
    case Some(data) =>
      if data.JObj? then
        (if HasKey(data.members, "error") then render(GetOrNull(data.members, "error"))
         else if HasKey(data.members, "message") then render(GetOrNull(data.members, "message"))
         else render(data))
      else "Unknown error"
  }

  /** The user-facing message for a failed `operation` on `ticker`. */
  function UserMessage(status: int, operation: string, ticker: string, detail: string): (r: string)
    ensures StartsWith(r, "无法" + operation + " " + ticker + ": ")
    ensures status != 402 && status != 401 && status != 429 && !(500 <= status < 600) ==>
      EndsWith(r, "): " + detail)
  {
    var head := "无法" + operation + " " + ticker + ": ";
    if status == 402 then head + "API 余额不足。请充值后重试。"
    else if status == 401 then head + "API 密钥无效。请检查 API 密钥配置。"
    else if status == 429 then head + "API 请求频率过高，请稍后重试。"
    else if 500 <= status < 600 then head + "API 服务器错误 (" + IntToString(status) + ")，请稍后重试。"
    else head + "API 错误 (" + IntToString(status) + "): " + detail
  }

  /** `_handle_api_response`: success for 200; any other status raises an `APIError`
      carrying the status and the ticker, recoverable exactly for 429 and 5xx. */
  function HandleApiResponse(status: int, body: Option<Json>, text: string, render: Json -> string,
                             ticker: string, operation: string): (r: Option<ApiError>)
    ensures r.None? <==> status == 200
    ensures r.Some? ==> r.value.statusCode == Some(status) && r.value.ticker == Some(ticker)
    ensures r.Some? ==> (r.value.recoverable <==> Recoverable(status))
  {
    if status == 200 then None
    else Some(ApiError(UserMessage(status, operation, ticker, ErrorDetail(body, text, render)), Some(status), Some(ticker), Recoverable(status)))
  }

  // ------------------------------------------------------------ retry schedule

  /** What one attempt of a request produced; the strings are the exceptions' texts. */
  datatype Outcome =
    | Response(status: int)
    | Timeout(detail: string)
    | ConnectionFailure(detail: string)
    | OtherRequestError(detail: string)

  /** How `_make_api_request` ends: the response it returned or the message it raised. */
  datatype Exit = Returned(status: int) | Raised(message: string)

  /** The exit and the back-off delays slept before it, one per retried attempt. */
  datatype Finished = Finished(exit: Exit, delays: seq<nat>)

  function Pow2(n: nat): (r: nat)
    ensures r >= 1
  {
    if n == 0 then 1 else 2 * Pow2(n - 1)
  }

  /** Whether an attempt's outcome is retried while attempts remain. */
  predicate Retryable(o: Outcome, retryOnTimeout: bool, retryOnConnectionError: bool) {
    match o
    case Response(s) => Recoverable(s)
    case Timeout(_) => retryOnTimeout
    case ConnectionFailure(_) => retryOnConnectionError
    case OtherRequestError(_) => true
  }

  /** `min(2 ** attempt, 60)` after a 429, `min(2 ** attempt, 30)` after anything else. */
  function BackoffDelay(o: Outcome, attempt: nat): (d: nat)
    ensures d <= 60
    ensures o != Response(429) ==> d <= 30
  {
    if o == Response(429) then MinInt(Pow2(attempt), 60) else MinInt(Pow2(attempt), 30)
  }

  function AttemptsText(maxRetries: int): string { IntToString(maxRetries + 1) + " attempts" }

  /** The exit of an attempt that is not retried. */
  function FinalExit(o: Outcome, maxRetries: int): Exit {
    match o
    case Response(s) => Returned(s)
    case Timeout(d) => Raised("Request timeout after " + AttemptsText(maxRetries) + ": " + d)
    case ConnectionFailure(d) => Raised("Connection error after " + AttemptsText(maxRetries) + ": " + d)
    case OtherRequestError(d) => Raised("Request failed after " + AttemptsText(maxRetries) + ": " + d)
  }

  /** `_make_api_request` from attempt `attempt` on, `outcome(a)` being what attempt `a`
      produces, with the exception kept so far and the delays slept so far. */
  function Run(outcome: nat -> Outcome, maxRetries: int, retryOnTimeout: bool, retryOnConnectionError: bool,
               attempt: nat, lastException: Option<string>, delays: seq<nat>): Finished
    decreases maxRetries - attempt
  {
    if attempt > maxRetries then
      var suffix := if lastException.Some? then ": " + lastException.value else "";
      Finished(Raised("Request failed after " + AttemptsText(maxRetries) + suffix), delays)
    else
      var o := outcome(attempt);
      if Retryable(o, retryOnTimeout, retryOnConnectionError) && attempt < maxRetries then
        var kept := if o.Response? then lastException else Some(o.detail);
        Run(outcome, maxRetries, retryOnTimeout, retryOnConnectionError, attempt + 1, kept, delays + [BackoffDelay(o, attempt)])
      else Finished(FinalExit(o, maxRetries), delays)
  }

  /** The whole request, from the first attempt. */
  function Request(outcome: nat -> Outcome, maxRetries: int, retryOnTimeout: bool, retryOnConnectionError: bool): Finished {
    Run(outcome, maxRetries, retryOnTimeout, retryOnConnectionError, 0, None, [])
  }

  /** The schedule from attempt `attempt` on, when attempts 0 .. attempt-1 were retried
      with their back-off delays. */
  lemma {:induction false} RunSchedule(outcome: nat -> Outcome, maxRetries: int, retryOnTimeout: bool, retryOnConnectionError: bool,
                                       attempt: nat, lastException: Option<string>, delays: seq<nat>)
    requires attempt <= maxRetries && |delays| == attempt
    requires forall a :: 0 <= a < attempt ==> Retryable(outcome(a), retryOnTimeout, retryOnConnectionError)
    requires forall a :: 0 <= a < attempt ==> delays[a] == BackoffDelay(outcome(a), a)
    ensures var f := Run(outcome, maxRetries, retryOnTimeout, retryOnConnectionError, attempt, lastException, delays);
      && |f.delays| <= maxRetries
      && (forall a :: 0 <= a < |f.delays| ==> Retryable(outcome(a), retryOnTimeout, retryOnConnectionError))
      && (forall a :: 0 <= a < |f.delays| ==> f.delays[a] == BackoffDelay(outcome(a), a))
      && f.exit == FinalExit(outcome(|f.delays|), maxRetries)
      && (|f.delays| < maxRetries ==> !Retryable(outcome(|f.delays|), retryOnTimeout, retryOnConnectionError))
    decreases maxRetries - attempt
  {
    var o := outcome(attempt);
    if Retryable(o, retryOnTimeout, retryOnConnectionError) && attempt < maxRetries {
      var kept := if o.Response? then lastException else Some(o.detail);
      RunSchedule(outcome, maxRetries, retryOnTimeout, retryOnConnectionError, attempt + 1, kept, delays + [BackoffDelay(o, attempt)]);
    }
  }

  /** With `max_retries >= 0` the request makes between 1 and `max_retries + 1` attempts:
      the last one decides the exit, every earlier one was retried after its back-off,
      and one ends early only on an outcome that is not retried. */
  lemma RequestSchedule(outcome: nat -> Outcome, maxRetries: int, retryOnTimeout: bool, retryOnConnectionError: bool)
    requires maxRetries >= 0
    ensures var f := Request(outcome, maxRetries, retryOnTimeout, retryOnConnectionError);
      && |f.delays| + 1 <= maxRetries + 1
      && (forall a :: 0 <= a < |f.delays| ==> Retryable(outcome(a), retryOnTimeout, retryOnConnectionError))
      && (forall a :: 0 <= a < |f.delays| ==> f.delays[a] == BackoffDelay(outcome(a), a))
      && f.exit == FinalExit(outcome(|f.delays|), maxRetries)
      && (|f.delays| < maxRetries ==> !Retryable(outcome(|f.delays|), retryOnTimeout, retryOnConnectionError))
  {
    RunSchedule(outcome, maxRetries, retryOnTimeout, retryOnConnectionError, 0, None, []);
  }

  /** A retryable status on the final attempt is returned, not raised. */
  lemma LastAttemptReturnsResponse(outcome: nat -> Outcome, maxRetries: int, retryOnTimeout: bool, retryOnConnectionError: bool)
    requires maxRetries >= 0
    requires var f := Request(outcome, maxRetries, retryOnTimeout, retryOnConnectionError);
      |f.delays| == maxRetries && outcome(maxRetries).Response?
    ensures Request(outcome, maxRetries, retryOnTimeout, retryOnConnectionError).exit == Returned(outcome(maxRetries).status)
  {
    RequestSchedule(outcome, maxRetries, retryOnTimeout, retryOnConnectionError);
  }

  /** A status that is not 429 or 5xx on the first attempt is returned at once, and so is
      a timeout raised at once when timeouts are not retried. */
  lemma NonRetryableEndsFirstAttempt(outcome: nat -> Outcome, maxRetries: int, retryOnConnectionError: bool)
    requires maxRetries >= 0
    ensures outcome(0).Response? && !Recoverable(outcome(0).status) ==>
      Request(outcome, maxRetries, false, retryOnConnectionError) == Finished(Returned(outcome(0).status), [])
    ensures outcome(0).Timeout? ==>
      Request(outcome, maxRetries, false, retryOnConnectionError) ==
        Finished(Raised("Request timeout after " + AttemptsText(maxRetries) + ": " + outcome(0).detail), [])
  {
  }

  /** The message after the loop is reached only when `max_retries` is negative, and
      then without any attempt. */
  lemma NegativeRetriesNeverAttempt(outcome: nat -> Outcome, maxRetries: int, retryOnTimeout: bool, retryOnConnectionError: bool)
    requires maxRetries < 0
    ensures Request(outcome, maxRetries, retryOnTimeout, retryOnConnectionError) ==
      Finished(Raised("Request failed after " + AttemptsText(maxRetries)), [])
  {
    var message := "Request failed after " + AttemptsText(maxRetries);
    assert message + "" == message;
  }

  /** The loop of lines 68-121; `outcome` stands for the HTTP call and `sleep` happens
      where a delay is recorded. */
  method MakeApiRequest(outcome: nat -> Outcome, maxRetries: int, retryOnTimeout: bool, retryOnConnectionError: bool)
    returns (f: Finished)
    ensures f == Request(outcome, maxRetries, retryOnTimeout, retryOnConnectionError)
  {
    var lastException: Option<string> := None;
    var delays: seq<nat> := [];
    var attempt: nat := 0;
    while attempt <= maxRetries
      invariant Run(outcome, maxRetries, retryOnTimeout, retryOnConnectionError, attempt, lastException, delays)
             == Request(outcome, maxRetries, retryOnTimeout, retryOnConnectionError)
      decreases maxRetries + 1 - attempt
    {
      var o := outcome(attempt);
      match o {
        case Response(status) =>
          if status == 429 && attempt < maxRetries {
            delays := delays + [MinInt(Pow2(attempt), 60)];
            attempt := attempt + 1;
            continue;
          }
          if 500 <= status < 600 && attempt < maxRetries {
            delays := delays + [MinInt(Pow2(attempt), 30)];
            attempt := attempt + 1;
            continue;
          }
          return Finished(Returned(status), delays);
        case Timeout(detail) =>
          lastException := Some(detail);
          if retryOnTimeout && attempt < maxRetries {
            delays := delays + [MinInt(Pow2(attempt), 30)];
            attempt := attempt + 1;
            continue;
          }
          return Finished(Raised("Request timeout after " + AttemptsText(maxRetries) + ": " + detail), delays);
        case ConnectionFailure(detail) =>
          lastException := Some(detail);
          if retryOnConnectionError && attempt < maxRetries {
            delays := delays + [MinInt(Pow2(attempt), 30)];
            attempt := attempt + 1;
            continue;
          }
          return Finished(Raised("Connection error after " + AttemptsText(maxRetries) + ": " + detail), delays);
        case OtherRequestError(detail) =>
          lastException := Some(detail);
          if attempt < maxRetries {
            delays := delays + [MinInt(Pow2(attempt), 30)];
            attempt := attempt + 1;
            continue;
          }
          return Finished(Raised("Request failed after " + AttemptsText(maxRetries) + ": " + detail), delays);
      }
    }
    if lastException.Some? {
      var message := "Request failed after " + AttemptsText(maxRetries) + ": " + lastException.value;
      assert message == "Request failed after " + AttemptsText(maxRetries) + (": " + lastException.value);
      return Finished(Raised(message), delays);
    }
    var message := "Request failed after " + AttemptsText(maxRetries);
    assert message + "" == message;
    return Finished(Raised(message), delays);
  }

  // ------------------------------------------------------------ statement merge

  /** A line item as the dict `model_dump` gives: field name to value. */
  type Item = map<string, Json>

  /** Its `report_period`; a line item always has one, a non-text value reads as "". */
  function PeriodOf(item: Item): string {
    if "report_period" in item && item["report_period"].JStr? then item["report_period"].s else ""
  }

  /** The merge of lines 508-511: a field of `incoming` is taken only where `existing`
      lacks it or holds None. */
  function MergeFields(existing: Item, incoming: Item): (r: Item)
    ensures r.Keys == existing.Keys + incoming.Keys
  {
    map k | k in existing.Keys + incoming.Keys ::
      if k in incoming && (k !in existing || existing[k] == JNull) then incoming[k] else existing[k]
  }

  /** Existing values other than None are never overwritten, and every other field
      comes from the incoming record. */
  lemma MergeFieldsKeepsExisting(existing: Item, incoming: Item)
    ensures forall k :: k in existing && existing[k] != JNull ==> MergeFields(existing, incoming)[k] == existing[k]
    ensures forall k :: k in incoming && (k !in existing || existing[k] == JNull) ==> MergeFields(existing, incoming)[k] == incoming[k]
  {
  }

  /** `existing` extends to `merged`: nothing present and not None is lost or changed. */
  predicate Extends(existing: Item, merged: Item) {
    forall k :: k in existing && existing[k] != JNull ==> k in merged && merged[k] == existing[k]
  }

  lemma ExtendsTransitive(a: Item, b: Item, c: Item)
    requires Extends(a, b) && Extends(b, c)
    ensures Extends(a, c)
  {
  }

  /** The first index whose item has the period `p`. */
  function FindPeriod(items: seq<Item>, p: string): (r: Option<nat>)
    ensures r.Some? ==> r.value < |items| && PeriodOf(items[r.value]) == p
    ensures r.Some? ==> forall j :: 0 <= j < r.value ==> PeriodOf(items[j]) != p
    ensures r.None? ==> forall j :: 0 <= j < |items| ==> PeriodOf(items[j]) != p
    decreases |items|
  {
    if items == [] then None
    else if PeriodOf(items[0]) == p then Some(0)
    else
      match FindPeriod(items[1..], p)
      case None => None
      case Some(i) => Some(i + 1)
  }

  /** One incoming item: merged into the first item of its period, appended if none. */
  function MergeOne(items: seq<Item>, x: Item): seq<Item> {
    match FindPeriod(items, PeriodOf(x))
    case None => items + [x]
    case Some(i) => items[i := MergeFields(items[i], x)]
  }

  /** A whole statement merged item by item, in order. */
  function MergeStatement(items: seq<Item>, incoming: seq<Item>): seq<Item>
    decreases |incoming|
  {
    if incoming == [] then items
    else MergeOne(MergeStatement(items, incoming[..|incoming| - 1]), incoming[|incoming| - 1])
  }

  function Periods(items: seq<Item>): set<string> {
    set i | 0 <= i < |items| :: PeriodOf(items[i])
  }

  /** A merged item keeps its text period. */
  lemma MergeKeepsPeriod(existing: Item, incoming: Item)
    requires "report_period" in existing && existing["report_period"].JStr?
    ensures PeriodOf(MergeFields(existing, incoming)) == PeriodOf(existing)
  {
  }

  predicate HasTextPeriod(item: Item) { "report_period" in item && item["report_period"].JStr? }

  lemma PeriodsSnoc(items: seq<Item>, x: Item)
    ensures Periods(items + [x]) == Periods(items) + {PeriodOf(x)}
  {
    var r := items + [x];
    assert r[|items|] == x;
    assert PeriodOf(x) in Periods(r);
    forall p | p in Periods(r) ensures p in Periods(items) + {PeriodOf(x)} {
      var i :| 0 <= i < |r| && PeriodOf(r[i]) == p;
      if i < |items| { assert r[i] == items[i]; }
    }
    forall p | p in Periods(items) ensures p in Periods(r) {
      var i :| 0 <= i < |items| && PeriodOf(items[i]) == p;
      assert r[i] == items[i];
    }
  }

  /** Merging one item: the list keeps its items in place, each extended, gains at most the
      new item at the end, and its periods gain exactly the new one. */
  lemma MergeOneShape(items: seq<Item>, x: Item)
    requires forall i :: 0 <= i < |items| ==> HasTextPeriod(items[i])
    ensures var r := MergeOne(items, x);
      && (|r| == |items| || r == items + [x])
      && (|r| == |items| <==> PeriodOf(x) in Periods(items))
      && (forall i :: 0 <= i < |items| ==> Extends(items[i], r[i]) && PeriodOf(r[i]) == PeriodOf(items[i]))
      && Periods(r) == Periods(items) + {PeriodOf(x)}
      && (HasTextPeriod(x) ==> forall i :: 0 <= i < |r| ==> HasTextPeriod(r[i]))
  {
    var r := MergeOne(items, x);
    match FindPeriod(items, PeriodOf(x))
    case None =>
      assert PeriodOf(x) !in Periods(items);
      PeriodsSnoc(items, x);
    case Some(k) =>
      MergeKeepsPeriod(items[k], x);
      MergeFieldsKeepsExisting(items[k], x);
      assert PeriodOf(x) in Periods(items);
      assert forall i :: 0 <= i < |items| ==> PeriodOf(r[i]) == PeriodOf(items[i]);
      assert Periods(r) == Periods(items) by {
        forall p | p in Periods(r) ensures p in Periods(items) {
          var i :| 0 <= i < |r| && PeriodOf(r[i]) == p;
        }
        forall p | p in Periods(items) ensures p in Periods(r) {
          var i :| 0 <= i < |items| && PeriodOf(items[i]) == p;
        }
      }
  }

  /** Merging a statement: the earlier items stay in place with every present value
      intact and their periods unchanged, and each item still has a text period. */
  lemma {:induction false} MergeStatementKeeps(items: seq<Item>, incoming: seq<Item>)
    requires forall i :: 0 <= i < |items| ==> HasTextPeriod(items[i])
    requires forall i :: 0 <= i < |incoming| ==> HasTextPeriod(incoming[i])
    ensures var r := MergeStatement(items, incoming);
      && |items| <= |r| <= |items| + |incoming|
      && (forall i :: 0 <= i < |r| ==> HasTextPeriod(r[i]))
      && (forall i :: 0 <= i < |items| ==> Extends(items[i], r[i]) && PeriodOf(r[i]) == PeriodOf(items[i]))
    decreases |incoming|
  {
    if incoming != [] {
      var init := incoming[..|incoming| - 1];
      var x := incoming[|incoming| - 1];
      var mid := MergeStatement(items, init);
      MergeStatementKeeps(items, init);
      MergeOneShape(mid, x);
      var r := MergeOne(mid, x);
      forall i | 0 <= i < |items| ensures Extends(items[i], r[i]) {
        ExtendsTransitive(items[i], mid[i], r[i]);
      }
    }
  }

  /** The merged list's periods are the union of both lists' periods. */
  lemma {:induction false} MergeStatementPeriods(items: seq<Item>, incoming: seq<Item>)
    requires forall i :: 0 <= i < |items| ==> HasTextPeriod(items[i])
    requires forall i :: 0 <= i < |incoming| ==> HasTextPeriod(incoming[i])
    ensures Periods(MergeStatement(items, incoming)) == Periods(items) + Periods(incoming)
    decreases |incoming|
  {
    if incoming != [] {
      var init := incoming[..|incoming| - 1];
      var x := incoming[|incoming| - 1];
      MergeStatementPeriods(items, init);
      MergeStatementHasTextPeriods(items, init);
      MergeOnePeriods(MergeStatement(items, init), x);
      assert incoming == init + [x];
      PeriodsSnoc(init, x);
    }
  }

  lemma MergeStatementHasTextPeriods(items: seq<Item>, incoming: seq<Item>)
    requires forall i :: 0 <= i < |items| ==> HasTextPeriod(items[i])
    requires forall i :: 0 <= i < |incoming| ==> HasTextPeriod(incoming[i])
    ensures forall i :: 0 <= i < |MergeStatement(items, incoming)| ==> HasTextPeriod(MergeStatement(items, incoming)[i])
  {
    MergeStatementKeeps(items, incoming);
  }

  lemma MergeOnePeriods(items: seq<Item>, x: Item)
    requires forall i :: 0 <= i < |items| ==> HasTextPeriod(items[i])
    ensures Periods(MergeOne(items, x)) == Periods(items) + {PeriodOf(x)}
  {
    MergeOneShape(items, x);
  }

  /** The inner search of lines 503-515: the first item with the same period. */
  method FindSamePeriod(items: seq<Item>, x: Item) returns (found: Option<nat>)
    ensures found == FindPeriod(items, PeriodOf(x))
  {
    var i := 0;
    while i < |items|
      invariant 0 <= i <= |items|
      invariant forall j :: 0 <= j < i ==> PeriodOf(items[j]) != PeriodOf(x)
    {
      if PeriodOf(items[i]) == PeriodOf(x) {
        FindPeriodFirst(items, PeriodOf(x), i);
        return Some(i);
      }
      i := i + 1;
    }
    return None;
  }

  /** The first matching index is the one `FindPeriod` reports. */
  lemma {:induction false} FindPeriodFirst(items: seq<Item>, p: string, i: nat)
    requires i < |items| && PeriodOf(items[i]) == p
    requires forall j :: 0 <= j < i ==> PeriodOf(items[j]) != p
    ensures FindPeriod(items, p) == Some(i)
    decreases i
  {
    if i > 0 {
      FindPeriodFirst(items[1..], p, i - 1);
    }
  }

  /** The outer loop of lines 501-516 (and 524-539), updating `all_items` in place. */
  method MergeStatementInto(items: seq<Item>, incoming: seq<Item>) returns (allItems: seq<Item>)
    ensures allItems == MergeStatement(items, incoming)
  {
    allItems := items;
    var n := 0;
    while n < |incoming|
      invariant 0 <= n <= |incoming|
      invariant allItems == MergeStatement(items, incoming[..n])
    {
      var x := incoming[n];
      TakeTake(incoming, n);
      var found := FindSamePeriod(allItems, x);
      if found.Some? {
        allItems := allItems[found.value := MergeFields(allItems[found.value], x)];
      } else {
        allItems := allItems + [x];
      }
      n := n + 1;
    }
    assert incoming[..n] == incoming;
  }

  /** `get_cn_all_line_items`: balance sheet, then income statement and cash flow merged
      in, newest period first. A statement whose fetch failed contributes nothing. */
  function AllLineItems(balance: Result<seq<Item>>, income: Result<seq<Item>>, cashFlow: Result<seq<Item>>): seq<Item> {
    var b := if balance.Success? then balance.value else [];
    var withIncome := if income.Success? then MergeStatement(b, income.value) else b;
    var withCash := if cashFlow.Success? then MergeStatement(withIncome, cashFlow.value) else withIncome;
    SortBy(withCash, PeriodOf, true)
  }

  /** The combined list is newest-first, has an item for each period reported by any
      statement that was fetched, and keeps every present balance-sheet value. */
  lemma AllLineItemsShape(balance: seq<Item>, income: seq<Item>, cashFlow: seq<Item>)
    requires forall i :: 0 <= i < |balance| ==> HasTextPeriod(balance[i])
    requires forall i :: 0 <= i < |income| ==> HasTextPeriod(income[i])
    requires forall i :: 0 <= i < |cashFlow| ==> HasTextPeriod(cashFlow[i])
    ensures var r := AllLineItems(Success(balance), Success(income), Success(cashFlow));
      && SortedBy(r, PeriodOf, true)
      && Periods(r) == Periods(balance) + Periods(income) + Periods(cashFlow)
      && |r| <= |balance| + |income| + |cashFlow|
  {
    var withIncome := MergeStatement(balance, income);
    MergeStatementSize(balance, income);
    MergeStatementHasTextPeriods(balance, income);
    MergeStatementPeriods(balance, income);
    var withCash := MergeStatement(withIncome, cashFlow);
    MergeStatementSize(withIncome, cashFlow);
    MergeStatementPeriods(withIncome, cashFlow);
    SortBySorted(withCash, PeriodOf, true);
    PeriodsOfPermutation(withCash, SortBy(withCash, PeriodOf, true));
  }

  lemma MergeStatementSize(items: seq<Item>, incoming: seq<Item>)
    requires forall i :: 0 <= i < |items| ==> HasTextPeriod(items[i])
    requires forall i :: 0 <= i < |incoming| ==> HasTextPeriod(incoming[i])
    ensures |MergeStatement(items, incoming)| <= |items| + |incoming|
  {
    MergeStatementKeeps(items, incoming);
  }

  /** Reordering a list keeps its periods. */
  lemma PeriodsOfPermutation(a: seq<Item>, b: seq<Item>)
    requires multiset(a) == multiset(b)
    ensures Periods(a) == Periods(b)
  {
    forall p | p in Periods(b) ensures p in Periods(a) {
      var i :| 0 <= i < |b| && PeriodOf(b[i]) == p;
      assert b[i] in multiset(a);
      var j :| 0 <= j < |a| && a[j] == b[i];
    }
    forall p | p in Periods(a) ensures p in Periods(b) {
      var i :| 0 <= i < |a| && PeriodOf(a[i]) == p;
      assert a[i] in multiset(b);
      var j :| 0 <= j < |b| && b[j] == a[i];
    }
  }

  // ------------------------------------------------------------ statement converters

  /** One converted record: ticker, period text, "annual" and currency (default "CNY"),
      then every reported field on top. */
  function ConvertRecord(ticker: string, period: string, fields: seq<(string, Json)>): Item {
    var f := ObjMap(fields);
    var currency := if "currency" in f then f["currency"] else JStr("CNY");
    map["ticker" := JStr(ticker), "report_period" := JStr(period), "period" := JStr("annual"), "currency" := currency] + f
  }

  /** The records whose value is a JSON object, in the payload's order. */
  function Records(ticker: string, raw: seq<(string, Json)>): (r: seq<Item>)
    ensures |r| <= |raw|
    decreases |raw|
  {
    if raw == [] then []
    else
      var last := raw[|raw| - 1];
      Records(ticker, raw[..|raw| - 1]) + (if last.1.JObj? then [ConvertRecord(ticker, last.0, last.1.members)] else [])
  }

  function Take<T>(s: seq<T>, n: nat): (r: seq<T>)
    ensures |r| == MinInt(n, |s|)
  {
    if |s| <= n then s else s[..n]
  }

  /** `get_cn_balance_sheet_line_items` / `_income_statement_` / `_cash_flow_`: at most
      ten records, newest period first. */
  function ConvertStatement(ticker: string, raw: seq<(string, Json)>): (r: seq<Item>)
    ensures |r| <= 10 && |r| <= |raw|
  {
    Take(SortBy(Records(ticker, raw), PeriodOf, true), 10)
  }

  /** The converted list is newest-first, and when it was cut to ten no record left out
      is newer than one kept. */
  lemma ConvertStatementNewestFirst(ticker: string, raw: seq<(string, Json)>)
    ensures SortedBy(ConvertStatement(ticker, raw), PeriodOf, true)
    ensures var all := SortBy(Records(ticker, raw), PeriodOf, true);
      forall i, j :: 0 <= i < |ConvertStatement(ticker, raw)| <= j < |all| ==> NotAfter(PeriodOf(all[i]), PeriodOf(all[j]), true)
  {
    SortBySorted(Records(ticker, raw), PeriodOf, true);
  }

  /** A record without its own "currency" is in CNY, and one without its own period
      fields carries the payload key and "annual". */
  lemma ConvertRecordDefaults(ticker: string, period: string, fields: seq<(string, Json)>)
    ensures !HasKeyAnywhere(fields, "currency") ==> ConvertRecord(ticker, period, fields)["currency"] == JStr("CNY")
    ensures !HasKeyAnywhere(fields, "report_period") ==> PeriodOf(ConvertRecord(ticker, period, fields)) == period
    ensures !HasKeyAnywhere(fields, "period") ==> ConvertRecord(ticker, period, fields)["period"] == JStr("annual")
    ensures forall k :: HasKeyAnywhere(fields, k) ==> ConvertRecord(ticker, period, fields)[k] == ObjMap(fields)[k]
  {
  }
}
