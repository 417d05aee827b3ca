/** The DeepAlpha client's symbol rules and payload handling (src/tools/deepalpha.py):
    Hong Kong symbol detection, the function-name mapping, the ordered fallback over
    Hong Kong candidate functions, the list-to-dict conversion of indicator rows, the
    daily-price reshape and the ordering of valuation rows. The HTTP query itself is a
    parameter: `query(name)` is what `client.query(name, ...)` produces. */
module DeepAlpha {
  import opened Common
  import opened Sorting

  // ------------------------------------------------------------ symbols and names

  /** `_is_hk_stock`: after upper-casing and trimming, a `.HK` suffix, or five digits
      starting with 0 once every ".HK" is removed. */
  predicate IsHkStock(symbol: string) {
    var s := Strip(Upper(symbol));
    EndsWith(s, ".HK") ||
    (var base := RemoveAll(s, ".HK"); AllDigits(base) && |base| == 5 && base[0] == '0')
  }

  /** Letter case does not matter. */
  lemma HkDetectionIgnoresCase(symbol: string)
    ensures IsHkStock(Lower(symbol)) == IsHkStock(symbol)
  {
    UpperOfLower(symbol);
  }

  lemma RemoveAllAbsent(s: string, pat: string)
    requires |pat| > 0 && !Contains(s, pat)
    ensures RemoveAll(s, pat) == s
    decreases |s|
  {
    if |s| >= |pat| {
      assert !OccursAt(s, pat, 0);
      assert !Contains(s[1..], pat) by {
        if Contains(s[1..], pat) {
          var j := Find(s[1..], pat);
          assert s[1..][j..j + |pat|] == s[j + 1..j + 1 + |pat|];
          assert OccursAt(s, pat, j + 1);
        }
      }
      RemoveAllAbsent(s[1..], pat);
      assert s == [s[0]] + s[1..];
    }
  }

  lemma DigitsStripAndUpper(symbol: string)
    requires AllDigits(symbol)
    ensures Strip(Upper(symbol)) == symbol
  {
    assert Upper(symbol) == symbol;
    assert !IsSpace(symbol[0]) && !IsSpace(symbol[|symbol| - 1]);
  }

  /** A text none of whose characters starts `pat` holds no occurrence of it. */
  lemma NoLeadCharNoOccurrence(s: string, pat: string)
    requires |pat| > 0 && forall i :: 0 <= i < |s| ==> s[i] != pat[0]
    ensures forall j :: 0 <= j <= |s| ==> !OccursAt(s, pat, j)
  {
    forall j | 0 <= j <= |s| ensures !OccursAt(s, pat, j) {
      if j + |pat| <= |s| {
        assert s[j..j + |pat|][0] == s[j];
      }
    }
  }

  lemma DigitsHaveNoHkSuffix(symbol: string)
    requires AllDigits(symbol)
    ensures !Contains(symbol, ".HK") && !EndsWith(symbol, ".HK")
  {
    assert forall i :: 0 <= i < |symbol| ==> symbol[i] != ".HK"[0];
    NoLeadCharNoOccurrence(symbol, ".HK");
    if |symbol| >= 3 {
      assert !OccursAt(symbol, ".HK", |symbol| - 3);
      assert symbol[|symbol| - 3..] == symbol[|symbol| - 3..|symbol|];
    }
  }

  /** A plain code: five digits starting with 0 is Hong Kong, any other run of digits
      is not. */
  lemma PlainCodes(symbol: string)
    requires AllDigits(symbol)
    ensures IsHkStock(symbol) <==> |symbol| == 5 && symbol[0] == '0'
  {
    DigitsStripAndUpper(symbol);
    DigitsHaveNoHkSuffix(symbol);
    RemoveAllAbsent(symbol, ".HK");
  }

  /** `_get_function_name`: the HKSTK_ variant for Hong Kong symbols. */
  function FunctionName(baseFunction: string, symbol: string): (r: string)
    ensures IsHkStock(symbol) ==> r == "HKSTK_" + baseFunction
    ensures !IsHkStock(symbol) ==> r == baseFunction
  {
    if IsHkStock(symbol) then "HKSTK_" + baseFunction else baseFunction
  }

  /** `HK_FUNCTION_MAPPING`. */
  const HkFunctionMapping: map<string, seq<string>> := map[
    "BALANCE_SHEET" := ["HKSTK_BALANCE_SHEET_GENE", "HKSTK_BALANCE_BANK", "HKSTK_BALANCE_INSUR"],
    "INCOME_STATEMENT" := ["HKSTK_INCOME_GENE", "HKSTK_INCOME_BANK", "HKSTK_INCOME_INSUR"],
    "CASH_FLOW" := ["HKSTK_CASHFLOW"],
    "DAILY_PRICE" := ["HKSTK_MARKET_DATA"],
    "FINANALYSIS_MAIN" := ["HKSTK_FINRPT_DER", "HKSHARE_FINANCIAL_RATIOS"],
    "VALUATNANALYD" := []]

  /** `_get_hk_function_names`: the table's candidates, else HKSTK_ then HKSHARE_. */
  function HkFunctionNames(baseFunction: string): (r: seq<string>)
    ensures baseFunction in HkFunctionMapping ==> r == HkFunctionMapping[baseFunction]
    ensures baseFunction !in HkFunctionMapping ==> r == ["HKSTK_" + baseFunction, "HKSHARE_" + baseFunction]
  {
    if baseFunction in HkFunctionMapping then HkFunctionMapping[baseFunction]
    else ["HKSTK_" + baseFunction, "HKSHARE_" + baseFunction]
  }

  /** Every Hong Kong candidate carries an HKSTK_ or HKSHARE_ prefix, there are at most
      three, and valuation has none. */
  lemma HkNamesArePrefixed(baseFunction: string)
    ensures forall n :: n in HkFunctionNames(baseFunction) ==> StartsWith(n, "HKSTK_") || StartsWith(n, "HKSHARE_")
    ensures |HkFunctionNames(baseFunction)| <= 3
    ensures HkFunctionNames("VALUATNANALYD") == []
  {
    var r := HkFunctionNames(baseFunction);
    if baseFunction !in HkFunctionMapping {
      assert ("HKSTK_" + baseFunction)[..6] == "HKSTK_";
      assert ("HKSHARE_" + baseFunction)[..8] == "HKSHARE_";
    }
  }

  // ------------------------------------------------------------ fallback

  /** What a query produced: a response, a RuntimeError or another exception. */
  datatype Reply = Answer(resp: Json) | RuntimeFailure(message: string) | OtherFailure(message: string)

  /** `resp.get("data")["error"]` when the data is an object with an "error" member. */
  function DataError(members: seq<(string, Json)>): Option<Json> {
    var data: Json := GetOrNull(members, "data");
    if data.JObj? && HasKey(data.members, "error") then Some(GetOrNull(data.members, "error")) else None
  }

  /** The keyword test on an "error" member of a successful response. */
  predicate FunctionErrorInData(msg: string) {
    Contains(msg, "不支持") || Contains(msg, "不支持的功能") || Contains(Lower(msg), "invalid") ||
    Contains(Lower(msg), "not found") || Contains(Lower(msg), "unsupported")
  }

  /** The keyword test on a RuntimeError's text; it adds "code=" and "不存在". */
  predicate FunctionErrorRaised(msg: string) {
    Contains(msg, "code=") || Contains(Lower(msg), "invalid") || Contains(Lower(msg), "not found") ||
    Contains(msg, "不存在") || Contains(msg, "不支持") || Contains(msg, "不支持的功能") || Contains(Lower(msg), "unsupported")
  }

  /** Each data-error keyword is also a raised-error keyword. */
  lemma DataKeywordsAreRaisedKeywords(msg: string)
    ensures FunctionErrorInData(msg) ==> FunctionErrorRaised(msg)
  {
  }

  /** The verdict on one candidate. */
  datatype Step = Accept(resp: Json) | Skip(error: string) | Propagate(reply: Reply)

  /** One pass of the `try` block for candidate `name`. A non-function error in the data
      is raised inside the `try`, so the `except RuntimeError` clause re-tests its text
      with the second keyword list. */
  function TryCandidate(name: string, symbol: string, reply: Reply): (s: Step)
    ensures reply.OtherFailure? ==> s == Propagate(reply)
    ensures s.Accept? ==> reply.Answer? && s.resp == reply.resp
    ensures s.Propagate? ==> !s.reply.Answer?
  {
    match reply
    case Answer(resp) =>
      if !resp.JObj? then Propagate(OtherFailure("AttributeError"))
      else
        (match DataError(resp.members)
         case None => Accept(resp)
         case Some(e) =>
           if !e.JStr? then Propagate(OtherFailure("AttributeError"))
           else if FunctionErrorInData(e.s) then Skip("DeepAlpha API returned error: " + e.s)
           else
             var raised := "DeepAlpha API returned error for " + name + " (symbol=" + symbol + "): " + e.s;
             if FunctionErrorRaised(raised) then Skip(raised) else Propagate(RuntimeFailure(raised)))
    case RuntimeFailure(m) => if FunctionErrorRaised(m) then Skip(m) else Propagate(reply)
    case OtherFailure(_) => Propagate(reply)
  }

  function AllFailed(symbol: string, names: seq<string>, lastError: Option<string>): Reply {
    if lastError.Some? then
      RuntimeFailure("All HK function formats failed for " + symbol + " (tried: " + Join(names, ", ") + "). Last error: " + lastError.value)
    else RuntimeFailure("All HK function formats failed for " + symbol)
  }

  /** The verdict on each candidate, in order. */
  function Verdicts(names: seq<string>, symbol: string, query: string -> Reply): (v: seq<Step>)
    ensures |v| == |names|
    ensures forall i :: 0 <= i < |names| ==> v[i] == TryCandidate(names[i], symbol, query(names[i]))
  {
    seq(|names|, i requires 0 <= i < |names| => TryCandidate(names[i], symbol, query(names[i])))
  }

  /** The candidate loop from index `i` on, over the candidates' verdicts. */
  function Fallback(verdicts: seq<Step>, names: seq<string>, symbol: string, i: nat, lastError: Option<string>): Reply
    requires i <= |verdicts|
    decreases |verdicts| - i
  {
    if i == |verdicts| then AllFailed(symbol, names, lastError)
    else
      match verdicts[i]
      case Accept(resp) => Answer(resp)
      case Skip(e) => Fallback(verdicts, names, symbol, i + 1, Some(e))
      case Propagate(r) => r
  }

  /** The fallback over the candidates `names`. */
  function HkFallback(names: seq<string>, symbol: string, query: string -> Reply): Reply {
    Fallback(Verdicts(names, symbol, query), names, symbol, 0, None)
  }

  /** `_query_with_hk_fallback`. */
  function QueryWithHkFallback(baseFunction: string, symbol: string, query: string -> Reply): Reply {
    if IsHkStock(symbol) then HkFallback(HkFunctionNames(baseFunction), symbol, query)
    else query(baseFunction)
  }

  /** The first verdict from `i` on that is not a skip, or |verdicts|. */
  function FirstNotSkipped(verdicts: seq<Step>, i: nat): (k: nat)
    requires i <= |verdicts|
    ensures i <= k <= |verdicts|
    ensures forall j :: i <= j < k ==> verdicts[j].Skip?
    ensures k < |verdicts| ==> !verdicts[k].Skip?
    decreases |verdicts| - i
  {
    if i == |verdicts| then i
    else if verdicts[i].Skip? then FirstNotSkipped(verdicts, i + 1)
    else i
  }

  /** The first candidate not skipped decides: its response is returned or its error
      propagates; when every candidate is skipped the RuntimeError names them all and
      the last skipped error. */
  lemma {:induction false} FallbackDecidedBy(verdicts: seq<Step>, names: seq<string>, symbol: string,
                                             i: nat, lastError: Option<string>)
    requires i <= |verdicts|
    ensures var k := FirstNotSkipped(verdicts, i);
      var r := Fallback(verdicts, names, symbol, i, lastError);
      && (k < |verdicts| && verdicts[k].Accept? ==> r == Answer(verdicts[k].resp))
      && (k < |verdicts| && verdicts[k].Propagate? ==> r == verdicts[k].reply)
      && (k == |verdicts| && k > i ==> r == AllFailed(symbol, names, Some(verdicts[k - 1].error)))
      && (k == i == |verdicts| ==> r == AllFailed(symbol, names, lastError))
    decreases |verdicts| - i
  {
    if i < |verdicts| && verdicts[i].Skip? {
      FallbackDecidedBy(verdicts, names, symbol, i + 1, Some(verdicts[i].error));
    }
  }

  /** A symbol that is not Hong Kong is queried once, under its base function name. */
  lemma NonHkQueriesBaseOnce(baseFunction: string, symbol: string, query: string -> Reply)
    requires !IsHkStock(symbol)
    ensures QueryWithHkFallback(baseFunction, symbol, query) == query(baseFunction)
  {
  }

  /** An answer is the response of the first verdict that is not a skip. */
  lemma FallbackAnswer(verdicts: seq<Step>, names: seq<string>, symbol: string)
    requires forall i :: 0 <= i < |verdicts| && verdicts[i].Propagate? ==> !verdicts[i].reply.Answer?
    ensures var r := Fallback(verdicts, names, symbol, 0, None);
      r.Answer? ==> exists k :: 0 <= k < |verdicts| && verdicts[k] == Accept(r.resp) && (forall j :: 0 <= j < k ==> verdicts[j].Skip?)
  {
    var r := Fallback(verdicts, names, symbol, 0, None);
    FallbackDecidedBy(verdicts, names, symbol, 0, None);
    var k := FirstNotSkipped(verdicts, 0);
    if r.Answer? {
      assert k < |verdicts| && verdicts[k] == Accept(r.resp);
    }
  }

  /** The answer is the response of the first candidate that was not skipped, every
      candidate before it having failed with a function error. */
  lemma HkFallbackAnswer(names: seq<string>, symbol: string, query: string -> Reply)
    ensures var v := Verdicts(names, symbol, query);
      var r := HkFallback(names, symbol, query);
      r.Answer? ==> exists k :: 0 <= k < |names| && v[k] == Accept(r.resp) && (forall j :: 0 <= j < k ==> v[j].Skip?)
  {
    FallbackAnswer(Verdicts(names, symbol, query), names, symbol);
  }

  /** When every candidate is skipped the result is the RuntimeError naming them and
      the last skipped error. */
  lemma HkFallbackAllSkipped(names: seq<string>, symbol: string, query: string -> Reply)
    requires names != []
    requires forall j :: 0 <= j < |names| ==> Verdicts(names, symbol, query)[j].Skip?
    ensures HkFallback(names, symbol, query) ==
      AllFailed(symbol, names, Some(Verdicts(names, symbol, query)[|names| - 1].error))
  {
    var v := Verdicts(names, symbol, query);
    FallbackDecidedBy(v, names, symbol, 0, None);
    assert FirstNotSkipped(v, 0) == |names|;
  }

  /** A verdict that propagates ends the search with that verdict's error, when every
      candidate before it was skipped. */
  lemma HkFallbackPropagates(names: seq<string>, symbol: string, query: string -> Reply, k: nat)
    requires k < |names|
    requires forall j :: 0 <= j < k ==> Verdicts(names, symbol, query)[j].Skip?
    requires Verdicts(names, symbol, query)[k].Propagate?
    ensures HkFallback(names, symbol, query) == Verdicts(names, symbol, query)[k].reply
  {
    var v := Verdicts(names, symbol, query);
    FallbackDecidedBy(v, names, symbol, 0, None);
    assert FirstNotSkipped(v, 0) == k;
  }

  /** The loop of lines 265-337 over the candidates, tracking `last_error`. */
  method FallbackLoop(functionNames: seq<string>, symbol: string, query: string -> Reply) returns (r: Reply)
    ensures r == HkFallback(functionNames, symbol, query)
  {
    ghost var verdicts := Verdicts(functionNames, symbol, query);
    var lastError: Option<string> := None;
    var i := 0;
    while i < |functionNames|
      invariant 0 <= i <= |functionNames|
      invariant Fallback(verdicts, functionNames, symbol, i, lastError) == HkFallback(functionNames, symbol, query)
    {
      var step := TryCandidate(functionNames[i], symbol, query(functionNames[i]));
      assert step == verdicts[i];
      match step {
        case Accept(resp) => return Answer(resp);
        case Skip(e) => lastError := Some(e);
        case Propagate(reply) => return reply;
      }
      i := i + 1;
    }
    return AllFailed(symbol, functionNames, lastError);
  }

  /** `_query_with_hk_fallback`: one query for other symbols, the candidate loop for
      Hong Kong ones. */
  method QueryWithHkFallbackLoop(baseFunction: string, symbol: string, query: string -> Reply) returns (r: Reply)
    ensures r == QueryWithHkFallback(baseFunction, symbol, query)
  {
    if !IsHkStock(symbol) {
      return query(baseFunction);
    }
    r := FallbackLoop(HkFunctionNames(baseFunction), symbol, query);
  }

  // ------------------------------------------------------------ request parameters

  /** The date parameters: present only for non-empty dates, with hyphens removed. */
  function DateParams(startDate: string, endDate: string): (p: map<string, string>)
    ensures "start_date" in p <==> startDate != ""
    ensures "end_date" in p <==> endDate != ""
    ensures forall k :: k in p ==> forall i :: 0 <= i < |p[k]| ==> p[k][i] != '-'
    ensures startDate != "" ==> p["start_date"] == RemoveChar(startDate, '-')
    ensures endDate != "" ==> p["end_date"] == RemoveChar(endDate, '-')
    ensures forall k :: k in p ==> k == "start_date" || k == "end_date"
  {
    var withStart: map<string, string> := if startDate != "" then map["start_date" := RemoveChar(startDate, '-')] else map[];
    if endDate != "" then withStart["end_date" := RemoveChar(endDate, '-')] else withStart
  }

  // ------------------------------------------------------------ daily prices

  /** `v.get(key, default)`: fails with AttributeError when `v` is not an object. */
  function DictGet(v: Json, key: string, default: Json): Result<Json> {
    if !v.JObj? then Failure("AttributeError")
    else if HasKey(v.members, key) then Success(GetOrNull(v.members, key))
    else Success(default)
  }

  /** An object becomes its values, a list is kept, anything else is empty. */
  function Reshape(inner: Json): (r: seq<Json>)
    ensures inner.JArr? ==> r == inner.elems
    ensures inner.JObj? ==> r == Values(inner.members)
  {
    match inner
    case JObj(m) => Values(m)
    case JArr(e) => e
    case _ => []
  }

  /** `get_daily_price_raw` after the query, as written: `data.data.data or data.data`,
      so an empty row list falls through to the enclosing object. */
  function DailyPriceRowsAsWritten(resp: Json): Result<seq<Json>> {
    match DictGet(resp, "data", JObj([]))
    case Failure(e) => Failure(e)
    case Success(d1) =>
      match DictGet(d1, "data", JObj([]))
      case Failure(e) => Failure(e)
      case Success(d2) =>
        match DictGet(d2, "data", JNull)
        case Failure(e) => Failure(e)
        case Success(d3) =>
          var inner := if Truthy(d3) then d3 else GetOrNull(d1.members, "data");
          Success(Reshape(inner))
  }

  /** An empty `data.data.data` list gives a one-row result whose row is that empty list. */
  lemma EmptyPriceListLeaks()
    ensures var resp := JObj([("data", JObj([("data", JObj([("data", JArr([]))]))]))]);
      DailyPriceRowsAsWritten(resp) == Success([JArr([])])
  {
    var resp := JObj([("data", JObj([("data", JObj([("data", JArr([]))]))]))]);
    var d2 := JObj([("data", JArr([]))]);
    assert Values(d2.members) == [JArr([])];
  }

  /** The evident intent: `data.data.data` when it is there at all, `data.data` only
      when it is missing or None. */
  function DailyPriceRows(resp: Json): Result<seq<Json>> {
    match DictGet(resp, "data", JObj([]))
    case Failure(e) => Failure(e)
    case Success(d1) =>
      match DictGet(d1, "data", JObj([]))
      case Failure(e) => Failure(e)
      case Success(d2) =>
        match DictGet(d2, "data", JNull)
        case Failure(e) => Failure(e)
        case Success(d3) =>
          var inner := if d3 != JNull then d3 else GetOrNull(d1.members, "data");
          Success(Reshape(inner))
  }

  /** With the correction a row list at `data.data.data` is returned as it is, empty or
      not, and the two versions agree whenever that list is non-empty. */
  lemma DailyPriceRowsKeepsRowList(resp: Json, rows: seq<Json>)
    requires resp.JObj? && HasKey(resp.members, "data")
    requires var d1 := GetOrNull(resp.members, "data"); d1.JObj? && HasKey(d1.members, "data")
    requires var d2 := GetOrNull(GetOrNull(resp.members, "data").members, "data");
      d2.JObj? && HasKey(d2.members, "data") && GetOrNull(d2.members, "data") == JArr(rows)
    ensures DailyPriceRows(resp) == Success(rows)
    ensures rows != [] ==> DailyPriceRowsAsWritten(resp) == Success(rows)
  {
  }

  // ------------------------------------------------------------ indicator rows

  const PeriodFields: seq<string> := ["report_period", "report_date", "end_date", "trade_date", "period_end_date"]

  /** The first of `PeriodFields` from index `k` on that the row holds with a truthy
      value, rendered by `render` (Python's `str`). */
  function FoundPeriod(row: map<string, Json>, render: Json -> string, k: nat): (r: Option<string>)
    requires k <= |PeriodFields|
    decreases |PeriodFields| - k
  {
    if k == |PeriodFields| then None
    else if PeriodFields[k] in row && Truthy(row[PeriodFields[k]]) then Some(render(row[PeriodFields[k]]))
    else FoundPeriod(row, render, k + 1)
  }

  /** The row's key: its period text when found and non-empty, else the table's current
      size as text. */
  function RowKey(row: map<string, Json>, render: Json -> string, size: nat): (key: string)
    ensures FoundPeriod(row, render, 0).None? ==> key == NatToString(size)
  {
    var found := FoundPeriod(row, render, 0);
    if found.Some? && found.value != "" then found.value else NatToString(size)
  }

  /** A truthy report_period is the key, whatever the other fields hold. */
  lemma ReportPeriodFirst(row: map<string, Json>, render: Json -> string, size: nat)
    requires "report_period" in row && Truthy(row["report_period"]) && render(row["report_period"]) != ""
    ensures RowKey(row, render, size) == render(row["report_period"])
  {
  }

  /** The list branch of `get_financial_indicators_raw`: rows that are objects keyed by
      period, a repeated key merging with the later row's fields winning. */
  function ListToDict(rows: seq<Json>, render: Json -> string): (d: map<string, map<string, Json>>)
    ensures |d| <= |rows|
    decreases |rows|
  {
    if rows == [] then map[]
    else
      var d := ListToDict(rows[..|rows| - 1], render);
      var last := rows[|rows| - 1];
      if !last.JObj? then d
      else
        var row := ObjMap(last.members);
        var key := RowKey(row, render, |d|);
        d[key := if key in d then d[key] + row else row]
  }

  /** The row just added shows all its fields in its entry, while the entry keeps the
      earlier fields the row does not have; other entries are untouched. */
  lemma LaterRowOverrides(rows: seq<Json>, last: Json, render: Json -> string)
    requires last.JObj?
    ensures var before := ListToDict(rows, render);
      var after := ListToDict(rows + [last], render);
      var row := ObjMap(last.members);
      var key := RowKey(row, render, |before|);
      && key in after
      && (forall f :: f in row ==> f in after[key] && after[key][f] == row[f])
      && (key in before ==> forall f :: f in before[key] && f !in row ==> f in after[key] && after[key][f] == before[key][f])
      && (forall k :: k in before && k != key ==> k in after && after[k] == before[k])
  {
    assert (rows + [last])[..|rows|] == rows;
  }

  /** Rows that are not objects are skipped. */
  lemma NonObjectRowsSkipped(rows: seq<Json>, last: Json, render: Json -> string)
    requires !last.JObj?
    ensures ListToDict(rows + [last], render) == ListToDict(rows, render)
  {
    assert (rows + [last])[..|rows|] == rows;
  }

  /** The inner loop over the period field names. */
  method FindReportPeriod(row: map<string, Json>, render: Json -> string) returns (reportPeriod: Option<string>)
    ensures reportPeriod == FoundPeriod(row, render, 0)
  {
    reportPeriod := None;
    var k := 0;
    while k < |PeriodFields|
      invariant 0 <= k <= |PeriodFields|
      invariant reportPeriod.None? ==> FoundPeriod(row, render, 0) == FoundPeriod(row, render, k)
      invariant reportPeriod.Some? ==> FoundPeriod(row, render, 0) == reportPeriod
    {
      var key := PeriodFields[k];
      if key in row && Truthy(row[key]) {
        reportPeriod := Some(render(row[key]));
        break;
      }
      k := k + 1;
    }
  }

  /** The conversion loop of lines 563-592, updating `result_dict` in place. */
  method ConvertRows(rows: seq<Json>, render: Json -> string) returns (resultDict: map<string, map<string, Json>>)
    ensures resultDict == ListToDict(rows, render)
  {
    resultDict := map[];
    var i := 0;
    while i < |rows|
      invariant 0 <= i <= |rows|
      invariant resultDict == ListToDict(rows[..i], render)
    {
      TakeTake(rows, i);
      var item := rows[i];
      if item.JObj? {
        var row := ObjMap(item.members);
        var reportPeriod := FindReportPeriod(row, render);
        var period := if reportPeriod.Some? && reportPeriod.value != "" then reportPeriod.value else NatToString(|resultDict|);
        if period in resultDict {
          resultDict := resultDict[period := resultDict[period] + row];
        } else {
          resultDict := resultDict[period := row];
        }
      }
      i := i + 1;
    }
    assert rows[..i] == rows;
  }

  /** What `get_financial_indicators_raw` returns: a table built from a row list, or the
      object the API returned, member by member. */
  datatype Indicators = ByPeriod(table: map<string, map<string, Json>>) | AsReturned(members: seq<(string, Json)>)

  /** `get_financial_indicators_raw` after the fallback query: a data error or a missing
      `data.data.data` raises, a list is converted, an object is kept, anything else
      raises. The texts of the errors are left to `render`. */
  function FinancialIndicators(reply: Reply, symbol: string, render: Json -> string): (r: Result<Indicators>)
    ensures !reply.Answer? ==> r.Failure?
  {
    match reply
    case RuntimeFailure(m) => Failure(m)
    case OtherFailure(m) => Failure(m)
    case Answer(resp) =>
      if !resp.JObj? then Failure("AttributeError")
      else if DataError(resp.members).Some? then
        Failure("DeepAlpha API returned error for " + FunctionName("FINANALYSIS_MAIN", symbol) + " (symbol=" + symbol + "): " + render(DataError(resp.members).value))
      else
        var d1 := GetOrNull(resp.members, "data");
        var d2 := if d1.JObj? then GetOrNull(d1.members, "data") else JNull;
        if !(d1.JObj? && HasKey(d1.members, "data") && d2.JObj? && HasKey(d2.members, "data")) then
          Failure("Unexpected " + FunctionName("FINANALYSIS_MAIN", symbol) + " response structure for " + symbol + ". Full response: " + render(resp))
        else
          var inner := GetOrNull(d2.members, "data");
          if inner.JArr? then Success(ByPeriod(ListToDict(inner.elems, render)))
          else if inner.JObj? then Success(AsReturned(inner.members))
          else Failure("FINANALYSIS_MAIN 'data.data.data' should be a dict or list")
  }

  /** An empty row list gives an empty table. */
  lemma EmptyRowsEmptyTable(render: Json -> string)
    ensures ListToDict([], render) == map[]
  {
  }

  // ------------------------------------------------------------ valuation rows

  /** A row's `trade_date` when it is text. */
  function TradeDate(row: Json): (d: string)
    ensures HasTextTradeDate(row) ==> d == GetOrNull(row.members, "trade_date").s
    ensures !HasTextTradeDate(row) ==> d == ""
  {
    if row.JObj? && HasKey(row.members, "trade_date") && GetOrNull(row.members, "trade_date").JStr? then
      GetOrNull(row.members, "trade_date").s
    else ""
  }

  predicate HasTextTradeDate(row: Json) {
    row.JObj? && HasKey(row.members, "trade_date") && GetOrNull(row.members, "trade_date").JStr?
  }

  /** `sorted(rows, key=lambda x: x.get("trade_date", 0), reverse=True)`. A row that is
      not an object raises. Rows that all have a text trade date are sorted by it; rows
      that all lack one share the key 0 and keep their order. Two or more rows with
      any other keys are reported as a TypeError, which Python raises when it compares
      a text key with a number; all-numeric keys, which Python does sort, are reported
      the same way. */
  function SortValuationRows(rows: seq<Json>): (r: Result<seq<Json>>)
    ensures r.Success? ==> SortedBy(r.value, TradeDate, true) && multiset(r.value) == multiset(rows)
  {
    if exists i :: 0 <= i < |rows| && !rows[i].JObj? then Failure("AttributeError")
    else if |rows| <= 1 then Success(rows)
    else if forall i :: 0 <= i < |rows| ==> HasTextTradeDate(rows[i]) then
      SortBySorted(rows, TradeDate, true);
      Success(SortBy(rows, TradeDate, true))
    else if forall i :: 0 <= i < |rows| ==> !HasKey(rows[i].members, "trade_date") then Success(rows)
    else Failure("TypeError")
  }

  /** `get_valuation_main_raw`: Hong Kong symbols have no valuation function and get no
      rows; otherwise the rows of `data.data.data`, newest trade date first. */
  function ValuationRows(symbol: string, query: string -> Reply): Result<seq<Json>> {
    if IsHkStock(symbol) && HkFunctionNames("VALUATNANALYD") == [] then Success([])
    else
      match QueryWithHkFallback("VALUATNANALYD", symbol, query)
      case RuntimeFailure(m) => if IsHkStock(symbol) then Success([]) else Failure(m)
      case OtherFailure(m) => Failure(m)
      case Answer(resp) =>
        match DictGet(resp, "data", JObj([]))
        case Failure(e) => Failure(e)
        case Success(d1) =>
          match DictGet(d1, "data", JObj([]))
          case Failure(e) => Failure(e)
          case Success(d2) =>
            match DictGet(d2, "data", JArr([]))
            case Failure(e) => Failure(e)
            case Success(inner) =>
              if inner.JArr? then SortValuationRows(inner.elems) else Success([])
  }

  /** Rows that all lack a trade date come back in their own order. */
  lemma UndatedRowsKeepOrder(rows: seq<Json>)
    requires forall i :: 0 <= i < |rows| ==> rows[i].JObj? && !HasKey(rows[i].members, "trade_date")
    ensures SortValuationRows(rows) == Success(rows)
  {
  }

  /** A Hong Kong symbol gets no valuation rows, whatever the API would say. */
  lemma HkHasNoValuation(symbol: string, query: string -> Reply)
    requires IsHkStock(symbol)
    ensures ValuationRows(symbol, query) == Success([])
  {
    HkNamesArePrefixed("VALUATNANALYD");
  }

  /** `get_latest_valuation`: the first row, if any. */
  function LatestValuation(rows: Result<seq<Json>>): Result<Option<Json>> {
    match rows
    case Failure(e) => Failure(e)
    case Success(r) => if r == [] then Success(None) else Success(Some(r[0]))
  }

  /** The latest valuation has the newest trade date of all rows. */
  lemma LatestIsNewest(symbol: string, query: string -> Reply)
    requires var rows := ValuationRows(symbol, query); rows.Success? && rows.value != []
    ensures var rows := ValuationRows(symbol, query).value;
      var latest := LatestValuation(ValuationRows(symbol, query));
      latest == Success(Some(rows[0])) && forall j :: 0 <= j < |rows| ==> NotAfter(TradeDate(rows[0]), TradeDate(rows[j]), true)
  {
    var rows := ValuationRows(symbol, query).value;
    forall j | 0 <= j < |rows| ensures NotAfter(TradeDate(rows[0]), TradeDate(rows[j]), true) {
      if j == 0 {
        NotAfterTotal(TradeDate(rows[0]), TradeDate(rows[0]), true);
      }
    }
  }
}
