/**
 * The HTTP side of `NotionApiClient::request` and the cursor loop of
 * `getManyDatabasePagesWithFilter`, on values. The network is a script of
 * answers consumed one per request; an exhausted script answers with a
 * transport error. `decoded` stands for `json_decode($body, true)`, which is
 * null for a body that is not JSON.
 */
module Transport {
  import opened Wrappers
  import opened Text
  import opened Json
  import opened Php

  /** What `wp_remote_request` gives back: a `WP_Error`, or a status code with a body. */
  datatype Response =
    | NetworkError(message: string)
    | HttpResponse(code: int, body: string, decoded: Json)

  /** What is handed to `wp_remote_request`: method, URL, headers, timeout and JSON body. */
  datatype HttpRequest = HttpRequest(verb: string, url: string, headers: seq<(string, string)>, timeout: nat, body: Option<Json>)

  /** The client's debug fields `lastError`, `lastHttpCode` and `lastResponseBody`. */
  datatype Diagnostics = Diagnostics(lastError: Option<string>, lastHttpCode: Option<int>, lastResponseBody: Option<string>)

  const Cleared: Diagnostics := Diagnostics(None, None, None)

  const UnavailableMessage: string := "wp_remote_request() is not available (WordPress HTTP API missing)."

  const NonJsonMessage: string := "Non-JSON response from Notion."

  /** The transport error an exhausted script of answers gives. */
  const NoAnswerMessage: string := "no answer"

  const RequestTimeout: nat := 20

  function RequestHeaders(token: string, notionVersion: string): seq<(string, string)>
  {
    [("Authorization", "Bearer " + token), ("Notion-Version", notionVersion),
     ("Content-Type", "application/json"), ("Accept", "application/json")]
  }

  /** `"Notion API error ({$code}, {$errc}): {$msg}"`, with Notion's `code` and `message` when they are strings. */
  function ApiErrorMessage(code: int, decoded: Json): string
  {
    var errc := Get(decoded, "code");
    var msg := Get(decoded, "message");
    "Notion API error (" + IntToString(code) + ", " + (if errc.JStr? then errc.s else "unknown") + "): "
      + (if msg.JStr? then msg.s else "Unknown error")
  }

  /** A request succeeds exactly when the answer is an HTTP response with a 2xx status and a JSON array body. */
  predicate Succeeded(resp: Response)
  {
    resp.HttpResponse? && IsArray(resp.decoded) && 200 <= resp.code < 300
  }

  /** The value `request` returns for an answer: the decoded body, or null. */
  function ResultOf(resp: Response): Option<Json>
  {
    match resp
    case NetworkError(_) => None
    case HttpResponse(code, _, decoded) =>
      if !IsArray(decoded) then None
      else if code < 200 || code >= 300 then None
      else Some(decoded)
  }

  /** The debug fields `request` leaves behind for an answer. */
  function DiagnosticsOf(resp: Response): Diagnostics
  {
    match resp
    case NetworkError(message) => Diagnostics(Some("WP HTTP error: " + message), None, None)
    case HttpResponse(code, body, decoded) =>
      if !IsArray(decoded) then Diagnostics(Some(NonJsonMessage), Some(code), Some(body))
      else if code < 200 || code >= 300 then Diagnostics(Some(ApiErrorMessage(code, decoded)), Some(code), Some(body))
      else Diagnostics(None, Some(code), Some(body))
  }

  /** The answer the next request gets. */
  function Answer(script: seq<Response>): Response
  {
    if script == [] then NetworkError(NoAnswerMessage) else script[0]
  }

  /** The script after the next request. */
  function Remaining(script: seq<Response>): (rest: seq<Response>)
    ensures |rest| == if script == [] then 0 else |script| - 1
  {
    if script == [] then [] else script[1..]
  }

  /** What one call of `request` does: its result, the debug fields, the script left, and whether a request went out. */
  datatype Exchange = Exchange(result: Option<Json>, diagnostics: Diagnostics, rest: seq<Response>, delivered: bool)

  function ExchangeOf(httpApi: bool, script: seq<Response>): (x: Exchange)
    ensures x.delivered <==> httpApi
    ensures x.result.Some? ==> x.delivered && IsArray(x.result.value)
    ensures x.diagnostics.lastError.None? <==> x.result.Some?
    ensures x.rest == if x.delivered && script != [] then script[1..] else script
  {
    if !httpApi then Exchange(None, Diagnostics(Some(UnavailableMessage), None, None), script, false)
    else
      var resp := Answer(script);
      Exchange(ResultOf(resp), DiagnosticsOf(resp), Remaining(script), true)
  }

  // ---------------------------------------------------------------------------
  // What `request` promises.
  // ---------------------------------------------------------------------------

  /** `request` returns an array exactly for a 2xx answer whose body decodes to an array, and then that array. */
  lemma ResultOfIsSuccess(resp: Response)
    ensures ResultOf(resp).Some? <==> Succeeded(resp)
    ensures ResultOf(resp).Some? ==> ResultOf(resp).value == resp.decoded && IsArray(ResultOf(resp).value)
  {
  }

  /** `lastError` is set exactly when `request` returns null. */
  lemma ErrorRecordedIffFailed(httpApi: bool, script: seq<Response>)
    ensures var x := ExchangeOf(httpApi, script); x.diagnostics.lastError.Some? <==> x.result.None?
  {
  }

  /** Every HTTP answer records its status and raw body; a transport error or a missing HTTP API records neither. */
  lemma StatusAndBodyRecorded(resp: Response)
    ensures resp.HttpResponse? ==>
      DiagnosticsOf(resp).lastHttpCode == Some(resp.code) && DiagnosticsOf(resp).lastResponseBody == Some(resp.body)
    ensures resp.NetworkError? ==> DiagnosticsOf(resp).lastHttpCode.None? && DiagnosticsOf(resp).lastResponseBody.None?
  {
  }

  /** A JSON answer with a status outside [200, 300) names the status, and Notion's message when it sent one, in `lastError`. */
  lemma StatusFailureNamesCode(code: int, body: string, decoded: Json)
    requires IsArray(decoded) && (code < 200 || code >= 300)
    ensures var d := DiagnosticsOf(HttpResponse(code, body, decoded));
      d.lastError.Some? && Contains(d.lastError.value, IntToString(code)) && d.lastHttpCode == Some(code)
    ensures Get(decoded, "message").JStr? ==>
      Contains(DiagnosticsOf(HttpResponse(code, body, decoded)).lastError.value, Get(decoded, "message").s)
  {
    var errc := Get(decoded, "code");
    var msg := Get(decoded, "message");
    ContainsInSix("Notion API error (", IntToString(code), ", ", if errc.JStr? then errc.s else "unknown",
                  "): ", if msg.JStr? then msg.s else "Unknown error");
  }

  /** A body that does not decode to an array fails whatever the status, recording the status and body. */
  lemma NonJsonFails(code: int, body: string, decoded: Json)
    requires !IsArray(decoded)
    ensures ResultOf(HttpResponse(code, body, decoded)).None?
    ensures DiagnosticsOf(HttpResponse(code, body, decoded)) == Diagnostics(Some(NonJsonMessage), Some(code), Some(body))
  {
  }

  // ---------------------------------------------------------------------------
  // The cursor loop of `getManyDatabasePagesWithFilter`.
  // ---------------------------------------------------------------------------

  /** The query body: a one-property filter, the page size, and the cursor once there is one. */
  function QueryBody(filterProperty: string, propertyType: string, operator: string, value: Json,
                     pageSize: int, cursor: Json): (body: Json)
    ensures Get(body, "page_size") == JNum(Decimal(pageSize, 0))
    ensures Get(body, "start_cursor") == cursor
  {
    var filter := JObject(Put([("property", JStr(filterProperty))], propertyType, JObject([(operator, value)])));
    var base := [("filter", filter), ("page_size", JNum(Decimal(pageSize, 0)))];
    assert "page_size" != "filter" && "start_cursor" != "filter" && "start_cursor" != "page_size" by {
      assert "page_size"[0] != "filter"[0] && "start_cursor"[0] != "filter"[0] && "start_cursor"[0] != "page_size"[0];
    }
    var full := base + [("start_cursor", cursor)];
    assert base[1..][1..] == [] && full[1..][1..] == [("start_cursor", cursor)];
    assert Lookup(base, "page_size") == Lookup(full, "page_size") == Some(JNum(Decimal(pageSize, 0)));
    assert Lookup(base, "start_cursor") == Lookup(base[1..], "start_cursor") == Lookup(base[1..][1..], "start_cursor") == None;
    assert Lookup(full, "start_cursor") == Lookup(full[1..], "start_cursor") == Lookup(full[1..][1..], "start_cursor");
    JObject(if cursor != JNull then full else base)
  }

  /** `$resp['results'] ?? []`, iterated only when it is an array. */
  function PageResults(page: Json): seq<Json>
  {
    Values(Get(page, "results"))
  }

  /** `$resp['next_cursor'] ?? null`. */
  function NextCursor(page: Json): Json
  {
    Get(page, "next_cursor")
  }

  /** Whether the do-while goes round again after `page`. */
  predicate Continues(page: Json, fetchAll: bool)
  {
    fetchAll && Truthy(Get(page, "has_more")) && Truthy(NextCursor(page))
  }

  /** The cursors sent, the result, the script left and the debug fields of one run of the loop. */
  datatype QueryRun = QueryRun(result: Option<seq<Json>>, cursors: seq<Json>, rest: seq<Response>, diagnostics: Diagnostics)

  /** The loop from the request for `cursor` on, with `acc` already collected. */
  function RunQuery(httpApi: bool, script: seq<Response>, cursor: Json, fetchAll: bool, acc: seq<Json>): (run: QueryRun)
    ensures run.cursors != [] <==> httpApi
    ensures run.cursors != [] ==> run.cursors[0] == cursor
    ensures |run.rest| <= |script|
    ensures run.result.Some? ==> acc <= run.result.value
    decreases |script|
  {
    var x := ExchangeOf(httpApi, script);
    var sentNow := if x.delivered then [cursor] else [];
    match x.result
    case None => QueryRun(None, sentNow, x.rest, x.diagnostics)
    case Some(page) =>
      var collected := acc + PageResults(page);
      if Continues(page, fetchAll) then
        var next := RunQuery(httpApi, x.rest, NextCursor(page), fetchAll, collected);
        QueryRun(next.result, sentNow + next.cursors, next.rest, next.diagnostics)
      else QueryRun(Some(collected), sentNow, x.rest, x.diagnostics)
  }

  /** One request of the loop: a failure ends the run; a success ends it or hands on to the next cursor. */
  lemma RunQueryStep(httpApi: bool, script: seq<Response>, cursor: Json, fetchAll: bool, acc: seq<Json>)
    ensures var x := ExchangeOf(httpApi, script);
      var run := RunQuery(httpApi, script, cursor, fetchAll, acc);
      (x.result.None? ==> run == QueryRun(None, if x.delivered then [cursor] else [], x.rest, x.diagnostics)) &&
      (x.result.Some? ==>
         x.delivered && script != [] && x.rest == script[1..] &&
         var page := x.result.value;
         var collected := acc + PageResults(page);
         if Continues(page, fetchAll) then
           var next := RunQuery(httpApi, x.rest, NextCursor(page), fetchAll, collected);
           run == QueryRun(next.result, [cursor] + next.cursors, next.rest, next.diagnostics)
         else run == QueryRun(Some(collected), [cursor], x.rest, x.diagnostics))
  {
    ResultOfIsSuccess(Answer(script));
  }

  /** The concatenated results of the pages in a run of answers. */
  function AllResults(answers: seq<Response>): seq<Json>
  {
    if answers == [] then []
    else (if answers[0].HttpResponse? then PageResults(answers[0].decoded) else []) + AllResults(answers[1..])
  }

  lemma {:induction false} AllResultsAppend(a: seq<Response>, b: seq<Response>)
    ensures AllResults(a + b) == AllResults(a) + AllResults(b)
  {
    if a != [] {
      assert (a + b)[1..] == a[1..] + b;
      AllResultsAppend(a[1..], b);
    } else {
      assert a + b == b;
    }
  }

  /** Without `fetchAll` the loop sends exactly one request (none when the HTTP API is missing). */
  lemma SingleRequestUnlessFetchAll(httpApi: bool, script: seq<Response>, cursor: Json, acc: seq<Json>)
    ensures RunQuery(httpApi, script, cursor, false, acc).cursors == if httpApi then [cursor] else []
    ensures RunQuery(httpApi, script, cursor, false, acc).rest == ExchangeOf(httpApi, script).rest
  {
  }

  /** The number of requests a run makes with the HTTP API present. */
  function RequestCount(script: seq<Response>, fetchAll: bool): (n: nat)
    ensures 1 <= n <= |script| + 1
    decreases |script|
  {
    if script != [] && Succeeded(script[0]) && Continues(script[0].decoded, fetchAll) then
      1 + RequestCount(script[1..], fetchAll)
    else 1
  }

  /**
   * With the HTTP API present, a run makes `RequestCount` requests; the first
   * carries the starting cursor and each later one the `next_cursor` of the
   * page before it, which succeeded and asked for more.
   */
  lemma {:induction false} RunCursors(script: seq<Response>, cursor: Json, fetchAll: bool, acc: seq<Json>)
    ensures var run := RunQuery(true, script, cursor, fetchAll, acc);
      |run.cursors| == RequestCount(script, fetchAll) && run.cursors[0] == cursor &&
      forall i :: 0 <= i < |run.cursors| - 1 ==>
        i < |script| && Succeeded(script[i]) && Continues(script[i].decoded, fetchAll) &&
        run.cursors[i + 1] == NextCursor(script[i].decoded)
    decreases |script|
  {
    ResultOfIsSuccess(Answer(script));
    if script != [] && Succeeded(script[0]) && Continues(script[0].decoded, fetchAll) {
      var page := script[0].decoded;
      var rest := script[1..];
      var collected := acc + PageResults(page);
      RunCursors(rest, NextCursor(page), fetchAll, collected);
      var next := RunQuery(true, rest, NextCursor(page), fetchAll, collected);
      var run := RunQuery(true, script, cursor, fetchAll, acc);
      assert run.cursors == [cursor] + next.cursors;
      forall i | 0 <= i < |run.cursors| - 1
        ensures i < |script| && Succeeded(script[i]) && Continues(script[i].decoded, fetchAll) &&
          run.cursors[i + 1] == NextCursor(script[i].decoded)
      {
        if i > 0 {
          assert rest[i - 1] == script[i];
        }
      }
    }
  }

  /**
   * With the HTTP API present, the last request of a run decides its outcome:
   * the debug fields are that answer's, the run has a result exactly when that
   * answer succeeded (and then its page did not ask for more), and the script
   * left starts after it.
   */
  lemma {:induction false} RunEnd(script: seq<Response>, cursor: Json, fetchAll: bool, acc: seq<Json>)
    ensures var run := RunQuery(true, script, cursor, fetchAll, acc);
      var k := RequestCount(script, fetchAll);
      run.rest == script[if k <= |script| then k else |script|..] &&
      run.diagnostics == DiagnosticsOf(Answer(script[k - 1..])) &&
      (run.result.Some? <==> Succeeded(Answer(script[k - 1..]))) &&
      (run.result.Some? ==> k <= |script| && !Continues(script[k - 1].decoded, fetchAll))
    decreases |script|
  {
    ResultOfIsSuccess(Answer(script));
    if script != [] && Succeeded(script[0]) && Continues(script[0].decoded, fetchAll) {
      var page := script[0].decoded;
      var rest := script[1..];
      var collected := acc + PageResults(page);
      RunEnd(rest, NextCursor(page), fetchAll, collected);
      var next := RunQuery(true, rest, NextCursor(page), fetchAll, collected);
      var run := RunQuery(true, script, cursor, fetchAll, acc);
      assert run.result == next.result && run.rest == next.rest && run.diagnostics == next.diagnostics;
      var k := RequestCount(script, fetchAll);
      assert k == 1 + RequestCount(rest, fetchAll);
      assert script[k - 1..] == rest[k - 2..];
      if k <= |script| {
        assert rest[k - 1..] == script[k..];
        assert script[k - 1] == rest[k - 2];
      } else {
        assert rest[|rest|..] == script[|script|..];
      }
    } else {
      var run := RunQuery(true, script, cursor, fetchAll, acc);
      assert RequestCount(script, fetchAll) == 1;
      assert run.rest == Remaining(script) && run.diagnostics == DiagnosticsOf(Answer(script));
      assert script[0..] == script;
    }
  }

  /**
   * Concatenation regroups. Called with the pieces named at a loop step, it keeps
   * the solver from trying associativity on every concatenation in scope.
   */
  lemma Associative<T>(a: seq<T>, b: seq<T>, c: seq<T>)
    ensures a + (b + c) == a + b + c
  {
  }

  /** A run's result is what was collected before plus every page's `results`, in request order. */
  lemma {:induction false} RunResults(script: seq<Response>, cursor: Json, fetchAll: bool, acc: seq<Json>)
    ensures var run := RunQuery(true, script, cursor, fetchAll, acc);
      var k := RequestCount(script, fetchAll);
      run.result.Some? ==> k <= |script| && run.result.value == acc + AllResults(script[..k])
    decreases |script|
  {
    RunQueryStep(true, script, cursor, fetchAll, acc);
    ResultOfIsSuccess(Answer(script));
    var x := ExchangeOf(true, script);
    if x.result.Some? {
      var page := script[0].decoded;
      var k := RequestCount(script, fetchAll);
      var first := PageResults(page);
      assert AllResults([script[0]]) == first + AllResults([]);
      if Continues(page, fetchAll) {
        var rest := script[1..];
        RunResults(rest, NextCursor(page), fetchAll, acc + first);
        if RunQuery(true, rest, NextCursor(page), fetchAll, acc + first).result.Some? {
          assert k == 1 + RequestCount(rest, fetchAll);
          assert script[..k] == [script[0]] + rest[..k - 1];
          AllResultsAppend([script[0]], rest[..k - 1]);
          Associative(acc, first, AllResults(rest[..k - 1]));
        }
      } else {
        assert script[..k] == [script[0]];
      }
    }
  }

  /** A failed page ends the loop with null: whatever was collected before it is discarded. */
  lemma FailedPageDiscards(httpApi: bool, script: seq<Response>, cursor: Json, fetchAll: bool, acc: seq<Json>)
    requires !Succeeded(Answer(script))
    ensures RunQuery(httpApi, script, cursor, fetchAll, acc).result.None?
  {
    ResultOfIsSuccess(Answer(script));
  }
}
