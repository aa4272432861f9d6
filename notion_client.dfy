/**
 * `NotionApiClient`: the configuration it is built with, its three debug
 * fields, and the requests it sends. `wp_remote_request` is modelled by the
 * `network` field, the answers still to come, and every request handed to it
 * is appended to `sent`; whether the WordPress HTTP API exists is `httpApi`.
 */
module NotionClient {
  import opened Wrappers
  import opened Text
  import opened Json
  import opened Php
  import opened PropertyEncode
  import opened Transport

  const DefaultNotionVersion: string := "2022-06-28"
  const DefaultBaseUrl: string := "https://api.notion.com"

  /** PHP `rtrim($s, '/')`. */
  function RTrimSlash(s: string): (r: string)
    ensures r <= s
  {
    s[..|s| - TrailingCount(s, {'/'})]
  }

  /**
   * The base URL keeps its text up to its last character that is not a slash:
   * what is cut off is slashes only.
   */
  lemma RTrimSlashShape(s: string)
    ensures var r := RTrimSlash(s); r <= s && (r == [] || r[|r| - 1] != '/')
    ensures forall i :: |RTrimSlash(s)| <= i < |s| ==> s[i] == '/'
    ensures s == [] || s[|s| - 1] != '/' ==> RTrimSlash(s) == s
  {
    TrailingCountStops(s, {'/'});
    TrailingCountAll(s, {'/'});
    if s != [] && s[|s| - 1] != '/' {
      assert s[..|s|] == s;
    }
  }

  /**
   * `firstPage($pages)`: element 0 when it is set, null otherwise. Under
   * strict types an element 0 that is neither an array nor null cannot be
   * returned as `?array` and raises a TypeError.
   */
  function FirstPage(pages: Json): (r: Outcome<Json>)
    requires IsArray(pages)
    ensures r.Returned? ==> r.value == JNull || IsArray(r.value)
    ensures r.Returned? && r.value != JNull ==> r.value == Get(pages, "0")
  {
    var first := Get(pages, "0");
    if first == JNull then Returned(JNull)
    else if IsArray(first) then Returned(first)
    else Thrown("TypeError: NotionApiClient::firstPage(): Return value must be of type ?array")
  }

  /** On a list of page objects, `firstPage` gives the first one, or null for an empty list. */
  lemma FirstPageOfPages(pages: seq<Json>)
    requires forall i :: 0 <= i < |pages| ==> IsArray(pages[i])
    ensures FirstPage(JList(pages)) == Returned(if pages == [] then JNull else pages[0])
  {
  }

  /** A first element that is a string, number or bool is not a page: `firstPage` raises. */
  lemma FirstPageRejectsScalar(x: Json, more: seq<Json>)
    requires !IsArray(x) && x != JNull
    ensures FirstPage(JList([x] + more)).Thrown?
  {
    assert ([x] + more)[0] == x;
  }

  /** `foreach ($pageResults as $r) $results[] = $r;`, run only when `$pageResults` is an array. */
  method AppendResults(results: seq<Json>, pageResults: Json) returns (out: seq<Json>)
    ensures out == results + Values(pageResults)
  {
    out := results;
    if IsArray(pageResults) {
      var items := Values(pageResults);
      var i := 0;
      while i < |items|
        invariant 0 <= i <= |items| && out == results + items[..i]
      {
        out := out + [items[i]];
        i := i + 1;
      }
      assert items[..|items|] == items;
    }
  }

  function QueryPath(databaseId: string): string
  {
    "/v1/databases/" + databaseId + "/query"
  }

  function PagePath(pageId: string): string
  {
    "/v1/pages/" + pageId
  }

  /** One turn of the field loop of `updateDatabasePage`: the fields so far plus one more. */
  lemma AssembleStep(fields: seq<(string, Json)>, i: nat)
    requires i < |fields|
    ensures AssembleProperties(fields[..i + 1]) ==
      Put(AssembleProperties(fields[..i]), EncodeField(fields[i]).0, EncodeField(fields[i]).1)
  {
    var pairs := EncodeFields(fields[..i + 1]);
    assert pairs[..i] == EncodeFields(fields[..i]);
    assert pairs[i] == EncodeField(fields[i]);
  }

  class NotionApiClient {
    const token: string
    const notionVersion: string
    const baseUrl: string
    /** Whether `wp_remote_request` exists. */
    const httpApi: bool

    var lastError: Option<string>
    var lastHttpCode: Option<int>
    var lastResponseBody: Option<string>

    /** The answers the network gives to the coming requests, in order. */
    var network: seq<Response>
    /** Every request handed to `wp_remote_request`, in order. */
    var sent: seq<HttpRequest>

    function Diag(): Diagnostics
      reads this
    {
      Diagnostics(lastError, lastHttpCode, lastResponseBody)
    }

    /** The request `request($verb, $path, $body)` hands to `wp_remote_request`. */
    function Outgoing(verb: string, path: string, body: Option<Json>): HttpRequest
    {
      HttpRequest(verb, baseUrl + path, RequestHeaders(token, notionVersion), RequestTimeout, body)
    }

    /** The requests of a query run, one per cursor. */
    function QueryRequests(databaseId: string, filterProperty: string, value: Json, propertyType: string,
                           operator: string, pageSize: int, cursors: seq<Json>): seq<HttpRequest>
    {
      if cursors == [] then []
      else
        [Outgoing("POST", QueryPath(databaseId), Some(QueryBody(filterProperty, propertyType, operator, value, pageSize, cursors[0])))]
          + QueryRequests(databaseId, filterProperty, value, propertyType, operator, pageSize, cursors[1..])
    }

    lemma {:induction false} QueryRequestsAppend(databaseId: string, filterProperty: string, value: Json, propertyType: string,
                                                 operator: string, pageSize: int, cursors: seq<Json>, cursor: Json)
      ensures QueryRequests(databaseId, filterProperty, value, propertyType, operator, pageSize, cursors + [cursor]) ==
        QueryRequests(databaseId, filterProperty, value, propertyType, operator, pageSize, cursors) +
        [Outgoing("POST", QueryPath(databaseId), Some(QueryBody(filterProperty, propertyType, operator, value, pageSize, cursor)))]
    {
      if cursors != [] {
        assert (cursors + [cursor])[1..] == cursors[1..] + [cursor];
        QueryRequestsAppend(databaseId, filterProperty, value, propertyType, operator, pageSize, cursors[1..], cursor);
      }
    }

    constructor(token: string, notionVersion: string, baseUrl: string, httpApi: bool, network: seq<Response>)
      ensures this.token == token && this.notionVersion == notionVersion && this.httpApi == httpApi
      ensures this.baseUrl == RTrimSlash(baseUrl)
      ensures Diag() == Cleared && this.network == network && sent == []
    {
      this.token := token;
      this.notionVersion := notionVersion;
      this.baseUrl := RTrimSlash(baseUrl);
      this.httpApi := httpApi;
      this.network := network;
      sent := [];
      lastError := None;
      lastHttpCode := None;
      lastResponseBody := None;
    }

    method ResetLastError()
      modifies this
      ensures Diag() == Cleared
      ensures network == old(network) && sent == old(sent)
    {
      lastError := None;
      lastHttpCode := None;
      lastResponseBody := None;
    }

    method SetLastError(message: string, httpCode: Option<int>, body: Option<string>)
      modifies this
      ensures Diag() == Diagnostics(Some(message), httpCode, body)
      ensures network == old(network) && sent == old(sent)
    {
      lastError := Some(message);
      lastHttpCode := httpCode;
      lastResponseBody := body;
    }

    /**
     * `request($verb, $path, $body)`: sends one request when the HTTP API
     * exists, and returns the decoded body of a 2xx JSON answer, or null with
     * the reason in the debug fields.
     */
    method Request(verb: string, path: string, body: Option<Json>) returns (r: Option<Json>)
      modifies this
      ensures var x := ExchangeOf(httpApi, old(network));
        r == x.result && Diag() == x.diagnostics && network == x.rest &&
        sent == old(sent) + (if x.delivered then [Outgoing(verb, path, body)] else [])
    {
      ResetLastError();
      if !httpApi {
        SetLastError(UnavailableMessage, None, None);
        return None;
      }
      var request := HttpRequest(verb, baseUrl + path, RequestHeaders(token, notionVersion), RequestTimeout, body);
      var response := if network == [] then NetworkError(NoAnswerMessage) else network[0];
      network := if network == [] then [] else network[1..];
      sent := sent + [request];
      match response
      case NetworkError(message) =>
        SetLastError("WP HTTP error: " + message, None, None);
        return None;
      case HttpResponse(code, rawBody, decoded) =>
        lastHttpCode := Some(code);
        lastResponseBody := Some(rawBody);
        if !IsArray(decoded) {
          SetLastError(NonJsonMessage, Some(code), Some(rawBody));
          return None;
        }
        if code < 200 || code >= 300 {
          SetLastError(ApiErrorMessage(code, decoded), Some(code), Some(rawBody));
          return None;
        }
        return Some(decoded);
    }

    /**
     * One pass of the do-while in `getManyDatabasePagesWithFilter`: the request
     * for `cursor`, the results it adds, and whether the loop goes round again.
     * When it does not, the pass ends the whole run from `cursor` on; when it
     * does, the run from `cursor` is this request followed by the run from
     * the next cursor.
     */
    method QueryRound(databaseId: string, filterProperty: string, value: Json, propertyType: string,
                      operator: string, pageSize: int, fetchAll: bool, cursor: Json, results: seq<Json>)
      returns (done: bool, r: Option<seq<Json>>, collected: seq<Json>, next: Json)
      modifies this
      ensures sent == old(sent) + (if httpApi then
        [Outgoing("POST", QueryPath(databaseId), Some(QueryBody(filterProperty, propertyType, operator, value, pageSize, cursor)))]
        else [])
      ensures var run := RunQuery(httpApi, old(network), cursor, fetchAll, results);
        done ==> (r == run.result && Diag() == run.diagnostics && network == run.rest &&
                  run.cursors == (if httpApi then [cursor] else []))
      ensures var run := RunQuery(httpApi, old(network), cursor, fetchAll, results);
        var rest := RunQuery(httpApi, network, next, fetchAll, collected);
        !done ==> (httpApi && |network| < |old(network)| &&
                   run.result == rest.result && run.rest == rest.rest && run.diagnostics == rest.diagnostics &&
                   run.cursors == [cursor] + rest.cursors)
    {
      RunQueryStep(httpApi, network, cursor, fetchAll, results);
      var body := QueryBody(filterProperty, propertyType, operator, value, pageSize, cursor);
      var resp := Request("POST", QueryPath(databaseId), Some(body));
      if resp.None? {
        return true, None, results, JNull;
      }
      var page := resp.value;
      collected := AppendResults(results, Get(page, "results"));
      var hasMore := Truthy(Get(page, "has_more"));
      next := Get(page, "next_cursor");
      if !fetchAll || !(hasMore && Truthy(next)) {
        return true, Some(collected), collected, next;
      }
      return false, None, collected, next;
    }

    /**
     * `getManyDatabasePagesWithFilter`: queries the database with a
     * one-property filter, following `next_cursor` while `fetchAll` is set and
     * Notion reports more, and returns every page's results in order, or null
     * as soon as one request fails.
     */
    method GetManyDatabasePagesWithFilter(databaseId: string, filterProperty: string, value: Json,
                                          propertyType: string, operator: string, pageSize: int,
                                          fetchAll: bool) returns (r: Option<seq<Json>>)
      modifies this
      ensures var run := RunQuery(httpApi, old(network), JNull, fetchAll, []);
        r == run.result && Diag() == run.diagnostics && network == run.rest &&
        sent == old(sent) + QueryRequests(databaseId, filterProperty, value, propertyType, operator, pageSize, run.cursors)
    {
      ghost var total := RunQuery(httpApi, network, JNull, fetchAll, []);
      ghost var cursorsSent: seq<Json> := [];
      var results: seq<Json> := [];
      var startCursor: Json := JNull;
      while true
        invariant var now := RunQuery(httpApi, network, startCursor, fetchAll, results);
          now.result == total.result && now.rest == total.rest && now.diagnostics == total.diagnostics &&
          total.cursors == cursorsSent + now.cursors
        invariant sent == old(sent) + QueryRequests(databaseId, filterProperty, value, propertyType, operator, pageSize, cursorsSent)
        decreases |network|
      {
        ghost var sentBefore := sent;
        ghost var cursorsBefore := cursorsSent;
        ghost var requestsBefore := QueryRequests(databaseId, filterProperty, value, propertyType, operator, pageSize, cursorsSent);
        ghost var request := Outgoing("POST", QueryPath(databaseId),
                                      Some(QueryBody(filterProperty, propertyType, operator, value, pageSize, startCursor)));
        QueryRequestsAppend(databaseId, filterProperty, value, propertyType, operator, pageSize, cursorsSent, startCursor);
        var done, outcome, collected, next := QueryRound(databaseId, filterProperty, value, propertyType, operator,
                                                         pageSize, fetchAll, startCursor, results);
        if httpApi {
          cursorsSent := cursorsSent + [startCursor];
          Associative(old(sent), requestsBefore, [request]);
        }
        if done {
          return outcome;
        }
        ghost var restCursors := RunQuery(httpApi, network, next, fetchAll, collected).cursors;
        assert httpApi && cursorsSent == cursorsBefore + [startCursor];
        Associative(cursorsBefore, [startCursor], restCursors);
        results, startCursor := collected, next;
      }
    }

    /**
     * `updateDatabasePage($pageId, $fields)`: turns each field into a Notion
     * property payload under its parsed name and sends them in one PATCH.
     */
    method UpdateDatabasePage(pageId: string, fields: Json) returns (r: Option<Json>)
      requires IsArray(fields)
      modifies this
      ensures var x := ExchangeOf(httpApi, old(network));
        r == x.result && Diag() == x.diagnostics && network == x.rest &&
        sent == old(sent) + (if x.delivered then
          [Outgoing("PATCH", PagePath(pageId), Some(Single("properties", JObject(AssembleProperties(Entries(fields))))))]
          else [])
    {
      var entries := Entries(fields);
      var properties: seq<(string, Json)> := [];
      var i := 0;
      while i < |entries|
        invariant 0 <= i <= |entries| && properties == AssembleProperties(entries[..i])
        invariant unchanged(this)
      {
        var key := entries[i].0;
        var value := entries[i].1;
        var parsed := ParseKeyAndType(key);
        var passThrough := false;
        if IsArray(value) {
          passThrough := LooksLikeNotionPropertyValue(value);
        }
        AssembleStep(entries, i);
        if passThrough {
          properties := Put(properties, parsed.0, value);
        } else if parsed.1.Some? {
          properties := Put(properties, parsed.0, BuildPropertyValueByType(parsed.1.value, value));
        } else {
          properties := Put(properties, parsed.0, InferPropertyValue(value));
        }
        i := i + 1;
      }
      assert entries[..|entries|] == entries;
      r := Request("PATCH", PagePath(pageId), Some(Single("properties", JObject(properties))));
    }

    /** `getDatabasePage($pageId)`: one GET of the page. */
    method GetDatabasePage(pageId: string) returns (r: Option<Json>)
      modifies this
      ensures var x := ExchangeOf(httpApi, old(network));
        r == x.result && Diag() == x.diagnostics && network == x.rest &&
        sent == old(sent) + (if x.delivered then [Outgoing("GET", PagePath(pageId), None)] else [])
    {
      r := Request("GET", PagePath(pageId), None);
    }
  }
}
