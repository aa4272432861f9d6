/**
 * `Lead_API_Handler`: looks a lead up in a Notion database by its ID
 * property, writes one column of a lead page, and fetches a lead page. The
 * WordPress options it reads (`buero_leads_notion_token` and
 * `buero_leads_notion_id_property`) are parameters.
 */
module LeadHandler {
  import opened Wrappers
  import opened Text
  import opened Json
  import opened Php
  import opened PropertyDecode
  import opened PropertyEncode
  import opened Transport
  import opened NotionClient

  /** What `get_lead_data` returns: a `WP_Error`, `array()` for no match, or `array($flat_data, $page_id)`. */
  datatype LeadLookup =
    | WpError(code: string, message: string)
    | NoMatch
    | Lead(properties: Json, pageId: Json)

  /** `!empty($v) && is_string($v)`: a string other than "" and "0". */
  predicate NonEmptyString(v: Json)
  {
    v.JStr? && Truthy(v)
  }

  lemma NonEmptyStrings(v: Json)
    ensures NonEmptyString(v) <==> v.JStr? && v.s != "" && v.s != "0"
  {
  }

  /** The error `get_lead_data` gives before querying, checked in the order id, database id, token. */
  function Rejection(id: Json, databaseId: string, hasClient: bool): (r: Option<LeadLookup>)
    ensures r.None? <==> NonEmptyString(id) && databaseId != "" && databaseId != "0" && hasClient
    ensures r.Some? ==> r.value.WpError?
    ensures !NonEmptyString(id) ==> r == Some(WpError("invalid_id", "Invalid ID provided"))
    ensures NonEmptyString(id) && (databaseId == "" || databaseId == "0") ==>
      r == Some(WpError("missing_db_id", "Notion Database ID is required"))
    ensures NonEmptyString(id) && databaseId != "" && databaseId != "0" && !hasClient ==>
      r == Some(WpError("missing_token", "Notion Token is not configured"))
  {
    if !NonEmptyString(id) then Some(WpError("invalid_id", "Invalid ID provided"))
    else if !Truthy(JStr(databaseId)) then Some(WpError("missing_db_id", "Notion Database ID is required"))
    else if !hasClient then Some(WpError("missing_token", "Notion Token is not configured"))
    else None
  }

  /** The pairs `$key => getValue($page, $key)` the flattening loop assigns, one per property. */
  function FlattenPairs(page: Json): (pairs: seq<(string, Json)>)
    ensures |pairs| == |Entries(Get(page, "properties"))|
  {
    var props := Entries(Get(page, "properties"));
    seq(|props|, i requires 0 <= i < |props| =>
      (props[i].0, if IsArray(page) then GetValue(page, props[i].0) else JNull))
  }

  /** `$flat_data`: every property of the page under its own name, holding its plain value. */
  function Flatten(page: Json): (flat: seq<(string, Json)>)
    ensures DistinctKeys(flat)
    ensures forall p :: p in flat ==> p in FlattenPairs(page)
  {
    PutAllShape(FlattenPairs(page));
    PutAll(FlattenPairs(page))
  }

  /** One more assignment extends the flattened prefix. */
  lemma FlattenStep(pairs: seq<(string, Json)>, i: nat)
    requires i < |pairs|
    ensures PutAll(pairs[..i + 1]) == Put(PutAll(pairs[..i]), pairs[i].0, pairs[i].1)
  {
    assert pairs[..i + 1][..i] == pairs[..i];
  }

  /** The `foreach ($page['properties'] as $key => $prop)` loop of `get_lead_data`. */
  method FlattenPage(page: Json) returns (flat: seq<(string, Json)>)
    ensures flat == Flatten(page)
  {
    var entries := Entries(Get(page, "properties"));
    ghost var pairs := FlattenPairs(page);
    flat := [];
    var i := 0;
    while i < |entries|
      invariant 0 <= i <= |entries| && flat == PutAll(pairs[..i])
    {
      var key := entries[i].0;
      var value := ReadFlat(page, i);
      FlattenStep(pairs, i);
      flat := Put(flat, key, value);
      i := i + 1;
    }
    assert pairs[..|entries|] == pairs;
  }

  /** `getValue($page, $key)` for the `i`th property, as the loop computes it. */
  method ReadFlat(page: Json, i: nat) returns (value: Json)
    requires i < |Entries(Get(page, "properties"))|
    ensures FlattenPairs(page)[i] == (Entries(Get(page, "properties"))[i].0, value)
  {
    PropertiesNeedAPage(page);
    value := GetValue(page, Entries(Get(page, "properties"))[i].0);
  }

  /** The result `get_lead_data` builds from the query's outcome and the client's `lastError`. */
  function LeadFromQuery(result: Option<seq<Json>>, lastError: Option<string>): (r: LeadLookup)
    ensures r.WpError? <==> result.None?
    ensures r == NoMatch <==> result == Some([])
    ensures r.Lead? ==> r.pageId == Get(result.value[0], "id")
  {
    match result
    case None => WpError("api_error", "Notion API Error: " + (if lastError.Some? then lastError.value else ""))
    case Some(pages) =>
      if pages == [] then NoMatch else Lead(JObject(Flatten(pages[0])), Get(pages[0], "id"))
  }

  /** A page with any properties at all is an array. */
  lemma PropertiesNeedAPage(page: Json)
    requires Entries(Get(page, "properties")) != []
    ensures IsArray(page)
  {
    if !IsArray(page) {
      GetOfScalar(page, "properties");
    }
  }

  /** The flattened lead has exactly the page's property names, each once. */
  lemma FlattenKeys(page: Json, k: string)
    ensures k in Keys(Flatten(page)) <==> k in Keys(Entries(Get(page, "properties")))
    ensures DistinctKeys(Flatten(page))
  {
    var props := Entries(Get(page, "properties"));
    var pairs := FlattenPairs(page);
    PutAllKeys(pairs, k);
    PutAllShape(pairs);
    if k in Keys(props) {
      var i :| 0 <= i < |props| && Keys(props)[i] == k;
      assert pairs[i].0 == k;
    }
  }

  /** Each property of the lead holds what `getValue` reads for it. */
  lemma FlattenValues(page: Json, k: string)
    requires k in Keys(Entries(Get(page, "properties")))
    ensures IsArray(page) && Lookup(Flatten(page), k) == Some(GetValue(page, k))
  {
    var props := Entries(Get(page, "properties"));
    PropertiesNeedAPage(page);
    var i :| 0 <= i < |props| && Keys(props)[i] == k;
    PutAllUniform(FlattenPairs(page), k, GetValue(page, k), i);
  }

  /** For a page whose properties have distinct names, as Notion sends them, the lead keeps their order. */
  lemma FlattenKeepsOrder(page: Json)
    requires DistinctKeys(Entries(Get(page, "properties")))
    ensures Keys(Flatten(page)) == Keys(Entries(Get(page, "properties")))
  {
    var pairs := FlattenPairs(page);
    assert DistinctKeys(pairs) by {
      assert forall i :: 0 <= i < |pairs| ==> pairs[i].0 == Entries(Get(page, "properties"))[i].0;
    }
    PutAllDistinct(pairs);
  }

  /** The lookup query asks for pages whose rich-text ID property equals the ID, one at a time. */
  lemma LeadQueryBody(idProperty: string, id: Json)
    ensures QueryBody(idProperty, "rich_text", "equals", id, 1, JNull) ==
      JObject([("filter", JObject([("property", JStr(idProperty)), ("rich_text", JObject([("equals", id)]))])),
               ("page_size", JNum(Decimal(1, 0)))])
  {
    var condition := JObject([("equals", id)]);
    assert "property"[0] != "rich_text"[0];
    assert Put([], "rich_text", condition) == [("rich_text", condition)];
    assert Put([("property", JStr(idProperty))], "rich_text", condition) ==
      [("property", JStr(idProperty))] + Put([], "rich_text", condition);
    var filter := JObject([("property", JStr(idProperty)), ("rich_text", condition)]);
    assert [("property", JStr(idProperty))] + [("rich_text", condition)] == [("property", JStr(idProperty)), ("rich_text", condition)];
    assert QueryBody(idProperty, "rich_text", "equals", id, 1, JNull) ==
      JObject([("filter", filter), ("page_size", JNum(Decimal(1, 0)))]);
  }

  /** The lookup makes one request, and its matches are that first page's `results`. */
  lemma LeadQueryIsOneRequest(httpApi: bool, script: seq<Response>)
    ensures var run := RunQuery(httpApi, script, JNull, false, []);
      run.cursors == (if httpApi then [JNull] else []) &&
      (run.result.Some? ==> script != [] && run.result.value == PageResults(script[0].decoded))
  {
    SingleRequestUnlessFetchAll(httpApi, script, JNull, []);
    ResultOfIsSuccess(Answer(script));
  }

  /** When Notion rejects the lookup with an error status, the `api_error` message names that status. */
  lemma LeadApiErrorNamesStatus(script: seq<Response>, code: int, body: string, decoded: Json)
    requires script != [] && script[0] == HttpResponse(code, body, decoded)
    requires IsArray(decoded) && (code < 200 || code >= 300)
    ensures var run := RunQuery(true, script, JNull, false, []);
      var r := LeadFromQuery(run.result, run.diagnostics.lastError);
      r.WpError? && r.code == "api_error" && Contains(r.message, IntToString(code))
  {
    var resp := HttpResponse(code, body, decoded);
    StatusFailureNamesCode(code, body, decoded);
    ResultOfIsSuccess(resp);
    var run := RunQuery(true, script, JNull, false, []);
    assert run.result.None? && run.diagnostics == DiagnosticsOf(resp);
    ContainsAfter("Notion API Error: ", run.diagnostics.lastError.value, IntToString(code));
  }

  /** A one-column update sends exactly one property: the column's payload under its parsed name. */
  lemma SingleColumnUpdate(column: string, value: Json)
    ensures AssembleProperties([(column, value)]) == [EncodeField((column, value))]
  {
    var field := EncodeField((column, value));
    assert EncodeFields([(column, value)]) == [field];
    assert [field][..0] == [];
    assert PutAll([field]) == Put(PutAll<Json>([]), field.0, field.1);
    assert Put<Json>([], field.0, field.1) == [field];
  }

  /**
   * `get_lead_data_page` as written: for a non-empty page id it calls
   * `getDatabasePage` on the client even when no token was configured, and
   * calling a method on null raises an Error.
   */
  function PageLookupAsWritten(pageId: string, hasClient: bool, fetched: Option<Json>): (r: Outcome<Json>)
    ensures r.Thrown? <==> pageId != "" && pageId != "0" && !hasClient
  {
    if !Truthy(JStr(pageId)) then Returned(JStr(""))
    else if !hasClient then Thrown("Error: Call to a member function getDatabasePage() on null")
    else if fetched.None? || !Truthy(fetched.value) then Returned(JStr(""))
    else Returned(fetched.value)
  }

  /** `get_lead_data_page` with the missing client treated like the missing page: "". */
  function PageLookup(pageId: string, hasClient: bool, fetched: Option<Json>): (r: Json)
    ensures r != JStr("") ==> hasClient && fetched == Some(r) && Truthy(r)
  {
    if !Truthy(JStr(pageId)) || !hasClient then JStr("")
    else if fetched.None? || !Truthy(fetched.value) then JStr("")
    else fetched.value
  }

  /** Without a token, a page id makes the handler as written raise where the corrected one gives "". */
  lemma PageLookupAsWrittenRaises()
    ensures PageLookupAsWritten("abc", false, None).Thrown?
    ensures PageLookup("abc", false, None) == JStr("")
  {
  }

  /** Wherever the handler as written does not raise, the corrected one gives the same answer. */
  lemma PageLookupAgrees(pageId: string, hasClient: bool, fetched: Option<Json>)
    requires hasClient || !Truthy(JStr(pageId))
    ensures PageLookupAsWritten(pageId, hasClient, fetched) == Returned(PageLookup(pageId, hasClient, fetched))
  {
  }

  /** The page lookup gives "" or a non-empty fetched page, and a fetched non-empty page is always given. */
  lemma PageLookupResult(pageId: string, hasClient: bool, fetched: Option<Json>)
    ensures var r := PageLookup(pageId, hasClient, fetched);
      r == JStr("") || (fetched.Some? && r == fetched.value && Truthy(r))
    ensures hasClient && Truthy(JStr(pageId)) && fetched.Some? && IsArray(fetched.value) && Truthy(fetched.value) ==>
      PageLookup(pageId, hasClient, fetched) == fetched.value
  {
  }

  class LeadApiHandler {
    var notionClient: NotionApiClient?

    /** Builds the client with the default version and base URL when the stored token is truthy. */
    constructor(token: string, httpApi: bool, network: seq<Response>)
      ensures notionClient != null <==> Truthy(JStr(token))
      ensures notionClient != null ==>
        fresh(notionClient) && notionClient.token == token && notionClient.httpApi == httpApi &&
        notionClient.notionVersion == DefaultNotionVersion && notionClient.baseUrl == DefaultBaseUrl &&
        notionClient.Diag() == Cleared && notionClient.network == network && notionClient.sent == []
    {
      if Truthy(JStr(token)) {
        RTrimSlashShape(DefaultBaseUrl);
        notionClient := new NotionApiClient(token, DefaultNotionVersion, DefaultBaseUrl, httpApi, network);
      } else {
        notionClient := null;
      }
    }

    /**
     * `get_lead_data($id, $database_id)`: validates the input, queries the
     * database for the page whose ID property equals `id`, and returns its
     * flattened properties with its page id.
     */
    method GetLeadData(id: Json, databaseId: string, idProperty: string) returns (r: LeadLookup)
      modifies notionClient
      ensures Rejection(id, databaseId, notionClient != null).Some? ==>
        r == Rejection(id, databaseId, notionClient != null).value &&
        (notionClient != null ==> unchanged(notionClient))
      ensures Rejection(id, databaseId, notionClient != null).None? ==>
        var run := RunQuery(notionClient.httpApi, old(notionClient.network), JNull, false, []);
        r == LeadFromQuery(run.result, run.diagnostics.lastError) &&
        notionClient.Diag() == run.diagnostics && notionClient.network == run.rest &&
        notionClient.sent == old(notionClient.sent) +
          notionClient.QueryRequests(databaseId, idProperty, id, "rich_text", "equals", 1, run.cursors)
    {
      if !NonEmptyString(id) {
        return WpError("invalid_id", "Invalid ID provided");
      }
      if !Truthy(JStr(databaseId)) {
        return WpError("missing_db_id", "Notion Database ID is required");
      }
      if notionClient == null {
        return WpError("missing_token", "Notion Token is not configured");
      }
      var pages := notionClient.GetManyDatabasePagesWithFilter(databaseId, idProperty, id, "rich_text", "equals", 1, false);
      if pages.None? {
        var lastError := notionClient.lastError;
        return WpError("api_error", "Notion API Error: " + (if lastError.Some? then lastError.value else ""));
      }
      if pages.value == [] {
        return NoMatch;
      }
      var page := pages.value[0];
      var flat := FlattenPage(page);
      return Lead(JObject(flat), Get(page, "id"));
    }

    /**
     * `update_lead_page_count($page_id, $column, $value)`: writes one column of
     * a lead page. It answers true once the input is valid and a client
     * exists, whatever Notion answers to the update.
     */
    method UpdateLeadPageCount(pageId: Json, column: Json, value: Json) returns (ok: bool)
      modifies notionClient
      ensures ok <==> NonEmptyString(pageId) && NonEmptyString(column) && notionClient != null
      ensures !ok && notionClient != null ==> unchanged(notionClient)
      ensures ok ==>
        var x := ExchangeOf(notionClient.httpApi, old(notionClient.network));
        notionClient.Diag() == x.diagnostics && notionClient.network == x.rest &&
        notionClient.sent == old(notionClient.sent) + (if x.delivered then
          [notionClient.Outgoing("PATCH", PagePath(pageId.s),
             Some(Single("properties", JObject(AssembleProperties([(column.s, value)])))))]
          else [])
    {
      if !NonEmptyString(pageId) {
        return false;
      }
      if !NonEmptyString(column) {
        return false;
      }
      if notionClient == null {
        return false;
      }
      var updated := notionClient.UpdateDatabasePage(pageId.s, JObject([(column.s, value)]));
      return true;
    }

    /**
     * `get_lead_data_page($page_id)`: the page object, or "" for an empty page
     * id, a failed request or an empty page; with no client it gives "" too
     * (the source calls the missing client and raises).
     */
    method GetLeadDataPage(pageId: string) returns (r: Json)
      modifies notionClient
      ensures !Truthy(JStr(pageId)) || notionClient == null ==>
        r == PageLookup(pageId, notionClient != null, None) && (notionClient != null ==> unchanged(notionClient))
      ensures Truthy(JStr(pageId)) && notionClient != null ==>
        var x := ExchangeOf(notionClient.httpApi, old(notionClient.network));
        r == PageLookup(pageId, true, x.result) &&
        notionClient.Diag() == x.diagnostics && notionClient.network == x.rest &&
        notionClient.sent == old(notionClient.sent) +
          (if x.delivered then [notionClient.Outgoing("GET", PagePath(pageId), None)] else [])
    {
      if !Truthy(JStr(pageId)) {
        return JStr("");
      }
      if notionClient == null {
        return JStr("");
      }
      var page := notionClient.GetDatabasePage(pageId);
      if page.None? || !Truthy(page.value) {
        return JStr("");
      }
      return page.value;
    }
  }
}
