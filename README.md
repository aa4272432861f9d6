# BB-Leads Notion layer in Dafny

A model of the Notion side of the BB-Leads WordPress plugin, with proofs about it:

- `NotionApiClient` (`includes/class-lead-api-notion-client.php`):
  - reading a page property as a plain PHP value (`getValue`);
  - turning caller fields into Notion property payloads (`parseKeyAndType`, `looksLikeNotionPropertyValue`, `buildPropertyValueByType`, `inferPropertyValue`, `textObjects`, `multiSelectObjects`, `updateDatabasePage`);
  - the cursor loop of `getManyDatabasePagesWithFilter`;
  - `firstPage`, `getDatabasePage`;
  - the request wrapper `request`, with the debug fields `lastError`, `lastHttpCode` and `lastResponseBody` that it resets and sets.
- `Lead_API_Handler` (`includes/class-lead-api-handler.php`):
  - looking up a lead by its ID property and flattening its properties (`get_lead_data`);
  - writing one column of a lead page (`update_lead_page_count`);
  - fetching a lead page (`get_lead_data_page`).

How the files divide the work:

| file | module | contents |
|---|---|---|
| `wrappers.dfy` | `Wrappers` | `Option` and `Outcome`. `Outcome` is a PHP call that returns a value or raises. |
| `text.dfy` | `Text` | Decimal printing, search, PHP `trim` and `strtolower` on ASCII. |
| `json.dfy` | `Json` | A PHP array decoded from JSON: a list or an ordered map. It also has `$a[$k] ?? null` (`Get`) and keyed assignment `$a[$k] = $v` (`Put`, `PutAll`). |
| `php.dfy` | `Php` | Truthiness, the string cast, `is_numeric` and the numeric cast, over exact decimals. |
| `property_decode.dfy` | `PropertyDecode` | `getValue`. |
| `property_encode.dfy` | `PropertyEncode` | The field assembly of `updateDatabasePage`. |
| `round_trip.dfy` | `RoundTrip` | Writing a value and reading it back. |
| `transport.dfy` | `Transport` | One `request`, and the specification of the cursor loop. |
| `notion_client.dfy` | `NotionClient` | `NotionApiClient` as a class. Its fields are the debug fields, the network script and the log of sent requests. |
| `lead_handler.dfy` | `LeadHandler` | `Lead_API_Handler` as a class holding its optional client. |

How the outside world is modelled:

- The network is a script: a sequence of answers that the client consumes in order.
  - An answer is a transport error, or an HTTP status with a raw body and the result of `json_decode` on it.
  - Once the script is used up, every further request meets a transport error.
- Every request the client sends is appended to `sent`. It records the verb, the URL, the headers, the timeout and the body.
- `httpApi` stands for `function_exists('wp_remote_request')`.
- The `RoundTrip` lemmas read a written value back through a modelled Notion (`Echo` in `round_trip.dfy`), not the real service. It assumes two things:
  - Notion reports a written payload `{t: x}` as the property `{"type": t, t: x}`;
  - Notion sets each rich-text run's `plain_text` to the run's content.
- The WordPress options the handler reads are parameters: the token and the ID property name.

## Model

| member | source | states |
|---|---|---|
| PropertyDecode.UnusablePropertyIsNull | includes/class-lead-api-notion-client.php:189-193 | A property that is missing, is not an array, or has no string `type` among the known ones reads as null. |
| PropertyDecode.GetValue | includes/class-lead-api-notion-client.php:187-244 | `getValue`: a non-null value comes only from an array property with a string `type`. |
| PropertyDecode.ConcatPlainTextAppend | includes/class-lead-api-notion-client.php:195-202 | The text of two run lists placed one after the other is the first text followed by the second. |
| PropertyDecode.ConcatPlainTextOfStrings | includes/class-lead-api-notion-client.php:195-206 | Runs whose `plain_text` values are the given strings read as those strings concatenated in order. This is the special case of `ConcatPlainTextOfRuns` where every `plain_text` is a string. |
| PropertyDecode.Picked | includes/class-lead-api-notion-client.php:218-240 | The list kept from the elements is never longer than the input, and every kept entry is truthy. |
| PropertyDecode.ConcatPlainTextOfRuns | includes/class-lead-api-notion-client.php:195-202 | A run list's text is each run's `plain_text`, cast to a string, concatenated in order. |
| PropertyDecode.RunWithoutText | includes/class-lead-api-notion-client.php:199 | A run without `plain_text` adds "", wherever it stands in the list. |
| PropertyDecode.PickedAppend | includes/class-lead-api-notion-client.php:218-240 | Filtering keeps order: the entries picked from `a + b` are those from `a` followed by those from `b`. |
| PropertyDecode.PickedMembers | includes/class-lead-api-notion-client.php:218-240 | A value is in the picked list exactly when it is truthy and is the field of some element. |
| PropertyDecode.PickedAll | includes/class-lead-api-notion-client.php:218-240 | When every element's field is truthy, nothing is dropped and the fields come out in element order. |
| PropertyDecode.FileUrlPrefersExternal | includes/class-lead-api-notion-client.php:237-240 | For a file, a non-null `external.url` is chosen over `file.url`. |
| PropertyDecode.ReadEnvelope | includes/class-lead-api-notion-client.php:204-243 | A property of type `t` reads as the `t` branch of the match applied to its payload. |
| PropertyDecode.MissingCheckbox | includes/class-lead-api-notion-client.php:212 | A checkbox property without a payload reads as false. |
| PropertyDecode.MissingText | includes/class-lead-api-notion-client.php:196-206 | A title or rich text property with no payload reads as "". |
| PropertyDecode.MissingNumber | includes/class-lead-api-notion-client.php:213 | A number property reads as null when it has no payload or a non-numeric one. |
| PropertyDecode.ReadMultiSelect | includes/class-lead-api-notion-client.php:218-221 | A multi-select reads as the truthy `name` fields of its array elements, in order. |
| PropertyDecode.MultiSelectScenario | includes/class-lead-api-notion-client.php:218-221 | Options named "A" and "B" followed by an element without a `name` read as `["A", "B"]`. |
| PropertyDecode.GetValueAsWrittenRaises | includes/class-lead-api-notion-client.php:195-206 | A title whose payload is a string raises a TypeError in the code as written. The corrected reader gives "". |
| PropertyDecode.GetValueAsWrittenAgrees | includes/class-lead-api-notion-client.php:187-244 | Where the code as written returns, it returns what the corrected reader does. Where it raises, the corrected reader gives "" or an empty list. |
| PropertyDecode.GetValueAsWritten | includes/class-lead-api-notion-client.php:195-240 | `getValue` exactly as written: where it returns, it returns what `GetValue` does. It raises only for a property whose `type` is `title`, `rich_text`, `multi_select`, `people`, `relation` or `files`. |
| PropertyEncode.ParsedKeyIsClean | includes/class-lead-api-notion-client.php:322-333 | The parsed name is trimmed and holds no bar. A hint, when present, is trimmed and non-empty, and the key held a bar. |
| PropertyEncode.ParseJoinedKey | includes/class-lead-api-notion-client.php:322-333 | Joining a clean name and a trimmed non-empty hint with a bar parses back to that name and hint. |
| PropertyEncode.ParseBareKey | includes/class-lead-api-notion-client.php:324-332 | A key without a bar parses as its trimmed self, with no hint. |
| PropertyEncode.ParseCleanKey | includes/class-lead-api-notion-client.php:322-333 | A clean name parses as itself, with no hint. |
| PropertyEncode.ParseBlankHint | includes/class-lead-api-notion-client.php:327-329 | A hint made only of whitespace counts as no hint. |
| PropertyEncode.ParseKeyAndType | includes/class-lead-api-notion-client.php:322-333 | `parseKeyAndType`: a key without a bar has no hint. A hint, when there is one, is non-empty, and the name and the hint together are shorter than the key. |
| PropertyEncode.LooksLikeNotionPropertyValue | includes/class-lead-api-notion-client.php:335-348 | The loop answers true exactly when the array has one of the thirteen known keys. |
| PropertyEncode.MultiSelectItems | includes/class-lead-api-notion-client.php:396-408 | There is one option per source element: none for null, one for a scalar, one per value of an array. |
| PropertyEncode.MultiSelectObjects | includes/class-lead-api-notion-client.php:396-408 | The loop builds exactly `MultiSelectItems`: `{"name": (string)$v}` for each source element, in order. |
| PropertyEncode.TextObjects | includes/class-lead-api-notion-client.php:386-394 | `textObjects`: a list of one run, whose `type` is `text` and whose `text.content` is the given content. |
| PropertyEncode.EncodeFields | includes/class-lead-api-notion-client.php:142-156 | Encoding gives one name and payload per field. |
| PropertyEncode.ToLowerIdempotent | includes/class-lead-api-notion-client.php:352 | Lower-casing a hint twice is the same as lower-casing it once. |
| PropertyEncode.HintIsCaseInsensitive | includes/class-lead-api-notion-client.php:350-366 | A hint and its lower-case form build the same payload. |
| PropertyEncode.UnknownHintInfers | includes/class-lead-api-notion-client.php:365 | A hint that is unknown in lower case falls back to inference. |
| PropertyEncode.BuildPropertyValueByType | includes/class-lead-api-notion-client.php:350-366 | `buildPropertyValueByType`: a one-key payload. Under a hint known in lower case, that key is the lower-cased hint. Any other hint gives what inference gives. |
| PropertyEncode.InferredKey | includes/class-lead-api-notion-client.php:369-384 | Inference gives one key: `checkbox` exactly for a bool; `number` exactly for a number or a numeric string; `rich_text` exactly for everything else, null included. |
| PropertyEncode.InferPropertyValue | includes/class-lead-api-notion-client.php:369-384 | `inferPropertyValue`: a one-key payload under `checkbox`, `number` or `rich_text`. `checkbox` is chosen exactly for a bool, and `number` exactly for a numeric value that is not a bool. |
| PropertyEncode.SingleKnown | includes/class-lead-api-notion-client.php:337-347 | Any one-key array under a known key looks like a property payload. |
| PropertyEncode.InferredIsPropertyValue | includes/class-lead-api-notion-client.php:369-394 | Every inferred payload looks like a property payload. |
| PropertyEncode.BuiltIsPropertyValue | includes/class-lead-api-notion-client.php:350-366 | Every payload built from a hint looks like a property payload. |
| PropertyEncode.PayloadIsStable | includes/class-lead-api-notion-client.php:145-155 | A field's payload looks like a property payload. Encoding that payload again, under any hint, leaves it as it is. |
| PropertyEncode.FilesIsNotPassedThrough | includes/class-lead-api-notion-client.php:337-340 | A ready-made `files` payload is not recognised and is sent as the text "Array". |
| PropertyEncode.AssembledNames | includes/class-lead-api-notion-client.php:140-156 | A name is in `properties` exactly when some field's parsed name is that name. |
| PropertyEncode.AssembleProperties | includes/class-lead-api-notion-client.php:140-156 | The assembled `properties` have distinct names, and each entry is the name and payload of one of the fields. |
| PropertyEncode.LastFieldWins | includes/class-lead-api-notion-client.php:142-156 | Under a name, `properties` holds the payload of the last field with that name. |
| PropertyEncode.EncodedIsWell | includes/class-lead-api-notion-client.php:143-155 | Every field gives a clean name and a payload that looks like a property payload. |
| PropertyEncode.AssembledIsWell | includes/class-lead-api-notion-client.php:140-156 | The assembled `properties` have distinct clean names and payloads that look like property payloads. |
| PropertyEncode.EncodeWellAssembled | includes/class-lead-api-notion-client.php:142-156 | Encoding well-assembled properties, field by field, changes nothing. |
| PropertyEncode.AssembleIsIdempotent | includes/class-lead-api-notion-client.php:140-156 | Sending the assembled `properties` back through the assembly gives them back unchanged. |
| PropertyEncode.InferredNumber | includes/class-lead-api-notion-client.php:375-377 | A number without a hint is sent as `{number: n}`. |
| PropertyEncode.HintedNumber | includes/class-lead-api-notion-client.php:355 | A numeric string with the `number` hint is sent as its number. |
| PropertyEncode.EncodeHintedField | includes/class-lead-api-notion-client.php:143-151 | A key made of a name, a bar and a hint puts the payload that hint builds under the name. |
| PropertyEncode.EncodeTwoFields | includes/class-lead-api-notion-client.php:142-156 | Two fields are encoded one after the other, in order. |
| PropertyEncode.HintedFieldReplacesEarlier | includes/class-lead-api-notion-client.php:142-156 | A later hinted field for the same name replaces an earlier plain one, in its place. |
| RoundTrip.ReadSingle | includes/class-lead-api-notion-client.php:204-243 | A written one-key payload `{t: x}` reads back through the `t` branch of `getValue`. |
| RoundTrip.NumberRoundTrip | includes/class-lead-api-notion-client.php:355 | A value written with the `number` hint reads back as its number, or as null when it is not numeric. |
| RoundTrip.NumberAsTextRoundTrip | includes/class-lead-api-notion-client.php:355-358 | A number written under a `title` or `rich_text` hint reads back as the string PHP prints for it. That string, written back under a `number` hint, reads as the same number. |
| RoundTrip.IntegerStringRoundTrip | includes/class-lead-api-notion-client.php:355 | An integer given as its decimal string under a `number` hint reads back as that integer. |
| RoundTrip.CheckboxRoundTrip | includes/class-lead-api-notion-client.php:356 | A value written with the `checkbox` hint reads back as its truthiness. |
| RoundTrip.OptionRoundTrip | includes/class-lead-api-notion-client.php:359-360 | A value written with the `select` or `status` hint reads back as its string, or as null for null. |
| RoundTrip.ScalarRoundTrip | includes/class-lead-api-notion-client.php:362-364 | A value written with the `url`, `email` or `phone_number` hint reads back as its string, or as null for null. |
| RoundTrip.PickedNames | includes/class-lead-api-notion-client.php:396-408 | Reading back the options built from some values gives the truthy string forms of those values, in order. |
| RoundTrip.MultiSelectRoundTrip | includes/class-lead-api-notion-client.php:361 | A value written with the `multi_select` hint reads back as the truthy strings of its elements. |
| RoundTrip.ReadText | includes/class-lead-api-notion-client.php:386-394 | A text object written as a title or rich text reads back as its content. |
| RoundTrip.TextRoundTrip | includes/class-lead-api-notion-client.php:357-358 | A value written with the `title` or `rich_text` hint reads back as its string. |
| RoundTrip.InferredRoundTrip | includes/class-lead-api-notion-client.php:369-384 | A scalar written without a hint reads back as follows: a bool as itself, a numeric value as its number, null as "", and anything else as itself. |
| RoundTrip.DatePassesThrough | includes/class-lead-api-notion-client.php:145-148 | A ready-made date payload is sent unchanged under any hint, and reads back as its start and end. |
| Transport.Remaining | includes/class-lead-api-notion-client.php:291 | A request consumes exactly one answer of the script, when one is left. |
| Transport.ResultOfIsSuccess | includes/class-lead-api-notion-client.php:304-319 | A request returns a value exactly when the answer decodes to an array with a status in [200,300). The value is that decoded array. |
| Transport.ErrorRecordedIffFailed | includes/class-lead-api-notion-client.php:255-320 | After a request, `lastError` is set exactly when it returned null. |
| Transport.StatusAndBodyRecorded | includes/class-lead-api-notion-client.php:293-302 | An HTTP answer leaves its status and raw body in `lastHttpCode` and `lastResponseBody`. A transport error leaves both null. |
| Transport.StatusFailureNamesCode | includes/class-lead-api-notion-client.php:312-316 | A JSON answer with a status outside [200,300) sets `lastError` to a message naming the status and holding Notion's `message`. It also sets `lastHttpCode` to the status. |
| Transport.NonJsonFails | includes/class-lead-api-notion-client.php:304-310 | A body that does not decode to an array returns null and records "Non-JSON response from Notion." with the status and body. |
| Transport.ExchangeOf | includes/class-lead-api-notion-client.php:255-320 | One `request`: a request goes out exactly when the HTTP API is present, and then it consumes one answer when one is left. A result is always an array. `lastError` is null exactly when there is a result. |
| Transport.QueryBody | includes/class-lead-api-notion-client.php:94-106 | The query body has `page_size` set to the page size. Its `start_cursor` is the cursor, or absent (read as null) when the cursor is null. |
| Transport.RunQueryStep | includes/class-lead-api-notion-client.php:93-126 | One turn of the loop: a failed request ends the run with null. A successful page either ends it with the collected results or hands on to the next cursor. |
| Transport.RunQuery | includes/class-lead-api-notion-client.php:93-126 | The do-while: it sends cursors exactly when the HTTP API is present, the first of them being the starting cursor. It never consumes more answers than there are. A result extends what was collected before. |
| Transport.AllResultsAppend | includes/class-lead-api-notion-client.php:113-118 | The results of two runs of pages placed one after the other are the first run's results followed by the second's. |
| Transport.SingleRequestUnlessFetchAll | includes/class-lead-api-notion-client.php:123-125 | Without `fetchAll`, the loop sends exactly one request, or none when the HTTP API is missing. |
| Transport.RequestCount | includes/class-lead-api-notion-client.php:93-126 | When the HTTP API is present, a run makes at least one request and at most one more than the answers available. Without it, no request goes out (see `RunQuery`). |
| Transport.RunCursors | includes/class-lead-api-notion-client.php:104-126 | The first request carries the starting cursor. Each later one carries the `next_cursor` of a successful page before it that had `has_more` and a truthy cursor, with `fetchAll` set. |
| Transport.RunEnd | includes/class-lead-api-notion-client.php:108-126 | The last request decides the run: the debug fields are its answer's, and the run has a result exactly when that answer succeeded. |
| Transport.RunResults | includes/class-lead-api-notion-client.php:113-128 | A run's result is every page's `results` concatenated in request order. |
| Transport.FailedPageDiscards | includes/class-lead-api-notion-client.php:108-111 | When the first page fails, the whole run is null. |
| NotionClient.RTrimSlashShape | includes/class-lead-api-notion-client.php:36 | The base URL keeps a prefix of what was given and does not end in a slash. Every character cut off is a slash. A URL without a trailing slash is kept as it is. |
| NotionClient.RTrimSlash | includes/class-lead-api-notion-client.php:36 | `rtrim($baseUrl, '/')`: the result is a prefix of the given URL. |
| NotionClient.FirstPageOfPages | includes/class-lead-api-notion-client.php:177-180 | Of a list of pages, `firstPage` gives the first, or null for an empty list. |
| NotionClient.FirstPageRejectsScalar | includes/class-lead-api-notion-client.php:177-180 | A non-array first element violates the declared `?array` return type and raises. |
| NotionClient.FirstPage | includes/class-lead-api-notion-client.php:177-180 | `firstPage`: whatever it returns is null or an array, as the `?array` return type demands. A non-null result is element 0. |
| NotionClient.AppendResults | includes/class-lead-api-notion-client.php:113-118 | The foreach appends the values of a page's `results` to those collected so far, in order. |
| NotionClient.AssembleStep | includes/class-lead-api-notion-client.php:142-156 | One turn of the field loop assigns that field's payload under its parsed name. |
| NotionClient.NotionApiClient.QueryRequestsAppend | includes/class-lead-api-notion-client.php:94-108 | One more cursor appends one more POST, to the query path, with the filter body for that cursor. |
| NotionClient.NotionApiClient.constructor | includes/class-lead-api-notion-client.php:29-37 | The client keeps the token and version, strips trailing slashes from the base URL, and starts with cleared debug fields. |
| NotionClient.NotionApiClient.ResetLastError | includes/class-lead-api-notion-client.php:58-63 | All three debug fields are null afterwards, and nothing else changes. |
| NotionClient.NotionApiClient.SetLastError | includes/class-lead-api-notion-client.php:65-70 | The three debug fields hold the given message, status and body, and nothing else changes. |
| NotionClient.NotionApiClient.Request | includes/class-lead-api-notion-client.php:255-320 | The result, the debug fields and the rest of the script are those of `ExchangeOf`. Exactly one request is logged when the HTTP API is present. |
| NotionClient.NotionApiClient.QueryRound | includes/class-lead-api-notion-client.php:94-126 | One pass of the do-while body agrees with the loop specification `RunQuery` for that cursor. It logs one POST when the HTTP API is present. |
| NotionClient.NotionApiClient.GetManyDatabasePagesWithFilter | includes/class-lead-api-notion-client.php:81-129 | The result, the debug fields and the rest of the script are those of `RunQuery`. One filtered POST is logged per cursor requested. |
| NotionClient.NotionApiClient.UpdateDatabasePage | includes/class-lead-api-notion-client.php:138-159 | When the HTTP API is present, one PATCH to the page carries `{"properties": AssembleProperties(fields)}`; without it, none is sent. The result and the debug fields are that request's. |
| NotionClient.NotionApiClient.GetDatabasePage | includes/class-lead-api-notion-client.php:169-172 | When the HTTP API is present, one GET to the page is sent, without a body; without it, none is sent. The result and the debug fields are that request's. |
| LeadHandler.NonEmptyStrings | includes/class-lead-api-handler.php:41 | `!empty($v) && is_string($v)` holds exactly for the strings other than "" and "0". |
| LeadHandler.Rejection | includes/class-lead-api-handler.php:40-51 | `get_lead_data` rejects the call before querying unless the id is a non-empty string, the database id is neither "" nor "0", and a client exists. The guards come in order: a bad id gives `invalid_id` whatever else holds, then an empty database id gives `missing_db_id`, then a missing client gives `missing_token`, each with its fixed message. |
| LeadHandler.FlattenPairs | includes/class-lead-api-handler.php:80-82 | There is one assignment per property of the page. |
| LeadHandler.Flatten | includes/class-lead-api-handler.php:78-82 | `$flat_data` has distinct keys, and each of its entries is one of the loop's assignments. |
| LeadHandler.FlattenPage | includes/class-lead-api-handler.php:76-82 | The foreach builds exactly `Flatten(page)`. |
| LeadHandler.PropertiesNeedAPage | includes/class-lead-api-handler.php:75-76 | Only an array page has properties to flatten. |
| LeadHandler.FlattenKeys | includes/class-lead-api-handler.php:79-82 | The flattened map has exactly the keys of the page's `properties`, each once. |
| LeadHandler.FlattenValues | includes/class-lead-api-handler.php:80-82 | Each flattened value is `getValue(page, key)`. |
| LeadHandler.FlattenKeepsOrder | includes/class-lead-api-handler.php:79-82 | The flattened keys come in the order of the page's `properties`. |
| LeadHandler.LeadQueryBody | includes/class-lead-api-handler.php:58-65 | The lookup body filters the ID property with `rich_text` `equals` the ID, with page size 1 and no cursor. |
| LeadHandler.LeadQueryIsOneRequest | includes/class-lead-api-handler.php:58-65 | The lookup sends exactly one request when the HTTP API is present, and none without it. Its pages are the first answer's `results`. |
| LeadHandler.LeadApiErrorNamesStatus | includes/class-lead-api-handler.php:67-69 | A failed status makes the lookup an `api_error` whose message names the status. |
| LeadHandler.LeadFromQuery | includes/class-lead-api-handler.php:67-84 | The lookup answers `api_error` exactly when the query returned null, and "no match" exactly when it returned no pages. A found lead carries the first page's `id`. |
| LeadHandler.SingleColumnUpdate | includes/class-lead-api-handler.php:110-115 | The update assembles exactly one property, from the column and the value. |
| LeadHandler.PageLookupAsWrittenRaises | includes/class-lead-api-handler.php:125-136 | Without a client, a page id makes the handler as written call a method on null and raise. The corrected handler gives "". |
| LeadHandler.PageLookupAsWritten | includes/class-lead-api-handler.php:125-136 | `get_lead_data_page` as written raises exactly when the page id is truthy and no client exists. |
| LeadHandler.PageLookup | includes/class-lead-api-handler.php:125-136 | The corrected `get_lead_data_page`: anything but "" is a truthy page that a client fetched. |
| LeadHandler.PageLookupAgrees | includes/class-lead-api-handler.php:125-136 | Wherever the handler as written does not raise, the corrected one returns the same value. |
| LeadHandler.PageLookupResult | includes/class-lead-api-handler.php:125-136 | The page lookup gives "" or a non-empty fetched page, and any non-empty fetched page is given unchanged. |
| LeadHandler.LeadApiHandler.constructor | includes/class-lead-api-handler.php:17-23 | A client exists exactly when the token is truthy. It has the default version and base URL. |
| LeadHandler.LeadApiHandler.GetLeadData | includes/class-lead-api-handler.php:39-85 | `invalid_id`, `missing_db_id` and `missing_token` are checked in that order, each before any request. Otherwise the answer follows from the single-page query: `api_error` with `lastError`, `NoMatch`, or the flattened first page with its id. |
| LeadHandler.LeadApiHandler.UpdateLeadPageCount | includes/class-lead-api-handler.php:94-122 | The answer is true exactly when the page id and the column are non-empty strings and a client exists, whatever Notion answers. Otherwise the client is untouched. A true answer sends one PATCH with that single column when the HTTP API is present, and none without it. |
| LeadHandler.LeadApiHandler.GetLeadDataPage | includes/class-lead-api-handler.php:125-136 | The answer is "" for an empty id, a missing client or an empty or failed page. Otherwise it is the fetched page. With an id and a client, exactly one GET is sent when the HTTP API is present, and none without it. |

## Left out

- Transport.StatusFailureNamesCode: the status is named in `lastError` only for a body that decodes to an array. The client tests `is_array($decoded)` before the status (includes/class-lead-api-notion-client.php:307-309), so a non-2xx answer with a non-JSON body (a 502 with an HTML page, say) records only "Non-JSON response from Notion.", and the status appears only in `lastHttpCode`. `NonJsonFails` states that case.
- The HTTP and JSON functions the client calls (`wp_remote_request`, `wp_remote_retrieve_*`, `json_decode`, `add_query_arg`) are not modelled. They are replaced by the script of answers, and a request is recorded instead of being serialised.
- `wp_json_encode` failing on a body ("Failed to JSON-encode request body."), lines 282-287 of the client: not modelled. Every modelled body is encodable.
- The `$query` argument of `request`: no caller in the core passes one, so it is not modelled.
- `strtoupper($method)`: every caller passes an upper-case verb, which the model records as given.
- The getters `getLastError`, `getLastHttpCode` and `getLastResponseBody`: the model reads the fields directly, through `Diag()`.
- `test_connection` in the handler: a direct `wp_remote_get` whose only rule is "status is 200". It is not part of this model.
- `buero-leads-info-plugin.php` and `assets/buero-leads.js` are not part of this model. They are WordPress wiring, HTML and browser code.
- Floating point: numbers are exact decimals, so `(float)` rounding and PHP's float printing with an exponent are not modelled.
- `is_numeric` covers optional whitespace, a sign, digits and one decimal point. Exponent forms such as "1e3" are not modelled.
- `strtolower` and `trim` act on characters one by one. Locale and multibyte behaviour are not modelled.
- Warnings PHP emits while still returning a value are not modelled. Examples are reading `$page['id']` of a page without `id`, and the string cast of an array, which gives "Array".
- LeadHandler.LeadApiHandler.GetLeadData: it flattens a lead with the corrected reader of the first row under "## Findings". The code as written raises a TypeError for a lead page that has a scalar `title`, `rich_text`, `multi_select`, `people`, `relation` or `files` payload, and nothing catches it. The model returns a lead for that page instead.
- `JObject` values stand for PHP arrays and are taken to have distinct keys, as a PHP array always has. On a `JObject` with a repeated key, `Get` returns the first value, where PHP would keep the last.
- LeadHandler.LeadApiHandler.UpdateLeadPageCount: the `catch (Exception $e) { return $e; }` branch is not modelled. Nothing in the modelled client throws an `Exception`. The one raise the model knows, a TypeError, is an `Error`, which that catch would not stop.
- The handler's column whitelist and the read-increment-write that calls `update_lead_page_count` live in the plugin file. They are not part of this model.

## Findings

| source | as written | input that shows it | evidently intended | confidence | as-written member | corrected member |
|---|---|---|---|---|---|---|
| includes/class-lead-api-notion-client.php:195-240 | `$plainText` takes `?array` and `array_map` takes an array. A scalar payload under `title`, `rich_text`, `multi_select`, `people`, `relation` or `files` therefore raises a TypeError, and `get_lead_data` passes it on, because it calls `getValue` for every property of the lead page (includes/class-lead-api-handler.php:80-82). | A page whose `Name` property is `{"type": "title", "title": "x"}` | The file promises "returns null on any error (no exceptions)": a malformed payload should read as "" or as an empty list | high; not executed | PropertyDecode.GetValueAsWrittenRaises | PropertyDecode.GetValueAsWrittenAgrees |
| includes/class-lead-api-handler.php:125-136 | `get_lead_data_page` does not check for a missing client, unlike the other two handler methods. With no token it calls `getDatabasePage()` on null, which raises an Error. | Page id "abc" with no Notion token configured | Return "", as for a missing page | high; not executed | LeadHandler.PageLookupAsWrittenRaises | LeadHandler.PageLookupResult |
