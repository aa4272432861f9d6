/**
 * Writing a Notion page: how `NotionApiClient::updateDatabasePage` turns each
 * caller field `"Name|hint" => value` into a property payload under the
 * trimmed name: a value that already looks like a payload is kept, a hint
 * coerces, and otherwise the PHP type of the value decides.
 */
module PropertyEncode {
  import opened Wrappers
  import opened Text
  import opened Json
  import opened Php

  // ---------------------------------------------------------------------------
  // Field keys.
  // ---------------------------------------------------------------------------

  /** A property name as the encoder produces it: trimmed and without a bar. */
  predicate CleanName(name: string)
  {
    IsTrimmed(name) && '|' !in name
  }

  /**
   * `parseKeyAndType`: `explode('|', $key, 2)`, both parts trimmed; no bar, or
   * only whitespace after it, means no hint.
   */
  function ParseKeyAndType(key: string): (r: (string, Option<string>))
    ensures '|' !in key ==> r.1.None?
    ensures r.1.Some? ==> r.1.value != "" && |r.0| + |r.1.value| < |key|
  {
    match IndexOf(key, '|')
    case None => (Trim(key), None)
    case Some(i) =>
      var hint := Trim(key[i + 1..]);
      (Trim(key[..i]), if hint != "" then Some(hint) else None)
  }

  /** The name is clean, and a hint, when there is one, is trimmed and non-empty and came after a bar. */
  lemma ParsedKeyIsClean(key: string)
    ensures CleanName(ParseKeyAndType(key).0)
    ensures var hint := ParseKeyAndType(key).1;
      hint.Some? ==> IsTrimmed(hint.value) && hint.value != "" && '|' in key
  {
    match IndexOf(key, '|')
    case None =>
      TrimIsTrimmed(key);
    case Some(i) =>
      TrimIsTrimmed(key[..i]);
      TrimIsTrimmed(key[i + 1..]);
  }

  /** Splitting happens at the first bar only: a clean name, a bar and a trimmed hint (which may hold bars) read back as themselves. */
  lemma ParseJoinedKey(name: string, hint: string)
    requires CleanName(name) && IsTrimmed(hint) && hint != ""
    ensures ParseKeyAndType(name + "|" + hint) == (name, Some(hint))
  {
    var key := name + "|" + hint;
    assert IndexOf(key, '|') == Some(|name|) by {
      assert key == name + ("|" + hint);
      IndexOfAfter(name, "|" + hint, '|');
    }
    assert key[..|name|] == name;
    assert key[|name| + 1..] == hint;
    TrimOfTrimmed(name);
    TrimOfTrimmed(hint);
  }

  /** A key without a bar names the property by itself, trimmed, with no hint. */
  lemma ParseBareKey(key: string)
    requires '|' !in key
    ensures ParseKeyAndType(key) == (Trim(key), None)
  {
  }

  /** A clean name is its own key: it parses to itself with no hint. */
  lemma ParseCleanKey(key: string)
    requires CleanName(key)
    ensures ParseKeyAndType(key) == (key, None)
  {
    ParseBareKey(key);
    TrimOfTrimmed(key);
  }

  /** A bar followed by nothing but whitespace gives no hint. */
  lemma ParseBlankHint(name: string, blank: string)
    requires '|' !in name && forall i :: 0 <= i < |blank| ==> blank[i] in TrimChars
    ensures ParseKeyAndType(name + "|" + blank) == (Trim(name), None)
  {
    var key := name + "|" + blank;
    assert key == name + ("|" + blank);
    IndexOfAfter(name, "|" + blank, '|');
    assert key[..|name|] == name && key[|name| + 1..] == blank;
    TrimBlank(blank);
  }

  // ---------------------------------------------------------------------------
  // Recognising a ready-made payload.
  // ---------------------------------------------------------------------------

  /** The thirteen keys `looksLikeNotionPropertyValue` searches for; `files` is not one of them. */
  const KnownPropertyKeys: seq<string> := [
    "title", "rich_text", "number", "checkbox", "select", "multi_select",
    "date", "url", "email", "phone_number", "people", "relation", "status"
  ]

  /** An array with at least one of the known keys. */
  predicate IsPropertyValue(value: Json)
  {
    IsArray(value) && exists i :: 0 <= i < |KnownPropertyKeys| && HasKey(value, KnownPropertyKeys[i])
  }

  /** `looksLikeNotionPropertyValue`: the foreach over the known keys with its early return. */
  method LooksLikeNotionPropertyValue(value: Json) returns (r: bool)
    requires IsArray(value)
    ensures r <==> IsPropertyValue(value)
  {
    var i := 0;
    while i < |KnownPropertyKeys|
      invariant 0 <= i <= |KnownPropertyKeys|
      invariant forall j :: 0 <= j < i ==> !HasKey(value, KnownPropertyKeys[j])
    {
      if HasKey(value, KnownPropertyKeys[i]) {
        return true;
      }
      i := i + 1;
    }
    return false;
  }

  // ---------------------------------------------------------------------------
  // Building payloads.
  // ---------------------------------------------------------------------------

  /** A one-key array `[$key => $x]`. */
  function Single(key: string, x: Json): Json
  {
    JObject([(key, x)])
  }

  /** `textObjects($content)`: one rich-text run of type `text` holding the content. */
  function TextObjects(content: string): (r: Json)
    ensures r.JList? && |r.items| == 1
    ensures Get(r.items[0], "type") == JStr("text") && Get(Get(r.items[0], "text"), "content") == JStr(content)
  {
    var run := JObject([("type", JStr("text")), ("text", Single("content", JStr(content)))]);
    assert Lookup(run.fields, "text") == Some(Single("content", JStr(content))) by {
      assert "text" != "type" by { assert "text"[1] != "type"[1]; }
    }
    JList([run])
  }

  /** The elements `multiSelectObjects` iterates: an array's values, or the scalar alone. */
  function MultiSelectSources(value: Json): seq<Json>
  {
    if value == JNull then [] else if IsArray(value) then Values(value) else [value]
  }

  /** The list `multiSelectObjects` builds: one `{"name": (string)$v}` per element, in order. */
  function MultiSelectItems(value: Json): (r: seq<Json>)
    ensures |r| == |MultiSelectSources(value)|
  {
    var xs := MultiSelectSources(value);
    seq(|xs|, i requires 0 <= i < |xs| => Single("name", JStr(ToPhpString(xs[i]))))
  }

  /** `multiSelectObjects`: null gives no options, a scalar one, an array one per value. */
  method MultiSelectObjects(value: Json) returns (out: seq<Json>)
    ensures out == MultiSelectItems(value)
  {
    if value == JNull {
      return [];
    }
    var items := if IsArray(value) then Values(value) else [value];
    out := [];
    var i := 0;
    while i < |items|
      invariant 0 <= i <= |items|
      invariant out == MultiSelectItems(value)[..i]
    {
      out := out + [Single("name", JStr(ToPhpString(items[i])))];
      i := i + 1;
    }
  }

  /** `is_numeric($value) ? (float)$value + 0 : null`. */
  function NumberOrNull(value: Json): Json
  {
    if IsNumeric(value) then JNum(ToNumber(value)) else JNull
  }

  /** `$value === null ? null : (string)$value`. */
  function StringOrNull(value: Json): Json
  {
    if value == JNull then JNull else JStr(ToPhpString(value))
  }

  /** `inferPropertyValue`: bool first, then numbers and numeric strings, then null, then text. */
  function InferPropertyValue(value: Json): (r: Json)
    ensures r.JObject? && |r.fields| == 1 && r.fields[0].0 in {"checkbox", "number", "rich_text"}
    ensures r.fields[0].0 == "checkbox" <==> value.JBool?
    ensures r.fields[0].0 == "number" <==> !value.JBool? && IsNumeric(value)
  {
    if value.JBool? then Single("checkbox", value)
    else if value.JNum? || (value.JStr? && IsNumeric(value)) then Single("number", JNum(ToNumber(value)))
    else if value == JNull then Single("rich_text", JList([]))
    else Single("rich_text", TextObjects(ToPhpString(value)))
  }

  /** The hints `buildPropertyValueByType` knows, in lower case. */
  const HintTypes: set<string> := {
    "number", "checkbox", "title", "rich_text", "select", "status", "multi_select",
    "url", "email", "phone_number"
  }

  /** The payload `buildPropertyValueByType` sets under a known lower-case hint `t`. */
  function Coerce(t: string, value: Json): Json
    requires t in HintTypes
  {
    match t
    case "number" => NumberOrNull(value)
    case "checkbox" => JBool(Truthy(value))
    case "title" | "rich_text" => TextObjects(ToPhpString(value))
    case "select" | "status" => if value == JNull then JNull else Single("name", JStr(ToPhpString(value)))
    case "multi_select" => JList(MultiSelectItems(value))
    case _ => StringOrNull(value) // "url", "email" and "phone_number"
  }

  /**
   * `buildPropertyValueByType`: the hint, lower-cased, picks the coercion and is
   * the one key of the payload; an unknown hint infers.
   */
  function BuildPropertyValueByType(hint: string, value: Json): (r: Json)
    ensures r.JObject? && |r.fields| == 1
    ensures ToLower(hint) in HintTypes ==> r.fields[0].0 == ToLower(hint)
    ensures ToLower(hint) !in HintTypes ==> r == InferPropertyValue(value)
  {
    var t := ToLower(hint);
    if t in HintTypes then Single(t, Coerce(t, value)) else InferPropertyValue(value)
  }

  /** The payload one field contributes: ready-made payloads first, then the hint, then inference. */
  function PropertyPayload(value: Json, hint: Option<string>): Json
  {
    if IsPropertyValue(value) then value
    else if hint.Some? then BuildPropertyValueByType(hint.value, value)
    else InferPropertyValue(value)
  }

  /** The name and payload one field `$key => $value` contributes. */
  function EncodeField(field: (string, Json)): (string, Json)
  {
    var parsed := ParseKeyAndType(field.0);
    (parsed.0, PropertyPayload(field.1, parsed.1))
  }

  function EncodeFields(fields: seq<(string, Json)>): (r: seq<(string, Json)>)
    ensures |r| == |fields|
  {
    seq(|fields|, i requires 0 <= i < |fields| => EncodeField(fields[i]))
  }

  /**
   * The `properties` array `updateDatabasePage` assembles from the fields in
   * order: each payload is assigned under its parsed name, so a later field
   * with the same name replaces an earlier one in its place.
   */
  function AssembleProperties(fields: seq<(string, Json)>): (r: seq<(string, Json)>)
    ensures DistinctKeys(r)
    ensures forall p :: p in r ==> p in EncodeFields(fields)
  {
    PutAllShape(EncodeFields(fields));
    PutAll(EncodeFields(fields))
  }

  // ---------------------------------------------------------------------------
  // What the encoder promises.
  // ---------------------------------------------------------------------------

  lemma {:induction false} ToLowerIdempotent(s: string)
    ensures ToLower(ToLower(s)) == ToLower(s)
  {
    var once := ToLower(s);
    assert forall i | 0 <= i < |s| :: LowerChar(once[i]) == once[i];
  }

  /** Hints are compared case-insensitively: a hint and its lower-case form coerce alike. */
  lemma HintIsCaseInsensitive(hint: string, value: Json)
    ensures BuildPropertyValueByType(hint, value) == BuildPropertyValueByType(ToLower(hint), value)
  {
    ToLowerIdempotent(hint);
  }

  /** A hint the coercion does not know falls back to inference. */
  lemma UnknownHintInfers(hint: string, value: Json)
    requires ToLower(hint) !in HintTypes
    ensures BuildPropertyValueByType(hint, value) == InferPropertyValue(value)
  {
  }

  /** An inferred payload has exactly one key, chosen by the value's PHP type. */
  lemma InferredKey(value: Json)
    ensures var p := InferPropertyValue(value);
      p.JObject? && |p.fields| == 1 &&
      (p.fields[0].0 == "checkbox" <==> value.JBool?) &&
      (p.fields[0].0 == "number" <==> value.JNum? || (value.JStr? && IsNumeric(value))) &&
      (p.fields[0].0 == "rich_text" <==> !value.JBool? && !value.JNum? && !(value.JStr? && IsNumeric(value)))
  {
  }

  lemma SingleKnown(k: string, x: Json)
    requires k in KnownPropertyKeys
    ensures IsPropertyValue(Single(k, x))
  {
    var i :| 0 <= i < |KnownPropertyKeys| && KnownPropertyKeys[i] == k;
    assert Keys([(k, x)])[0] == k;
    assert HasKey(Single(k, x), KnownPropertyKeys[i]);
  }

  /** Whatever inference builds is itself a payload the encoder would pass through. */
  lemma InferredIsPropertyValue(value: Json)
    ensures IsPropertyValue(InferPropertyValue(value))
  {
    var p := InferPropertyValue(value);
    SingleKnown(p.fields[0].0, p.fields[0].1);
  }

  /** Whatever a hint builds is itself a payload the encoder would pass through. */
  lemma BuiltIsPropertyValue(hint: string, value: Json)
    ensures IsPropertyValue(BuildPropertyValueByType(hint, value))
  {
    var t := ToLower(hint);
    if t in HintTypes {
      assert t in KnownPropertyKeys;
      SingleKnown(t, Coerce(t, value));
    } else {
      InferredIsPropertyValue(value);
    }
  }

  /** Every payload the encoder emits is a property value, so encoding a payload again keeps it. */
  lemma PayloadIsStable(value: Json, hint: Option<string>, hint': Option<string>)
    ensures IsPropertyValue(PropertyPayload(value, hint))
    ensures PropertyPayload(PropertyPayload(value, hint), hint') == PropertyPayload(value, hint)
  {
    if !IsPropertyValue(value) {
      if hint.Some? {
        BuiltIsPropertyValue(hint.value, value);
      } else {
        InferredIsPropertyValue(value);
      }
    }
  }

  /** A `files` payload is not recognised: with no hint it is sent as the text "Array". */
  lemma FilesIsNotPassedThrough(files: Json)
    ensures PropertyPayload(Single("files", files), None) == Single("rich_text", TextObjects("Array"))
  {
    var v := Single("files", files);
    assert Keys([("files", files)]) == ["files"];
    assert !IsPropertyValue(v) by {
      forall i | 0 <= i < |KnownPropertyKeys|
        ensures !HasKey(v, KnownPropertyKeys[i])
      {
        assert KnownPropertyKeys[i] != "files";
      }
    }
  }

  /** The property names sent are exactly the parsed names of the fields. */
  lemma AssembledNames(fields: seq<(string, Json)>, name: string)
    ensures name in Keys(AssembleProperties(fields)) <==>
      exists i :: 0 <= i < |fields| && ParseKeyAndType(fields[i].0).0 == name
  {
    var encoded := EncodeFields(fields);
    PutAllKeys(encoded, name);
    assert forall i | 0 <= i < |fields| :: encoded[i].0 == ParseKeyAndType(fields[i].0).0;
  }

  /** The last field with a given name decides that property's payload. */
  lemma LastFieldWins(fields: seq<(string, Json)>, i: nat)
    requires i < |fields|
    requires forall j :: i < j < |fields| ==> ParseKeyAndType(fields[j].0).0 != ParseKeyAndType(fields[i].0).0
    ensures Lookup(AssembleProperties(fields), ParseKeyAndType(fields[i].0).0) == Some(EncodeField(fields[i]).1)
  {
    var encoded := EncodeFields(fields);
    assert forall j | 0 <= j < |fields| :: encoded[j].0 == ParseKeyAndType(fields[j].0).0;
    PutAllLastWins(encoded, i);
  }

  /** An assembled properties array has distinct, clean names and only property values. */
  predicate WellAssembled(props: seq<(string, Json)>)
  {
    DistinctKeys(props) &&
    forall i :: 0 <= i < |props| ==> CleanName(props[i].0) && IsPropertyValue(props[i].1)
  }

  lemma EncodedIsWell(field: (string, Json))
    ensures CleanName(EncodeField(field).0) && IsPropertyValue(EncodeField(field).1)
  {
    var parsed := ParseKeyAndType(field.0);
    ParsedKeyIsClean(field.0);
    PayloadIsStable(field.1, parsed.1, None);
  }

  lemma AssembledIsWell(fields: seq<(string, Json)>)
    ensures WellAssembled(AssembleProperties(fields))
  {
    var encoded := EncodeFields(fields);
    PutAllShape(encoded);
    forall p | p in encoded
      ensures CleanName(p.0) && IsPropertyValue(p.1)
    {
      var i :| 0 <= i < |encoded| && encoded[i] == p;
      EncodedIsWell(fields[i]);
    }
  }

  /** A well-assembled array, given as fields, encodes pair for pair as itself. */
  lemma EncodeWellAssembled(props: seq<(string, Json)>)
    requires WellAssembled(props)
    ensures EncodeFields(props) == props
  {
    forall i | 0 <= i < |props|
      ensures EncodeField(props[i]) == props[i]
    {
      ParseCleanKey(props[i].0);
    }
  }

  /** Feeding the assembled properties back in as fields sends the same properties: assembly is idempotent. */
  lemma AssembleIsIdempotent(fields: seq<(string, Json)>)
    ensures AssembleProperties(AssembleProperties(fields)) == AssembleProperties(fields)
  {
    var props := AssembleProperties(fields);
    AssembledIsWell(fields);
    EncodeWellAssembled(props);
    PutAllDistinct(props);
  }

  /** A number with no hint is sent as that number. */
  lemma InferredNumber(d: Decimal)
    ensures PropertyPayload(JNum(d), None) == Single("number", JNum(d))
  {
  }

  /** A numeric string under a `number` hint (in any case) is sent as the number it denotes. */
  lemma HintedNumber(s: string, hint: string)
    requires ToLower(hint) == "number" && ParseNumeric(s).Some?
    ensures PropertyPayload(JStr(s), Some(hint)) == Single("number", JNum(ParseNumeric(s).value))
  {
  }

  /** A field `"name|hint" => value` is sent under `name`, coerced by the hint unless it is a ready-made payload. */
  lemma EncodeHintedField(name: string, hint: string, value: Json)
    requires CleanName(name) && IsTrimmed(hint) && hint != ""
    ensures EncodeField((name + "|" + hint, value)) == (name, PropertyPayload(value, Some(hint)))
  {
    ParseJoinedKey(name, hint);
  }

  /** Encoding a two-field list encodes each field: unfolds EncodeFields for HintedFieldReplacesEarlier. */
  lemma EncodeTwoFields(f: (string, Json), g: (string, Json))
    ensures EncodeFields([f, g]) == [EncodeField(f), EncodeField(g)]
  {
  }

  /**
   * `["Views" => 1, "Views|number" => "5"]`, for any clean name, `number` hint
   * and numeric string: one property under the name, holding the hinted number.
   */
  lemma HintedFieldReplacesEarlier(name: string, hint: string, d: Decimal, s: string)
    requires CleanName(name) && IsTrimmed(hint) && ToLower(hint) == "number" && ParseNumeric(s).Some?
    ensures AssembleProperties([(name, JNum(d)), (name + "|" + hint, JStr(s))])
         == [(name, Single("number", JNum(ParseNumeric(s).value)))]
  {
    var first := Single("number", JNum(d));
    var second := Single("number", JNum(ParseNumeric(s).value));
    assert EncodeField((name, JNum(d))) == (name, first) by {
      ParseCleanKey(name);
      InferredNumber(d);
    }
    assert EncodeField((name + "|" + hint, JStr(s))) == (name, second) by {
      EncodeHintedField(name, hint, JStr(s));
      HintedNumber(s, hint);
    }
    EncodeTwoFields((name, JNum(d)), (name + "|" + hint, JStr(s)));
    PutAllSameKeyTwice(name, first, second);
  }
}
