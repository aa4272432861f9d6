/**
 * Reading a Notion page: `NotionApiClient::getValue` turns the property envelope
 * `{"type": T, T: payload}` stored under a name in the page's `properties` into a
 * plain PHP value chosen by T.
 */
module PropertyDecode {
  import opened Wrappers
  import opened Text
  import opened Json
  import opened Php

  /** The property types `getValue` knows. */
  const DecodedTypes: set<string> := {
    "title", "rich_text", "url", "email", "phone_number", "checkbox", "number",
    "select", "status", "multi_select", "date", "people", "relation", "files"
  }

  /** `$page['properties'][$name] ?? null`. */
  function PropertyOf(page: Json, name: string): Json
  {
    Get(Get(page, "properties"), name)
  }

  /** The text of a run list: each run's `plain_text` in order, "" for a run without one. */
  function ConcatPlainText(runs: seq<Json>): string
  {
    if runs == [] then "" else ToPhpString(Get(runs[0], "plain_text")) + ConcatPlainText(runs[1..])
  }

  /** Which field of a list element `getValue` keeps. */
  datatype ListField = Name | Id | FileUrl

  /** The field kept from one list element, null for an element that is not an array. */
  function Pick(field: ListField, x: Json): Json
  {
    if !IsArray(x) then JNull
    else
      match field
      case Name => Get(x, "name")
      case Id => Get(x, "id")
      case FileUrl =>
        var external := Get(Get(x, "external"), "url");
        if external != JNull then external else Get(Get(x, "file"), "url")
  }

  /**
   * `array_values(array_filter(array_map(pick, $items)))`: the picked fields in
   * order, dropping every falsy one.
   */
  function Picked(field: ListField, items: seq<Json>): (r: seq<Json>)
    ensures |r| <= |items|
    ensures forall i :: 0 <= i < |r| ==> Truthy(r[i])
  {
    if items == [] then []
    else
      var x := Pick(field, items[0]);
      (if Truthy(x) then [x] else []) + Picked(field, items[1..])
  }

  /** The value of a property envelope whose type is the non-empty string `t`. */
  function DecodeTyped(prop: Json, t: string): Json
  {
    var payload := Get(prop, t);
    match t
    case "title" | "rich_text" => JStr(ConcatPlainText(Values(payload)))
    case "url" | "email" | "phone_number" => payload
    case "checkbox" => JBool(Truthy(payload))
    case "number" => if IsNumeric(payload) then JNum(ToNumber(payload)) else JNull
    case "select" | "status" => Get(payload, "name")
    case "multi_select" | "people" => JList(Picked(Name, Values(payload)))
    case "relation" => JList(Picked(Id, Values(payload)))
    case "files" => JList(Picked(FileUrl, Values(payload)))
    case "date" =>
      if IsArray(payload) then JObject([("start", Get(payload, "start")), ("end", Get(payload, "end"))])
      else JNull
    case _ => JNull
  }

  /**
   * `getValue($page, $name)`: the property's plain value, or null when the
   * property is missing, is not an array, or has no usable `type`.
   */
  function GetValue(page: Json, name: string): (r: Json)
    requires IsArray(page)
    ensures r != JNull ==> IsArray(PropertyOf(page, name)) && Get(PropertyOf(page, name), "type").JStr?
  {
    var prop := PropertyOf(page, name);
    if !IsArray(prop) then JNull
    else
      var t := Get(prop, "type");
      if !t.JStr? || t.s == "" then JNull else DecodeTyped(prop, t.s)
  }

  // ---------------------------------------------------------------------------
  // What the decoder promises.
  // ---------------------------------------------------------------------------

  /** Absence is the only failure signal: a missing, malformed or untyped property, or an unknown type, reads as null. */
  lemma UnusablePropertyIsNull(page: Json, name: string)
    requires IsArray(page)
    requires var prop := PropertyOf(page, name);
      !IsArray(prop) || !Get(prop, "type").JStr? || Get(prop, "type").s !in DecodedTypes
    ensures GetValue(page, name) == JNull
  {
  }

  /** Run lists concatenate: the text of two run lists is the text of the first followed by the second. */
  lemma {:induction false} ConcatPlainTextAppend(a: seq<Json>, b: seq<Json>)
    ensures ConcatPlainText(a + b) == ConcatPlainText(a) + ConcatPlainText(b)
  {
    if a != [] {
      assert (a + b)[1..] == a[1..] + b;
      ConcatPlainTextAppend(a[1..], b);
    } else {
      assert a + b == b;
    }
  }

  /**
   * The text of a run list is each run's `plain_text`, cast to a string,
   * concatenated in order: a run without one adds "".
   */
  lemma {:induction false} ConcatPlainTextOfRuns(runs: seq<Json>)
    ensures ConcatPlainText(runs) ==
      Concat(seq(|runs|, i requires 0 <= i < |runs| => ToPhpString(Get(runs[i], "plain_text"))))
  {
    if runs != [] {
      ConcatPlainTextOfRuns(runs[1..]);
      var texts := seq(|runs|, i requires 0 <= i < |runs| => ToPhpString(Get(runs[i], "plain_text")));
      assert texts[1..] == seq(|runs| - 1, i requires 0 <= i < |runs| - 1 => ToPhpString(Get(runs[1..][i], "plain_text")));
    }
  }

  /** A run list of plain strings reads as their concatenation: the case of ConcatPlainTextOfRuns where every run has a string `plain_text`. */
  lemma {:induction false} ConcatPlainTextOfStrings(runs: seq<Json>, texts: seq<string>)
    requires |runs| == |texts|
    requires forall i :: 0 <= i < |runs| ==> Get(runs[i], "plain_text") == JStr(texts[i])
    ensures ConcatPlainText(runs) == Concat(texts)
  {
    ConcatPlainTextOfRuns(runs);
    assert seq(|runs|, i requires 0 <= i < |runs| => ToPhpString(Get(runs[i], "plain_text"))) == texts;
  }

  /** A run without `plain_text` adds nothing to the text, wherever it stands. */
  lemma RunWithoutText(a: seq<Json>, run: Json, b: seq<Json>)
    requires Get(run, "plain_text") == JNull
    ensures ConcatPlainText(a + [run] + b) == ConcatPlainText(a) + ConcatPlainText(b)
  {
    var rest := [run] + b;
    assert rest[0] == run && rest[1..] == b;
    assert a + [run] + b == a + rest;
    ConcatPlainTextAppend(a, rest);
  }

  function Concat(texts: seq<string>): string
  {
    if texts == [] then "" else texts[0] + Concat(texts[1..])
  }

  /** Picking keeps the order of the elements: the list of a concatenation is the concatenation of the lists. */
  lemma {:induction false} PickedAppend(field: ListField, a: seq<Json>, b: seq<Json>)
    ensures Picked(field, a + b) == Picked(field, a) + Picked(field, b)
  {
    if a != [] {
      var x := Pick(field, a[0]);
      var head := if Truthy(x) then [x] else [];
      assert (a + b)[0] == a[0] && (a + b)[1..] == a[1..] + b;
      PickedAppend(field, a[1..], b);
      calc {
        Picked(field, a + b);
        head + Picked(field, a[1..] + b);
        head + (Picked(field, a[1..]) + Picked(field, b));
        (head + Picked(field, a[1..])) + Picked(field, b);
        Picked(field, a) + Picked(field, b);
      }
    } else {
      assert a + b == b;
    }
  }

  /** A value is in the decoded list exactly when it is truthy and some element yields it. */
  lemma {:induction false} PickedMembers(field: ListField, items: seq<Json>, v: Json)
    ensures v in Picked(field, items) <==> Truthy(v) && exists i :: 0 <= i < |items| && Pick(field, items[i]) == v
  {
    if items != [] {
      PickedMembers(field, items[1..], v);
      if exists i :: 0 <= i < |items[1..]| && Pick(field, items[1..][i]) == v {
        var i :| 0 <= i < |items[1..]| && Pick(field, items[1..][i]) == v;
        assert Pick(field, items[i + 1]) == v;
      }
      if exists i :: 0 <= i < |items| && Pick(field, items[i]) == v {
        var i :| 0 <= i < |items| && Pick(field, items[i]) == v;
        if i > 0 {
          assert Pick(field, items[1..][i - 1]) == v;
        }
      }
    }
  }

  /** Every element that carries a truthy field is kept, so a well-formed list decodes element for element. */
  lemma {:induction false} PickedAll(field: ListField, items: seq<Json>)
    requires forall i :: 0 <= i < |items| ==> Truthy(Pick(field, items[i]))
    ensures Picked(field, items) == seq(|items|, i requires 0 <= i < |items| => Pick(field, items[i]))
  {
    if items != [] {
      PickedAll(field, items[1..]);
    }
  }

  /** A file's external URL wins over its uploaded-file URL whenever it is present. */
  lemma FileUrlPrefersExternal(x: Json)
    requires IsArray(x) && Get(Get(x, "external"), "url") != JNull
    ensures Pick(FileUrl, x) == Get(Get(x, "external"), "url")
  {
  }

  /** The property envelope `{"type": t, t: payload}`. */
  function Envelope(t: string, payload: Json): Json
  {
    JObject([("type", JStr(t)), (t, payload)])
  }

  /** A page holding one property under `name`. */
  function PageWith(name: string, prop: Json): Json
  {
    JObject([("properties", JObject([(name, prop)]))])
  }

  lemma ReadEnvelope(name: string, t: string, payload: Json)
    requires t != "" && t != "type"
    ensures GetValue(PageWith(name, Envelope(t, payload)), name) == DecodeTyped(Envelope(t, payload), t)
    ensures Get(Envelope(t, payload), t) == payload
  {
    var fs := [("type", JStr(t)), (t, payload)];
    assert fs[1..] == [(t, payload)];
    assert Lookup(fs, t) == Some(payload);
  }

  /** A checkbox with no payload reads as false. */
  lemma MissingCheckbox(name: string)
    ensures GetValue(PageWith(name, JObject([("type", JStr("checkbox"))])), name) == JBool(false)
  {
  }

  /** A title or rich text with no payload reads as "". */
  lemma MissingText(name: string, t: string)
    requires t == "title" || t == "rich_text"
    ensures GetValue(PageWith(name, JObject([("type", JStr(t))])), name) == JStr("")
  {
    var prop := JObject([("type", JStr(t))]);
    assert t != "type" by {
      assert |t| != |"type"|;
    }
    assert prop.fields[0].0 != t;
    assert prop.fields[1..] == [];
    assert Lookup(prop.fields[1..], t) == None;
    assert Lookup(prop.fields, t) == None;
    assert Get(prop, t) == JNull;
  }

  /** A number with no payload, or a non-numeric one, reads as null. */
  lemma MissingNumber(name: string, payload: Json)
    ensures GetValue(PageWith(name, JObject([("type", JStr("number"))])), name) == JNull
    ensures !IsNumeric(payload) ==> GetValue(PageWith(name, Envelope("number", payload)), name) == JNull
  {
    ReadEnvelope(name, "number", payload);
  }

  /** `{"multi_select": [{"name": "A"}, {"name": "B"}, {"foo": "bad"}]}` reads as `["A", "B"]`. */
  lemma MultiSelectScenario(name: string)
    ensures GetValue(PageWith(name, Envelope("multi_select", JList([
        JObject([("name", JStr("A"))]), JObject([("name", JStr("B"))]), JObject([("foo", JStr("bad"))])
      ]))), name) == JList([JStr("A"), JStr("B")])
  {
    var items := [JObject([("name", JStr("A"))]), JObject([("name", JStr("B"))]), JObject([("foo", JStr("bad"))])];
    ReadMultiSelect(name, JList(items));
    assert Picked(Name, items[2..]) == [] by {
      assert Get(items[2], "name") == JNull;
    }
    assert Picked(Name, items[1..]) == [JStr("B")];
  }

  /** A multi-select reads as the truthy `name`s of its array elements. */
  lemma ReadMultiSelect(name: string, payload: Json)
    ensures GetValue(PageWith(name, Envelope("multi_select", payload)), name) == JList(Picked(Name, Values(payload)))
  {
    ReadEnvelope(name, "multi_select", payload);
  }

  // ---------------------------------------------------------------------------
  // The decoder as written can raise.
  // ---------------------------------------------------------------------------

  /** The types whose payload reaches a parameter that only accepts an array (or null). */
  const ArrayPayloadTypes: set<string> := {"title", "rich_text", "multi_select", "people", "relation", "files"}

  /**
   * `getValue` exactly as written: the run-list closure takes `?array` and
   * `array_map` takes `array`, so a scalar payload for one of ArrayPayloadTypes
   * raises a TypeError instead of reading as empty.
   */
  function GetValueAsWritten(page: Json, name: string): (r: Outcome<Json>)
    requires IsArray(page)
    ensures r.Returned? ==> r.value == GetValue(page, name)
    ensures r.Thrown? ==> (var t := Get(PropertyOf(page, name), "type"); t.JStr? && t.s in ArrayPayloadTypes)
  {
    var prop := PropertyOf(page, name);
    var t := Get(prop, "type");
    if IsArray(prop) && t.JStr? && t.s in ArrayPayloadTypes
       && Get(prop, t.s) != JNull && !IsArray(Get(prop, t.s))
    then Thrown("TypeError")
    else Returned(GetValue(page, name))
  }

  /** A title whose payload is a bare string: the code as written raises, the intended reading is "". */
  lemma GetValueAsWrittenRaises()
    ensures GetValueAsWritten(PageWith("Name", Envelope("title", JStr("x"))), "Name").Thrown?
    ensures GetValue(PageWith("Name", Envelope("title", JStr("x"))), "Name") == JStr("")
  {
    ReadEnvelope("Name", "title", JStr("x"));
  }

  /** Wherever the code as written returns, it returns what GetValue does, and GetValue never raises. */
  lemma GetValueAsWrittenAgrees(page: Json, name: string)
    requires IsArray(page)
    ensures GetValueAsWritten(page, name).Returned? ==> GetValueAsWritten(page, name).value == GetValue(page, name)
    ensures GetValueAsWritten(page, name).Thrown? ==>
      GetValue(page, name) == JStr("") || GetValue(page, name) == JList([])
  {
  }
}
