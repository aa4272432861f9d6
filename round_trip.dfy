/**
 * Writing a value with `updateDatabasePage` and reading it back with
 * `getValue`. Notion reports a written payload `{t: x}` as the property
 * envelope `{"type": t, t: x}`, and fills in the `plain_text` of every
 * rich-text run from its content; `Echo` states that behaviour of the service.
 */
module RoundTrip {
  import opened Wrappers
  import opened Text
  import opened Json
  import opened Php
  import opened PropertyDecode
  import opened PropertyEncode

  /** A rich-text run as Notion returns it: with `plain_text` set to the run's content. */
  function WithPlainText(run: Json): Json
  {
    if run.JObject? then JObject(run.fields + [("plain_text", Get(Get(run, "text"), "content"))]) else run
  }

  function Rendered(runs: Json): Json
  {
    if runs.JList? then JList(seq(|runs.items|, i requires 0 <= i < |runs.items| => WithPlainText(runs.items[i])))
    else runs
  }

  /** The property Notion reports after a one-key payload `{t: x}` was written. */
  function Echo(payload: Json): Json
  {
    if payload.JObject? && |payload.fields| == 1 then
      var t := payload.fields[0].0;
      var x := payload.fields[0].1;
      Envelope(t, if t == "title" || t == "rich_text" then Rendered(x) else x)
    else JNull
  }

  /** What `getValue` reads from a page whose property `name` was written with `payload`. */
  function ReadBack(name: string, payload: Json): Json
  {
    GetValue(PageWith(name, Echo(payload)), name)
  }

  lemma ReadSingle(name: string, t: string, x: Json)
    requires t != "" && t != "type" && t != "title" && t != "rich_text"
    ensures ReadBack(name, Single(t, x)) == DecodeTyped(Envelope(t, x), t)
    ensures Get(Envelope(t, x), t) == x
  {
    ReadEnvelope(name, t, x);
  }

  /** Under a `number` hint, a numeric value reads back as its number and anything else as null. */
  lemma NumberRoundTrip(name: string, hint: string, value: Json)
    requires ToLower(hint) == "number"
    ensures ReadBack(name, BuildPropertyValueByType(hint, value)) == NumberOrNull(value)
  {
    ReadSingle(name, "number", NumberOrNull(value));
  }

  /**
   * A number written as text reads back as the string PHP prints for it, and
   * that string written back under a `number` hint reads as the same number.
   */
  lemma NumberAsTextRoundTrip(name: string, textHint: string, numberHint: string, d: Decimal)
    requires ToLower(textHint) == "title" || ToLower(textHint) == "rich_text"
    requires ToLower(numberHint) == "number"
    ensures var shown := ReadBack(name, BuildPropertyValueByType(textHint, JNum(d)));
      shown == JStr(DecimalToString(d)) &&
      ReadBack(name, BuildPropertyValueByType(numberHint, shown)) == JNum(Normalize(d))
  {
    TextRoundTrip(name, textHint, JNum(d));
    NumericRoundTrip(d);
    NumberRoundTrip(name, numberHint, JStr(DecimalToString(d)));
  }

  /** An integer given as its decimal string under a `number` hint reads back as that integer. */
  lemma IntegerStringRoundTrip(name: string, hint: string, n: int)
    requires ToLower(hint) == "number"
    ensures ReadBack(name, BuildPropertyValueByType(hint, JStr(IntToString(n)))) == JNum(Decimal(n, 0))
  {
    IntegerStringIsNumeric(n);
    NumberRoundTrip(name, hint, JStr(IntToString(n)));
  }

  /** Under a `checkbox` hint, a value reads back as its PHP truth value. */
  lemma CheckboxRoundTrip(name: string, hint: string, value: Json)
    requires ToLower(hint) == "checkbox"
    ensures ReadBack(name, BuildPropertyValueByType(hint, value)) == JBool(Truthy(value))
  {
    ReadSingle(name, "checkbox", JBool(Truthy(value)));
  }

  /** Under a `select` or `status` hint, a value reads back as its string form, and null as null. */
  lemma OptionRoundTrip(name: string, hint: string, value: Json)
    requires ToLower(hint) == "select" || ToLower(hint) == "status"
    ensures ReadBack(name, BuildPropertyValueByType(hint, value)) == StringOrNull(value)
  {
    var t := ToLower(hint);
    var x := if value == JNull then JNull else Single("name", JStr(ToPhpString(value)));
    ReadSingle(name, t, x);
  }

  /** Under a `url`, `email` or `phone_number` hint, a value reads back as its string form, and null as null. */
  lemma ScalarRoundTrip(name: string, hint: string, value: Json)
    requires ToLower(hint) in {"url", "email", "phone_number"}
    ensures ReadBack(name, BuildPropertyValueByType(hint, value)) == StringOrNull(value)
  {
    ReadSingle(name, ToLower(hint), StringOrNull(value));
  }

  /** The string forms of `xs` that PHP counts as true, in order. */
  function TruthyStrings(xs: seq<Json>): seq<Json>
  {
    if xs == [] then []
    else
      var s := JStr(ToPhpString(xs[0]));
      (if Truthy(s) then [s] else []) + TruthyStrings(xs[1..])
  }

  lemma {:induction false} PickedNames(xs: seq<Json>)
    ensures Picked(Name, seq(|xs|, i requires 0 <= i < |xs| => Single("name", JStr(ToPhpString(xs[i])))))
         == TruthyStrings(xs)
  {
    var items := seq(|xs|, i requires 0 <= i < |xs| => Single("name", JStr(ToPhpString(xs[i]))));
    if xs != [] {
      assert items[1..] == seq(|xs| - 1, i requires 0 <= i < |xs| - 1 => Single("name", JStr(ToPhpString(xs[1..][i]))));
      PickedNames(xs[1..]);
      assert Pick(Name, items[0]) == JStr(ToPhpString(xs[0]));
    }
  }

  /**
   * Under a `multi_select` hint, the option names read back in order, except
   * those PHP counts as false ("" and "0"), which the reader drops.
   */
  lemma MultiSelectRoundTrip(name: string, hint: string, value: Json)
    requires ToLower(hint) == "multi_select"
    ensures ReadBack(name, BuildPropertyValueByType(hint, value)) == JList(TruthyStrings(MultiSelectSources(value)))
  {
    var items := MultiSelectItems(value);
    ReadSingle(name, "multi_select", JList(items));
    PickedNames(MultiSelectSources(value));
  }

  lemma ReadText(name: string, t: string, s: string)
    requires t == "title" || t == "rich_text"
    ensures ReadBack(name, Single(t, TextObjects(s))) == JStr(s)
  {
    var fs := [("type", JStr("text")), ("text", Single("content", JStr(s)))];
    var run := JObject(fs);
    assert Get(run, "text") == Single("content", JStr(s)) by {
      assert "type"[1] != "text"[1];
      assert Lookup(fs, "text") == Lookup(fs[1..], "text");
    }
    var shownFields := fs + [("plain_text", JStr(s))];
    assert WithPlainText(run) == JObject(shownFields);
    var shown := JList([JObject(shownFields)]);
    assert Rendered(TextObjects(s)) == shown;
    ReadEnvelope(name, t, shown);
    assert Get(JObject(shownFields), "plain_text") == JStr(s) by {
      assert "type"[0] != "plain_text"[0] && "text"[0] != "plain_text"[0];
      assert Lookup(shownFields, "plain_text") == Lookup(shownFields[1..], "plain_text");
      assert Lookup(shownFields[1..], "plain_text") == Lookup(shownFields[2..], "plain_text");
    }
    assert Values(shown) == [JObject(shownFields)];
    assert ConcatPlainText([JObject(shownFields)]) == s + ConcatPlainText([]);
  }

  /** Under a `title` or `rich_text` hint, a value reads back as its string form. */
  lemma TextRoundTrip(name: string, hint: string, value: Json)
    requires ToLower(hint) == "title" || ToLower(hint) == "rich_text"
    ensures ReadBack(name, BuildPropertyValueByType(hint, value)) == JStr(ToPhpString(value))
  {
    ReadText(name, ToLower(hint), ToPhpString(value));
  }

  /**
   * Without a hint, a scalar reads back as itself: a bool as the bool, a number
   * or numeric string as its number, null as "", any other string as itself.
   */
  lemma InferredRoundTrip(name: string, value: Json)
    requires !IsArray(value)
    ensures ReadBack(name, InferPropertyValue(value)) ==
      if value.JBool? then value
      else if IsNumeric(value) then JNum(ToNumber(value))
      else if value == JNull then JStr("")
      else value
  {
    if value.JBool? {
      ReadSingle(name, "checkbox", value);
    } else if IsNumeric(value) {
      ReadSingle(name, "number", JNum(ToNumber(value)));
    } else if value == JNull {
      assert Rendered(JList([])) == JList([]);
      ReadEnvelope(name, "rich_text", JList([]));
    } else {
      ReadText(name, "rich_text", value.s);
    }
  }

  /** A date payload given as a field value is sent unchanged and reads back as its start/end pair. */
  lemma DatePassesThrough(name: string, hint: Option<string>, start: Json, end: Json)
    ensures var payload := Single("date", JObject([("start", start), ("end", end)]));
      PropertyPayload(payload, hint) == payload &&
      ReadBack(name, payload) == JObject([("start", start), ("end", end)])
  {
    var range := JObject([("start", start), ("end", end)]);
    SingleKnown("date", range);
    ReadSingle(name, "date", range);
    assert Get(range, "end") == end by {
      assert "start"[0] != "end"[0];
      assert Lookup(range.fields, "end") == Lookup(range.fields[1..], "end");
    }
  }
}
