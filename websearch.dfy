/** The web-search messages and the response wrapper: `WebSearchCall`,
    `WebSearchResult` and `WebSearchResponse`. */
module WebSearch {
  import opened Php
  import opened Messages

  // ------------------------------------------------------------ WebSearchCall

  /** The argument map the `WebSearchCall` constructor builds: `query`, then
      each optional argument assigned only when it is non-null. */
  function WebSearchArgs(query: string, userLocation: Option<Json>, model: Option<string>, effort: Option<string>): seq<Field> {
    var a0 := [Field("query", JStr(query))];
    var a1 := if userLocation.Some? then Put(a0, "user_location", userLocation.value) else a0;
    var a2 := if model.Some? then Put(a1, "model", JStr(model.value)) else a1;
    if effort.Some? then Put(a2, "effort", JStr(effort.value)) else a2
  }

  /** The conditional assignments append fresh keys, in the order written. */
  lemma WebSearchArgsSpelled(query: string, userLocation: Option<Json>, model: Option<string>, effort: Option<string>)
    ensures WebSearchArgs(query, userLocation, model, effort) ==
      [Field("query", JStr(query))] + OptField("user_location", userLocation) +
      OptField("model", OptString(model)) + OptField("effort", OptString(effort))
  {
    var a0 := [Field("query", JStr(query))];
    var u := OptField("user_location", userLocation);
    var m := OptField("model", OptString(model));
    var e := OptField("effort", OptString(effort));
    var a1 := if userLocation.Some? then Put(a0, "user_location", userLocation.value) else a0;
    var a2 := if model.Some? then Put(a1, "model", JStr(model.value)) else a1;
    var a3 := if effort.Some? then Put(a2, "effort", JStr(effort.value)) else a2;
    assert a3 == WebSearchArgs(query, userLocation, model, effort);
    GetMissing(a0, "user_location");
    GetMissing(a0, "model");
    GetMissing(a0, "effort");
    if userLocation.Some? {
      PutPosition(a0, "user_location", userLocation.value);
    }
    assert a1 == a0 + u;
    GetAppend(a0, u);
    GetOptField("user_location", userLocation, "model");
    GetOptField("user_location", userLocation, "effort");
    assert !Has(a1, "model") && !Has(a1, "effort");
    if model.Some? {
      PutPosition(a1, "model", JStr(model.value));
    }
    assert a2 == a1 + m;
    GetAppend(a1, m);
    GetOptField("model", OptString(model), "effort");
    assert !Has(a2, "effort");
    if effort.Some? {
      PutPosition(a2, "effort", JStr(effort.value));
    }
    assert a3 == a2 + e;
  }

  /** `query` is always there; `user_location`, `model` and `effort` are there
      exactly when given, with the given values. */
  lemma WebSearchArgsFields(query: string, userLocation: Option<Json>, model: Option<string>, effort: Option<string>)
    ensures Get(WebSearchArgs(query, userLocation, model, effort), "query") == Some(JStr(query))
    ensures Get(WebSearchArgs(query, userLocation, model, effort), "user_location") == userLocation
    ensures Get(WebSearchArgs(query, userLocation, model, effort), "model") == OptString(model)
    ensures Get(WebSearchArgs(query, userLocation, model, effort), "effort") == OptString(effort)
  {
    WebSearchArgsSpelled(query, userLocation, model, effort);
    var a0 := [Field("query", JStr(query))];
    var u := OptField("user_location", userLocation);
    var m := OptField("model", OptString(model));
    var e := OptField("effort", OptString(effort));
    GetMissing(a0, "user_location");
    GetMissing(a0, "model");
    GetMissing(a0, "effort");
    GetAppend(a0, u);
    GetAppend(a0 + u, m);
    GetAppend(a0 + u + m, e);
    GetOptField("user_location", userLocation, "query");
    GetOptField("user_location", userLocation, "model");
    GetOptField("user_location", userLocation, "effort");
    GetOptField("model", OptString(model), "query");
    GetOptField("model", OptString(model), "user_location");
    GetOptField("model", OptString(model), "effort");
    GetOptField("effort", OptString(effort), "query");
    GetOptField("effort", OptString(effort), "user_location");
    GetOptField("effort", OptString(effort), "model");
  }

  /** The keys come in the order written: `query`, then the given optional ones. */
  lemma WebSearchArgsOrder(query: string, userLocation: Option<Json>, model: Option<string>, effort: Option<string>)
    ensures Keys(WebSearchArgs(query, userLocation, model, effort)) ==
      ["query"] + (if userLocation.Some? then ["user_location"] else []) +
      (if model.Some? then ["model"] else []) + (if effort.Some? then ["effort"] else [])
  {
    WebSearchArgsSpelled(query, userLocation, model, effort);
    var a0 := [Field("query", JStr(query))];
    var u := OptField("user_location", userLocation);
    var m := OptField("model", OptString(model));
    var e := OptField("effort", OptString(effort));
    KeysConcat(a0, u);
    KeysConcat(a0 + u, m);
    KeysConcat(a0 + u + m, e);
  }

  /** `new WebSearchCall(...)`: a `ToolCall` named `web_search` with type
      `function` and role `assistant`. */
  function WebSearchCall(id: string, query: string, userLocation: Option<Json>, model: Option<string>, effort: Option<string>): (m: Message)
    ensures m.CallMessage? && m.call.id == id && m.call.name == "web_search"
    ensures m.call.kind == "function" && m.call.role == "assistant"
    ensures m.call.arguments == JMap(WebSearchArgs(query, userLocation, model, effort))
  {
    CallMessage(ToolCall(id, "web_search", JMap(WebSearchArgs(query, userLocation, model, effort)), "function", "assistant"))
  }

  /** `WebSearchCall::mk`: the same object as the constructor. */
  function MkWebSearchCall(id: string, query: string, userLocation: Option<Json>, model: Option<string>, effort: Option<string>): (m: Message)
    ensures m == WebSearchCall(id, query, userLocation, model, effort)
  {
    WebSearchCall(id, query, userLocation, model, effort)
  }

  // ------------------------------------------------------------ WebSearchResult

  /** The error PHP raises for the `name:` argument that `ToolResult`'s
      constructor does not declare. */
  const UnknownNameParameter := PhpError("Unknown named parameter $name")

  /** `new WebSearchResult($toolCallId, $content)`: the parent constructor is
      called with an undeclared named parameter, so no instance is ever made. */
  function NewWebSearchResult(toolCallId: string, content: Json): (r: Result<Message>)
    ensures r == Err(UnknownNameParameter)
  {
    Err(UnknownNameParameter)
  }

  /** The content `fromText` builds: `text`, overridden by any key of `extra`. */
  function FromTextContent(text: string, extra: seq<Field>): seq<Field> {
    ArrayMerge([Field("text", JStr(text))], extra)
  }

  /** The content `fromTexts` builds: the texts as a list, then the extra keys. */
  function FromTextsContent(texts: seq<string>, extra: seq<Field>): seq<Field> {
    ArrayMerge([Field("texts", JList(Strings(texts)))], extra)
  }

  lemma FromTextContentGet(text: string, extra: seq<Field>, k: string)
    requires DistinctKeys(extra)
    ensures Get(FromTextContent(text, extra), k) ==
      if Has(extra, k) then Get(extra, k) else if k == "text" then Some(JStr(text)) else None
  {
    ArrayMergeGet([Field("text", JStr(text))], extra, k);
  }

  lemma FromTextsContentGet(texts: seq<string>, extra: seq<Field>, k: string)
    requires DistinctKeys(extra)
    ensures Get(FromTextsContent(texts, extra), k) ==
      if Has(extra, k) then Get(extra, k) else if k == "texts" then Some(JList(Strings(texts))) else None
  {
    ArrayMergeGet([Field("texts", JList(Strings(texts)))], extra, k);
  }

  function FromText(toolCallId: string, text: string, extra: seq<Field>): (r: Result<Message>)
    ensures r.Err?
  {
    NewWebSearchResult(toolCallId, JMap(FromTextContent(text, extra)))
  }

  function FromTexts(toolCallId: string, texts: seq<string>, extra: seq<Field>): (r: Result<Message>)
    ensures r.Err?
  {
    NewWebSearchResult(toolCallId, JMap(FromTextsContent(texts, extra)))
  }

  // ------------------------------------------------------------ WebSearchResponse

  datatype WebSearchResponse = WebSearchResponse(
    output: Json,
    structure: Json,
    query: string,
    userLocation: Option<Json>,
    model: string,
    effort: Option<string>)

  /** `$content[0]` inside `??`: the first list element, key `0` of a map,
      nothing for a scalar; an object cannot be indexed. */
  function FirstElement(content: Json): Result<Json> {
    match content
    case JList(xs) => Ok(if xs == [] then JNull else xs[0])
    case JMap(fs) => Ok(Get(fs, "0").GetOr(JNull))
    case JObj(_) => Err(PhpError("Cannot use object of type stdClass as array"))
    case _ => Ok(JNull)
  }

  /** `tryGetFirstText`: `output.content[0].text`, or null; a non-string text
      goes through the `?string` return type. */
  function TryGetFirstText(r: WebSearchResponse): (t: Result<Option<string>>)
    ensures (Prop(r.output, "content").JList? && |Prop(r.output, "content").elems| > 0 &&
             Prop(Prop(r.output, "content").elems[0], "text").JStr?) ==>
      t == Ok(Some(Prop(Prop(r.output, "content").elems[0], "text").s))
    ensures Prop(r.output, "content").JNull? ==> t == Ok(None)
  {
    var first :- FirstElement(Prop(r.output, "content"));
    var text := Prop(first, "text");
    if text.JNull? then Ok(None)
    else
      var s :- CoerceToString(text);
      Ok(Some(s))
  }

  /** `getFirstText`. */
  function GetFirstText(r: WebSearchResponse): (t: Result<string>)
    ensures TryGetFirstText(r) == Ok(None) ==> t == Err(Runtime("No text found in response"))
    ensures TryGetFirstText(r).Ok? && TryGetFirstText(r).value.Some? ==> t == Ok(TryGetFirstText(r).value.value)
  {
    var text :- TryGetFirstText(r);
    if text.None? then Err(Runtime("No text found in response")) else Ok(text.value)
  }

  /** The string `text` properties of the items, in order. */
  function TextsOf(items: seq<Json>): seq<string>
    decreases |items|
  {
    if items == [] then []
    else
      var item := items[|items| - 1];
      TextsOf(items[..|items| - 1]) +
        (if item.JObj? && Has(item.props, "text") && Get(item.props, "text").value.JStr?
         then [Get(item.props, "text").value.s] else [])
  }

  predicate HasTextString(item: Json) {
    item.JObj? && Has(item.props, "text") && Get(item.props, "text").value.JStr?
  }

  /** Collecting over a concatenation keeps the order of both parts. */
  lemma {:induction false} TextsOfConcat(a: seq<Json>, b: seq<Json>)
    ensures TextsOf(a + b) == TextsOf(a) + TextsOf(b)
    decreases |b|
  {
    if b != [] {
      var n := |b| - 1;
      assert (a + b)[..|a + b| - 1] == a + b[..n];
      TextsOfConcat(a, b[..n]);
    } else {
      assert a + b == a;
    }
  }

  /** At most one text per item. */
  lemma {:induction false} TextsOfLength(items: seq<Json>)
    ensures |TextsOf(items)| <= |items|
    decreases |items|
  {
    if items != [] {
      TextsOfLength(items[..|items| - 1]);
    }
  }

  /** Every text collected is the string `text` of some item. */
  lemma {:induction false} TextsOfFrom(items: seq<Json>, t: string)
    requires t in TextsOf(items)
    ensures exists i :: 0 <= i < |items| && HasTextString(items[i]) && Get(items[i].props, "text").value == JStr(t)
    decreases |items|
  {
    var n := |items| - 1;
    if t in TextsOf(items[..n]) {
      TextsOfFrom(items[..n], t);
      var i :| 0 <= i < |items[..n]| && HasTextString(items[..n][i]) && Get(items[..n][i].props, "text").value == JStr(t);
      assert items[..n][i] == items[i];
    } else {
      assert HasTextString(items[n]) && Get(items[n].props, "text").value == JStr(t);
    }
  }

  /** When every item has a string `text`, each one is collected, in item order. */
  lemma {:induction false} TextsOfAll(items: seq<Json>)
    requires forall i :: 0 <= i < |items| ==> HasTextString(items[i])
    ensures |TextsOf(items)| == |items|
    ensures forall i :: 0 <= i < |items| ==>
      HasTextString(items[i]) && JStr(TextsOf(items)[i]) == Get(items[i].props, "text").value
    decreases |items|
  {
    if items != [] {
      var n := |items| - 1;
      assert forall i :: 0 <= i < n ==> items[..n][i] == items[i];
      TextsOfAll(items[..n]);
    }
  }

  /** `getTexts`: over `output.content`, nothing when it is missing or not an array. */
  function GetTexts(r: WebSearchResponse): (ts: seq<string>)
    ensures !IsArray(Coalesce(Prop(r.output, "content"), JList([]))) ==> ts == []
  {
    var items := Coalesce(Prop(r.output, "content"), JList([]));
    if IsArray(items) then TextsOf(ArrayValues(items)) else []
  }

  /** The loop of `getTexts`. */
  method CollectTexts(r: WebSearchResponse) returns (texts: seq<string>)
    ensures texts == GetTexts(r)
  {
    texts := [];
    var items := Coalesce(Prop(r.output, "content"), JList([]));
    if IsArray(items) {
      var values := ArrayValues(items);
      var i := 0;
      while i < |values|
        invariant 0 <= i <= |values|
        invariant texts == TextsOf(values[..i])
      {
        assert values[..i + 1][..i] == values[..i];
        var item := values[i];
        if item.JObj? && Has(item.props, "text") && Get(item.props, "text").value.JStr? {
          texts := texts + [Get(item.props, "text").value.s];
        }
        i := i + 1;
      }
      assert values[..i] == values;
    }
  }

  /** `getWebSearchCall($id)` with an explicit id (the generated-id variant
      depends on a clock and a hash). */
  function GetWebSearchCall(r: WebSearchResponse, id: string): (m: Message)
    ensures m == WebSearchCall(id, r.query, r.userLocation, Some(r.model), r.effort)
  {
    WebSearchCall(id, r.query, r.userLocation, Some(r.model), r.effort)
  }

  /** The `$extra` map of `getWebSearchResult`. */
  function ResultExtra(r: WebSearchResponse, texts: seq<string>): seq<Field> {
    [Field("texts", JList(Strings(texts))), Field("query", JStr(r.query)), Field("model", JStr(r.model)),
     Field("effort", OptString(r.effort).GetOr(JNull)), Field("user_location", r.userLocation.GetOr(JNull))]
  }

  /** The content `getWebSearchResult` hands to `fromText`: the first text, the
      collected texts, and the query, model, effort and location it was made with. */
  lemma ResultContentFields(r: WebSearchResponse, text: string)
    ensures Get(FromTextContent(text, ResultExtra(r, GetTexts(r))), "text") == Some(JStr(text))
    ensures Get(FromTextContent(text, ResultExtra(r, GetTexts(r))), "texts") == Some(JList(Strings(GetTexts(r))))
    ensures Get(FromTextContent(text, ResultExtra(r, GetTexts(r))), "query") == Some(JStr(r.query))
    ensures Get(FromTextContent(text, ResultExtra(r, GetTexts(r))), "model") == Some(JStr(r.model))
    ensures Get(FromTextContent(text, ResultExtra(r, GetTexts(r))), "effort") == Some(OptString(r.effort).GetOr(JNull))
    ensures Get(FromTextContent(text, ResultExtra(r, GetTexts(r))), "user_location") == Some(r.userLocation.GetOr(JNull))
  {
    var extra := ResultExtra(r, GetTexts(r));
    assert DistinctKeys(extra);
    GetMissing(extra, "text");
    GetAt(extra, 0);
    GetAt(extra, 1);
    GetAt(extra, 2);
    GetAt(extra, 3);
    GetAt(extra, 4);
    FromTextContentGet(text, extra, "text");
    FromTextContentGet(text, extra, "texts");
    FromTextContentGet(text, extra, "query");
    FromTextContentGet(text, extra, "model");
    FromTextContentGet(text, extra, "effort");
    FromTextContentGet(text, extra, "user_location");
  }

  /** `getWebSearchResult`: without a first text it throws 'No text found in
      response'; with one, `fromText` cannot construct its result. */
  function GetWebSearchResult(r: WebSearchResponse, toolCallId: string): (m: Result<Message>)
    ensures m.Err?
    ensures GetFirstText(r).Err? ==> m == Err(GetFirstText(r).error)
    ensures GetFirstText(r).Ok? ==> m == Err(UnknownNameParameter)
  {
    var extra := ResultExtra(r, GetTexts(r));
    var text :- GetFirstText(r);
    FromText(toolCallId, text, extra)
  }
}
