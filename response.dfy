/** Reading one reply of the Responses API (`ChatGPT::chat` after the HTTP
    round trip): the error envelope, the text parts and tool calls of the
    output items in order, the plain or schema-validated result, and the
    enhanced context that appends the choice and the results of the
    callable tools. */
module Response {
  import opened Php
  import opened Invoker
  import opened Functions
  import opened Messages

  const Incomplete := "Invalid or incomplete response from OpenAI."
  const Invalid := "Invalid response from OpenAI."

  // ---------------------------------------------------------------- text parts

  /** `normalizeTextValue`: a string as it is, the `value` of an object cast
      to a string, anything else no text. */
  function NormalizeTextValue(t: Json): (r: Result<Option<string>>)
    ensures t.JStr? ==> r == Ok(Some(t.s))
    ensures r.Ok? && r.value.Some? ==> t.JStr? || (t.JObj? && Isset(t.props, "value"))
    ensures r.Err? ==> t.JObj? && Prop(t, "value").JObj?
  {
    if t.JStr? then Ok(Some(t.s))
    else if t.JObj? && Isset(t.props, "value") then
      var s :- CastToString(Prop(t, "value"));
      Ok(Some(s))
    else Ok(None)
  }

  function OptList(o: Option<string>): seq<string> {
    if o.Some? then [o.value] else []
  }

  /** The text of one content part: only an object with a `text` carries one. */
  function PartText(part: Json): Result<Option<string>> {
    if part.JObj? && Isset(part.props, "text") then NormalizeTextValue(Prop(part, "text")) else Ok(None)
  }

  /** The loop over the content parts of a message, up to the first failure. */
  function PartTexts(parts: seq<Json>): (r: Result<seq<string>>)
    ensures r.Ok? ==> |r.value| <= |parts|
    decreases |parts|
  {
    if parts == [] then Ok([])
    else
      var prev :- PartTexts(parts[..|parts| - 1]);
      var t :- PartText(parts[|parts| - 1]);
      Ok(prev + OptList(t))
  }

  /** `extractTextFromMessageOutput`: a string content is one part; an array
      content gives the texts of its parts; anything else gives none. */
  function ExtractText(message: Json): (r: Result<seq<string>>) {
    var content := Prop(message, "content");
    if content.JStr? then Ok([content.s])
    else if IsArray(content) then PartTexts(ArrayValues(content))
    else Ok([])
  }

  /** Parts whose `text` is a string contribute exactly those strings, in order. */
  lemma {:induction false} PartTextsStrings(parts: seq<Json>, texts: seq<string>)
    requires |texts| == |parts|
    requires forall i :: 0 <= i < |parts| ==> parts[i].JObj? && Get(parts[i].props, "text") == Some(JStr(texts[i]))
    ensures PartTexts(parts) == Ok(texts)
    decreases |parts|
  {
    if parts != [] {
      var n := |parts| - 1;
      PartTextsStrings(parts[..n], texts[..n]);
      assert texts == texts[..n] + [texts[n]];
    }
  }

  /** The parts fail exactly when one part's text is an object that cannot
      be cast, and then with that part's error. */
  lemma {:induction false} PartTextsErr(parts: seq<Json>)
    ensures PartTexts(parts).Ok? <==> forall i :: 0 <= i < |parts| ==> PartText(parts[i]).Ok?
    decreases |parts|
  {
    if parts != [] {
      var n := |parts| - 1;
      PartTextsErr(parts[..n]);
      assert forall i :: 0 <= i < n ==> parts[..n][i] == parts[i];
    }
  }

  // ---------------------------------------------------------------- tool calls

  /** `normalizeToolArguments`: a string is decoded, an object kept, an array
      re-encoded and decoded; the outcome must be an object. */
  function NormalizeToolArguments(h: Host, raw: Json): (r: Result<Json>)
    ensures r.Ok? ==> r.value.JObj?
    ensures raw.JObj? ==> r == Ok(raw)
    ensures raw.JStr? ==> (r.Ok? <==> h.parse(raw.s).Some? && h.parse(raw.s).value.JObj?)
    ensures raw.JStr? && r.Ok? ==> r.value == h.parse(raw.s).value
    ensures (raw.JNull? || raw.JBool? || raw.JInt? || raw.JFloat?) ==> r == Err(InvalidResponse(Incomplete))
  {
    var parsed :- if raw.JStr? then ParseJson(h, raw.s)
                  else if raw.JObj? then Ok(raw)
                  else if IsArray(raw) then ParseJson(h, h.stringify(raw))
                  else Err(InvalidResponse(Incomplete));
    if parsed.JObj? then Ok(parsed) else Err(InvalidResponse(Incomplete))
  }

  /** `$toolCall->function->name ?? $toolCall->name ?? null` */
  function CallName(tc: Json): Json {
    Coalesce(Prop(Prop(tc, "function"), "name"), Prop(tc, "name"))
  }

  /** `$toolCall->function->arguments ?? $toolCall->arguments ?? null` */
  function CallArguments(tc: Json): Json {
    Coalesce(Prop(Prop(tc, "function"), "arguments"), Prop(tc, "arguments"))
  }

  /** `$toolCall->call_id ?? $toolCall->id ?? null` */
  function CallId(tc: Json): Json {
    Coalesce(Prop(tc, "call_id"), Prop(tc, "id"))
  }

  /** `mapToolCallToResult`: the parameter is declared `object`; name,
      arguments and id must all be found; the id and the name are passed
      where strings are declared. The result carries its own tool call
      message with the same id, name and arguments. */
  function MapToolCall(h: Host, tc: Json): (r: Result<FuncCallResult>)
    ensures r.Ok? ==> tc.JObj? && r.value.arguments.JObj?
    ensures r.Ok? ==> r.value.toolCallMessage == NewToolCall(r.value.id, r.value.functionName, r.value.arguments)
    ensures r.Ok? ==> CoerceToString(CallId(tc)) == Ok(r.value.id) && CoerceToString(CallName(tc)) == Ok(r.value.functionName)
    ensures r.Ok? ==> NormalizeToolArguments(h, CallArguments(tc)) == Ok(r.value.arguments)
    ensures tc.JObj? && (CallName(tc).JNull? || CallArguments(tc).JNull? || CallId(tc).JNull?) ==>
      r == Err(InvalidResponse(Incomplete))
  {
    if !tc.JObj? then Err(PhpError("TypeError: an object was expected"))
    else
      var name := CallName(tc);
      var rawArguments := CallArguments(tc);
      var id := CallId(tc);
      if name.JNull? || rawArguments.JNull? || id.JNull? then Err(InvalidResponse(Incomplete))
      else
        var arguments :- NormalizeToolArguments(h, rawArguments);
        var idText :- CoerceToString(id);
        var nameText :- CoerceToString(name);
        Ok(NewFuncCallResult(idText, nameText, arguments))
  }

  /** The nested `function` object wins over the top-level fields, and
      `call_id` over `id`. */
  lemma CallFieldsPreferred(tc: Json, name: string, arguments: Json, id: string)
    requires tc.JObj?
    requires Prop(tc, "function") == JObj([Field("name", JStr(name)), Field("arguments", arguments)])
    requires !arguments.JNull?
    requires Get(tc.props, "call_id") == Some(JStr(id))
    ensures CallName(tc) == JStr(name) && CallArguments(tc) == arguments && CallId(tc) == JStr(id)
  {
    var f := Prop(tc, "function");
    GetAt(f.props, 0);
    GetAt(f.props, 1);
  }

  /** A Responses API `function_call` item with string arguments that decode
      to an object. */
  lemma MapFunctionCallItem(h: Host, callId: string, name: string, arguments: string, decoded: seq<Field>)
    requires h.parse(arguments) == Some(JObj(decoded))
    ensures MapToolCall(h, JObj([Field("type", JStr("function_call")), Field("call_id", JStr(callId)),
                                 Field("name", JStr(name)), Field("arguments", JStr(arguments))])) ==
            Ok(NewFuncCallResult(callId, name, JObj(decoded)))
  {
    var tc := JObj([Field("type", JStr("function_call")), Field("call_id", JStr(callId)),
                    Field("name", JStr(name)), Field("arguments", JStr(arguments))]);
    GetMissing(tc.props, "function");
    GetAt(tc.props, 1);
    GetAt(tc.props, 2);
    GetAt(tc.props, 3);
  }

  /** The loop over `tool_calls`, up to the first failure. */
  function MapToolCalls(h: Host, tcs: seq<Json>): (r: Result<seq<FuncCallResult>>)
    ensures r.Ok? ==> |r.value| == |tcs|
    ensures r.Ok? ==> forall i :: 0 <= i < |tcs| ==> MapToolCall(h, tcs[i]) == Ok(r.value[i])
    decreases |tcs|
  {
    if tcs == [] then Ok([])
    else
      var prev :- MapToolCalls(h, tcs[..|tcs| - 1]);
      var call :- MapToolCall(h, tcs[|tcs| - 1]);
      Ok(prev + [call])
  }

  // ---------------------------------------------------------------- output items

  /** What the reply's output items contributed so far. */
  datatype Collected = Collected(parts: seq<string>, tools: seq<FuncCallResult>)

  function Join(a: Collected, b: Collected): Collected {
    Collected(a.parts + b.parts, a.tools + b.tools)
  }

  /** The contribution of one output item, by its `type`: a message gives its
      texts and then its nested tool calls; a `function_call` or `tool_call`
      item gives one call; an `output_text` item with a text gives that text;
      anything else gives nothing. */
  function ItemOutput(h: Host, item: Json): Result<Collected> {
    var kind := Prop(item, "type");
    if kind == JStr("message") then
      var texts :- ExtractText(item);
      var calls :- MapToolCalls(h, IterValues(Coalesce(Prop(item, "tool_calls"), JList([]))));
      Ok(Collected(texts, calls))
    else if kind == JStr("function_call") || kind == JStr("tool_call") then
      var call :- MapToolCall(h, item);
      Ok(Collected([], [call]))
    else if kind == JStr("output_text") && Prop(item, "text") != JNull then
      var text :- NormalizeTextValue(Prop(item, "text"));
      Ok(Collected(OptList(text), []))
    else Ok(Collected([], []))
  }

  /** The contribution of each output item, in order. */
  function Outputs(h: Host, items: seq<Json>): (r: seq<Result<Collected>>)
    ensures |r| == |items| && forall i :: 0 <= i < |items| ==> r[i] == ItemOutput(h, items[i])
  {
    seq(|items|, i requires 0 <= i < |items| => ItemOutput(h, items[i]))
  }

  /** The contributions joined in order, up to the first failure. */
  function Fold(outs: seq<Result<Collected>>): Result<Collected>
    decreases |outs|
  {
    if outs == [] then Ok(Collected([], []))
    else
      var prev :- Fold(outs[..|outs| - 1]);
      var c :- outs[|outs| - 1];
      Ok(Join(prev, c))
  }

  /** The loop over the output items. */
  function CollectItems(h: Host, items: seq<Json>): Result<Collected> {
    Fold(Outputs(h, items))
  }

  /** Partial results of two runs of output items, joined in order. */
  function JoinResults(a: Result<Collected>, b: Result<Collected>): Result<Collected> {
    var x :- a;
    var y :- b;
    Ok(Join(x, y))
  }

  lemma {:induction false} FoldConcat(a: seq<Result<Collected>>, b: seq<Result<Collected>>)
    ensures Fold(a + b) == JoinResults(Fold(a), Fold(b))
    decreases |b|
  {
    if b == [] {
      assert a + b == a;
      if Fold(a).Ok? {
        var x := Fold(a).value;
        assert Join(x, Collected([], [])) == x;
      }
    } else {
      var n := |b| - 1;
      assert (a + b)[..|a + b| - 1] == a + b[..n];
      assert (a + b)[|a + b| - 1] == b[n];
      FoldConcat(a, b[..n]);
      if Fold(a).Ok? && Fold(b[..n]).Ok? && b[n].Ok? {
        var x, y, z := Fold(a).value, Fold(b[..n]).value, b[n].value;
        assert Join(Join(x, y), z) == Join(x, Join(y, z));
      }
    }
  }

  /** Collection is in output order: the items of `a ++ b` contribute what
      `a`'s do, followed by what `b`'s do; the first failure wins. */
  lemma CollectConcat(h: Host, a: seq<Json>, b: seq<Json>)
    ensures CollectItems(h, a + b) == JoinResults(CollectItems(h, a), CollectItems(h, b))
  {
    var oa, ob := Outputs(h, a), Outputs(h, b);
    assert Outputs(h, a + b) == oa + ob by {
      forall i | 0 <= i < |a + b|
        ensures Outputs(h, a + b)[i] == (oa + ob)[i]
      {
        if i < |a| {
          assert (a + b)[i] == a[i];
        } else {
          assert (a + b)[i] == b[i - |a|];
        }
      }
    }
    FoldConcat(oa, ob);
  }

  /** One item contributes what `ItemOutput` says. */
  lemma CollectSingle(h: Host, item: Json)
    ensures CollectItems(h, [item]) == JoinResults(Ok(Collected([], [])), ItemOutput(h, item))
  {
    var outs := Outputs(h, [item]);
    assert outs == [ItemOutput(h, item)];
    assert outs[..0] == [];
    assert Fold(outs[..0]) == Ok(Collected([], []));
  }

  lemma {:induction false} FoldErr(outs: seq<Result<Collected>>)
    ensures Fold(outs).Ok? <==> forall i :: 0 <= i < |outs| ==> outs[i].Ok?
    decreases |outs|
  {
    if outs != [] {
      var n := |outs| - 1;
      FoldErr(outs[..n]);
      assert forall i :: 0 <= i < n ==> outs[..n][i] == outs[i];
    }
  }

  /** The loop fails exactly when one item fails. */
  lemma CollectErr(h: Host, items: seq<Json>)
    ensures CollectItems(h, items).Ok? <==> forall i :: 0 <= i < |items| ==> ItemOutput(h, items[i]).Ok?
  {
    FoldErr(Outputs(h, items));
  }

  /** Contributions with no text and one tool call each give those calls in order. */
  lemma {:induction false} FoldCalls(outs: seq<Result<Collected>>)
    requires forall i :: 0 <= i < |outs| ==> outs[i].Ok? && outs[i].value.parts == [] && |outs[i].value.tools| == 1
    ensures Fold(outs).Ok? && Fold(outs).value.parts == [] && |Fold(outs).value.tools| == |outs|
    ensures forall i :: 0 <= i < |outs| ==> Fold(outs).value.tools[i] == outs[i].value.tools[0]
    decreases |outs|
  {
    if outs != [] {
      var n := |outs| - 1;
      var front := outs[..n];
      assert forall i :: 0 <= i < n ==> front[i] == outs[i];
      FoldCalls(front);
      var prev, c := Fold(front).value, outs[n].value;
      assert Fold(outs) == Ok(Join(prev, c));
      var tools := prev.tools + c.tools;
      forall i | 0 <= i < |outs|
        ensures tools[i] == outs[i].value.tools[0]
      {
        if i < n {
          assert tools[i] == prev.tools[i] == front[i].value.tools[0];
        }
      }
    }
  }

  /** A reply made only of `function_call` items that all map gives one tool
      call per item, in order, and no text. */
  lemma CollectCalls(h: Host, items: seq<Json>)
    requires forall i :: 0 <= i < |items| ==> Prop(items[i], "type") == JStr("function_call") && MapToolCall(h, items[i]).Ok?
    ensures CollectItems(h, items).Ok?
    ensures CollectItems(h, items).value.parts == []
    ensures |CollectItems(h, items).value.tools| == |items|
    ensures forall i :: 0 <= i < |items| ==> MapToolCall(h, items[i]) == Ok(CollectItems(h, items).value.tools[i])
  {
    var outs := Outputs(h, items);
    assert forall i :: 0 <= i < |items| ==> outs[i] == Ok(Collected([], [MapToolCall(h, items[i]).value]));
    FoldCalls(outs);
  }

  /** If the first `k` contributions already fail, the whole fold fails the same way. */
  lemma {:induction false} FoldPrefixErr(outs: seq<Result<Collected>>, k: nat)
    requires k <= |outs|
    requires Fold(outs[..k]).Err?
    ensures Fold(outs) == Fold(outs[..k])
    decreases |outs| - k
  {
    if k < |outs| {
      var n := |outs| - 1;
      assert outs[..n][..k] == outs[..k];
      FoldPrefixErr(outs[..n], k);
    } else {
      assert outs[..k] == outs;
    }
  }

  /** The `foreach` over the output items, stopping at the first exception. */
  method CollectOutput(h: Host, items: seq<Json>) returns (r: Result<Collected>)
    ensures r == CollectItems(h, items)
  {
    ghost var outs := Outputs(h, items);
    var parts: seq<string> := [];
    var tools: seq<FuncCallResult> := [];
    var i := 0;
    while i < |items|
      invariant 0 <= i <= |items|
      invariant Fold(outs[..i]) == Ok(Collected(parts, tools))
    {
      assert outs[..i + 1][..i] == outs[..i];
      var c := ItemOutput(h, items[i]);
      if c.Err? {
        FoldPrefixErr(outs, i + 1);
        return Err(c.error);
      }
      parts := parts + c.value.parts;
      tools := tools + c.value.tools;
      i := i + 1;
    }
    assert outs[..i] == outs;
    return Ok(Collected(parts, tools));
  }

  // ---------------------------------------------------------------- the message

  /** `array_map(fn($t) => (string) $t, ...)` */
  function CastAll(vs: seq<Json>): (r: Result<seq<string>>)
    ensures r.Ok? <==> forall i :: 0 <= i < |vs| ==> CastToString(vs[i]).Ok?
    ensures r.Ok? ==> |r.value| == |vs| && forall i :: 0 <= i < |vs| ==> CastToString(vs[i]) == Ok(r.value[i])
    decreases |vs|
  {
    if vs == [] then Ok([])
    else
      var prev :- CastAll(vs[..|vs| - 1]);
      var s :- CastToString(vs[|vs| - 1]);
      Ok(prev + [s])
  }

  predicate HasOutputText(data: Json) {
    data.JObj? && Isset(data.props, "output_text")
  }

  /** Only when the items gave no text, the root `output_text` is used: every
      element of an array cast to a string, or a string as the one part. */
  function Fallback(parts: seq<string>, data: Json): (r: Result<seq<string>>)
    ensures parts != [] ==> r == Ok(parts)
    ensures !HasOutputText(data) ==> r == Ok(parts)
    ensures parts == [] && Prop(data, "output_text").JStr? ==> r == Ok([Prop(data, "output_text").s])
    ensures parts == [] && IsArray(Prop(data, "output_text")) ==> r == CastAll(ArrayValues(Prop(data, "output_text")))
  {
    if parts == [] && HasOutputText(data) then
      var t := Prop(data, "output_text");
      if IsArray(t) then CastAll(ArrayValues(t))
      else if t.JStr? then Ok([t.s])
      else Ok(parts)
    else Ok(parts)
  }

  /** No parts, no message; otherwise the non-empty parts joined by newlines
      and trimmed. */
  function MessageOf(parts: seq<string>): (m: Option<string>)
    ensures m.None? <==> parts == []
  {
    if |parts| == 0 then None else Some(Trim(Implode("\n", NonEmpty(parts))))
  }

  /** A single part is the message, trimmed. */
  lemma MessageOfSingle(s: string)
    ensures MessageOf([s]) == Some(Trim(s))
  {
    if s == "" {
      assert NonEmpty([""]) == [];
    } else {
      assert NonEmpty([s]) == [s] + NonEmpty([]);
    }
  }

  /** Parts that are all empty give the empty message, not no message. */
  lemma {:induction false} MessageOfBlank(parts: seq<string>)
    requires parts != []
    requires forall i :: 0 <= i < |parts| ==> parts[i] == ""
    ensures MessageOf(parts) == Some("")
  {
    BlankParts(parts);
  }

  lemma {:induction false} BlankParts(parts: seq<string>)
    requires forall i :: 0 <= i < |parts| ==> parts[i] == ""
    ensures NonEmpty(parts) == []
  {
    if parts != [] {
      BlankParts(parts[1..]);
    }
  }

  /** With a response format, the message is decoded and must pass the
      validator against the format's `json_schema` entry; without one it is
      the text itself. */
  function StructuredResult(h: Host, message: Option<string>, format: Option<JsonSchemaFormat>): (r: Result<Json>)
    ensures message.None? ==> r == Ok(JNull)
    ensures message.Some? && format.None? ==> r == Ok(JStr(message.value))
    ensures r.Err? ==> (message.Some? && format.Some? &&
      (r.error == JsonError || r.error == InvalidResponse(Invalid)))
    ensures message.Some? && format.Some? && r.Ok? ==>
      h.parse(message.value) == Some(r.value) &&
      h.validate(r.value, Idx(FormatJson(format.value), "json_schema"))
  {
    if message.None? then Ok(JNull)
    else if format.None? then Ok(JStr(message.value))
    else
      var decoded :- ParseJson(h, message.value);
      if h.validate(decoded, Idx(FormatJson(format.value), "json_schema")) then Ok(decoded)
      else Err(InvalidResponse(Invalid))
  }

  /** The validator sees the inner `json_schema` of the format: name
      `Response`, the schema and the strict flag. */
  lemma ValidatedSchema(f: JsonSchemaFormat)
    ensures Idx(Idx(FormatJson(f), "json_schema"), "schema") == JMap(f.schema)
    ensures Idx(Idx(FormatJson(f), "json_schema"), "name") == JStr("Response")
    ensures Idx(Idx(FormatJson(f), "json_schema"), "strict") == JBool(f.strict)
  {
    FormatJsonFields(f);
  }

  /** Passing the message where `null|string|object` is declared: numbers
      and booleans become strings, arrays are refused. */
  function TypedResult(m: Json): (r: Result<Json>)
    ensures (m.JNull? || m.JStr? || m.JObj?) ==> r == Ok(m)
    ensures IsArray(m) <==> r.Err?
    ensures r.Ok? ==> r.value.JNull? || r.value.JStr? || r.value.JObj?
    ensures r.Ok? && r.value.JNull? ==> m.JNull?
  {
    if IsArray(m) then Err(PhpError("TypeError: null|string|object was expected"))
    else if m.JNull? || m.JStr? || m.JObj? then Ok(m)
    else
      var s :- CoerceToString(m);
      Ok(JStr(s))
  }

  function TextOf(m: Json): Option<string> {
    if m.JStr? then Some(m.s) else None
  }

  function ObjectOf(m: Json): Option<Json> {
    if m.JObj? then Some(m) else None
  }

  /** `is_string` and `is_object` are asked of the decoded answer before it
      is coerced: a number or boolean answer becomes a string result that has
      neither a `textResult` nor an `objResult`. */
  lemma CoercedResultHasNoText(m: Json)
    requires m.JInt? || m.JBool? || m.JFloat?
    ensures CoerceToString(m).Ok? && TypedResult(m) == Ok(JStr(CoerceToString(m).value))
    ensures TextOf(m).None? && ObjectOf(m).None?
  {
  }

  // ---------------------------------------------------------------- tool results

  /** The fields a decoded argument object offers to the invoker. */
  function ArgumentFields(arguments: Json): seq<Field> {
    if arguments.JObj? then arguments.props else []
  }

  /** The outcome of answering one tool call: none when its function has no
      callable, else the callable invoked with the decoded arguments. */
  function CallTool(g: GPTFunctions, tool: FuncCallResult): (r: Option<Result<Json>>)
    requires g.callableMap == CallableMapOf(g.functions)
    ensures r.None? <==> !exists i :: 0 <= i < |g.functions| && g.functions[i].CallableFunction? &&
                                     g.functions[i].name == tool.functionName
  {
    match GetCallable(g, tool.functionName)
    case None => None
    case Some(c) => Some(Invoke(c, ArgumentFields(tool.arguments)))
  }

  /** The loop over the tool calls: a tool whose function has a callable is
      invoked with its arguments and its result becomes a `ToolResult`; the
      others are skipped. */
  function ToolResults(g: GPTFunctions, tools: seq<FuncCallResult>): (r: Result<seq<Message>>)
    requires g.callableMap == CallableMapOf(g.functions)
    ensures r.Ok? ==> |r.value| <= |tools|
    decreases |tools|
  {
    if tools == [] then Ok([])
    else
      var prev :- ToolResults(g, tools[..|tools| - 1]);
      var tool := tools[|tools| - 1];
      match CallTool(g, tool)
      case None => Ok(prev)
      case Some(outcome) =>
        var value :- outcome;
        Ok(prev + [NewToolResult(tool.id, value)])
  }

  /** When no tool has a callable, nothing is invoked and nothing added. */
  lemma {:induction false} ToolResultsNone(g: GPTFunctions, tools: seq<FuncCallResult>)
    requires g.callableMap == CallableMapOf(g.functions)
    requires forall i :: 0 <= i < |tools| ==> CallTool(g, tools[i]).None?
    ensures ToolResults(g, tools) == Ok([])
    decreases |tools|
  {
    if tools != [] {
      ToolResultsNone(g, tools[..|tools| - 1]);
    }
  }

  /** When every tool has a callable that accepts its arguments, there is one
      result per tool, in order, answering that tool's id with what its
      callable returned. */
  lemma {:induction false} ToolResultsAll(g: GPTFunctions, tools: seq<FuncCallResult>)
    requires g.callableMap == CallableMapOf(g.functions)
    requires forall i :: 0 <= i < |tools| ==> CallTool(g, tools[i]).Some? && CallTool(g, tools[i]).value.Ok?
    ensures ToolResults(g, tools).Ok?
    ensures |ToolResults(g, tools).value| == |tools|
    ensures forall i :: 0 <= i < |tools| ==>
      ToolResults(g, tools).value[i] == NewToolResult(tools[i].id, CallTool(g, tools[i]).value.value)
    decreases |tools|
  {
    if tools != [] {
      var n := |tools| - 1;
      assert forall i :: 0 <= i < n ==> tools[..n][i] == tools[i];
      ToolResultsAll(g, tools[..n]);
    }
  }

  /** A callable that misses a required argument stops the loop with that error. */
  lemma ToolResultsMissing(g: GPTFunctions, tools: seq<FuncCallResult>)
    requires g.callableMap == CallableMapOf(g.functions)
    requires |tools| > 0 && ToolResults(g, tools[..|tools| - 1]).Ok?
    requires CallTool(g, tools[|tools| - 1]).Some? && CallTool(g, tools[|tools| - 1]).value.Err?
    ensures ToolResults(g, tools).Err?
    ensures exists name :: ToolResults(g, tools).error == MissingArgument(name)
  {
    var c := GetCallable(g, tools[|tools| - 1].functionName).value;
    BindErrIff(c.params, ArgumentFields(tools[|tools| - 1].arguments));
  }

  /** If the first `k` tools already fail, the whole loop fails the same way. */
  lemma {:induction false} ToolResultsPrefixErr(g: GPTFunctions, tools: seq<FuncCallResult>, k: nat)
    requires g.callableMap == CallableMapOf(g.functions)
    requires k <= |tools| && ToolResults(g, tools[..k]).Err?
    ensures ToolResults(g, tools) == ToolResults(g, tools[..k])
    decreases |tools| - k
  {
    if k < |tools| {
      var n := |tools| - 1;
      assert tools[..n][..k] == tools[..k];
      ToolResultsPrefixErr(g, tools[..n], k);
    } else {
      assert tools[..k] == tools;
    }
  }

  /** The `foreach` of `chat` over the tool calls. */
  method AnswerTools(g: GPTFunctions, tools: seq<FuncCallResult>) returns (r: Result<seq<Message>>)
    requires g.callableMap == CallableMapOf(g.functions)
    ensures r == ToolResults(g, tools)
  {
    var out: seq<Message> := [];
    var i := 0;
    while i < |tools|
      invariant 0 <= i <= |tools|
      invariant ToolResults(g, tools[..i]) == Ok(out)
    {
      assert tools[..i + 1][..i] == tools[..i];
      var callable := GetCallable(g, tools[i].functionName);
      if callable.Some? {
        var value := InvokeCallable(callable.value, ArgumentFields(tools[i].arguments));
        if value.Err? {
          ToolResultsPrefixErr(g, tools, i + 1);
          return Err(value.error);
        }
        out := out + [NewToolResult(tools[i].id, value.value)];
      }
      i := i + 1;
    }
    assert tools[..i] == tools;
    return Ok(out);
  }

  // ---------------------------------------------------------------- the reply

  /** The checks on the decoded reply before its items are read: a string is
      an error message; a truthy `error` is reported with its `message`
      (`Unknown error` without one); `output` (default `[]`) is counted, so
      it must be an array; an empty output without a root `output_text` is no
      response. The outcome is the list of output items. */
  function Envelope(data: Json): (r: Result<seq<Json>>)
    ensures data.JStr? ==> r == Err(InvalidResponse(data.s))
    ensures r.Ok? ==> |r.value| > 0 || HasOutputText(data)
  {
    if data.JStr? then Err(InvalidResponse(data.s))
    else if Truthy(Prop(data, "error")) then
      var m :- CoerceToString(Coalesce(Prop(Prop(data, "error"), "message"), JStr("Unknown error")));
      Err(InvalidResponse(m))
    else
      var output := Coalesce(Prop(data, "output"), JList([]));
      if !IsArray(output) then Err(PhpError("TypeError: count(): Argument #1 must be of type Countable|array"))
      else if |ArrayValues(output)| == 0 && !HasOutputText(data) then Err(NoResponseFromAPI(Incomplete))
      else Ok(ArrayValues(output))
  }

  /** The error envelope of the API reports its message. */
  lemma EnvelopeErrorMessage(props: seq<Field>, error: seq<Field>, m: string)
    requires Get(props, "error") == Some(JObj(error)) && Get(error, "message") == Some(JStr(m))
    ensures Envelope(JObj(props)) == Err(InvalidResponse(m))
  {
    var data := JObj(props);
    assert Prop(data, "error") == JObj(error);
    assert Coalesce(Prop(JObj(error), "message"), JStr("Unknown error")) == JStr(m);
  }

  /** An error without a message is reported as `Unknown error`. */
  lemma EnvelopeErrorUnknown(props: seq<Field>, error: seq<Field>)
    requires Get(props, "error") == Some(JObj(error)) && !Isset(error, "message")
    ensures Envelope(JObj(props)) == Err(InvalidResponse("Unknown error"))
  {
    var data := JObj(props);
    assert Prop(data, "error") == JObj(error);
    assert Coalesce(Prop(JObj(error), "message"), JStr("Unknown error")) == JStr("Unknown error");
  }

  /** A reply without output items and without `output_text` is no response. */
  lemma EnvelopeEmpty(props: seq<Field>)
    requires !Isset(props, "error") && !Isset(props, "output") && !Isset(props, "output_text")
    ensures Envelope(JObj(props)) == Err(NoResponseFromAPI(Incomplete))
  {
  }

  /** The choice made from the collected items, before the context is added. */
  function ChoiceOf(h: Host, data: Json, collected: Collected, format: Option<JsonSchemaFormat>): (r: Result<Choice>)
    ensures r.Ok? ==> r.value.tools == collected.tools && r.value.enhancedContext == []
    ensures r.Ok? ==> !r.value.result.JNull? || |collected.tools| > 0
  {
    var parts :- Fallback(collected.parts, data);
    var message :- StructuredResult(h, MessageOf(parts), format);
    if message.JNull? && |collected.tools| == 0 then Err(NoResponseFromAPI(Incomplete))
    else
      var result :- TypedResult(message);
      Ok(Choice(result, TextOf(message), ObjectOf(message), collected.tools, []))
  }

  /** The `function_call` items are answered only when tools were given. */
  function ResultsOf(functions: Option<GPTFunctions>, tools: seq<FuncCallResult>): (r: Result<seq<Message>>)
    requires functions.Some? ==> functions.value.callableMap == CallableMapOf(functions.value.functions)
    ensures functions.None? ==> r == Ok([])
  {
    if functions.Some? then ToolResults(functions.value, tools) else Ok([])
  }

  /** `chat` after the round trip: the reply text decoded, checked, read item
      by item into a choice whose enhanced context is the request's context,
      the choice, then one `ToolResult` per callable tool call. */
  function ParseReply(h: Host, raw: string, context: seq<Message>, functions: Option<GPTFunctions>,
                      format: Option<JsonSchemaFormat>): (r: Result<Choice>)
    requires functions.Some? ==> functions.value.callableMap == CallableMapOf(functions.value.functions)
  {
    var data :- ParseJson(h, raw);
    var items :- Envelope(data);
    var collected :- CollectItems(h, items);
    var choice :- ChoiceOf(h, data, collected, format);
    var results :- ResultsOf(functions, collected.tools);
    Ok(choice.(enhancedContext := context + [ChoiceMessage(choice)] + results))
  }

  /** `ParseReply` from the outcomes of its stages. */
  lemma ReplyOf(h: Host, raw: string, context: seq<Message>, functions: Option<GPTFunctions>,
                format: Option<JsonSchemaFormat>, data: Json, items: seq<Json>, collected: Collected,
                choice: Choice, results: seq<Message>)
    requires functions.Some? ==> functions.value.callableMap == CallableMapOf(functions.value.functions)
    requires h.parse(raw) == Some(data)
    requires Envelope(data) == Ok(items)
    requires CollectItems(h, items) == Ok(collected)
    requires ChoiceOf(h, data, collected, format) == Ok(choice)
    requires ResultsOf(functions, collected.tools) == Ok(results)
    ensures ParseReply(h, raw, context, functions, format) ==
      Ok(choice.(enhancedContext := context + [ChoiceMessage(choice)] + results))
  {
  }

  /** The shape of every answer: the context comes first, then the choice
      itself, then at most one tool result per tool call (none without
      functions); there is a result or at least one tool call. */
  lemma ReplyShape(h: Host, raw: string, context: seq<Message>, functions: Option<GPTFunctions>,
                   format: Option<JsonSchemaFormat>)
    requires functions.Some? ==> functions.value.callableMap == CallableMapOf(functions.value.functions)
    requires ParseReply(h, raw, context, functions, format).Ok?
    ensures var c := ParseReply(h, raw, context, functions, format).value;
      |context| + 1 <= |c.enhancedContext| <= |context| + 1 + |c.tools| &&
      c.enhancedContext[..|context|] == context &&
      c.enhancedContext[|context|] == ChoiceMessage(c.(enhancedContext := [])) &&
      (functions.None? ==> |c.enhancedContext| == |context| + 1) &&
      (!c.result.JNull? || |c.tools| > 0)
  {
    var data := ParseJson(h, raw).value;
    var items := Envelope(data).value;
    var collected := CollectItems(h, items).value;
    var choice := ChoiceOf(h, data, collected, format).value;
    var results := ResultsOf(functions, collected.tools).value;
    var c := choice.(enhancedContext := context + [ChoiceMessage(choice)] + results);
    assert c.(enhancedContext := []) == choice;
    assert c.enhancedContext[..|context|] == context;
  }

  /** `textResult` and `objResult` are the result when it is a string or an
      object; the object result passed the schema validator. */
  lemma ReplyResults(h: Host, raw: string, context: seq<Message>, functions: Option<GPTFunctions>,
                     format: Option<JsonSchemaFormat>)
    requires functions.Some? ==> functions.value.callableMap == CallableMapOf(functions.value.functions)
    requires ParseReply(h, raw, context, functions, format).Ok?
    ensures var c := ParseReply(h, raw, context, functions, format).value;
      (c.textResult.Some? ==> c.result == JStr(c.textResult.value)) &&
      (c.objResult.Some? ==> c.result == c.objResult.value) &&
      (format.None? ==> c.objResult.None?) &&
      (format.Some? && c.objResult.Some? ==> h.validate(c.objResult.value, Idx(FormatJson(format.value), "json_schema")))
  {
    var data := ParseJson(h, raw).value;
    var items := Envelope(data).value;
    var collected := CollectItems(h, items).value;
    var parts := Fallback(collected.parts, data).value;
    var message := StructuredResult(h, MessageOf(parts), format).value;
    assert ChoiceOf(h, data, collected, format).value.result == TypedResult(message).value;
  }

  /** A message item with one `output_text` part. */
  function TextMessage(text: string): Json {
    JObj([Field("type", JStr("message")),
          Field("content", JList([JObj([Field("type", JStr("output_text")), Field("text", JStr(text))])]))])
  }

  /** Such an item contributes its text and no tool call. */
  lemma TextMessageOutput(h: Host, text: string)
    ensures ItemOutput(h, TextMessage(text)) == Ok(Collected([text], []))
  {
    var part := JObj([Field("type", JStr("output_text")), Field("text", JStr(text))]);
    var item := TextMessage(text);
    GetAt(part.props, 1);
    PartTextsStrings([part], [text]);
    GetAt(item.props, 0);
    GetAt(item.props, 1);
    GetMissing(item.props, "tool_calls");
  }

  /** A reply whose output is that one item passes the envelope checks. */
  lemma TextReplyEnvelope(text: string)
    ensures Envelope(JObj([Field("output", JList([TextMessage(text)]))])) == Ok([TextMessage(text)])
  {
    var props := [Field("output", JList([TextMessage(text)]))];
    GetMissing(props, "error");
    GetAt(props, 0);
  }

  /** The choice a single text answers with: the trimmed text as the result
      and as the text result, no object, no tools. */
  function TextChoice(text: string): Choice {
    Choice(JStr(Trim(text)), Some(Trim(text)), None, [], [])
  }

  lemma TextChoiceOf(h: Host, data: Json, text: string)
    ensures ChoiceOf(h, data, Collected([text], []), None) == Ok(TextChoice(text))
  {
    TextResult(h, text);
    NoFallback([text], data);
    ChoiceOfMessage(h, data, Collected([text], []), None, JStr(Trim(text)));
  }

  /** A string or object message is the choice's result as it is. */
  lemma ChoiceOfMessage(h: Host, data: Json, collected: Collected, format: Option<JsonSchemaFormat>, m: Json)
    requires Fallback(collected.parts, data).Ok?
    requires StructuredResult(h, MessageOf(Fallback(collected.parts, data).value), format) == Ok(m)
    requires m.JStr? || m.JObj?
    ensures ChoiceOf(h, data, collected, format) == Ok(Choice(m, TextOf(m), ObjectOf(m), collected.tools, []))
  {
  }

  lemma NoFallback(parts: seq<string>, data: Json)
    requires parts != []
    ensures Fallback(parts, data) == Ok(parts)
  {
  }

  lemma TextResult(h: Host, text: string)
    ensures StructuredResult(h, MessageOf([text]), None) == Ok(JStr(Trim(text)))
    ensures TypedResult(JStr(Trim(text))) == Ok(JStr(Trim(text)))
  {
    MessageOfSingle(text);
  }

  /** Such a reply, without a response format and without tools, answers the
      text, trimmed; the enhanced context is the context and that choice. */
  lemma ReplyText(h: Host, raw: string, context: seq<Message>, text: string)
    requires h.parse(raw) == Some(JObj([Field("output", JList([TextMessage(text)]))]))
    ensures ParseReply(h, raw, context, None, None) ==
      Ok(TextChoice(text).(enhancedContext := context + [ChoiceMessage(TextChoice(text))]))
  {
    var data := JObj([Field("output", JList([TextMessage(text)]))]);
    var c := Collected([text], []);
    TextReplyEnvelope(text);
    TextMessageOutput(h, text);
    CollectSingle(h, TextMessage(text));
    assert CollectItems(h, [TextMessage(text)]) == Ok(c) by {
      assert Join(Collected([], []), c) == c;
    }
    TextChoiceOf(h, data, text);
    ReplyOf(h, raw, context, None, None, data, [TextMessage(text)], c, TextChoice(text), []);
    assert context + [ChoiceMessage(TextChoice(text))] + [] == context + [ChoiceMessage(TextChoice(text))];
  }

  /** What `chat` raises at its last assignment: the constructor has already
      set the readonly `enhancedContext`, and it cannot be assigned again. */
  const ReadonlyEnhancedContext :=
    PhpError("Cannot modify readonly property DvTeam\\ChatGPT\\Response\\ChatResponseChoice::$enhancedContext")

  /** `chat` after the round trip as written: every stage of `ParseReply`
      runs, the tool callables included, and then the assignment of
      `enhancedContext` raises. No reply is ever answered. */
  function ParseReplyAsWritten(h: Host, raw: string, context: seq<Message>, functions: Option<GPTFunctions>,
                               format: Option<JsonSchemaFormat>): (r: Result<Choice>)
    requires functions.Some? ==> functions.value.callableMap == CallableMapOf(functions.value.functions)
    ensures r.Err?
    ensures ParseReply(h, raw, context, functions, format).Ok? ==> r == Err(ReadonlyEnhancedContext)
    ensures ParseReply(h, raw, context, functions, format).Err? ==> r == ParseReply(h, raw, context, functions, format)
  {
    var reply := ParseReply(h, raw, context, functions, format);
    if reply.Err? then reply else Err(ReadonlyEnhancedContext)
  }

  /** The discrepancy on the plainest reply: one text, no format, no tools.
      The intended reading answers the text; the code as written raises. */
  lemma ReplyTextAsWritten(h: Host, raw: string, context: seq<Message>, text: string)
    requires h.parse(raw) == Some(JObj([Field("output", JList([TextMessage(text)]))]))
    ensures ParseReply(h, raw, context, None, None).Ok?
    ensures ParseReplyAsWritten(h, raw, context, None, None) == Err(ReadonlyEnhancedContext)
  {
    ReplyText(h, raw, context, text);
  }
}
