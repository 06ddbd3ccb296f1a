/** The serialised form of a `GPTConversation` context, as `serialize`
    writes it and `fromSerialized` reads it back: one associative array per
    message, tagged by `type`. */
module ConversationCodec {
  import opened Php
  import opened Messages

  const UnknownType := InvalidResponse("Unknown message type in serialized conversation.")
  const InvalidArguments := Runtime("Invalid serialized arguments.")
  const NotAnArray := PhpError("TypeError: an array was expected")

  // ------------------------------------------------------------ encoding

  /** `encodeToolCall`. */
  function EncodeToolCall(t: FuncCallResult): Json {
    JMap([Field("id", JStr(t.id)), Field("name", JStr(t.functionName)), Field("arguments", t.arguments)])
  }

  function EncodeToolCalls(tools: seq<FuncCallResult>): (r: seq<Json>)
    ensures |r| == |tools| && forall i :: 0 <= i < |tools| ==> r[i] == EncodeToolCall(tools[i])
  {
    seq(|tools|, i requires 0 <= i < |tools| => EncodeToolCall(tools[i]))
  }

  function AttachmentField(attachment: Option<Attachment>): seq<Field> {
    match attachment
    case None => []
    case Some(ImageUrl(url)) => [Field("attachment", JMap([Field("type", JStr("image_url")), Field("url", JStr(url))]))]
  }

  /** `encodeMessage`: inputs, outputs, tool calls and tool results by
      their fields; every other message as a `raw` entry holding its
      request items. */
  function Encode(h: Host, m: Message): (r: Json)
    ensures r.JMap? && |r.fields| > 0 && r.fields[0].key == "type"
    ensures (m.ChoiceMessage? || m.FuncCallMessage?) <==> r.fields[0].value == JStr("raw")
  {
    match m
    case InputMessage(content, role, attachment) =>
      JMap([Field("type", JStr("input")), Field("content", JStr(content)), Field("role", JStr(role))] + AttachmentField(attachment))
    case OutputMessage(result, tools) =>
      JMap([Field("type", JStr("output")), Field("result", result), Field("tools", JList(EncodeToolCalls(tools)))])
    case CallMessage(c) =>
      JMap([Field("type", JStr("tool_call")), Field("id", JStr(c.id)), Field("name", JStr(c.name)), Field("arguments", c.arguments)])
    case ResultMessage(id, content, role) =>
      JMap([Field("type", JStr("tool_result")), Field("call_id", JStr(id)), Field("content", NormalizeContent(content)), Field("role", JStr(role))])
    case _ =>
      JMap([Field("type", JStr("raw")), Field("payload", JList(Items(h, m)))])
  }

  /** `serialize`: one entry per message, in order. */
  function EncodeAll(h: Host, context: seq<Message>): (r: seq<Json>)
    ensures |r| == |context| && forall i :: 0 <= i < |context| ==> r[i] == Encode(h, context[i])
  {
    seq(|context|, i requires 0 <= i < |context| => Encode(h, context[i]))
  }

  // ------------------------------------------------------------ decoding

  /** `is_string($v) ? $v : $default` */
  function StrOr(v: Json, default: string): string {
    if v.JStr? then v.s else default
  }

  /** `normalizeContent`: every JSON value is kept as it is. */
  function NormalizeContent(raw: Json): (r: Json)
    ensures r == raw
  {
    raw
  }

  /** `normalizeArguments`: an object is kept, an array or a JSON string
      must decode to an object, anything else is refused. */
  function NormalizeArguments(h: Host, raw: Json): (r: Result<Json>)
    ensures r.Ok? ==> r.value.JObj?
    ensures raw.JObj? ==> r == Ok(raw)
    ensures raw.JStr? ==> (r.Ok? <==> ParseJson(h, raw.s).Ok? && ParseJson(h, raw.s).value.JObj?)
    ensures !raw.JObj? && !IsArray(raw) && !raw.JStr? ==> r == Err(InvalidArguments)
  {
    if raw.JObj? then Ok(raw)
    else if IsArray(raw) then
      var decoded :- ParseJson(h, h.stringify(raw));
      if decoded.JObj? then Ok(decoded) else Err(InvalidArguments)
    else if raw.JStr? then
      var decoded :- ParseJson(h, raw.s);
      if decoded.JObj? then Ok(decoded) else Err(InvalidArguments)
    else Err(InvalidArguments)
  }

  /** `normalizeResult`: null, strings and objects are kept, arrays become
      JSON text and the other scalars their string form. */
  function NormalizeResult(h: Host, raw: Json): (r: Json)
    ensures r.JNull? || r.JStr? || r.JObj?
    ensures (raw.JNull? || raw.JStr? || raw.JObj?) ==> r == raw
    ensures IsArray(raw) ==> r == JStr(h.stringify(raw))
  {
    if raw.JNull? || raw.JStr? || raw.JObj? then raw
    else if IsArray(raw) then JStr(h.stringify(raw))
    else match CastToString(raw)
      case Ok(s) => JStr(s)
      case Err(_) => JNull
  }

  /** `decodeToolCall`: the call rebuilt from its id, name and arguments,
      with the tool-call message every producer attaches. */
  function DecodeToolCall(h: Host, d: Json): (r: Result<FuncCallResult>)
    ensures !IsArray(d) ==> r == Err(NotAnArray)
    ensures r.Ok? ==> r.value == NewFuncCallResult(r.value.id, r.value.functionName, r.value.arguments) && r.value.arguments.JObj?
  {
    if !IsArray(d) then Err(NotAnArray)
    else
      var arguments :- NormalizeArguments(h, Coalesce(Idx(d, "arguments"), JList([])));
      Ok(NewFuncCallResult(StrOr(Idx(d, "id"), ""), StrOr(Idx(d, "name"), ""), arguments))
  }

  /** The tool calls of an output entry, in order; the first failure stops. */
  function DecodeToolCalls(h: Host, xs: seq<Json>): (r: Result<seq<FuncCallResult>>)
    ensures r.Ok? ==> |r.value| == |xs| && forall i :: 0 <= i < |xs| ==> DecodeToolCall(h, xs[i]) == Ok(r.value[i])
    decreases |xs|
  {
    if xs == [] then Ok([])
    else
      var front :- DecodeToolCalls(h, xs[..|xs| - 1]);
      var last :- DecodeToolCall(h, xs[|xs| - 1]);
      Ok(front + [last])
  }

  /** The error PHP raises for the `id:` argument that `WebSearchResult`'s
      constructor does not declare. */
  const UnknownIdParameter := PhpError("Unknown named parameter $id")

  /** `decodeMessage`. */
  function Decode(h: Host, d: Json): (r: Result<Message>)
    ensures !IsArray(d) ==> r == Err(NotAnArray)
    ensures r.Ok? ==> !r.value.ChoiceMessage? && !r.value.FuncCallMessage?
    ensures r.Ok? && r.value.InputMessage? ==> r.value.attachment.None?
    ensures IsArray(d) && Idx(d, "type") == JStr("web_search_result") ==> r == Err(UnknownIdParameter)
    ensures IsArray(d) && !(Idx(d, "type") in TypeTags) ==> r == Err(UnknownType)
  {
    if !IsArray(d) then Err(NotAnArray)
    else
      var kind := Idx(d, "type");
      if kind == JStr("input") then
        Ok(InputMessage(StrOr(Idx(d, "content"), ""), StrOr(Idx(d, "role"), "user"), None))
      else if kind == JStr("output") then
        var tools := Idx(d, "tools");
        var calls :- DecodeToolCalls(h, if IsArray(tools) then ArrayValues(tools) else []);
        Ok(OutputMessage(NormalizeResult(h, Idx(d, "result")), calls))
      else if kind == JStr("tool_call") then
        var arguments :- NormalizeArguments(h, Coalesce(Idx(d, "arguments"), JList([])));
        Ok(CallMessage(NewToolCall(StrOr(Idx(d, "id"), ""), StrOr(Idx(d, "name"), ""), arguments)))
      else if kind == JStr("tool_result") then
        Ok(ResultMessage(StrOr(Idx(d, "call_id"), ""), NormalizeContent(Idx(d, "content")), StrOr(Idx(d, "role"), "tool")))
      else if kind == JStr("web_search_result") then Err(UnknownIdParameter)
      else Err(UnknownType)
  }

  const TypeTags := {JStr("input"), JStr("output"), JStr("tool_call"), JStr("tool_result"), JStr("web_search_result")}

  /** The `array_map` of `fromSerialized`: every entry decoded, in order;
      the first failure stops. */
  function DecodeAll(h: Host, payload: seq<Json>): (r: Result<seq<Message>>)
    ensures r.Ok? ==> |r.value| == |payload| && forall i :: 0 <= i < |payload| ==> Decode(h, payload[i]) == Ok(r.value[i])
    decreases |payload|
  {
    if payload == [] then Ok([])
    else
      var front :- DecodeAll(h, payload[..|payload| - 1]);
      var last :- Decode(h, payload[|payload| - 1]);
      Ok(front + [last])
  }

  // ------------------------------------------------------------ round trips

  /** A tool call as every producer in the library builds it. */
  predicate RestorableCall(t: FuncCallResult) {
    t.arguments.JObj? && t.toolCallMessage == NewToolCall(t.id, t.functionName, t.arguments)
  }

  /** The messages the serialised form carries in full. */
  predicate Restorable(m: Message) {
    match m
    case InputMessage(_, _, attachment) => attachment.None?
    case OutputMessage(result, tools) =>
      (result.JNull? || result.JStr? || result.JObj?) && forall i :: 0 <= i < |tools| ==> RestorableCall(tools[i])
    case CallMessage(c) => c.arguments.JObj? && c.kind == "function" && c.role == "assistant"
    case ResultMessage(_, _, _) => true
    case _ => false
  }

  lemma DecodeEncodeToolCall(h: Host, t: FuncCallResult)
    requires RestorableCall(t)
    ensures DecodeToolCall(h, EncodeToolCall(t)) == Ok(t)
  {
    var fs := [Field("id", JStr(t.id)), Field("name", JStr(t.functionName)), Field("arguments", t.arguments)];
    GetAt(fs, 0);
    GetAt(fs, 1);
    GetAt(fs, 2);
  }

  lemma {:induction false} DecodeEncodeToolCalls(h: Host, tools: seq<FuncCallResult>)
    requires forall i :: 0 <= i < |tools| ==> RestorableCall(tools[i])
    ensures DecodeToolCalls(h, EncodeToolCalls(tools)) == Ok(tools)
    decreases |tools|
  {
    if tools != [] {
      var n := |tools| - 1;
      DecodeEncodeToolCalls(h, tools[..n]);
      assert EncodeToolCalls(tools)[..n] == EncodeToolCalls(tools[..n]);
      DecodeEncodeToolCall(h, tools[n]);
      assert tools[..n] + [tools[n]] == tools;
    }
  }

  lemma DecodeEncodeInput(h: Host, content: string, role: string)
    ensures Decode(h, Encode(h, InputMessage(content, role, None))) == Ok(InputMessage(content, role, None))
  {
    var fs := [Field("type", JStr("input")), Field("content", JStr(content)), Field("role", JStr(role))];
    assert fs + AttachmentField(None) == fs;
    GetAt(fs, 0);
    GetAt(fs, 1);
    GetAt(fs, 2);
  }

  /** An image attachment is written out but not read back. */
  lemma DecodeEncodeAttachment(h: Host, content: string, role: string, a: Attachment)
    ensures Decode(h, Encode(h, InputMessage(content, role, Some(a)))) == Ok(InputMessage(content, role, None))
  {
    var fs := [Field("type", JStr("input")), Field("content", JStr(content)), Field("role", JStr(role))] + AttachmentField(Some(a));
    GetAt(fs, 0);
    GetAt(fs, 1);
    GetAt(fs, 2);
  }

  lemma DecodeEncodeOutput(h: Host, result: Json, tools: seq<FuncCallResult>)
    requires result.JNull? || result.JStr? || result.JObj?
    requires forall i :: 0 <= i < |tools| ==> RestorableCall(tools[i])
    ensures Decode(h, Encode(h, OutputMessage(result, tools))) == Ok(OutputMessage(result, tools))
  {
    var fs := [Field("type", JStr("output")), Field("result", result), Field("tools", JList(EncodeToolCalls(tools)))];
    GetAt(fs, 0);
    GetAt(fs, 1);
    GetAt(fs, 2);
    DecodeEncodeToolCalls(h, tools);
  }

  /** A tool call comes back with the default type and role. */
  lemma DecodeEncodeCall(h: Host, c: ToolCall)
    requires c.arguments.JObj?
    ensures Decode(h, Encode(h, CallMessage(c))) == Ok(CallMessage(NewToolCall(c.id, c.name, c.arguments)))
  {
    var fs := [Field("type", JStr("tool_call")), Field("id", JStr(c.id)), Field("name", JStr(c.name)), Field("arguments", c.arguments)];
    GetAt(fs, 0);
    GetAt(fs, 1);
    GetAt(fs, 2);
    GetAt(fs, 3);
  }

  lemma DecodeEncodeResult(h: Host, id: string, content: Json, role: string)
    ensures Decode(h, Encode(h, ResultMessage(id, content, role))) == Ok(ResultMessage(id, content, role))
  {
    var fs := [Field("type", JStr("tool_result")), Field("call_id", JStr(id)), Field("content", content), Field("role", JStr(role))];
    GetAt(fs, 0);
    GetAt(fs, 1);
    GetAt(fs, 2);
    GetAt(fs, 3);
  }

  /** A `raw` entry cannot be read back. */
  lemma DecodeEncodeRaw(h: Host, m: Message)
    requires m.ChoiceMessage? || m.FuncCallMessage?
    ensures Decode(h, Encode(h, m)) == Err(UnknownType)
  {
    var fs := [Field("type", JStr("raw")), Field("payload", JList(Items(h, m)))];
    GetAt(fs, 0);
  }

  /** Every message the serialised form carries in full comes back as it was. */
  lemma DecodeEncode(h: Host, m: Message)
    requires Restorable(m)
    ensures Decode(h, Encode(h, m)) == Ok(m)
  {
    match m
    case InputMessage(content, role, _) => DecodeEncodeInput(h, content, role);
    case OutputMessage(result, tools) => DecodeEncodeOutput(h, result, tools);
    case CallMessage(c) => DecodeEncodeCall(h, c);
    case ResultMessage(id, content, role) => DecodeEncodeResult(h, id, content, role);
  }

  /** `fromSerialized(serialize())` restores a context of such messages. */
  lemma {:induction false} DecodeAllEncodeAll(h: Host, context: seq<Message>)
    requires forall i :: 0 <= i < |context| ==> Restorable(context[i])
    ensures DecodeAll(h, EncodeAll(h, context)) == Ok(context)
    decreases |context|
  {
    if context != [] {
      var n := |context| - 1;
      DecodeAllEncodeAll(h, context[..n]);
      assert EncodeAll(h, context)[..n] == EncodeAll(h, context[..n]);
      DecodeEncode(h, context[n]);
      assert context[..n] + [context[n]] == context;
    }
  }

  /** A context holding a choice or a bare tool-call result cannot be
      restored. */
  lemma {:induction false} DecodeAllRaw(h: Host, context: seq<Message>, i: nat)
    requires i < |context| && (context[i].ChoiceMessage? || context[i].FuncCallMessage?)
    ensures DecodeAll(h, EncodeAll(h, context)).Err?
  {
    DecodeEncodeRaw(h, context[i]);
  }
}
