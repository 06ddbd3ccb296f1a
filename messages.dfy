/** The chat messages a context holds and the Responses API input items
    each of them serialises to: `ChatInput` (with an optional `ChatImageUrl`),
    `ChatOutput`, `ToolCall`, `ToolResult`, `ChatResponseChoice` and
    `ChatFuncCallResult`. */
module Messages {
  import opened Php

  /** `ChatImageUrl`, the only attachment kind. */
  datatype Attachment = ImageUrl(url: string)

  /** `ToolCall`: the tool call the model asked for, as a context message. */
  datatype ToolCall = ToolCall(id: string, name: string, arguments: Json, kind: string, role: string)

  /** `new ToolCall(id, name, arguments)` with the default type and role. */
  function NewToolCall(id: string, name: string, arguments: Json): (c: ToolCall)
    ensures c.id == id && c.name == name && c.arguments == arguments
    ensures c.kind == "function" && c.role == "assistant"
  {
    ToolCall(id, name, arguments, "function", "assistant")
  }

  /** `ChatFuncCallResult`: a resolved tool call; its arguments are an object. */
  datatype FuncCallResult = FuncCallResult(id: string, functionName: string, arguments: Json, toolCallMessage: ToolCall)

  /** The way every producer builds a `ChatFuncCallResult`: the tool-call
      message repeats the id, the name and the arguments. */
  function NewFuncCallResult(id: string, name: string, arguments: Json): (r: FuncCallResult)
    ensures r.id == id && r.functionName == name && r.arguments == arguments
    ensures r.toolCallMessage == NewToolCall(id, name, arguments)
  {
    FuncCallResult(id, name, arguments, NewToolCall(id, name, arguments))
  }

  /** A message of the context. */
  datatype Message =
    | InputMessage(content: string, role: string, attachment: Option<Attachment>)   // ChatInput
    | OutputMessage(result: Json, tools: seq<FuncCallResult>)                        // ChatOutput
    | CallMessage(call: ToolCall)                                                     // ToolCall, WebSearchCall
    | ResultMessage(toolCallId: string, value: Json, role: string)                    // ToolResult (`content`)
    | ChoiceMessage(choice: Choice)                                                   // ChatResponseChoice
    | FuncCallMessage(funcCall: FuncCallResult)                                       // ChatFuncCallResult

  /** `ChatResponseChoice`: the parsed answer of one round. `enhancedContext`
      is readonly in the class yet assigned once after construction; here it
      is a field filled when the choice is made. */
  datatype Choice = Choice(
    result: Json,
    textResult: Option<string>,
    objResult: Option<Json>,
    tools: seq<FuncCallResult>,
    enhancedContext: seq<Message>)

  /** `ChatInput::mk`: the same object as the constructor. */
  function MkInput(content: string, role: string, attachment: Option<Attachment>): (m: Message)
    ensures m == InputMessage(content, role, attachment)
  {
    InputMessage(content, role, attachment)
  }

  /** `new ChatInput($content)`: role `user`, no attachment. */
  function UserInput(content: string): (m: Message)
    ensures m.InputMessage? && m.content == content && m.role == "user" && m.attachment.None?
  {
    InputMessage(content, "user", None)
  }

  /** `new ToolResult($id, $content)`: role `tool`. */
  function NewToolResult(toolCallId: string, content: Json): (m: Message)
    ensures m.ResultMessage? && m.toolCallId == toolCallId && m.value == content && m.role == "tool"
  {
    ResultMessage(toolCallId, content, "tool")
  }

  /** `addToContext`, the same for every message kind: the context with the
      message appended. */
  function AddToContext(context: seq<Message>, m: Message): (r: seq<Message>)
    ensures |r| == |context| + 1 && r[..|context|] == context && r[|context|] == m
  {
    context + [m]
  }

  // ------------------------------------------------------------ wire items

  /** `ChatImageUrl::toInputContentParts`. */
  function ImageParts(a: Attachment): seq<Json> {
    [JMap([Field("type", JStr("input_image")), Field("image_url", JStr(a.url))])]
  }

  /** One `input_image` part whose `image_url` is the stored url string as it is. */
  lemma ImagePartsShape(a: Attachment)
    ensures |ImageParts(a)| == 1
    ensures Idx(ImageParts(a)[0], "type") == JStr("input_image")
    ensures Idx(ImageParts(a)[0], "image_url") == JStr(a.url)
  {
    var fs := ImageParts(a)[0].fields;
    GetAt(fs, 0);
    GetAt(fs, 1);
  }

  function AttachmentParts(attachment: Option<Attachment>): seq<Json> {
    match attachment
    case None => []
    case Some(a) => ImageParts(a)
  }

  function InputTextPart(text: string): Json {
    JMap([Field("type", JStr("input_text")), Field("text", JStr(text))])
  }

  function OutputTextPart(text: string): Json {
    JMap([Field("type", JStr("output_text")), Field("text", JStr(text))])
  }

  /** A `{type, text}` part answers both keys. */
  lemma TextPartFields(text: string)
    ensures Idx(InputTextPart(text), "type") == JStr("input_text")
    ensures Idx(InputTextPart(text), "text") == JStr(text)
    ensures Idx(OutputTextPart(text), "type") == JStr("output_text")
    ensures Idx(OutputTextPart(text), "text") == JStr(text)
  {
    GetAt(InputTextPart(text).fields, 1);
    GetAt(OutputTextPart(text).fields, 1);
  }

  /** `ChatInput::jsonSerialize`. */
  function InputItems(content: string, role: string, attachment: Option<Attachment>): seq<Json> {
    [JMap([Field("role", JStr(role)),
           Field("content", JList([InputTextPart(content)] + AttachmentParts(attachment)))])]
  }

  /** Exactly one `{role, content}` item; the text part comes first and the
      attachment parts follow it; without an attachment there is only the text. */
  lemma InputItemsShape(content: string, role: string, attachment: Option<Attachment>)
    ensures |InputItems(content, role, attachment)| == 1
    ensures Idx(InputItems(content, role, attachment)[0], "role") == JStr(role)
    ensures Idx(InputItems(content, role, attachment)[0], "content") ==
      JList([InputTextPart(content)] + AttachmentParts(attachment))
    ensures attachment.None? ==> Idx(InputItems(content, role, attachment)[0], "content") == JList([InputTextPart(content)])
    ensures attachment.Some? ==>
      Idx(InputItems(content, role, attachment)[0], "content") == JList([InputTextPart(content)] + ImageParts(attachment.value))
  {
    var fs := InputItems(content, role, attachment)[0].fields;
    GetAt(fs, 0);
    GetAt(fs, 1);
    if attachment.None? {
      assert [InputTextPart(content)] + AttachmentParts(attachment) == [InputTextPart(content)];
    }
  }

  /** `ToolCall::jsonSerialize` for one call. */
  function CallItem(h: Host, c: ToolCall): Json {
    JMap([Field("type", JStr("function_call")), Field("call_id", JStr(c.id)),
          Field("name", JStr(c.name)), Field("arguments", JStr(h.stringify(c.arguments)))])
  }

  function CallItems(h: Host, c: ToolCall): seq<Json> {
    [CallItem(h, c)]
  }

  /** A `function_call` item carries the id as `call_id`, the name, and the
      JSON text of the arguments, whether they are a map or an object. */
  lemma CallItemFields(h: Host, c: ToolCall)
    ensures Idx(CallItem(h, c), "type") == JStr("function_call")
    ensures Idx(CallItem(h, c), "call_id") == JStr(c.id)
    ensures Idx(CallItem(h, c), "name") == JStr(c.name)
    ensures Idx(CallItem(h, c), "arguments") == JStr(h.stringify(c.arguments))
    ensures Keys(CallItem(h, c).fields) == ["type", "call_id", "name", "arguments"]
  {
    var fs := CallItem(h, c).fields;
    GetAt(fs, 0);
    GetAt(fs, 1);
    GetAt(fs, 2);
    GetAt(fs, 3);
  }

  /** The `output` string of a `ToolResult` item. */
  function ToolOutputText(h: Host, content: Json): (r: string)
    ensures (IsArray(content) || content.JObj?) ==> r == h.stringify(content)
    ensures !IsArray(content) && !content.JObj? ==> CastToString(content) == Ok(r)
  {
    if IsArray(content) || content.JObj? then h.stringify(content)
    else if content.JNull? then ""
    else if !content.JStr? then CastToString(content).value
    else content.s
  }

  /** `ToolResult::jsonSerialize` and `ChatFuncCallResult::jsonSerialize`: one
      `function_call_output` item; the role is not part of it. */
  function CallOutputItem(callId: string, output: string): Json {
    JMap([Field("type", JStr("function_call_output")), Field("call_id", JStr(callId)), Field("output", JStr(output))])
  }

  lemma CallOutputItemFields(callId: string, output: string)
    ensures Idx(CallOutputItem(callId, output), "type") == JStr("function_call_output")
    ensures Idx(CallOutputItem(callId, output), "call_id") == JStr(callId)
    ensures Idx(CallOutputItem(callId, output), "output") == JStr(output)
    ensures Keys(CallOutputItem(callId, output).fields) == ["type", "call_id", "output"]
  {
    var fs := CallOutputItem(callId, output).fields;
    GetAt(fs, 0);
    GetAt(fs, 1);
    GetAt(fs, 2);
  }

  /** The assistant text part of `ChatOutput`/`ChatResponseChoice`: none for a
      null result, the string itself, or the JSON text of anything else. */
  function AssistantContent(h: Host, result: Json): seq<Json> {
    if result.JNull? then []
    else if !result.JStr? then [OutputTextPart(h.stringify(result))]
    else [OutputTextPart(result.s)]
  }

  function AssistantItem(content: seq<Json>): Json {
    JMap([Field("role", JStr("assistant")), Field("content", JList(content))])
  }

  lemma AssistantItemFields(content: seq<Json>)
    ensures Idx(AssistantItem(content), "role") == JStr("assistant")
    ensures Idx(AssistantItem(content), "content") == JList(content)
  {
    GetAt(AssistantItem(content).fields, 1);
  }

  /** The items of every tool's `toolCallMessage`, in tool order. */
  function ToolItems(h: Host, tools: seq<FuncCallResult>): (r: seq<Json>)
    decreases |tools|
  {
    if tools == [] then []
    else ToolItems(h, tools[..|tools| - 1]) + CallItems(h, tools[|tools| - 1].toolCallMessage)
  }

  /** One `function_call` item per tool, in order. */
  lemma {:induction false} ToolItemsElements(h: Host, tools: seq<FuncCallResult>)
    ensures |ToolItems(h, tools)| == |tools|
    ensures forall i :: 0 <= i < |tools| ==> ToolItems(h, tools)[i] == CallItem(h, tools[i].toolCallMessage)
    decreases |tools|
  {
    if tools != [] {
      var n := |tools| - 1;
      ToolItemsElements(h, tools[..n]);
      assert forall i :: 0 <= i < n ==> tools[..n][i] == tools[i];
    }
  }

  /** `jsonSerialize` of `ChatOutput` and of `ChatResponseChoice` (the two
      bodies are the same). */
  function ResultItems(h: Host, result: Json, tools: seq<FuncCallResult>): seq<Json> {
    var content := AssistantContent(h, result);
    (if |content| > 0 then [AssistantItem(content)] else []) + ToolItems(h, tools)
  }

  /** ResultItems is the assistant item, if any, then the tool items. */
  lemma ResultItemsSplit(h: Host, result: Json, tools: seq<FuncCallResult>)
    ensures ResultItems(h, result, tools) ==
      (if result.JNull? then [] else [AssistantItem(AssistantContent(h, result))]) + ToolItems(h, tools)
  {
  }

  /** The tool items sit after a head of length zero or one. */
  lemma {:induction false} AfterHead(head: seq<Json>, h: Host, tools: seq<FuncCallResult>)
    requires |head| <= 1
    ensures |head + ToolItems(h, tools)| == |head| + |tools|
    ensures forall i :: 0 <= i < |tools| ==> (head + ToolItems(h, tools))[|head| + i] == CallItem(h, tools[i].toolCallMessage)
  {
    ToolItemsElements(h, tools);
  }

  /** The assistant item of a non-null result. */
  lemma ResultItemsHead(h: Host, result: Json, tools: seq<FuncCallResult>)
    ensures !result.JNull? ==> |ResultItems(h, result, tools)| > 0
    ensures result.JStr? ==> ResultItems(h, result, tools)[0] == AssistantItem([OutputTextPart(result.s)])
    ensures !result.JNull? && !result.JStr? ==>
      ResultItems(h, result, tools)[0] == AssistantItem([OutputTextPart(h.stringify(result))])
  {
    ResultItemsSplit(h, result, tools);
  }

  /** A null result contributes no assistant item. */
  lemma ResultItemsNull(h: Host, tools: seq<FuncCallResult>)
    ensures ResultItems(h, JNull, tools) == ToolItems(h, tools)
  {
    ResultItemsSplit(h, JNull, tools);
    assert [] + ToolItems(h, tools) == ToolItems(h, tools);
  }

  /** The tool items after the assistant item. */
  lemma ResultItemsTools(h: Host, result: Json, tools: seq<FuncCallResult>)
    ensures |ResultItems(h, result, tools)| == (if result.JNull? then 0 else 1) + |tools|
    ensures forall i :: 0 <= i < |tools| ==>
      ResultItems(h, result, tools)[(if result.JNull? then 0 else 1) + i] == CallItem(h, tools[i].toolCallMessage)
  {
    ResultItemsSplit(h, result, tools);
    var head: seq<Json> := if result.JNull? then [] else [AssistantItem(AssistantContent(h, result))];
    AfterHead(head, h, tools);
  }

  /** The item count is one for a non-null result plus one per tool; the
      assistant item comes first and holds one `output_text` part (the string,
      or the JSON text of an object); the tool items follow in tool order. */
  lemma ResultItemsShape(h: Host, result: Json, tools: seq<FuncCallResult>)
    ensures |ResultItems(h, result, tools)| == (if result.JNull? then 0 else 1) + |tools|
    ensures result.JNull? ==> ResultItems(h, result, tools) == ToolItems(h, tools)
    ensures result.JStr? ==> ResultItems(h, result, tools)[0] == AssistantItem([OutputTextPart(result.s)])
    ensures !result.JNull? && !result.JStr? ==>
      ResultItems(h, result, tools)[0] == AssistantItem([OutputTextPart(h.stringify(result))])
    ensures forall i :: 0 <= i < |tools| ==>
      ResultItems(h, result, tools)[(if result.JNull? then 0 else 1) + i] == CallItem(h, tools[i].toolCallMessage)
  {
    ResultItemsHead(h, result, tools);
    ResultItemsTools(h, result, tools);
    if result.JNull? {
      ResultItemsNull(h, tools);
    }
  }

  /** A null result with no tools serialises to nothing. */
  lemma ResultItemsEmpty(h: Host)
    ensures ResultItems(h, JNull, []) == []
  {
  }

  /** The loop of `ChatOutput::jsonSerialize`. */
  method SerializeResult(h: Host, result: Json, tools: seq<FuncCallResult>) returns (output: seq<Json>)
    ensures output == ResultItems(h, result, tools)
  {
    var content: seq<Json> := [];
    if result.JNull? {
    } else if !result.JStr? {
      content := content + [OutputTextPart(h.stringify(result))];
    } else {
      content := content + [OutputTextPart(result.s)];
    }
    output := [];
    if |content| > 0 {
      output := output + [AssistantItem(content)];
    }
    var prefix := output;
    assert content == AssistantContent(h, result);
    assert prefix == if |content| > 0 then [AssistantItem(content)] else [];
    var i := 0;
    while i < |tools|
      invariant 0 <= i <= |tools|
      invariant output == prefix + ToolItems(h, tools[..i])
    {
      assert tools[..i + 1][..i] == tools[..i];
      var items := CallItems(h, tools[i].toolCallMessage);
      var j := 0;
      while j < |items|
        invariant 0 <= j <= |items|
        invariant output == prefix + ToolItems(h, tools[..i]) + items[..j]
      {
        output := output + [items[j]];
        j := j + 1;
      }
      assert items[..j] == items;
      i := i + 1;
    }
    assert tools[..i] == tools;
  }

  /** `jsonSerialize` of every message kind. */
  function Items(h: Host, m: Message): seq<Json> {
    match m
    case InputMessage(content, role, attachment) => InputItems(content, role, attachment)
    case OutputMessage(result, tools) => ResultItems(h, result, tools)
    case CallMessage(c) => CallItems(h, c)
    case ResultMessage(id, content, _) => [CallOutputItem(id, ToolOutputText(h, content))]
    case ChoiceMessage(c) => ResultItems(h, c.result, c.tools)
    case FuncCallMessage(f) => [CallOutputItem(f.id, h.stringify(f.arguments))]
  }

  /** Every message kind but the two result carriers serialises to exactly one item. */
  lemma ItemsSingle(h: Host, m: Message)
    requires !m.OutputMessage? && !m.ChoiceMessage?
    ensures |Items(h, m)| == 1
  {
  }

  /** A tool result's `output`: a string unchanged, null as '', an integer in
      decimal, arrays and objects as JSON text; the call id is `toolCallId`. */
  lemma ToolResultItem(h: Host, id: string, content: Json, role: string)
    ensures |Items(h, ResultMessage(id, content, role))| == 1
    ensures Idx(Items(h, ResultMessage(id, content, role))[0], "call_id") == JStr(id)
    ensures content.JStr? ==> Idx(Items(h, ResultMessage(id, content, role))[0], "output") == content
    ensures content.JNull? ==> Idx(Items(h, ResultMessage(id, content, role))[0], "output") == JStr("")
    ensures content.JInt? ==> Idx(Items(h, ResultMessage(id, content, role))[0], "output") == JStr(IntToString(content.i))
    ensures (IsArray(content) || content.JObj?) ==>
      Idx(Items(h, ResultMessage(id, content, role))[0], "output") == JStr(h.stringify(content))
  {
    CallOutputItemFields(id, ToolOutputText(h, content));
  }

  /** A resolved tool call as a message reports its arguments' JSON text as output. */
  lemma FuncCallResultItem(h: Host, f: FuncCallResult)
    ensures |Items(h, FuncCallMessage(f))| == 1
    ensures Idx(Items(h, FuncCallMessage(f))[0], "type") == JStr("function_call_output")
    ensures Idx(Items(h, FuncCallMessage(f))[0], "call_id") == JStr(f.id)
    ensures Idx(Items(h, FuncCallMessage(f))[0], "output") == JStr(h.stringify(f.arguments))
  {
    CallOutputItemFields(f.id, h.stringify(f.arguments));
  }
}
