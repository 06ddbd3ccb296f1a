/** The request body of one round (`ChatGPT::internalChatEnquiry`) and the
    model rule behind `reasoning.effort` (`getReasoningEffort`). */
module Request {
  import opened Php
  import opened Messages
  import opened StrictSchema

  // ------------------------------------------------------------ models

  /** The model classes, as far as `getReasoningEffort` can tell them apart. */
  datatype ChatModel =
    | SmallReasoning(smallName: string, smallEffort: string)    // LLMSmallReasoning
    | MediumReasoning(mediumEffort: string)                     // LLMMediumReasoning
    | CustomModel(model: string, customEffort: Option<string>)  // LLMCustomModel
    | Fixed(name: string)                                       // a model class without an effort

  /** `LLMSmallNoReasoning`. */
  const SmallNoReasoning := Fixed("gpt-4.1-mini")

  /** `(string) $model`. */
  function ModelName(m: ChatModel): string {
    match m
    case SmallReasoning(n, _) => n
    case MediumReasoning(_) => "gpt-5.1"
    case CustomModel(n, _) => n
    case Fixed(n) => n
  }

  /** The effort a model object carries, whatever its name. */
  function CarriedEffort(m: ChatModel): Option<string> {
    match m
    case SmallReasoning(_, e) => Some(e)
    case MediumReasoning(e) => Some(e)
    case CustomModel(_, e) => e
    case Fixed(_) => None
  }

  /** `getReasoningEffort`: for a model whose name starts with `gpt-5`, the
      effort of the three reasoning classes; null otherwise. */
  function ReasoningEffort(m: ChatModel): (r: Option<string>)
    ensures r.Some? <==> StartsWith(ModelName(m), "gpt-5") && CarriedEffort(m).Some?
    ensures r.Some? ==> r == CarriedEffort(m)
  {
    if StartsWith(ModelName(m), "gpt-5") then
      match m
      case SmallReasoning(_, e) => Some(e)
      case MediumReasoning(e) => Some(e)
      case CustomModel(_, e) => e
      case Fixed(_) => None
    else None
  }

  /** `gpt-5.1` always reports its effort; no model without one ever does. */
  lemma MediumReasoningEffort(e: string)
    ensures ReasoningEffort(MediumReasoning(e)) == Some(e)
    ensures ReasoningEffort(SmallNoReasoning) == None
  {
    assert "gpt-5.1"[..5] == "gpt-5";
  }

  // ------------------------------------------------------------ enquiry

  /** `ChatEnquiry`; the functions are the `jsonSerialize` arrays of the tools. */
  datatype Enquiry = Enquiry(
    context: seq<Message>,
    model: ChatModel,
    functions: seq<seq<Field>>,
    responseFormat: Option<Json>,
    maxTokens: Option<int>,
    temperature: Option<Float>,
    topP: Option<Float>)

  /** The concatenation of a list of item lists, in order. */
  function Flatten(xss: seq<seq<Json>>): seq<Json>
    decreases |xss|
  {
    if xss == [] then [] else Flatten(xss[..|xss| - 1]) + xss[|xss| - 1]
  }

  lemma {:induction false} FlattenConcat(a: seq<seq<Json>>, b: seq<seq<Json>>)
    ensures Flatten(a + b) == Flatten(a) + Flatten(b)
    decreases |b|
  {
    if b == [] {
      assert a + b == a;
    } else {
      var n := |b| - 1;
      assert (a + b)[..|a + b| - 1] == a + b[..n];
      FlattenConcat(a, b[..n]);
    }
  }

  /** Each context message's `jsonSerialize` items. */
  function ItemLists(h: Host, context: seq<Message>): (r: seq<seq<Json>>)
    ensures |r| == |context|
    ensures forall i :: 0 <= i < |context| ==> r[i] == Items(h, context[i])
  {
    seq(|context|, i requires 0 <= i < |context| => Items(h, context[i]))
  }

  /** The `input` list: every context message's items, in context order. */
  function ContextItems(h: Host, context: seq<Message>): seq<Json> {
    Flatten(ItemLists(h, context))
  }

  /** Flattening distributes over concatenation of contexts. */
  lemma ContextItemsConcat(h: Host, a: seq<Message>, b: seq<Message>)
    ensures ContextItems(h, a + b) == ContextItems(h, a) + ContextItems(h, b)
  {
    assert ItemLists(h, a + b) == ItemLists(h, a) + ItemLists(h, b);
    FlattenConcat(ItemLists(h, a), ItemLists(h, b));
  }

  lemma FlattenSingle(xs: seq<Json>)
    ensures Flatten([xs]) == xs
  {
    assert [xs][..0] == [];
  }

  /** A one-message context contributes exactly that message's items. */
  lemma ContextItemsSingle(h: Host, m: Message)
    ensures ContextItems(h, [m]) == Items(h, m)
  {
    assert ItemLists(h, [m]) == [Items(h, m)];
    FlattenSingle(Items(h, m));
  }

  /** A tool definition tagged as a function tool. */
  function TagTool(f: seq<Field>): Json {
    JMap(Put(f, "type", JStr("function")))
  }

  function TaggedTools(fs: seq<seq<Field>>): (r: seq<Json>)
    ensures |r| == |fs|
  {
    seq(|fs|, i requires 0 <= i < |fs| => TagTool(fs[i]))
  }

  /** Each tool keeps its definition and gains `type: function`. */
  lemma TaggedToolFields(fs: seq<seq<Field>>, i: nat)
    requires i < |fs|
    ensures TaggedTools(fs)[i].JMap?
    ensures Get(TaggedTools(fs)[i].fields, "type") == Some(JStr("function"))
    ensures forall k :: k != "type" ==> Get(TaggedTools(fs)[i].fields, k) == Get(fs[i], k)
  {
    PutGet(fs[i], "type", JStr("function"));
  }

  function EffortJson(e: Option<string>): Option<Json> {
    match e
    case None => None
    case Some(s) => Some(JMap([Field("effort", JStr(s))]))
  }

  function TextJson(format: Option<Json>): Option<Json> {
    match format
    case None => None
    case Some(f) => Some(JMap([Field("format", MapResponseFormat(f))]))
  }

  function IntJson(o: Option<int>): Option<Json> {
    match o
    case None => None
    case Some(i) => Some(JInt(i))
  }

  function FloatJson(o: Option<Float>): Option<Json> {
    match o
    case None => None
    case Some(f) => Some(JFloat(f))
  }

  /** The fixed keys, then each optional key only when its value is given,
      then the tools with `tool_choice: auto` only when there are any. */
  function RequestBody(h: Host, e: Enquiry): seq<Field> {
    BodyOf(ModelName(e.model), ContextItems(h, e.context), Options(e), e.functions)
  }

  function BodyOf(model: string, input: seq<Json>, options: seq<Field>, functions: seq<seq<Field>>): seq<Field> {
    [Field("model", JStr(model)), Field("input", JList(input))] + options + ToolFields(functions)
  }

  function Options(e: Enquiry): seq<Field> {
    OptField("reasoning", EffortJson(ReasoningEffort(e.model))) +
    OptField("text", TextJson(e.responseFormat)) +
    OptField("max_output_tokens", IntJson(e.maxTokens)) +
    OptField("temperature", FloatJson(e.temperature)) +
    OptField("top_p", FloatJson(e.topP))
  }

  function ToolFields(fs: seq<seq<Field>>): seq<Field> {
    if |fs| > 0 then [Field("tools", JList(TaggedTools(fs))), Field("tool_choice", JStr("auto"))] else []
  }

  // ------------------------------------------------------------ what the body holds

  lemma GetToolFields(fs: seq<seq<Field>>, k: string)
    ensures Get(ToolFields(fs), k) ==
      if |fs| > 0 && k == "tools" then Some(JList(TaggedTools(fs)))
      else if |fs| > 0 && k == "tool_choice" then Some(JStr("auto"))
      else None
  {
    var t := ToolFields(fs);
    if |fs| > 0 {
      GetAt(t, 0);
      GetAt(t, 1);
      if k != "tools" && k != "tool_choice" {
        GetMissing(t, k);
      }
    }
  }

  /** A lookup finds the fixed keys first, then the options, then the tools. */
  lemma GetBody(model: string, input: seq<Json>, options: seq<Field>, functions: seq<seq<Field>>, k: string)
    ensures Get(BodyOf(model, input, options, functions), k) ==
      if k == "model" then Some(JStr(model))
      else if k == "input" then Some(JList(input))
      else if Has(options, k) then Get(options, k)
      else Get(ToolFields(functions), k)
  {
    var head := [Field("model", JStr(model)), Field("input", JList(input))];
    GetAppend(head, options);
    GetAppend(head + options, ToolFields(functions));
    GetAt(head, 0);
    GetAt(head, 1);
    if k != "model" && k != "input" {
      GetMissing(head, k);
    }
  }

  /** Each optional key holds its value when given and is absent otherwise. */
  lemma GetOptions(e: Enquiry, k: string)
    ensures Get(Options(e), k) ==
      if k == "reasoning" then EffortJson(ReasoningEffort(e.model))
      else if k == "text" then TextJson(e.responseFormat)
      else if k == "max_output_tokens" then IntJson(e.maxTokens)
      else if k == "temperature" then FloatJson(e.temperature)
      else if k == "top_p" then FloatJson(e.topP)
      else None
  {
    var r := OptField("reasoning", EffortJson(ReasoningEffort(e.model)));
    var t := OptField("text", TextJson(e.responseFormat));
    var m := OptField("max_output_tokens", IntJson(e.maxTokens));
    var te := OptField("temperature", FloatJson(e.temperature));
    var p := OptField("top_p", FloatJson(e.topP));
    GetAppend(r, t);
    GetAppend(r + t, m);
    GetAppend(r + t + m, te);
    GetAppend(r + t + m + te, p);
    GetOptField("reasoning", EffortJson(ReasoningEffort(e.model)), k);
    GetOptField("text", TextJson(e.responseFormat), k);
    GetOptField("max_output_tokens", IntJson(e.maxTokens), k);
    GetOptField("temperature", FloatJson(e.temperature), k);
    GetOptField("top_p", FloatJson(e.topP), k);
  }

  /** `model` and `input` are always sent; `input` is the flattened context. */
  lemma BodyInput(h: Host, e: Enquiry)
    ensures Get(RequestBody(h, e), "model") == Some(JStr(ModelName(e.model)))
    ensures Get(RequestBody(h, e), "input") == Some(JList(ContextItems(h, e.context)))
  {
    var input := ContextItems(h, e.context);
    GetBody(ModelName(e.model), input, Options(e), e.functions, "model");
    GetBody(ModelName(e.model), input, Options(e), e.functions, "input");
  }

  /** `tools` and `tool_choice: auto` are present exactly when there are
      functions; each tool is tagged `type: function`. */
  lemma BodyTools(h: Host, e: Enquiry)
    ensures Has(RequestBody(h, e), "tools") <==> |e.functions| > 0
    ensures Has(RequestBody(h, e), "tool_choice") <==> |e.functions| > 0
    ensures |e.functions| > 0 ==>
      Get(RequestBody(h, e), "tools") == Some(JList(TaggedTools(e.functions))) &&
      Get(RequestBody(h, e), "tool_choice") == Some(JStr("auto"))
  {
    var input := ContextItems(h, e.context);
    GetBody(ModelName(e.model), input, Options(e), e.functions, "tools");
    GetBody(ModelName(e.model), input, Options(e), e.functions, "tool_choice");
    GetOptions(e, "tools");
    GetOptions(e, "tool_choice");
    GetToolFields(e.functions, "tools");
    GetToolFields(e.functions, "tool_choice");
  }

  /** An optional key is looked up among the options alone. */
  lemma BodyOption(h: Host, e: Enquiry, k: string)
    requires k in ["reasoning", "text", "max_output_tokens", "temperature", "top_p"]
    ensures Get(RequestBody(h, e), k) == Get(Options(e), k)
  {
    GetBody(ModelName(e.model), ContextItems(h, e.context), Options(e), e.functions, k);
    GetToolFields(e.functions, k);
  }

  /** `reasoning.effort`, `text.format`, `max_output_tokens`, `temperature`
      and `top_p` appear exactly when their values are non-null. */
  lemma BodyOptions(h: Host, e: Enquiry)
    ensures Get(RequestBody(h, e), "reasoning") == EffortJson(ReasoningEffort(e.model))
    ensures Get(RequestBody(h, e), "text") == TextJson(e.responseFormat)
    ensures Get(RequestBody(h, e), "max_output_tokens") == IntJson(e.maxTokens)
    ensures Get(RequestBody(h, e), "temperature") == FloatJson(e.temperature)
    ensures Get(RequestBody(h, e), "top_p") == FloatJson(e.topP)
  {
    BodyOption(h, e, "reasoning");
    GetOptions(e, "reasoning");
    BodyOption(h, e, "text");
    GetOptions(e, "text");
    BodyOption(h, e, "max_output_tokens");
    GetOptions(e, "max_output_tokens");
    BodyOption(h, e, "temperature");
    GetOptions(e, "temperature");
    BodyOption(h, e, "top_p");
    GetOptions(e, "top_p");
  }

  /** `reasoning` is sent only for a `gpt-5` model that carries an effort. */
  lemma BodyReasoning(h: Host, e: Enquiry)
    ensures Has(RequestBody(h, e), "reasoning") <==>
      StartsWith(ModelName(e.model), "gpt-5") && CarriedEffort(e.model).Some?
    ensures Has(RequestBody(h, e), "reasoning") ==>
      Get(RequestBody(h, e), "reasoning") == Some(JMap([Field("effort", JStr(CarriedEffort(e.model).value))]))
  {
    BodyOption(h, e, "reasoning");
    GetOptions(e, "reasoning");
  }

  /** The keys in the order they are sent; none is sent twice. */
  lemma BodyKeys(model: string, input: seq<Json>, options: seq<Field>, functions: seq<seq<Field>>)
    ensures Keys(BodyOf(model, input, options, functions)) ==
      ["model", "input"] + Keys(options) + (if |functions| > 0 then ["tools", "tool_choice"] else [])
  {
    var head := [Field("model", JStr(model)), Field("input", JList(input))];
    KeysConcat(head + options, ToolFields(functions));
    KeysConcat(head, options);
  }

  // ------------------------------------------------------------ the builder

  /** The `foreach` over the context. */
  method FlattenContext(h: Host, context: seq<Message>) returns (items: seq<Json>)
    ensures items == ContextItems(h, context)
  {
    ghost var lists := ItemLists(h, context);
    items := [];
    var i := 0;
    while i < |context|
      invariant 0 <= i <= |context|
      invariant items == Flatten(lists[..i])
    {
      assert lists[..i + 1][..i] == lists[..i];
      var msg := Items(h, context[i]);
      items := AppendEach(items, msg);
      i := i + 1;
    }
    assert lists[..i] == lists;
  }

  /** The inner `foreach`: `$cInputs[] = $cInput` for every item. */
  method AppendEach(items: seq<Json>, more: seq<Json>) returns (r: seq<Json>)
    ensures r == items + more
  {
    r := items;
    var j := 0;
    while j < |more|
      invariant 0 <= j <= |more|
      invariant r == items + more[..j]
    {
      r := r + [more[j]];
      j := j + 1;
    }
    assert more[..j] == more;
  }

  /** The `foreach` that tags the tools. */
  method TagTools(fs: seq<seq<Field>>) returns (tools: seq<Json>)
    ensures tools == TaggedTools(fs)
  {
    tools := [];
    var i := 0;
    while i < |fs|
      invariant 0 <= i <= |fs|
      invariant tools == TaggedTools(fs)[..i]
    {
      var f := Put(fs[i], "type", JStr("function"));
      tools := tools + [JMap(f)];
      i := i + 1;
    }
  }

  lemma AppendAssoc(a: seq<Field>, b: seq<Field>, c: seq<Field>)
    ensures a + b + c == a + (b + c)
  {
  }

  /** `$body[$k] = $v` on a key the array does not hold yet. */
  lemma PutFresh(fs: seq<Field>, k: string, v: Json)
    requires k !in Keys(fs)
    ensures Put(fs, k, v) == fs + [Field(k, v)]
    ensures Keys(Put(fs, k, v)) == Keys(fs) + [k]
  {
    HasIffKey(fs, k);
    PutPosition(fs, k, v);
    KeysAppend(fs, Field(k, v));
  }

  /** Every key of `fs` is one of `allowed`. */
  predicate KeysIn(fs: seq<Field>, allowed: set<string>) {
    forall i :: 0 <= i < |fs| ==> fs[i].key in allowed
  }

  /** `if ($v !== null) { $body[$k] = $v; }` on a key not yet in the body;
      `allowed` holds every key the body may already have. */
  method PutIfGiven(body: seq<Field>, k: string, v: Option<Json>, ghost allowed: set<string>) returns (r: seq<Field>)
    requires KeysIn(body, allowed)
    requires k !in allowed
    ensures r == body + OptField(k, v)
    ensures KeysIn(r, allowed + {k})
  {
    r := body;
    if v.Some? {
      PutFresh(body, k, v.value);
      r := Put(body, k, v.value);
    }
  }

  /** The conditional assignments of the optional keys, in source order. */
  method PutOptions(head: seq<Field>, reasoning: Option<Json>, text: Option<Json>, maxTokens: Option<Json>,
                    temperature: Option<Json>, topP: Option<Json>) returns (body: seq<Field>)
    requires KeysIn(head, {"model", "input"})
    ensures body == head + (OptField("reasoning", reasoning) + OptField("text", text) +
      OptField("max_output_tokens", maxTokens) + OptField("temperature", temperature) + OptField("top_p", topP))
    ensures KeysIn(body, {"model", "input", "reasoning", "text", "max_output_tokens", "temperature", "top_p"})
  {
    ghost var k0 := {"model", "input"};
    var b1 := PutIfGiven(head, "reasoning", reasoning, k0);
    ghost var o := OptField("reasoning", reasoning);
    var b2 := PutIfGiven(b1, "text", text, k0 + {"reasoning"});
    AppendAssoc(head, o, OptField("text", text));
    o := o + OptField("text", text);
    var b3 := PutIfGiven(b2, "max_output_tokens", maxTokens, k0 + {"reasoning"} + {"text"});
    AppendAssoc(head, o, OptField("max_output_tokens", maxTokens));
    o := o + OptField("max_output_tokens", maxTokens);
    var b4 := PutIfGiven(b3, "temperature", temperature, k0 + {"reasoning"} + {"text"} + {"max_output_tokens"});
    AppendAssoc(head, o, OptField("temperature", temperature));
    o := o + OptField("temperature", temperature);
    body := PutIfGiven(b4, "top_p", topP, k0 + {"reasoning"} + {"text"} + {"max_output_tokens"} + {"temperature"});
    AppendAssoc(head, o, OptField("top_p", topP));
  }

  /** The body around an already flattened `input`. */
  method AssembleBody(input: seq<Json>, e: Enquiry) returns (body: seq<Field>)
    ensures body == BodyOf(ModelName(e.model), input, Options(e), e.functions)
  {
    var head := [Field("model", JStr(ModelName(e.model))), Field("input", JList(input))];
    body := PutOptions(head, EffortJson(ReasoningEffort(e.model)), TextJson(e.responseFormat),
      IntJson(e.maxTokens), FloatJson(e.temperature), FloatJson(e.topP));
    ghost var options := body;
    if |e.functions| > 0 {
      var tools := TagTools(e.functions);
      ghost var keys := {"model", "input", "reasoning", "text", "max_output_tokens", "temperature", "top_p"};
      body := PutIfGiven(body, "tools", Some(JList(tools)), keys);
      body := PutIfGiven(body, "tool_choice", Some(JStr("auto")), keys + {"tools"});
    }
    assert body == options + ToolFields(e.functions);
  }

  /** The body `internalChatEnquiry` hands to the transport. */
  method BuildBody(h: Host, e: Enquiry) returns (body: seq<Field>)
    ensures body == RequestBody(h, e)
  {
    var input := FlattenContext(h, e.context);
    body := AssembleBody(input, e);
  }
}
