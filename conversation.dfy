/** `GPTConversation`: a context that grows round by round, the callable
    tools whose definitions are sent with every round, and the local
    execution of the tool calls the model asks for. */
module Conversation {
  import opened Php
  import opened Invoker
  import opened Functions
  import opened Messages
  import opened WebSearch
  import opened Request
  import opened Response
  import opened Client
  import opened ToolSpecs
  import opened ConversationCodec

  /** `Ok(())` or the error raised. */
  function Outcome(e: Option<Error>): (r: Result<()>)
    ensures r.Ok? <==> e.None?
    ensures e.Some? ==> r == Err(e.value)
  {
    if e.None? then Ok(()) else Err(e.value)
  }

  // ------------------------------------------------------------ rebuilding the specs

  /** The specs of the longest prefix of tools that build, and the error of
      the first tool that does not. */
  datatype Rebuilt = Rebuilt(specs: seq<Spec>, error: Option<Error>)

  /** The spec each tool builds into, in order. */
  function Builds(tools: seq<CallableTool>): (r: seq<Result<Spec>>)
    ensures |r| == |tools| && forall i :: 0 <= i < |tools| ==> r[i] == BuildFunctionSpec(tools[i])
  {
    seq(|tools|, i requires 0 <= i < |tools| => BuildFunctionSpec(tools[i]))
  }

  /** The specs before the first error, and that error. */
  function Gather(built: seq<Result<Spec>>): (r: Rebuilt)
    ensures |r.specs| <= |built|
    ensures forall i :: 0 <= i < |r.specs| ==> built[i] == Ok(r.specs[i])
    ensures r.error.None? ==> |r.specs| == |built|
    ensures r.error.Some? ==> |r.specs| < |built| && built[|r.specs|] == Err(r.error.value)
    decreases |built|
  {
    if built == [] then Rebuilt([], None)
    else
      var n := |built| - 1;
      var prev := Gather(built[..n]);
      if prev.error.Some? then prev
      else match built[n]
        case Err(e) => Rebuilt(prev.specs, Some(e))
        case Ok(s) => Rebuilt(prev.specs + [s], None)
  }

  lemma {:induction false} GatherPrefixErr(built: seq<Result<Spec>>, k: nat)
    requires k <= |built| && Gather(built[..k]).error.Some?
    ensures Gather(built) == Gather(built[..k])
    decreases |built| - k
  {
    if k < |built| {
      var n := |built| - 1;
      assert built[..n][..k] == built[..k];
      GatherPrefixErr(built[..n], k);
    } else {
      assert built[..k] == built;
    }
  }

  /** The loop of `rebuildFunctionsSpec`. */
  function Rebuild(tools: seq<CallableTool>): (r: Rebuilt)
    ensures |r.specs| <= |tools|
    ensures forall i :: 0 <= i < |r.specs| ==> BuildFunctionSpec(tools[i]) == Ok(r.specs[i])
    ensures r.error.None? ==> |r.specs| == |tools|
    ensures r.error.Some? ==> |r.specs| < |tools| && BuildFunctionSpec(tools[|r.specs|]) == Err(r.error.value)
  {
    Gather(Builds(tools))
  }

  /** Rebuilding succeeds exactly when every tool has a descriptor and only
      supported parameter types; otherwise it reports the first tool that
      does not. */
  lemma RebuildIff(tools: seq<CallableTool>)
    ensures Rebuild(tools).error.None? <==> forall i :: 0 <= i < |tools| ==> BuildFunctionSpec(tools[i]).Ok?
    ensures Rebuild(tools).error.Some? ==>
      var k := |Rebuild(tools).specs|;
      (forall i :: 0 <= i < k ==> BuildFunctionSpec(tools[i]).Ok?) && BuildFunctionSpec(tools[k]).Err?
  {
  }

  /** What the loop stores when it calls `buildFunctionSpec` as written:
      it stops at the same tool with the same error, and each spec is the
      one `Rebuild` keeps with the as-written description put in. */
  lemma RebuildAsWritten(tools: seq<CallableTool>)
    ensures var r := Rebuild(tools);
      (forall i :: 0 <= i < |r.specs| ==>
         tools[i].descriptor.Some? &&
         BuildFunctionSpecAsWritten(tools[i]) == Ok(Redescribed(r.specs[i], AsWrittenDescription(tools[i])))) &&
      (r.error.Some? ==> BuildFunctionSpecAsWritten(tools[|r.specs|]) == Err(r.error.value)) &&
      (r.error.None? <==> forall i :: 0 <= i < |tools| ==> BuildFunctionSpecAsWritten(tools[i]).Ok?)
  {
    forall i | 0 <= i < |tools| {
      AsWrittenRedescribes(tools[i]);
    }
  }

  lemma GatherStep(built: seq<Result<Spec>>, i: nat)
    requires i < |built|
    ensures Gather(built[..i]).error.Some? ==> Gather(built[..i + 1]) == Gather(built[..i])
    ensures Gather(built[..i]).error.None? && built[i].Err? ==>
      Gather(built[..i + 1]) == Rebuilt(Gather(built[..i]).specs, Some(built[i].error))
    ensures Gather(built[..i]).error.None? && built[i].Ok? ==>
      Gather(built[..i + 1]) == Rebuilt(Gather(built[..i]).specs + [built[i].value], None)
  {
    assert built[..i + 1][..i] == built[..i];
  }

  /** The map the loop fills: each spec's name to its tool, later names
      overwriting earlier ones. */
  function SpecMap(specs: seq<Spec>, tools: seq<CallableTool>): map<string, CallableTool>
    requires |specs| <= |tools|
    decreases |specs|
  {
    if specs == [] then map[]
    else
      var n := |specs| - 1;
      SpecMap(specs[..n], tools)[specs[n].name := tools[n]]
  }

  lemma SpecMapSnoc(specs: seq<Spec>, s: Spec, tools: seq<CallableTool>)
    requires |specs| < |tools|
    ensures SpecMap(specs + [s], tools) == SpecMap(specs, tools)[s.name := tools[|specs|]]
  {
    assert (specs + [s])[..|specs|] == specs;
  }

  /** A name is mapped exactly when some spec carries it. */
  lemma {:induction false} SpecMapDomain(specs: seq<Spec>, tools: seq<CallableTool>, name: string)
    requires |specs| <= |tools|
    ensures name in SpecMap(specs, tools) <==> exists i :: 0 <= i < |specs| && specs[i].name == name
    decreases |specs|
  {
    if specs != [] {
      var n := |specs| - 1;
      SpecMapDomain(specs[..n], tools, name);
      assert forall i :: 0 <= i < n ==> specs[..n][i] == specs[i];
    }
  }

  /** The tool of the last spec with a name is the one mapped. */
  lemma {:induction false} SpecMapLastWins(specs: seq<Spec>, tools: seq<CallableTool>, j: nat)
    requires |specs| <= |tools| && j < |specs|
    requires forall l :: j < l < |specs| ==> specs[l].name != specs[j].name
    ensures specs[j].name in SpecMap(specs, tools) && SpecMap(specs, tools)[specs[j].name] == tools[j]
    decreases |specs|
  {
    var n := |specs| - 1;
    if j < n {
      assert forall l :: j < l < n ==> specs[..n][l] == specs[l];
      SpecMapLastWins(specs[..n], tools, j);
    }
  }

  function Definitions(specs: seq<Spec>): (r: seq<GPTFunction>)
    ensures |r| == |specs| && forall i :: 0 <= i < |specs| ==> r[i] == specs[i].definition
  {
    seq(|specs|, i requires 0 <= i < |specs| => specs[i].definition)
  }

  /** `count($wrapped) ? new GPTFunctions(...$wrapped) : null` */
  function SpecFunctions(specs: seq<Spec>): (r: Option<GPTFunctions>)
    ensures r.None? <==> specs == []
    ensures r.Some? ==> r.value.functions == Definitions(specs) && r.value.callableMap == CallableMapOf(r.value.functions)
  {
    if specs == [] then None else Some(GPTFunctions(Definitions(specs), CallableMapOf(Definitions(specs))))
  }

  /** The definitions the conversation sends carry no callable, so the
      client answers none of the tool calls itself. */
  lemma ClientRunsNoTool(tools: seq<CallableTool>, calls: seq<FuncCallResult>)
    requires Rebuild(tools).error.None?
    ensures ResultsOf(SpecFunctions(Rebuild(tools).specs), calls) == Ok([])
  {
    var specs := Rebuild(tools).specs;
    var g := SpecFunctions(specs);
    if g.Some? {
      var fs := g.value.functions;
      assert forall i :: 0 <= i < |fs| ==> fs[i].Plain?;
      forall i | 0 <= i < |calls|
        ensures CallTool(g.value, calls[i]).None?
      {
      }
      ToolResultsNone(g.value, calls);
    }
  }

  // ------------------------------------------------------------ the tool state

  /** The registered tools, the name-to-tool map and the definitions sent. */
  datatype Tools = Tools(callables: seq<CallableTool>, routes: map<string, CallableTool>, spec: Option<GPTFunctions>)

  /** The tool state after an operation, and the error it raised. */
  datatype Installed = Installed(tools: Tools, error: Option<Error>)

  /** `rebuildFunctionsSpec`: the map is rebuilt from scratch; the
      definitions are replaced only when every tool builds. */
  function RebuildOf(t: Tools): (r: Installed)
    ensures r.error == Rebuild(t.callables).error && r.tools.callables == t.callables
    ensures r.tools.routes == SpecMap(Rebuild(t.callables).specs, t.callables)
    ensures r.error.None? ==> r.tools.spec == SpecFunctions(Rebuild(t.callables).specs)
    ensures r.error.Some? ==> r.tools.spec == t.spec
  {
    var rb := Rebuild(t.callables);
    Installed(Tools(t.callables, SpecMap(rb.specs, t.callables), if rb.error.None? then SpecFunctions(rb.specs) else t.spec), rb.error)
  }

  /** `addTool`: a tool without a descriptor is refused before it is
      registered; otherwise it is appended and the specs are rebuilt. */
  function AddToolOf(t: Tools, c: CallableTool): (r: Installed)
    ensures c.descriptor.None? ==> r == Installed(t, Some(MissingDescriptor))
    ensures c.descriptor.Some? ==> r == RebuildOf(t.(callables := t.callables + [c]))
  {
    if c.descriptor.None? then Installed(t, Some(MissingDescriptor))
    else RebuildOf(t.(callables := t.callables + [c]))
  }

  /** `setTools`: the registered tools are cleared, then each tool is added
      in turn; the first error stops. */
  function SetToolsOf(t: Tools, cs: seq<CallableTool>): Installed
    decreases |cs|
  {
    if cs == [] then Installed(t.(callables := []), None)
    else
      var prev := SetToolsOf(t, cs[..|cs| - 1]);
      if prev.error.Some? then prev else AddToolOf(prev.tools, cs[|cs| - 1])
  }

  /** Once `setTools` has raised, one more tool changes nothing. */
  lemma SetToolsErrStays(t: Tools, cs: seq<CallableTool>)
    requires cs != [] && SetToolsOf(t, cs[..|cs| - 1]).error.Some?
    ensures SetToolsOf(t, cs) == SetToolsOf(t, cs[..|cs| - 1])
  {
  }

  /** Tools added after `setTools` has raised change nothing. */
  lemma {:induction false} SetToolsErrSuffix(t: Tools, pre: seq<CallableTool>, more: seq<CallableTool>)
    requires SetToolsOf(t, pre).error.Some?
    ensures SetToolsOf(t, pre + more) == SetToolsOf(t, pre)
    decreases |more|
  {
    if more != [] {
      var m := more[..|more| - 1];
      SetToolsErrSuffix(t, pre, m);
      var all := pre + more;
      assert all[..|all| - 1] == pre + m;
      SetToolsErrStays(t, all);
    } else {
      assert pre + more == pre;
    }
  }

  /** A sequence is its prefix followed by the rest. */
  lemma TakeDrop(cs: seq<CallableTool>, k: nat)
    requires k <= |cs|
    ensures cs[..k] + cs[k..] == cs
  {
  }

  /** The first error stops `setTools`. */
  lemma SetToolsPrefixErr(t: Tools, cs: seq<CallableTool>, k: nat)
    requires k <= |cs| && SetToolsOf(t, cs[..k]).error.Some?
    ensures SetToolsOf(t, cs) == SetToolsOf(t, cs[..k])
  {
    TakeDrop(cs, k);
    SetToolsErrSuffix(t, cs[..k], cs[k..]);
  }

  /** The rebuild of one more tool extends the rebuild of the others. */
  lemma RebuildSnoc(cs: seq<CallableTool>, c: CallableTool)
    ensures Rebuild(cs).error.Some? ==> Rebuild(cs + [c]) == Rebuild(cs)
    ensures Rebuild(cs).error.None? && BuildFunctionSpec(c).Err? ==>
      Rebuild(cs + [c]) == Rebuilt(Rebuild(cs).specs, Some(BuildFunctionSpec(c).error))
    ensures Rebuild(cs).error.None? && BuildFunctionSpec(c).Ok? ==>
      Rebuild(cs + [c]) == Rebuilt(Rebuild(cs).specs + [BuildFunctionSpec(c).value], None)
  {
    var b := Builds(cs + [c]);
    assert b[..|cs|] == Builds(cs);
  }

  /** Tools past the last spec do not reach the map. */
  lemma {:induction false} SpecMapPrefix(specs: seq<Spec>, tools: seq<CallableTool>, more: seq<CallableTool>)
    requires |specs| <= |tools|
    ensures SpecMap(specs, tools + more) == SpecMap(specs, tools)
    decreases |specs|
  {
    if specs != [] {
      var n := |specs| - 1;
      SpecMapPrefix(specs[..n], tools, more);
      assert (tools + more)[n] == tools[n];
    }
  }

  /** One step of `setTools` after the others succeeded. */
  lemma AddToolStep(t: Tools, cs: seq<CallableTool>, c: CallableTool)
    requires Rebuild(cs).error.None? && t.callables == cs
    ensures AddToolOf(t, c).error == Rebuild(cs + [c]).error
    ensures Rebuild(cs + [c]).error.None? ==>
      AddToolOf(t, c).tools == Tools(cs + [c], SpecMap(Rebuild(cs + [c]).specs, cs + [c]), SpecFunctions(Rebuild(cs + [c]).specs))
  {
    RebuildSnoc(cs, c);
    if c.descriptor.None? {
      assert BuildFunctionSpec(c) == Err(MissingDescriptor);
    }
  }

  lemma SetToolsStep(t: Tools, cs: seq<CallableTool>, i: nat)
    requires i < |cs| && SetToolsOf(t, cs[..i]).error.None?
    ensures SetToolsOf(t, cs[..i + 1]) == AddToolOf(SetToolsOf(t, cs[..i]).tools, cs[i])
  {
    assert cs[..i + 1][..i] == cs[..i];
  }

  /** Adding the tools one by one ends where one rebuild of all of them
      would: the same error, and on success every tool registered, the map
      and the definitions built from all of them. */
  lemma {:induction false} SetToolsOfRebuild(t: Tools, cs: seq<CallableTool>)
    ensures SetToolsOf(t, cs).error == Rebuild(cs).error
    ensures Rebuild(cs).error.None? && cs == [] ==> SetToolsOf(t, cs).tools == t.(callables := [])
    ensures Rebuild(cs).error.None? && cs != [] ==>
      SetToolsOf(t, cs).tools == Tools(cs, SpecMap(Rebuild(cs).specs, cs), SpecFunctions(Rebuild(cs).specs))
    decreases |cs|
  {
    if cs != [] {
      var n := |cs| - 1;
      var pre, c := cs[..n], cs[n];
      assert pre + [c] == cs;
      SetToolsOfRebuild(t, pre);
      RebuildSnoc(pre, c);
      var prev := SetToolsOf(t, pre);
      if prev.error.None? {
        if pre == [] {
          assert prev.tools.callables == pre;
        }
        AddToolStep(prev.tools, pre, c);
      }
    }
  }

  // ------------------------------------------------------------ executing tool calls

  /** The fallback loop of `executeToolIfCallable` over the specs the
      tools build: the first tool whose spec carries the name; a tool whose
      spec cannot be built raises. */
  function ScanIn(built: seq<Result<Spec>>, tools: seq<CallableTool>, name: string): (r: Result<Option<CallableTool>>)
    requires |built| == |tools|
    ensures r.Ok? && r.value.Some? ==>
      exists i :: 0 <= i < |tools| && tools[i] == r.value.value && built[i].Ok? && built[i].value.name == name
    decreases |tools|
  {
    if tools == [] then Ok(None)
    else
      var s :- built[0];
      if s.name == name then Ok(Some(tools[0]))
      else
        var r := ScanIn(built[1..], tools[1..], name);
        assert r.Ok? && r.value.Some? ==> exists i :: 1 <= i < |tools| && tools[i] == r.value.value && built[i].Ok? && built[i].value.name == name;
        r
  }

  function Scan(tools: seq<CallableTool>, name: string): (r: Result<Option<CallableTool>>)
    ensures r.Ok? && r.value.Some? ==>
      exists i :: 0 <= i < |tools| && tools[i] == r.value.value && BuildFunctionSpec(tools[i]).Ok? &&
                  BuildFunctionSpec(tools[i]).value.name == name
  {
    ScanIn(Builds(tools), tools, name)
  }

  /** Once every spec has been built into the map, the fallback loop finds
      nothing the map lacks. */
  lemma ScanAfterRebuild(tools: seq<CallableTool>, name: string)
    requires Rebuild(tools).error.None?
    requires name !in SpecMap(Rebuild(tools).specs, tools)
    ensures Scan(tools, name) == Ok(None)
  {
    var specs := Rebuild(tools).specs;
    SpecMapDomain(specs, tools, name);
    ScanNone(Builds(tools), tools, specs, name, 0);
  }

  lemma {:induction false} ScanNone(built: seq<Result<Spec>>, tools: seq<CallableTool>, specs: seq<Spec>, name: string, k: nat)
    requires k <= |tools| == |specs| == |built|
    requires forall i :: 0 <= i < |specs| ==> built[i] == Ok(specs[i]) && specs[i].name != name
    ensures ScanIn(built[k..], tools[k..], name) == Ok(None)
    decreases |tools| - k
  {
    if k < |tools| {
      ScanNone(built, tools, specs, name, k + 1);
      assert built[k..][0] == built[k] && built[k..][1..] == built[k + 1..];
      assert tools[k..][1..] == tools[k + 1..];
    }
  }

  function MissingExecutable(name: string): Error {
    Runtime("Missing executable for function " + name + ".")
  }

  /** The map after the lookup of a name: unchanged when the name is
      mapped, else extended by the fallback loop's find. */
  function Resolve(m: map<string, CallableTool>, tools: seq<CallableTool>, name: string): (r: Result<map<string, CallableTool>>)
    ensures name in m ==> r == Ok(m)
    ensures r.Ok? ==> forall k :: k in m ==> k in r.value && r.value[k] == m[k]
    ensures r.Ok? ==> forall k :: k in r.value && k != name ==> k in m
  {
    if name in m then Ok(m)
    else
      var found :- Scan(tools, name);
      if found.Some? then Ok(m[name := found.value]) else Ok(m)
  }

  /** One tool call executed against a context and a map. */
  datatype Run = Run(context: seq<Message>, callables: map<string, CallableTool>, error: Option<Error>)

  /** The call of a tool in a map: invoked with the call's arguments and
      its result appended as a `ToolResult`; a name the map lacks raises
      `Missing executable`. */
  function InvokeFound(context: seq<Message>, m: map<string, CallableTool>, call: FuncCallResult): (r: Run)
    ensures r.callables == m
    ensures r.error.Some? ==> r.context == context
    ensures call.functionName !in m ==> r.error == Some(MissingExecutable(call.functionName))
    ensures r.error.None? ==>
      call.functionName in m &&
      Invoke(InvokerCallable(m[call.functionName]), ArgumentFields(call.arguments)).Ok? &&
      r.context == context + [NewToolResult(call.id, Invoke(InvokerCallable(m[call.functionName]), ArgumentFields(call.arguments)).value)]
  {
    if call.functionName !in m then Run(context, m, Some(MissingExecutable(call.functionName)))
    else match Invoke(InvokerCallable(m[call.functionName]), ArgumentFields(call.arguments))
      case Err(e) => Run(context, m, Some(e))
      case Ok(v) => Run(context + [NewToolResult(call.id, v)], m, None)
  }

  /** `executeToolIfCallable`: the name resolved, then the tool invoked. */
  function ExecuteOne(context: seq<Message>, m: map<string, CallableTool>, tools: seq<CallableTool>, call: FuncCallResult): (r: Run)
    ensures forall k :: k in m ==> k in r.callables && r.callables[k] == m[k]
    ensures r.error.Some? ==> r.context == context
    ensures r.error.None? ==> |r.context| == |context| + 1 && r.context[..|context|] == context && IsAnswer(r.context[|context|], call)
    ensures Resolve(m, tools, call.functionName).Ok? && call.functionName !in Resolve(m, tools, call.functionName).value ==>
      r.error == Some(MissingExecutable(call.functionName))
  {
    match Resolve(m, tools, call.functionName)
    case Err(e) => Run(context, m, Some(e))
    case Ok(m') => InvokeFound(context, m', call)
  }

  /** The loop of `absorbResponse` over the tool calls; the first error
      stops it. */
  function RunTools(context: seq<Message>, m: map<string, CallableTool>, tools: seq<CallableTool>, calls: seq<FuncCallResult>): (r: Run)
    ensures |context| <= |r.context| <= |context| + |calls| && r.context[..|context|] == context
    ensures forall k :: k in m ==> k in r.callables && r.callables[k] == m[k]
    decreases |calls|
  {
    if calls == [] then Run(context, m, None)
    else
      var one := ExecuteOne(context, m, tools, calls[0]);
      if one.error.Some? then one
      else
        var r := RunTools(one.context, one.callables, tools, calls[1..]);
        assert r.context[..|context|] == r.context[..|one.context|][..|context|];
        r
  }

  /** The `ToolResult` answering a call. */
  predicate IsAnswer(m: Message, call: FuncCallResult) {
    m.ResultMessage? && m.toolCallId == call.id && m.role == "tool"
  }

  /** From position `from` on, the messages are the `ToolResult`s of the
      calls, one per call, in order. */
  predicate Answers(ms: seq<Message>, from: nat, calls: seq<FuncCallResult>) {
    |ms| == from + |calls| && forall i :: 0 <= i < |calls| ==> IsAnswer(ms[from + i], calls[i])
  }

  lemma AnswersCons(context: seq<Message>, next: seq<Message>, ms: seq<Message>, calls: seq<FuncCallResult>)
    requires calls != [] && |next| == |context| + 1 && next[..|context|] == context
    requires IsAnswer(next[|context|], calls[0])
    requires |next| <= |ms| && ms[..|next|] == next && Answers(ms, |next|, calls[1..])
    ensures Answers(ms, |context|, calls)
  {
    forall i | 0 <= i < |calls|
      ensures IsAnswer(ms[|context| + i], calls[i])
    {
      if i == 0 {
        assert ms[|context| + i] == ms[..|next|][|context|];
      } else {
        var j := i - 1;
        assert calls[1..][j] == calls[i];
        assert IsAnswer(ms[|next| + j], calls[1..][j]);
      }
    }
  }

  /** Without an error, each call has its `ToolResult`, in order, answering
      that call's id. */
  lemma {:induction false} RunToolsResults(context: seq<Message>, m: map<string, CallableTool>, tools: seq<CallableTool>,
                                            calls: seq<FuncCallResult>)
    requires RunTools(context, m, tools, calls).error.None?
    ensures Answers(RunTools(context, m, tools, calls).context, |context|, calls)
    decreases |calls|
  {
    if calls != [] {
      var one := ExecuteOne(context, m, tools, calls[0]);
      RunToolsResults(one.context, one.callables, tools, calls[1..]);
      var rest := RunTools(one.context, one.callables, tools, calls[1..]);
      AnswersCons(context, one.context, rest.context, calls);
    }
  }

  /** An absorbed answer without error leaves the old context, the output
      message, then one `ToolResult` per tool call. */
  lemma AbsorbedShape(context: seq<Message>, m: map<string, CallableTool>, tools: seq<CallableTool>, choice: Choice)
    requires RunTools(context + [OutputMessage(choice.result, choice.tools)], m, tools, choice.tools).error.None?
    ensures var r := RunTools(context + [OutputMessage(choice.result, choice.tools)], m, tools, choice.tools);
      |r.context| == |context| + 1 + |choice.tools| && r.context[..|context|] == context &&
      r.context[|context|] == OutputMessage(choice.result, choice.tools) &&
      Answers(r.context, |context| + 1, choice.tools)
  {
    var start := context + [OutputMessage(choice.result, choice.tools)];
    RunToolsResults(start, m, tools, choice.tools);
    var r := RunTools(start, m, tools, choice.tools);
    assert r.context[..|context|] == r.context[..|start|][..|context|];
    assert r.context[|context|] == r.context[..|start|][|context|];
  }

  /** After a rebuild that succeeded, a call of a name no tool carries
      raises `Missing executable` and leaves the context as it was. */
  lemma MissingToolRaises(context: seq<Message>, tools: seq<CallableTool>, call: FuncCallResult)
    requires Rebuild(tools).error.None?
    requires call.functionName !in SpecMap(Rebuild(tools).specs, tools)
    ensures ExecuteOne(context, SpecMap(Rebuild(tools).specs, tools), tools, call) ==
      Run(context, SpecMap(Rebuild(tools).specs, tools), Some(MissingExecutable(call.functionName)))
  {
    ScanAfterRebuild(tools, call.functionName);
  }

  /** The loop of `rebuildFunctionsSpec`: each spec built in turn and its
      name mapped to its tool, up to the first tool that does not build. */
  method BuildSpecs(tools: seq<CallableTool>) returns (r: Rebuilt, routes: map<string, CallableTool>)
    ensures r == Rebuild(tools) && routes == SpecMap(r.specs, tools)
  {
    ghost var built := Builds(tools);
    var specs: seq<Spec> := [];
    routes := map[];
    var i := 0;
    while i < |tools|
      invariant 0 <= i <= |tools|
      invariant Gather(built[..i]) == Rebuilt(specs, None)
      invariant routes == SpecMap(specs, tools)
    {
      GatherStep(built, i);
      var spec := MakeFunctionSpec(tools[i]);
      if spec.Err? {
        GatherPrefixErr(built, i + 1);
        return Rebuilt(specs, Some(spec.error)), routes;
      }
      SpecMapSnoc(specs, spec.value, tools);
      specs := specs + [spec.value];
      routes := routes[spec.value.name := tools[i]];
      i := i + 1;
    }
    assert built[..i] == built;
    return Rebuilt(specs, None), routes;
  }

  // ------------------------------------------------------------ the conversation

  class Conversation {
    const chat: ChatGPT
    var context: seq<Message>
    var callableTools: seq<CallableTool>
    var callableMap: map<string, CallableTool>
    var functionsSpec: Option<GPTFunctions>
    var responseFormat: Option<JsonSchemaFormat>
    var model: Option<ChatModel>
    var maxTokens: int
    var temperature: Option<Float>
    var topP: Option<Float>

    function ToolState(): Tools
      reads this
    {
      Tools(callableTools, callableMap, functionsSpec)
    }

    /** The request options, which only their setters change. */
    function Options(): (Option<JsonSchemaFormat>, Option<ChatModel>, int, Option<Float>, Option<Float>)
      reads this
    {
      (responseFormat, model, maxTokens, temperature, topP)
    }

    /** The fields as the constructor assigns them, before `setTools`. */
    constructor Init(chat: ChatGPT, context: seq<Message>, callableMap: map<string, CallableTool>,
                     functionsSpec: Option<GPTFunctions>, responseFormat: Option<JsonSchemaFormat>,
                     model: Option<ChatModel>, maxTokens: int, temperature: Option<Float>, topP: Option<Float>)
      ensures this.chat == chat && this.context == context
      ensures ToolState() == Tools([], callableMap, functionsSpec)
      ensures Options() == (responseFormat, model, maxTokens, temperature, topP)
    {
      this.chat := chat;
      this.context := context;
      this.callableTools := [];
      this.callableMap := callableMap;
      this.functionsSpec := functionsSpec;
      this.responseFormat := responseFormat;
      this.model := model;
      this.maxTokens := maxTokens;
      this.temperature := temperature;
      this.topP := topP;
    }

    /** `new GPTConversation(...)`: the fields, then `setTools`; a tool
        that cannot be installed makes the construction fail. */
    static method Create(chat: ChatGPT, context: seq<Message>, callableTools: seq<CallableTool>,
                         callableMap: map<string, CallableTool>, functionsSpec: Option<GPTFunctions>,
                         responseFormat: Option<JsonSchemaFormat>, model: Option<ChatModel>, maxTokens: int,
                         temperature: Option<Float>, topP: Option<Float>)
      returns (r: Result<Conversation>)
      ensures var o := SetToolsOf(Tools([], callableMap, functionsSpec), callableTools);
        (r.Ok? <==> o.error.None?) && (r.Err? ==> r.error == o.error.value) &&
        (r.Ok? ==> fresh(r.value) && r.value.chat == chat && r.value.context == context &&
                   r.value.ToolState() == o.tools &&
                   r.value.Options() == (responseFormat, model, maxTokens, temperature, topP))
    {
      var c := new Conversation.Init(chat, context, callableMap, functionsSpec, responseFormat, model, maxTokens, temperature, topP);
      var installed := c.SetTools(callableTools);
      if installed.Err? {
        return Err(installed.error);
      }
      return Ok(c);
    }

    /** `fromSerialized`: the payload decoded into the context of a new
        conversation with the given tools and options. */
    static method FromSerialized(chat: ChatGPT, payload: seq<Json>, tools: seq<CallableTool>,
                                 responseFormat: Option<JsonSchemaFormat>, model: Option<ChatModel>, maxTokens: int,
                                 temperature: Option<Float>, topP: Option<Float>)
      returns (r: Result<Conversation>)
      ensures DecodeAll(chat.host, payload).Err? ==> r == Err(DecodeAll(chat.host, payload).error)
      ensures r.Ok? ==>
        (DecodeAll(chat.host, payload).Ok? && fresh(r.value) && r.value.chat == chat &&
         r.value.context == DecodeAll(chat.host, payload).value &&
         r.value.ToolState() == SetToolsOf(Tools([], map[], None), tools).tools &&
         r.value.Options() == (responseFormat, model, maxTokens, temperature, topP))
      ensures DecodeAll(chat.host, payload).Ok? ==> (r.Ok? <==> Rebuild(tools).error.None?)
    {
      var context := DecodeAll(chat.host, payload);
      if context.Err? {
        return Err(context.error);
      }
      r := Create(chat, context.value, tools, map[], None, responseFormat, model, maxTokens, temperature, topP);
      SetToolsOfRebuild(Tools([], map[], None), tools);
    }

    /** `serialize`. */
    function Serialize(): (r: seq<Json>)
      reads this, chat
      ensures |r| == |context|
    {
      EncodeAll(chat.host, context)
    }

    /** `split`: a new conversation over the same client, context, tools
        and options, except `topP`, which is not passed on. */
    method Split() returns (r: Result<Conversation>)
      ensures var o := SetToolsOf(Tools([], callableMap, functionsSpec), callableTools);
        (r.Ok? <==> o.error.None?) &&
        (r.Ok? ==> fresh(r.value) && r.value.chat == chat && r.value.context == context &&
                   r.value.ToolState() == o.tools &&
                   r.value.Options() == (responseFormat, model, maxTokens, temperature, None))
    {
      r := Create(chat, context, callableTools, callableMap, functionsSpec, responseFormat, model, maxTokens, temperature, None);
    }

    /** `addMessage`. */
    method AddMessage(m: Message)
      modifies this
      ensures context == old(context) + [m]
      ensures ToolState() == old(ToolState()) && Options() == old(Options())
    {
      context := context + [m];
    }

    /** `addWebSearch`, with the id `uniqid` would make given. */
    method AddWebSearch(id: string, query: string, userLocation: Option<Json>, searchModel: Option<string>, effort: Option<string>)
      modifies this
      ensures context == old(context) + [WebSearchCall(id, query, userLocation, searchModel, effort)]
      ensures ToolState() == old(ToolState()) && Options() == old(Options())
    {
      AddMessage(WebSearchCall(id, query, userLocation, searchModel, effort));
    }

    /** `setResponseFormat`. */
    method SetResponseFormat(format: Option<JsonSchemaFormat>)
      modifies this
      ensures responseFormat == format && model == old(model) && maxTokens == old(maxTokens)
      ensures temperature == old(temperature) && topP == old(topP)
      ensures context == old(context) && ToolState() == old(ToolState())
    {
      responseFormat := format;
    }

    /** `rebuildFunctionsSpec`. */
    method RebuildFunctionsSpec() returns (r: Result<()>)
      modifies this
      ensures var o := RebuildOf(old(ToolState())); ToolState() == o.tools && r == Outcome(o.error)
      ensures context == old(context) && Options() == old(Options())
    {
      var rebuilt, routes := BuildSpecs(callableTools);
      callableMap := routes;
      if rebuilt.error.Some? {
        return Err(rebuilt.error.value);
      }
      if |rebuilt.specs| > 0 {
        var g := NewFunctions(Definitions(rebuilt.specs));
        functionsSpec := Some(g);
      } else {
        functionsSpec := None;
      }
      return Ok(());
    }

    /** `addTool`. */
    method AddTool(c: CallableTool) returns (r: Result<()>)
      modifies this
      ensures var o := AddToolOf(old(ToolState()), c); ToolState() == o.tools && r == Outcome(o.error)
      ensures context == old(context) && Options() == old(Options())
    {
      var valid := ValidateCallable(c);
      if valid.Err? {
        return Err(valid.error);
      }
      callableTools := callableTools + [c];
      r := RebuildFunctionsSpec();
    }

    /** `setTools`. */
    method SetTools(cs: seq<CallableTool>) returns (r: Result<()>)
      modifies this
      ensures var o := SetToolsOf(old(ToolState()), cs); ToolState() == o.tools && r == Outcome(o.error)
      ensures context == old(context) && Options() == old(Options())
    {
      callableTools := [];
      var i := 0;
      while i < |cs|
        invariant 0 <= i <= |cs|
        invariant SetToolsOf(old(ToolState()), cs[..i]) == Installed(ToolState(), None)
        invariant context == old(context) && Options() == old(Options())
      {
        SetToolsStep(old(ToolState()), cs, i);
        var added := AddTool(cs[i]);
        if added.Err? {
          SetToolsPrefixErr(old(ToolState()), cs, i + 1);
          return added;
        }
        i := i + 1;
      }
      assert cs[..i] == cs;
      return Ok(());
    }

    /** The fallback loop of `executeToolIfCallable`: the specs are built
        one by one until one carries the name. */
    method FindTool(name: string) returns (r: Result<Option<CallableTool>>)
      ensures r == Scan(callableTools, name)
    {
      var i := 0;
      while i < |callableTools|
        invariant 0 <= i <= |callableTools|
        invariant Scan(callableTools, name) == ScanIn(Builds(callableTools)[i..], callableTools[i..], name)
      {
        assert Builds(callableTools)[i..][0] == BuildFunctionSpec(callableTools[i]);
        assert Builds(callableTools)[i..][1..] == Builds(callableTools)[i + 1..];
        assert callableTools[i..][1..] == callableTools[i + 1..];
        var spec := MakeFunctionSpec(callableTools[i]);
        if spec.Err? {
          return Err(spec.error);
        }
        if spec.value.name == name {
          return Ok(Some(callableTools[i]));
        }
        i := i + 1;
      }
      return Ok(None);
    }

    /** `executeToolIfCallable`. */
    method ExecuteToolIfCallable(call: FuncCallResult) returns (r: Result<()>)
      modifies this
      ensures var o := ExecuteOne(old(context), old(callableMap), callableTools, call);
        context == o.context && callableMap == o.callables && r == Outcome(o.error)
      ensures callableTools == old(callableTools) && functionsSpec == old(functionsSpec) && Options() == old(Options())
    {
      var resolved := ResolveTool(call.functionName);
      if resolved.Err? {
        return resolved;
      }
      r := InvokeTool(call);
    }

    /** The lookup of `executeToolIfCallable`: a name the map lacks is
        looked for among the tools and, when found, added to the map. */
    method ResolveTool(name: string) returns (r: Result<()>)
      modifies this
      ensures var m := Resolve(old(callableMap), callableTools, name);
        (m.Err? ==> r == Err(m.error) && callableMap == old(callableMap)) &&
        (m.Ok? ==> r == Ok(()) && callableMap == m.value)
      ensures context == old(context) && callableTools == old(callableTools) && functionsSpec == old(functionsSpec)
      ensures Options() == old(Options())
    {
      if name !in callableMap {
        var found := FindTool(name);
        if found.Err? {
          return Err(found.error);
        }
        if found.value.Some? {
          callableMap := callableMap[name := found.value.value];
        }
      }
      return Ok(());
    }

    /** The invocation of `executeToolIfCallable` once the name is resolved. */
    method InvokeTool(call: FuncCallResult) returns (r: Result<()>)
      modifies this
      ensures var o := InvokeFound(old(context), callableMap, call); context == o.context && r == Outcome(o.error)
      ensures callableMap == old(callableMap) && callableTools == old(callableTools) && functionsSpec == old(functionsSpec)
      ensures Options() == old(Options())
    {
      var name := call.functionName;
      if name !in callableMap {
        return Err(MissingExecutable(name));
      }
      var result := InvokeCallable(InvokerCallable(callableMap[name]), ArgumentFields(call.arguments));
      if result.Err? {
        return Err(result.error);
      }
      context := context + [NewToolResult(call.id, result.value)];
      return Ok(());
    }

    /** `absorbResponse`: the answer is appended as an output message, then
        each of its tool calls is executed in turn. */
    method AbsorbResponse(choice: Choice) returns (r: Result<Choice>)
      modifies this
      ensures var o := RunTools(old(context) + [OutputMessage(choice.result, choice.tools)], old(callableMap), callableTools, choice.tools);
        context == o.context && callableMap == o.callables && r == (if o.error.Some? then Err(o.error.value) else Ok(choice))
      ensures callableTools == old(callableTools) && functionsSpec == old(functionsSpec) && Options() == old(Options())
    {
      context := context + [OutputMessage(choice.result, choice.tools)];
      var calls := choice.tools;
      var i := 0;
      while i < |calls|
        invariant 0 <= i <= |calls|
        invariant RunTools(old(context) + [OutputMessage(choice.result, choice.tools)], old(callableMap), callableTools, calls) ==
                  RunTools(context, callableMap, callableTools, calls[i..])
        invariant callableTools == old(callableTools) && functionsSpec == old(functionsSpec) && Options() == old(Options())
      {
        assert calls[i..][0] == calls[i];
        assert calls[i..][1..] == calls[i + 1..];
        var executed := ExecuteToolIfCallable(calls[i]);
        if executed.Err? {
          return Err(executed.error);
        }
        i := i + 1;
      }
      return Ok(choice);
    }

    /** `step`: the specs are rebuilt, the client is called exactly once,
        and the answer is absorbed; the API is not called again. */
    method Step() returns (r: Result<Choice>)
      modifies this, chat.transport
      ensures Options() == old(Options())
      ensures var rb := RebuildOf(old(ToolState()));
        rb.error.Some? ==>
          r == Err(rb.error.value) && ToolState() == rb.tools && context == old(context) &&
          chat.transport.sent == old(chat.transport.sent)
      ensures var rb := RebuildOf(old(ToolState()));
        rb.error.None? ==>
          var post := RequestPost(chat.host, chat.token,
                                  EnquiryOf(chat.host, old(context), rb.tools.spec, responseFormat,
                                            model.GetOr(chat.defaultModel), maxTokens, temperature, topP));
          var answer := Answer(chat.host, chat.transport.respond(|old(chat.transport.sent)|, post),
                               old(context), rb.tools.spec, responseFormat);
          chat.transport.sent == old(chat.transport.sent) + [post] &&
          callableTools == rb.tools.callables && functionsSpec == rb.tools.spec &&
          (answer.Err? ==> r == answer && context == old(context) && callableMap == rb.tools.routes) &&
          (answer.Ok? ==>
            var o := RunTools(old(context) + [OutputMessage(answer.value.result, answer.value.tools)], rb.tools.routes,
                              rb.tools.callables, answer.value.tools);
            context == o.context && callableMap == o.callables &&
            r == (if o.error.Some? then Err(o.error.value) else answer))
    {
      var rebuilt := RebuildFunctionsSpec();
      if rebuilt.Err? {
        return Err(rebuilt.error);
      }
      var answer := chat.Chat(context, functionsSpec, responseFormat, model, maxTokens, temperature, topP);
      if answer.Err? {
        return answer;
      }
      r := AbsorbResponse(answer.value);
    }
  }

  /** `fromSerialized(serialize())` restores a context whose messages the
      serialised form carries in full. */
  lemma SerializeRoundTrip(c: Conversation)
    requires forall i :: 0 <= i < |c.context| ==> Restorable(c.context[i])
    ensures DecodeAll(c.chat.host, c.Serialize()) == Ok(c.context)
  {
    DecodeAllEncodeAll(c.chat.host, c.context);
  }
}
