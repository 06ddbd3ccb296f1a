/** How `GPTConversation` turns a reflected PHP callable into a function
    definition for the API: the callable's name normalised to snake case,
    its descriptor's description, and one scalar property per parameter.
    Reflection and attributes are abstracted: a tool is the data they
    would report. */
module ToolSpecs {
  import opened Php
  import opened Invoker
  import opened Functions

  // ------------------------------------------------------------ names

  predicate IsUpper(c: char) {
    'A' <= c <= 'Z'
  }

  /** The start of the last `::` in `s`, if any (`strrpos`). */
  function LastSeparator(s: string): (r: Option<nat>)
    ensures r.Some? ==> r.value + 2 <= |s| && s[r.value] == ':' && s[r.value + 1] == ':'
    ensures r.Some? ==> forall j :: r.value < j < |s| - 1 ==> !(s[j] == ':' && s[j + 1] == ':')
    ensures r.None? ==> forall j :: 0 <= j < |s| - 1 ==> !(s[j] == ':' && s[j + 1] == ':')
    decreases |s|
  {
    if |s| < 2 then None
    else if s[|s| - 2] == ':' && s[|s| - 1] == ':' then Some(|s| - 2)
    else
      var r := LastSeparator(s[..|s| - 1]);
      assert forall j :: 0 <= j < |s| - 1 ==> s[..|s| - 1][j] == s[j];
      r
  }

  /** An occurrence with none after it is the last one. */
  lemma LastSeparatorAt(s: string, p: nat)
    requires p + 2 <= |s| && s[p] == ':' && s[p + 1] == ':'
    requires forall j :: p < j < |s| - 1 ==> !(s[j] == ':' && s[j + 1] == ':')
    ensures LastSeparator(s) == Some(p)
  {
  }

  /** No `::` occurs in `s`. */
  predicate NoSeparator(s: string) {
    forall j :: 0 <= j < |s| - 1 ==> !(s[j] == ':' && s[j + 1] == ':')
  }

  /** The part after the last `::`, or the whole name. */
  function BaseName(s: string): (r: string)
    ensures NoSeparator(r)
  {
    match LastSeparator(s)
    case None => s
    case Some(p) =>
      var r := s[p + 2..];
      assert forall j :: 0 <= j < |r| ==> r[j] == s[p + 2 + j];
      r
  }

  /** `preg_replace('/(?<!^)[A-Z]/', '_$0', …)`: an underscore before every
      capital letter except one that starts the string. */
  function Underscored(s: string): string {
    if s == [] then [] else [s[0]] + UnderscoredTail(s[1..])
  }

  /** An underscore before every capital letter. */
  function UnderscoredTail(t: string): string
    decreases |t|
  {
    if t == [] then []
    else (if IsUpper(t[0]) then ['_', t[0]] else [t[0]]) + UnderscoredTail(t[1..])
  }

  /** `strtolower`, which maps only ASCII letters. */
  function Lower(s: string): (r: string)
    ensures |r| == |s|
    ensures forall i :: 0 <= i < |s| ==> r[i] == if IsUpper(s[i]) then (s[i] as int + 32) as char else s[i]
  {
    seq(|s|, i requires 0 <= i < |s| => if IsUpper(s[i]) then (s[i] as int + 32) as char else s[i])
  }

  /** `normalizeCallableName`. */
  function NormalizeCallableName(name: string): (r: string)
    ensures NoUpper(r)
  {
    Lower(Underscored(BaseName(name)))
  }

  predicate NoUpper(s: string) {
    forall i :: 0 <= i < |s| ==> !IsUpper(s[i])
  }

  lemma {:induction false} TailKeepsNoSeparator(t: string)
    requires NoSeparator(t)
    ensures NoSeparator(UnderscoredTail(t))
    decreases |t|
  {
    if t != [] {
      var rest := t[1..];
      assert NoSeparator(rest) by {
        assert forall j :: 0 <= j < |rest| ==> rest[j] == t[j + 1];
      }
      TailKeepsNoSeparator(rest);
      var piece: string := if IsUpper(t[0]) then ['_', t[0]] else [t[0]];
      var u := UnderscoredTail(rest);
      var r := piece + u;
      forall j | 0 <= j < |r| - 1
        ensures !(r[j] == ':' && r[j + 1] == ':')
      {
        if j >= |piece| {
          assert r[j] == u[j - |piece|] && r[j + 1] == u[j - |piece| + 1];
        }
      }
    }
  }

  lemma {:induction false} TailNoUpper(t: string)
    requires NoUpper(t)
    ensures UnderscoredTail(t) == t
    decreases |t|
  {
    if t != [] {
      TailNoUpper(t[1..]);
    }
  }

  lemma {:induction false} TailConcat(a: string, b: string)
    ensures UnderscoredTail(a + b) == UnderscoredTail(a) + UnderscoredTail(b)
    decreases |a|
  {
    if a != [] {
      assert (a + b)[1..] == a[1..] + b;
      TailConcat(a[1..], b);
    } else {
      assert a + b == b;
    }
  }

  lemma LowerNoUpper(s: string)
    requires NoUpper(s)
    ensures Lower(s) == s
  {
  }

  /** A normalised name has no capital letter and no `::`. */
  lemma NormalizedShape(name: string)
    ensures NoSeparator(NormalizeCallableName(name))
  {
    var b := BaseName(name);
    var u := Underscored(b);
    if b != [] {
      TailKeepsNoSeparator(b[1..]) by {
        assert forall j :: 0 <= j < |b| - 1 ==> b[1..][j] == b[j + 1];
      }
      var t := UnderscoredTail(b[1..]);
      forall j | 0 <= j < |u| - 1
        ensures !(u[j] == ':' && u[j + 1] == ':')
      {
        if j > 0 {
          assert u[j] == t[j - 1] && u[j + 1] == t[j];
        }
      }
    }
    var r := Lower(u);
    assert forall j :: 0 <= j < |r| ==> (r[j] == ':' <==> u[j] == ':');
  }

  /** Normalising twice changes nothing. */
  lemma NormalizeIdempotent(name: string)
    ensures NormalizeCallableName(NormalizeCallableName(name)) == NormalizeCallableName(name)
  {
    var r := NormalizeCallableName(name);
    NormalizedShape(name);
    assert LastSeparator(r).None?;
    assert BaseName(r) == r;
    if r != [] {
      TailNoUpper(r[1..]);
      assert [r[0]] + r[1..] == r;
    }
    LowerNoUpper(r);
  }

  lemma BaseNameWhole(s: string)
    requires NoSeparator(s)
    ensures BaseName(s) == s
  {
    assert LastSeparator(s).None?;
  }

  lemma UnderscoredSnake(a: string, c: char, b: string)
    requires a != [] && NoUpper(a) && NoUpper(b) && IsUpper(c)
    ensures Underscored(a + [c] + b) == a + ['_', c] + b
  {
    var s := a + [c] + b;
    assert s[1..] == a[1..] + ([c] + b);
    TailConcat(a[1..], [c] + b);
    TailNoUpper(a[1..]);
    assert ([c] + b)[1..] == b;
    TailNoUpper(b);
    assert [a[0]] + a[1..] == a;
  }

  lemma LowerSnake(a: string, c: char, b: string)
    requires NoUpper(a) && NoUpper(b)
    ensures Lower(a + ['_', c] + b) == a + ['_', Lower([c])[0]] + b
  {
    var u := a + ['_', c] + b;
    var r := Lower(u);
    var w := a + ['_', Lower([c])[0]] + b;
    forall i | 0 <= i < |u|
      ensures r[i] == w[i]
    {
      if i < |a| {
        assert u[i] == a[i];
      } else if i > |a| + 1 {
        assert u[i] == b[i - |a| - 2];
      }
    }
  }

  /** A camel-case name without `::` becomes snake case: the capital that
      starts a later word turns into an underscore and its lower-case letter. */
  lemma SnakeCase(a: string, c: char, b: string)
    requires a != [] && NoUpper(a) && NoUpper(b) && IsUpper(c)
    requires NoSeparator(a + [c] + b)
    ensures NormalizeCallableName(a + [c] + b) == a + ['_', (c as int + 32) as char] + b
  {
    BaseNameWhole(a + [c] + b);
    UnderscoredSnake(a, c, b);
    LowerSnake(a, c, b);
  }

  /** `pickWord` is `pick_word`. */
  lemma NormalizePickWord()
    ensures NormalizeCallableName("pickWord") == "pick_word"
  {
    SplitPickWord();
    SnakeCase("pick", 'W', "ord");
    JoinPickWord();
  }

  /** A class prefix is dropped: `Tools::getNumber` is `get_number`. */
  lemma NormalizeClassPrefix()
    ensures NormalizeCallableName("Tools::getNumber") == "get_number"
  {
    NormalizeBase("Tools::getNumber");
    GetNumberBase();
    NormalizeGetNumber();
  }

  /** Only the part after the last `::` matters. */
  lemma NormalizeBase(q: string)
    ensures NormalizeCallableName(q) == NormalizeCallableName(BaseName(q))
  {
    BaseNameWhole(BaseName(q));
  }

  lemma GetNumberBase()
    ensures BaseName("Tools::getNumber") == "getNumber"
  {
    var q := "Tools::getNumber";
    assert forall j :: 7 <= j < |q| ==> q[j] != ':';
    LastSeparatorAt(q, 5);
  }

  lemma NormalizeGetNumber()
    ensures NormalizeCallableName("getNumber") == "get_number"
  {
    SplitGetNumber();
    SnakeCase("get", 'N', "umber");
    JoinGetNumber();
  }

  lemma SplitPickWord() ensures "pickWord" == "pick" + ['W'] + "ord" {}
  lemma JoinPickWord() ensures "pick" + ['_', ('W' as int + 32) as char] + "ord" == "pick_word" {}
  lemma SplitGetNumber() ensures "getNumber" == "get" + ['N'] + "umber" {}
  lemma JoinGetNumber() ensures "get" + ['_', ('N' as int + 32) as char] + "umber" == "get_number" {}

  // ------------------------------------------------------------ reflected tools

  /** `GPTCallableDescriptor`: an optional explicit name and a description. */
  datatype Descriptor = Descriptor(name: Option<string>, description: string)

  /** A reflected parameter: its name, the name of its declared type, the
      `definition` of its `GPTParameterDescriptor` attribute if it has one,
      whether it is optional and its default value. */
  datatype ToolParam = ToolParam(name: string, typeName: Option<string>, definition: Option<Json>,
                                 optional: bool, default: Option<Json>)

  /** A callable tool as reflection sees it: the reflected function name, the
      first `GPTCallableDescriptor` if any, its parameters and what it
      computes from its positional arguments. */
  datatype CallableTool = CallableTool(reflectedName: string, descriptor: Option<Descriptor>,
                                       params: seq<ToolParam>, body: seq<Json> -> Json)

  const MissingDescriptor := Runtime("Callable tools used with GPTConversation must have a GPTCallableDescriptor attribute.")

  function UnsupportedType(typeName: Option<string>): Error {
    Runtime("Unsupported parameter type for callable tool: " + typeName.GetOr(""))
  }

  /** `validateCallable`. */
  function ValidateCallable(t: CallableTool): (r: Result<()>)
    ensures r.Ok? <==> t.descriptor.Some?
    ensures r.Err? ==> r.error == MissingDescriptor
  {
    if t.descriptor.None? then Err(MissingDescriptor) else Ok(())
  }

  /** The callable `CallableInvoker` sees: parameters under their declared
      names. */
  function InvokerCallable(t: CallableTool): (c: Callable)
    ensures |c.params| == |t.params| && c.body == t.body
    ensures forall i :: 0 <= i < |t.params| ==>
      c.params[i] == Param(t.params[i].name, t.params[i].optional, t.params[i].default)
  {
    Callable(seq(|t.params|, i requires 0 <= i < |t.params| => Param(t.params[i].name, t.params[i].optional, t.params[i].default)), t.body)
  }

  /** The tool's name on the wire: the descriptor's, else the normalised
      reflected name. */
  function ToolName(t: CallableTool): string
    requires t.descriptor.Some?
  {
    t.descriptor.value.name.GetOr(NormalizeCallableName(t.reflectedName))
  }

  /** The `description` entry of the parameter's descriptor, when a string. */
  function ParamDescription(p: ToolParam): (r: Option<string>)
    ensures r.Some? <==> p.definition.Some? && Idx(p.definition.value, "description").JStr?
    ensures r.Some? ==> Idx(p.definition.value, "description") == JStr(r.value)
  {
    if p.definition.None? then None
    else
      var d := Idx(p.definition.value, "description");
      if d.JStr? then Some(d.s) else None
  }

  predicate SupportedType(typeName: Option<string>) {
    typeName == Some("bool") || typeName == Some("int") || typeName == Some("float") || typeName == Some("string")
  }

  function KindOf(typeName: string): ScalarKind {
    if typeName == "bool" then BooleanKind
    else if typeName == "int" then IntegerKind
    else if typeName == "float" then NumberKind
    else StringKind
  }

  /** The property one parameter becomes. */
  function PropertyOf(p: ToolParam): (r: Result<Property>)
    ensures r.Ok? <==> SupportedType(p.typeName)
    ensures r.Err? ==> r.error == UnsupportedType(p.typeName)
    ensures r.Ok? ==> r.value == Scalar(KindOf(p.typeName.value), NormalizeCallableName(p.name), ParamDescription(p), !p.optional)
  {
    if SupportedType(p.typeName) then
      Ok(Scalar(KindOf(p.typeName.value), NormalizeCallableName(p.name), ParamDescription(p), !p.optional))
    else Err(UnsupportedType(p.typeName))
  }

  /** The property each parameter becomes, in order. */
  function PropertyResults(params: seq<ToolParam>): (r: seq<Result<Property>>)
    ensures |r| == |params| && forall i :: 0 <= i < |params| ==> r[i] == PropertyOf(params[i])
  {
    seq(|params|, i requires 0 <= i < |params| => PropertyOf(params[i]))
  }

  /** All the values, or the first error. */
  function AllOk(rs: seq<Result<Property>>): (r: Result<seq<Property>>)
    ensures r.Ok? ==> |r.value| == |rs| && forall i :: 0 <= i < |rs| ==> rs[i] == Ok(r.value[i])
    decreases |rs|
  {
    if rs == [] then Ok([])
    else
      var front :- AllOk(rs[..|rs| - 1]);
      var last :- rs[|rs| - 1];
      Ok(front + [last])
  }

  lemma {:induction false} AllOkErr(rs: seq<Result<Property>>)
    ensures AllOk(rs).Err? <==> exists i :: 0 <= i < |rs| && rs[i].Err?
    ensures AllOk(rs).Err? ==>
      exists i :: 0 <= i < |rs| && rs[i].Err? && AllOk(rs).error == rs[i].error && forall j :: 0 <= j < i ==> rs[j].Ok?
    decreases |rs|
  {
    if rs != [] {
      var n := |rs| - 1;
      AllOkErr(rs[..n]);
      assert forall j :: 0 <= j < n ==> rs[..n][j] == rs[j];
    }
  }

  lemma AllOkStep(rs: seq<Result<Property>>, i: nat)
    requires i < |rs|
    ensures AllOk(rs[..i]).Err? ==> AllOk(rs[..i + 1]) == Err(AllOk(rs[..i]).error)
    ensures AllOk(rs[..i]).Ok? && rs[i].Err? ==> AllOk(rs[..i + 1]) == Err(rs[i].error)
    ensures AllOk(rs[..i]).Ok? && rs[i].Ok? ==> AllOk(rs[..i + 1]) == Ok(AllOk(rs[..i]).value + [rs[i].value])
  {
    assert rs[..i + 1][..i] == rs[..i];
  }

  lemma {:induction false} AllOkPrefixErr(rs: seq<Result<Property>>, k: nat)
    requires k <= |rs| && AllOk(rs[..k]).Err?
    ensures AllOk(rs) == AllOk(rs[..k])
    decreases |rs| - k
  {
    if k < |rs| {
      var n := |rs| - 1;
      assert rs[..n][..k] == rs[..k];
      AllOkPrefixErr(rs[..n], k);
    } else {
      assert rs[..k] == rs;
    }
  }

  /** The properties of all parameters; the first unsupported type stops. */
  function PropertiesOf(params: seq<ToolParam>): (r: Result<seq<Property>>)
    ensures r.Ok? ==> |r.value| == |params| && forall i :: 0 <= i < |params| ==> PropertyOf(params[i]) == Ok(r.value[i])
  {
    AllOk(PropertyResults(params))
  }

  lemma PropertiesOfErr(params: seq<ToolParam>)
    ensures PropertiesOf(params).Err? <==> exists i :: 0 <= i < |params| && !SupportedType(params[i].typeName)
    ensures PropertiesOf(params).Err? ==>
      exists i :: 0 <= i < |params| && PropertiesOf(params).error == UnsupportedType(params[i].typeName) &&
                  !SupportedType(params[i].typeName) &&
                  forall j :: 0 <= j < i ==> SupportedType(params[j].typeName)
  {
    AllOkErr(PropertyResults(params));
  }

  /** `buildFunctionSpec`'s result: the name and the definition. */
  datatype Spec = Spec(name: string, definition: GPTFunction)

  /** `buildFunctionSpec` as written: its `$description` variable is reused
      by the parameter loop, so a tool with parameters is described by its
      last parameter's description, or by nothing. */
  function BuildFunctionSpecAsWritten(t: CallableTool): (r: Result<Spec>)
    ensures r.Ok? ==> t.descriptor.Some? && r.value.name == ToolName(t)
    ensures r.Ok? && t.params != [] ==>
      r.value.definition.description == ParamDescription(t.params[|t.params| - 1]).GetOr("")
  {
    if t.descriptor.None? then Err(MissingDescriptor)
    else
      var properties :- PropertiesOf(t.params);
      Ok(Spec(ToolName(t), Plain(ToolName(t), AsWrittenDescription(t), properties, None)))
  }

  /** The `$description ?? ''` that `buildFunctionSpec` sends: the
      descriptor's text for a tool without parameters, otherwise what the
      last parameter left in the variable. */
  function AsWrittenDescription(t: CallableTool): string
    requires t.descriptor.Some?
  {
    if t.params == [] then t.descriptor.value.description
    else ParamDescription(t.params[|t.params| - 1]).GetOr("")
  }

  /** A spec with its definition's description replaced. */
  function Redescribed(s: Spec, description: string): Spec
  {
    Spec(s.name, s.definition.(description := description))
  }

  /** `buildFunctionSpec` with the descriptor's description kept. */
  function BuildFunctionSpec(t: CallableTool): (r: Result<Spec>)
    ensures r.Ok? ==> t.descriptor.Some? && r.value.name == ToolName(t) && r.value.definition.Plain?
    ensures r.Ok? ==> r.value.definition.name == r.value.name && r.value.definition.returnSchema.None?
    ensures r.Ok? ==> r.value.definition.description == t.descriptor.value.description
    ensures r.Ok? ==> PropertiesOf(t.params) == Ok(r.value.definition.properties)
  {
    if t.descriptor.None? then Err(MissingDescriptor)
    else
      var properties :- PropertiesOf(t.params);
      Ok(Spec(ToolName(t), Plain(ToolName(t), t.descriptor.value.description, properties, None)))
  }

  /** A spec is built exactly when the tool has a descriptor and every
      parameter has a supported scalar type; then there is one property per
      parameter, named in snake case, required unless optional. */
  lemma BuildFunctionSpecIff(t: CallableTool)
    ensures BuildFunctionSpec(t).Ok? <==>
      t.descriptor.Some? && forall i :: 0 <= i < |t.params| ==> SupportedType(t.params[i].typeName)
    ensures t.descriptor.None? ==> BuildFunctionSpec(t) == Err(MissingDescriptor)
    ensures BuildFunctionSpec(t).Ok? ==>
      var ps := BuildFunctionSpec(t).value.definition.properties;
      |ps| == |t.params| &&
      forall i :: 0 <= i < |t.params| ==>
        ps[i].Scalar? && ps[i].kind == KindOf(t.params[i].typeName.value) &&
        ps[i].name == NormalizeCallableName(t.params[i].name) && ps[i].required == !t.params[i].optional &&
        ps[i].description == ParamDescription(t.params[i])
  {
    PropertiesOfErr(t.params);
  }

  /** The parameter loop of `buildFunctionSpec`. */
  method CollectProperties(params: seq<ToolParam>) returns (r: Result<seq<Property>>)
    ensures r == PropertiesOf(params)
  {
    ghost var rs := PropertyResults(params);
    var properties: seq<Property> := [];
    var i := 0;
    while i < |params|
      invariant 0 <= i <= |params|
      invariant AllOk(rs[..i]) == Ok(properties)
    {
      AllOkStep(rs, i);
      var p := PropertyOf(params[i]);
      if p.Err? {
        AllOkPrefixErr(rs, i + 1);
        return Err(p.error);
      }
      properties := properties + [p.value];
      i := i + 1;
    }
    assert rs[..i] == rs;
    return Ok(properties);
  }

  /** `buildFunctionSpec` (with the descriptor's description kept). */
  method MakeFunctionSpec(t: CallableTool) returns (r: Result<Spec>)
    ensures r == BuildFunctionSpec(t)
  {
    if t.descriptor.None? {
      return Err(MissingDescriptor);
    }
    var properties := CollectProperties(t.params);
    if properties.Err? {
      return Err(properties.error);
    }
    var name := ToolName(t);
    return Ok(Spec(name, Plain(name, t.descriptor.value.description, properties.value, None)));
  }

  /** The two definitions agree except for the description. */
  lemma AsWrittenDiffersOnlyInDescription(t: CallableTool)
    ensures BuildFunctionSpecAsWritten(t).Ok? <==> BuildFunctionSpec(t).Ok?
    ensures BuildFunctionSpec(t).Ok? ==>
      var w := BuildFunctionSpecAsWritten(t).value;
      var c := BuildFunctionSpec(t).value;
      w.name == c.name && w.definition.Plain? && w.definition.name == c.definition.name &&
      w.definition.properties == c.definition.properties && w.definition.returnSchema == c.definition.returnSchema
  {
  }

  /** The spec the source builds is the corrected one with the as-written
      description put in: the errors are the same, and so is everything
      else in the definition. */
  lemma AsWrittenRedescribes(t: CallableTool)
    ensures BuildFunctionSpec(t).Err? ==> BuildFunctionSpecAsWritten(t) == BuildFunctionSpec(t)
    ensures BuildFunctionSpec(t).Ok? ==>
      BuildFunctionSpecAsWritten(t) == Ok(Redescribed(BuildFunctionSpec(t).value, AsWrittenDescription(t)))
  {
  }

  /** A documented tool with one undocumented parameter loses its
      description: `Returns a number for a letter.` is sent as ``. */
  lemma DescriptionOverwritten()
    ensures var t := CallableTool("numberByLetter", Some(Descriptor(None, "Returns a number for a letter.")),
                                  [ToolParam("letter", Some("string"), None, false, None)], (args: seq<Json>) => JInt(1));
      BuildFunctionSpecAsWritten(t).Ok? && BuildFunctionSpecAsWritten(t).value.definition.description == "" &&
      BuildFunctionSpec(t).Ok? && BuildFunctionSpec(t).value.definition.description == "Returns a number for a letter."
  {
    var t := CallableTool("numberByLetter", Some(Descriptor(None, "Returns a number for a letter.")),
                          [ToolParam("letter", Some("string"), None, false, None)], (args: seq<Json>) => JInt(1));
    assert PropertyOf(t.params[0]).Ok?;
    assert PropertiesOf(t.params).Ok? by {
      assert t.params[..0] == [];
    }
  }

  /** The arguments of a call that supplies each advertised property. */
  function AdvertisedArguments(t: CallableTool, values: seq<Json>): (r: seq<Field>)
    requires |values| == |t.params|
    ensures |r| == |t.params|
    ensures forall j :: 0 <= j < |r| ==> r[j] == Field(NormalizeCallableName(t.params[j].name), values[j])
  {
    seq(|t.params|, j requires 0 <= j < |t.params| => Field(NormalizeCallableName(t.params[j].name), values[j]))
  }

  /** The model is told the snake-case name of a parameter, but the invoker
      binds arguments by the declared name: a required parameter whose name
      has a capital letter is missing from a call that supplies exactly the
      advertised properties. */
  lemma AdvertisedNameNotBound(t: CallableTool, values: seq<Json>, i: nat)
    requires |values| == |t.params| && i < |t.params| && !t.params[i].optional && !NoUpper(t.params[i].name)
    ensures Invoke(InvokerCallable(t), AdvertisedArguments(t, values)).Err?
  {
    var args := AdvertisedArguments(t, values);
    var c := InvokerCallable(t);
    GetFirst(args, t.params[i].name);
    assert !c.params[i].optional && !Has(args, c.params[i].name);
  }
}
