/** The function and property descriptors and their JSON-Schema form:
    `GPTProperties`, the object, custom and scalar property classes,
    `GPTFunction`, `CallableGPTFunction`, `GPTFunctions` and
    `JsonSchemaFormat`. */
module Functions {
  import opened Php
  import opened Invoker

  // ------------------------------------------------------------ JsonSchemaFormat

  /** A structured-output schema with its strict flag (false by default). */
  datatype JsonSchemaFormat = JsonSchemaFormat(schema: seq<Field>, strict: bool)

  function DefaultJsonSchemaFormat(schema: seq<Field>): (f: JsonSchemaFormat)
    ensures f.schema == schema && !f.strict
  {
    JsonSchemaFormat(schema, false)
  }

  /** `JsonSchemaFormat::jsonSerialize`. */
  function FormatJson(f: JsonSchemaFormat): Json {
    var inner := Put(Put(Put([], "name", JStr("Response")), "schema", JMap(f.schema)), "strict", JBool(f.strict));
    JMap(Put(Put([], "type", JStr("json_schema")), "json_schema", JMap(inner)))
  }

  /** The wire form names the format `json_schema`, always calls the schema
      `Response`, and carries the stored schema and strict flag as they are. */
  lemma FormatJsonFields(f: JsonSchemaFormat)
    ensures Idx(FormatJson(f), "type") == JStr("json_schema")
    ensures Idx(Idx(FormatJson(f), "json_schema"), "name") == JStr("Response")
    ensures Idx(Idx(FormatJson(f), "json_schema"), "schema") == JMap(f.schema)
    ensures Idx(Idx(FormatJson(f), "json_schema"), "strict") == JBool(f.strict)
  {
    var i0 := Put([], "name", JStr("Response"));
    var i1 := Put(i0, "schema", JMap(f.schema));
    PutGet([], "name", JStr("Response"));
    PutGet(i0, "schema", JMap(f.schema));
    PutGet(i1, "strict", JBool(f.strict));
    var inner := Put(i1, "strict", JBool(f.strict));
    var o0 := Put([], "type", JStr("json_schema"));
    PutGet([], "type", JStr("json_schema"));
    PutGet(o0, "json_schema", JMap(inner));
  }

  // ------------------------------------------------------------ properties

  /** A custom property's structure definition: an object whose `name` is a string. */
  predicate NamedDefinition(fs: seq<Field>) {
    Get(fs, "name").Some? && Get(fs, "name").value.JStr?
  }

  type Definition = fs: seq<Field> | NamedDefinition(fs) witness [Field("name", JStr(""))]

  /** A `GPTProperty`: one of the scalar classes, `GPTObjectProperty` or
      `GPTCustomProperty`. */
  datatype Property =
    | Scalar(kind: ScalarKind, name: string, description: Option<string>, required: bool)
    | ObjectProperty(name: string, description: Option<string>, properties: seq<Property>, required: bool)
    | Custom(definition: Definition, required: bool)

  /** `getName`. */
  function Name(p: Property): (r: string)
    ensures p.Custom? ==> Get(p.definition, "name") == Some(JStr(r))
    ensures !p.Custom? ==> r == p.name
  {
    match p
    case Scalar(_, n, _, _) => n
    case ObjectProperty(n, _, _, _) => n
    case Custom(d, _) => Get(d, "name").value.s
  }

  /** `isRequired`: the constructor flag, whatever a definition contains. */
  predicate IsRequired(p: Property) {
    p.required
  }

  function ObjectPropertyOf(name: string, description: Option<string>, properties: seq<Property>): (p: Property)
    ensures p.ObjectProperty? && Name(p) == name && !IsRequired(p)
  {
    ObjectProperty(name, description, properties, false)
  }

  /** The names of the required properties, in order (the `required` loops). */
  function RequiredNames(ps: seq<Property>): (r: seq<string>)
    ensures |r| <= |ps|
    decreases |ps|
  {
    if ps == [] then []
    else
      var front := RequiredNames(ps[..|ps| - 1]);
      var last := ps[|ps| - 1];
      if IsRequired(last) then front + [Name(last)] else front
  }

  /** A name is listed exactly when some required property carries it, and
      the list is empty exactly when no property is required. */
  lemma {:induction false} RequiredNamesMembers(ps: seq<Property>)
    ensures forall n :: n in RequiredNames(ps) <==> exists i :: 0 <= i < |ps| && IsRequired(ps[i]) && Name(ps[i]) == n
    ensures RequiredNames(ps) == [] <==> forall i :: 0 <= i < |ps| ==> !IsRequired(ps[i])
    decreases |ps|
  {
    if ps != [] {
      var k := |ps| - 1;
      RequiredNamesMembers(ps[..k]);
      assert forall i :: 0 <= i < k ==> ps[..k][i] == ps[i];
    }
  }

  /** The list keeps the order of the properties: requiredness is preserved
      under a prefix, so `RequiredNames(ps[..k])` is a prefix of `RequiredNames(ps)`. */
  lemma {:induction false} RequiredNamesPrefix(ps: seq<Property>, k: nat)
    requires k <= |ps|
    ensures RequiredNames(ps[..k]) <= RequiredNames(ps)
    decreases |ps| - k
  {
    if k < |ps| {
      RequiredNamesPrefix(ps, k + 1);
      var n := k + 1;
      assert ps[..n][..k] == ps[..k];
      assert ps[..n][n - 1] == ps[k];
    } else {
      assert ps[..k] == ps;
    }
  }

  method CollectRequired(ps: seq<Property>) returns (r: seq<string>)
    ensures r == RequiredNames(ps)
  {
    r := [];
    var i := 0;
    while i < |ps|
      invariant 0 <= i <= |ps|
      invariant r == RequiredNames(ps[..i])
    {
      assert ps[..i + 1][..i] == ps[..i];
      if IsRequired(ps[i]) {
        r := r + [Name(ps[i])];
      }
      i := i + 1;
    }
    assert ps[..i] == ps;
  }

  /** `jsonSerialize` of one property. */
  function PropertyJson(h: Host, p: Property): Json
    decreases p, 2
  {
    match p
    case Scalar(k, n, d, _) => h.scalarSchema(k, n, d)
    case Custom(d, _) => JObj(d)
    case ObjectProperty(n, d, ps, _) => JMap(ObjectFields(n, d, PropertiesJson(h, ps), RequiredNames(ps)))
  }

  /** The fields of `GPTObjectProperty::jsonSerialize`. */
  function ObjectFields(name: string, description: Option<string>, properties: Json, required: seq<string>): seq<Field> {
    var data := Put(Put([], "type", JStr("object")), "name", JStr(name));
    var data := if description.Some? then Put(data, "description", JStr(description.value)) else data;
    var data := Put(data, "properties", properties);
    if required != [] then Put(data, "required", JList(Strings(required))) else data
  }

  lemma ObjectFieldsLookup(name: string, description: Option<string>, properties: Json, required: seq<string>)
    ensures Get(ObjectFields(name, description, properties, required), "type") == Some(JStr("object"))
    ensures Get(ObjectFields(name, description, properties, required), "name") == Some(JStr(name))
    ensures Get(ObjectFields(name, description, properties, required), "properties") == Some(properties)
    ensures Get(ObjectFields(name, description, properties, required), "description") ==
      if description.Some? then Some(JStr(description.value)) else None
    ensures Get(ObjectFields(name, description, properties, required), "required") ==
      if required != [] then Some(JList(Strings(required))) else None
  {
    var d0 := Put([], "type", JStr("object"));
    PutGet([], "type", JStr("object"));
    var d1 := Put(d0, "name", JStr(name));
    PutGet(d0, "name", JStr(name));
    var d2 := if description.Some? then Put(d1, "description", JStr(description.value)) else d1;
    if description.Some? {
      PutGet(d1, "description", JStr(description.value));
    }
    var d3 := Put(d2, "properties", properties);
    PutGet(d2, "properties", properties);
    if required != [] {
      PutGet(d3, "required", JList(Strings(required)));
    }
  }

  /** `GPTProperties::jsonSerialize`: an object keyed by property name. */
  function PropertiesJson(h: Host, ps: seq<Property>): Json
    decreases ps, 1
  {
    JObj(PutProperties(h, [], ps))
  }

  /** The keyed-assignment loop, from the fields assigned so far. */
  function PutProperties(h: Host, acc: seq<Field>, ps: seq<Property>): seq<Field>
    decreases ps, 0
  {
    if ps == [] then acc
    else PutProperties(h, Put(acc, Name(ps[0]), PropertyJson(h, ps[0])), ps[1..])
  }

  method SerializeProperties(h: Host, ps: seq<Property>) returns (r: Json)
    ensures r == PropertiesJson(h, ps)
  {
    var data: seq<Field> := [];
    var i := 0;
    while i < |ps|
      invariant 0 <= i <= |ps|
      invariant PutProperties(h, data, ps[i..]) == PutProperties(h, [], ps)
    {
      assert ps[i..][1..] == ps[i + 1..];
      data := Put(data, Name(ps[i]), PropertyJson(h, ps[i]));
      i := i + 1;
    }
    return JObj(data);
  }

  function Names(ps: seq<Property>): (r: seq<string>)
    ensures |r| == |ps| && forall i :: 0 <= i < |ps| ==> r[i] == Name(ps[i])
  {
    if ps == [] then [] else [Name(ps[0])] + Names(ps[1..])
  }

  /** `xs` with every element after its first occurrence dropped, appended to `acc`. */
  function FirstOccurrences(acc: seq<string>, xs: seq<string>): seq<string>
    decreases xs
  {
    if xs == [] then acc
    else FirstOccurrences(if xs[0] in acc then acc else acc + [xs[0]], xs[1..])
  }

  /** Key order is first-occurrence order of the names. */
  lemma {:induction false} PutPropertiesKeys(h: Host, acc: seq<Field>, ps: seq<Property>)
    ensures Keys(PutProperties(h, acc, ps)) == FirstOccurrences(Keys(acc), Names(ps))
    decreases ps
  {
    if ps != [] {
      var acc' := Put(acc, Name(ps[0]), PropertyJson(h, ps[0]));
      KeysPut(acc, Name(ps[0]), PropertyJson(h, ps[0]));
      PutPropertiesKeys(h, acc', ps[1..]);
      assert Names(ps)[1..] == Names(ps[1..]);
    }
  }

  /** A name that occurs at `j` and never later takes the value of `ps[j]`. */
  lemma {:induction false} PutPropertiesLastWins(h: Host, acc: seq<Field>, ps: seq<Property>, j: nat)
    requires j < |ps|
    requires forall l :: j < l < |ps| ==> Name(ps[l]) != Name(ps[j])
    ensures Get(PutProperties(h, acc, ps), Name(ps[j])) == Some(PropertyJson(h, ps[j]))
    decreases ps
  {
    var acc' := Put(acc, Name(ps[0]), PropertyJson(h, ps[0]));
    PutGet(acc, Name(ps[0]), PropertyJson(h, ps[0]));
    if j == 0 {
      PutPropertiesUntouched(h, acc', ps[1..], Name(ps[0]));
    } else {
      PutPropertiesLastWins(h, acc', ps[1..], j - 1);
    }
  }

  /** Names that do not occur keep the value they had before the loop. */
  lemma {:induction false} PutPropertiesUntouched(h: Host, acc: seq<Field>, ps: seq<Property>, k: string)
    requires forall l :: 0 <= l < |ps| ==> Name(ps[l]) != k
    ensures Get(PutProperties(h, acc, ps), k) == Get(acc, k)
    decreases ps
  {
    if ps != [] {
      var acc' := Put(acc, Name(ps[0]), PropertyJson(h, ps[0]));
      PutGet(acc, Name(ps[0]), PropertyJson(h, ps[0]));
      PutPropertiesUntouched(h, acc', ps[1..], k);
    }
  }

  /** The serialised properties: an object whose keys are the names in
      first-occurrence order, each holding the last property of that name. */
  lemma PropertiesJsonShape(h: Host, ps: seq<Property>)
    ensures PropertiesJson(h, ps).JObj?
    ensures Keys(PropertiesJson(h, ps).props) == FirstOccurrences([], Names(ps))
    ensures forall k :: (forall l :: 0 <= l < |ps| ==> Name(ps[l]) != k) ==> !Has(PropertiesJson(h, ps).props, k)
    ensures forall j :: 0 <= j < |ps| && (forall l :: j < l < |ps| ==> Name(ps[l]) != Name(ps[j])) ==>
      Get(PropertiesJson(h, ps).props, Name(ps[j])) == Some(PropertyJson(h, ps[j]))
  {
    PutPropertiesKeys(h, [], ps);
    forall k | forall l :: 0 <= l < |ps| ==> Name(ps[l]) != k
      ensures !Has(PropertiesJson(h, ps).props, k)
    {
      PutPropertiesUntouched(h, [], ps, k);
    }
    forall j | 0 <= j < |ps| && (forall l :: j < l < |ps| ==> Name(ps[l]) != Name(ps[j]))
      ensures Get(PropertiesJson(h, ps).props, Name(ps[j])) == Some(PropertyJson(h, ps[j]))
    {
      PutPropertiesLastWins(h, [], ps, j);
    }
  }

  /** With no properties the result is an empty object. */
  lemma PropertiesJsonEmpty(h: Host)
    ensures PropertiesJson(h, []) == JObj([])
  {
  }

  /** With distinct names the keys are exactly the names, in order. */
  lemma {:induction false} FirstOccurrencesDistinct(acc: seq<string>, xs: seq<string>)
    requires forall i, j :: 0 <= i < j < |xs| ==> xs[i] != xs[j]
    requires forall i :: 0 <= i < |xs| ==> xs[i] !in acc
    ensures FirstOccurrences(acc, xs) == acc + xs
    decreases xs
  {
    if xs != [] {
      FirstOccurrencesDistinct(acc + [xs[0]], xs[1..]);
      assert acc + [xs[0]] + xs[1..] == acc + xs;
    }
  }

  /** `GPTObjectProperty::jsonSerialize` in terms of its children. */
  lemma ObjectPropertyJson(h: Host, p: Property)
    requires p.ObjectProperty?
    ensures PropertyJson(h, p).JMap?
    ensures Get(PropertyJson(h, p).fields, "type") == Some(JStr("object"))
    ensures Get(PropertyJson(h, p).fields, "name") == Some(JStr(p.name))
    ensures Get(PropertyJson(h, p).fields, "properties") == Some(PropertiesJson(h, p.properties))
  {
    ObjectFieldsLookup(p.name, p.description, PropertiesJson(h, p.properties), RequiredNames(p.properties));
  }

  /** `description` appears exactly when one was given. */
  lemma ObjectPropertyDescription(h: Host, p: Property)
    requires p.ObjectProperty?
    ensures Get(PropertyJson(h, p).fields, "description") ==
      if p.description.Some? then Some(JStr(p.description.value)) else None
  {
    ObjectFieldsLookup(p.name, p.description, PropertiesJson(h, p.properties), RequiredNames(p.properties));
  }

  /** `required` lists the required children in order and is omitted when none is required. */
  lemma ObjectPropertyRequired(h: Host, p: Property)
    requires p.ObjectProperty?
    ensures Has(PropertyJson(h, p).fields, "required") <==> exists i :: 0 <= i < |p.properties| && IsRequired(p.properties[i])
    ensures Has(PropertyJson(h, p).fields, "required") ==>
      Get(PropertyJson(h, p).fields, "required") == Some(JList(Strings(RequiredNames(p.properties))))
  {
    ObjectFieldsLookup(p.name, p.description, PropertiesJson(h, p.properties), RequiredNames(p.properties));
    RequiredNamesMembers(p.properties);
  }

  /** `GPTCustomProperty::jsonSerialize` returns its definition verbatim. */
  lemma CustomPropertyJson(h: Host, p: Property)
    requires p.Custom?
    ensures PropertyJson(h, p) == JObj(p.definition)
  {
  }

  // ------------------------------------------------------------ functions

  /** A `GPTFunction` with an optional return schema, or a
      `CallableGPTFunction`, which never has one but carries its callable. */
  datatype GPTFunction =
    | Plain(name: string, description: string, properties: seq<Property>, returnSchema: Option<JsonSchemaFormat>)
    | CallableFunction(name: string, description: string, properties: seq<Property>, callable: Callable)

  /** The return schema handed to `GPTFunction`'s constructor. */
  function Returns(f: GPTFunction): (r: Option<JsonSchemaFormat>)
    ensures f.CallableFunction? ==> r == None
  {
    if f.Plain? then f.returnSchema else None
  }

  /** `getCallable` of a `CallableGPTFunction`. */
  function GetCallableOf(f: GPTFunction): (r: Option<Callable>)
    ensures r.Some? <==> f.CallableFunction?
  {
    if f.CallableFunction? then Some(f.callable) else None
  }

  /** The `parameters` object of `GPTFunction::jsonSerialize`. */
  function ParametersJson(h: Host, ps: seq<Property>): Json {
    JObj(ParametersFields(PropertiesJson(h, ps), RequiredNames(ps)))
  }

  function ParametersFields(properties: Json, required: seq<string>): seq<Field> {
    var parameters := Put(Put(Put([], "type", JStr("object")), "properties", properties),
                          "additionalProperties", JBool(false));
    if required != [] then Put(parameters, "required", JList(Strings(required))) else parameters
  }

  lemma ParametersFieldsLookup(properties: Json, required: seq<string>)
    ensures Get(ParametersFields(properties, required), "type") == Some(JStr("object"))
    ensures Get(ParametersFields(properties, required), "properties") == Some(properties)
    ensures Get(ParametersFields(properties, required), "additionalProperties") == Some(JBool(false))
    ensures Get(ParametersFields(properties, required), "required") ==
      if required != [] then Some(JList(Strings(required))) else None
  {
    var d0 := Put([], "type", JStr("object"));
    PutGet([], "type", JStr("object"));
    var d1 := Put(d0, "properties", properties);
    PutGet(d0, "properties", properties);
    var d2 := Put(d1, "additionalProperties", JBool(false));
    PutGet(d1, "additionalProperties", JBool(false));
    if required != [] {
      PutGet(d2, "required", JList(Strings(required)));
    }
  }

  /** The `returns` object: the schema as an object, then `strict`
      (always set, since the flag is a non-null bool). */
  function ReturnsJson(f: JsonSchemaFormat): (r: Json)
    ensures r.JObj?
    ensures Get(r.props, "strict") == Some(JBool(f.strict))
    ensures forall k :: k != "strict" ==> Get(r.props, k) == Get(f.schema, k)
  {
    PutGet(f.schema, "strict", JBool(f.strict));
    JObj(Put(f.schema, "strict", JBool(f.strict)))
  }

  /** `GPTFunction::jsonSerialize`. */
  function FunctionJson(h: Host, f: GPTFunction): Json {
    var returned := if Returns(f).Some? then Some(ReturnsJson(Returns(f).value)) else None;
    JMap(FunctionFields(f.name, f.description, ParametersJson(h, f.properties), returned))
  }

  function FunctionFields(name: string, description: string, parameters: Json, returned: Option<Json>): seq<Field> {
    var data := Put(Put(Put([], "name", JStr(name)), "description", JStr(description)), "parameters", parameters);
    if returned.Some? then Put(data, "returns", returned.value) else data
  }

  lemma FunctionFieldsLookup(name: string, description: string, parameters: Json, returned: Option<Json>)
    ensures Get(FunctionFields(name, description, parameters, returned), "name") == Some(JStr(name))
    ensures Get(FunctionFields(name, description, parameters, returned), "description") == Some(JStr(description))
    ensures Get(FunctionFields(name, description, parameters, returned), "parameters") == Some(parameters)
    ensures Get(FunctionFields(name, description, parameters, returned), "returns") == returned
  {
    var d0 := Put([], "name", JStr(name));
    PutGet([], "name", JStr(name));
    var d1 := Put(d0, "description", JStr(description));
    PutGet(d0, "description", JStr(description));
    var d2 := Put(d1, "parameters", parameters);
    PutGet(d1, "parameters", parameters);
    if returned.Some? {
      PutGet(d2, "returns", returned.value);
    }
  }

  /** `parameters` is an object schema that never admits extra properties. */
  lemma ParametersJsonFields(h: Host, ps: seq<Property>)
    ensures Get(ParametersJson(h, ps).props, "type") == Some(JStr("object"))
    ensures Get(ParametersJson(h, ps).props, "properties") == Some(PropertiesJson(h, ps))
    ensures Get(ParametersJson(h, ps).props, "additionalProperties") == Some(JBool(false))
  {
    ParametersFieldsLookup(PropertiesJson(h, ps), RequiredNames(ps));
  }

  /** `required` lists the required properties in order and is omitted when none is. */
  lemma ParametersJsonRequired(h: Host, ps: seq<Property>)
    ensures Has(ParametersJson(h, ps).props, "required") <==> exists i :: 0 <= i < |ps| && IsRequired(ps[i])
    ensures Has(ParametersJson(h, ps).props, "required") ==>
      Get(ParametersJson(h, ps).props, "required") == Some(JList(Strings(RequiredNames(ps))))
  {
    ParametersFieldsLookup(PropertiesJson(h, ps), RequiredNames(ps));
    RequiredNamesMembers(ps);
  }

  /** Name and description are copied verbatim, next to the parameters object. */
  lemma FunctionJsonFields(h: Host, f: GPTFunction)
    ensures Get(FunctionJson(h, f).fields, "name") == Some(JStr(f.name))
    ensures Get(FunctionJson(h, f).fields, "description") == Some(JStr(f.description))
    ensures Get(FunctionJson(h, f).fields, "parameters") == Some(ParametersJson(h, f.properties))
  {
    var returned := if Returns(f).Some? then Some(ReturnsJson(Returns(f).value)) else None;
    FunctionFieldsLookup(f.name, f.description, ParametersJson(h, f.properties), returned);
  }

  /** `returns` is present exactly when a return schema was given, as that
      schema with `strict`; a callable function never has one. */
  lemma FunctionJsonReturns(h: Host, f: GPTFunction)
    ensures Get(FunctionJson(h, f).fields, "returns") ==
      if Returns(f).Some? then Some(ReturnsJson(Returns(f).value)) else None
    ensures f.CallableFunction? ==> !Has(FunctionJson(h, f).fields, "returns")
  {
    var returned := if Returns(f).Some? then Some(ReturnsJson(Returns(f).value)) else None;
    FunctionFieldsLookup(f.name, f.description, ParametersJson(h, f.properties), returned);
  }

  /** The required-name loop of `GPTFunction::jsonSerialize`. */
  method SerializeFunction(h: Host, f: GPTFunction) returns (r: Json)
    ensures r == FunctionJson(h, f)
  {
    var properties := SerializeProperties(h, f.properties);
    var parameters := Put(Put(Put([], "type", JStr("object")), "properties", properties),
                          "additionalProperties", JBool(false));
    var required := CollectRequired(f.properties);
    if |required| > 0 {
      parameters := Put(parameters, "required", JList(Strings(required)));
    }
    var data := Put(Put(Put([], "name", JStr(f.name)), "description", JStr(f.description)),
                    "parameters", JObj(parameters));
    if f.Plain? && f.returnSchema.Some? {
      data := Put(data, "returns", JObj(Put(f.returnSchema.value.schema, "strict", JBool(f.returnSchema.value.strict))));
    }
    assert parameters == ParametersFields(properties, required);
    return JMap(data);
  }

  // ------------------------------------------------------------ GPTFunctions

  /** `GPTFunctions`: the functions in constructor order, and the map from
      name to callable its constructor fills. */
  datatype GPTFunctions = GPTFunctions(functions: seq<GPTFunction>, callableMap: map<string, Callable>)

  /** The map the constructor's loop builds: later callables of a name win. */
  function CallableMapOf(fs: seq<GPTFunction>): map<string, Callable>
    decreases |fs|
  {
    if fs == [] then map[]
    else
      var m := CallableMapOf(fs[..|fs| - 1]);
      var last := fs[|fs| - 1];
      if last.CallableFunction? then m[last.name := last.callable] else m
  }

  /** A name has a callable exactly when some callable function carries it;
      plain functions never contribute one. */
  lemma {:induction false} CallableMapDomain(fs: seq<GPTFunction>, n: string)
    ensures n in CallableMapOf(fs) <==> exists i :: 0 <= i < |fs| && fs[i].CallableFunction? && fs[i].name == n
    decreases |fs|
  {
    if fs != [] {
      var k := |fs| - 1;
      CallableMapDomain(fs[..k], n);
      assert forall i :: 0 <= i < k ==> fs[..k][i] == fs[i];
      if n in CallableMapOf(fs[..k]) {
        var i :| 0 <= i < k && fs[..k][i].CallableFunction? && fs[..k][i].name == n;
        assert fs[i].CallableFunction? && fs[i].name == n;
      }
    }
  }

  /** For a name registered more than once, the last callable wins. */
  lemma {:induction false} CallableMapLastWins(fs: seq<GPTFunction>, j: nat)
    requires j < |fs| && fs[j].CallableFunction?
    requires forall l :: j < l < |fs| ==> !(fs[l].CallableFunction? && fs[l].name == fs[j].name)
    ensures fs[j].name in CallableMapOf(fs) && CallableMapOf(fs)[fs[j].name] == fs[j].callable
    decreases |fs|
  {
    var n := |fs| - 1;
    if j < n {
      assert forall l :: j < l < n ==> fs[..n][l] == fs[l];
      CallableMapLastWins(fs[..n], j);
    }
  }

  method NewFunctions(fs: seq<GPTFunction>) returns (r: GPTFunctions)
    ensures r.functions == fs
    ensures r.callableMap == CallableMapOf(fs)
  {
    var m: map<string, Callable> := map[];
    var i := 0;
    while i < |fs|
      invariant 0 <= i <= |fs|
      invariant m == CallableMapOf(fs[..i])
    {
      assert fs[..i + 1][..i] == fs[..i];
      if fs[i].CallableFunction? {
        m := m[fs[i].name := fs[i].callable];
      }
      i := i + 1;
    }
    assert fs[..i] == fs;
    return GPTFunctions(fs, m);
  }

  /** `getCallable`: present exactly when some callable function has the name. */
  function GetCallable(g: GPTFunctions, name: string): (r: Option<Callable>)
    requires g.callableMap == CallableMapOf(g.functions)
    ensures r.Some? <==> exists i :: 0 <= i < |g.functions| && g.functions[i].CallableFunction? && g.functions[i].name == name
  {
    CallableMapDomain(g.functions, name);
    if name in g.callableMap then Some(g.callableMap[name]) else None
  }

  /** `GPTFunctions::jsonSerialize`: one entry per function, in order. */
  function FunctionsJson(h: Host, g: GPTFunctions): (r: seq<Json>)
    ensures |r| == |g.functions|
    ensures forall i :: 0 <= i < |r| ==> r[i] == FunctionJson(h, g.functions[i])
  {
    FunctionsJsonOfElements(h, g.functions);
    FunctionsJsonOf(h, g.functions)
  }

  function FunctionsJsonOf(h: Host, fs: seq<GPTFunction>): (r: seq<Json>)
    ensures |r| == |fs|
    decreases |fs|
  {
    if fs == [] then [] else FunctionsJsonOf(h, fs[..|fs| - 1]) + [FunctionJson(h, fs[|fs| - 1])]
  }

  lemma {:induction false} FunctionsJsonOfElements(h: Host, fs: seq<GPTFunction>)
    ensures forall i :: 0 <= i < |fs| ==> FunctionsJsonOf(h, fs)[i] == FunctionJson(h, fs[i])
    decreases |fs|
  {
    if fs != [] {
      var n := |fs| - 1;
      FunctionsJsonOfElements(h, fs[..n]);
      assert forall i :: 0 <= i < n ==> fs[..n][i] == fs[i];
    }
  }

  method SerializeFunctions(h: Host, g: GPTFunctions) returns (r: seq<Json>)
    ensures r == FunctionsJson(h, g)
  {
    r := [];
    var i := 0;
    while i < |g.functions|
      invariant 0 <= i <= |g.functions|
      invariant r == FunctionsJsonOf(h, g.functions[..i])
    {
      assert g.functions[..i + 1][..i] == g.functions[..i];
      var item := SerializeFunction(h, g.functions[i]);
      r := r + [item];
      i := i + 1;
    }
    assert g.functions[..i] == g.functions;
  }
}
