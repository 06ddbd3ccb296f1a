/** The rewrite of a structured-output schema into the shape the Responses
    API demands (`ChatGPT::enforceResponsesJsonSchema`) and the mapping of a
    response format onto the Responses API (`mapResponseFormatForResponsesApi`). */
module StrictSchema {
  import opened Php
  import opened Functions

  // ------------------------------------------------------------ sizes

  function Size(v: Json): (n: nat)
    ensures n >= 1
    decreases v, 1
  {
    match v
    case JList(xs) => 1 + ListSize(xs)
    case JMap(fs) => 1 + FieldsSize(fs)
    case JObj(fs) => 1 + FieldsSize(fs)
    case _ => 1
  }

  function ListSize(xs: seq<Json>): nat
    decreases xs, 0
  {
    if xs == [] then 0 else Size(xs[0]) + ListSize(xs[1..])
  }

  function FieldsSize(fs: seq<Field>): nat
    decreases fs, 0
  {
    if fs == [] then 0 else Size(fs[0].value) + FieldsSize(fs[1..])
  }

  lemma {:induction false} GetSize(fs: seq<Field>, k: string)
    ensures Get(fs, k).Some? ==> Size(Get(fs, k).value) <= FieldsSize(fs)
  {
    if fs != [] && fs[0].key != k {
      GetSize(fs[1..], k);
    }
  }

  // ------------------------------------------------------------ the rewrite

  /** `array_keys`: the string keys of a map, the indices of a list. */
  function ArrayKeys(p: Json): Json
    requires IsArray(p)
  {
    if p.JMap? then JList(Strings(Keys(p.fields))) else JList(Indices(|p.elems|))
  }

  function Indices(n: nat): (r: seq<Json>)
    ensures |r| == n && forall i :: 0 <= i < n ==> r[i] == JInt(i)
  {
    if n == 0 then [] else Indices(n - 1) + [JInt(n - 1)]
  }

  /** `enforceResponsesJsonSchema`: an object is first cast to an array;
      anything that is then not an array is returned as it is. */
  function Enforce(x: Json): (r: Json)
    ensures r.JNull? <==> x.JNull?
    ensures (x.JMap? || x.JObj?) ==> r.JMap?
    ensures !x.JMap? && !x.JObj? ==> r == x
    decreases Size(x), 3
  {
    match x
    case JObj(fs) => EnforceMap(fs)
    case JMap(fs) => EnforceMap(fs)
    case _ => x
  }

  /** The rewrite of an array schema, by its `type`. */
  function EnforceMap(fs: seq<Field>): (r: Json)
    ensures r.JMap?
    decreases FieldsSize(fs) + 1, 2
  {
    var t := Get(fs, "type").GetOr(JNull);
    if t == JStr("object") then JMap(ObjectRewrite(fs))
    else if t == JStr("array") && Isset(fs, "items") then
      GetSize(fs, "items");
      JMap(Put(fs, "items", Enforce(Get(fs, "items").value)))
    else JMap(fs)
  }

  /** `$schema['properties'] ?? []`, with an object cast to an array. */
  function PropertiesOf(fs: seq<Field>): (p: Json)
    ensures Size(p) <= FieldsSize(fs) + 1
    ensures p.JObj? ==> false
  {
    GetSize(fs, "properties");
    var p0 := Coalesce(Get(fs, "properties").GetOr(JNull), JList([]));
    if p0.JObj? then JMap(p0.props) else p0
  }

  /** The `object` branch: rewrite every property schema, fill `required`
      with the property keys when it is unset or null, and add
      `additionalProperties: false` when that key is absent. */
  function ObjectRewrite(fs: seq<Field>): seq<Field>
    decreases FieldsSize(fs) + 1, 1
  {
    CloseObject(FillProperties(fs))
  }

  /** When the properties are an array: each property schema rewritten,
      then `required` filled from their keys. */
  function FillProperties(fs: seq<Field>): seq<Field>
    decreases FieldsSize(fs) + 1, 0
  {
    var p1 := PropertiesOf(fs);
    if IsArray(p1) then
      var p2 := EnforceValues(p1);
      FillRequired(Put(fs, "properties", p2), p2)
    else fs
  }

  function FillRequired(s: seq<Field>, properties: Json): seq<Field>
    requires IsArray(properties)
  {
    if !Isset(s, "required") then Put(s, "required", ArrayKeys(properties)) else s
  }

  function CloseObject(s: seq<Field>): seq<Field> {
    if !Has(s, "additionalProperties") then Put(s, "additionalProperties", JBool(false)) else s
  }

  /** The `foreach` over the properties: each value rewritten under its key. */
  function EnforceValues(p: Json): (r: Json)
    requires IsArray(p)
    ensures p.JMap? ==> r.JMap? && |r.fields| == |p.fields|
    ensures p.JList? ==> r.JList? && |r.elems| == |p.elems|
    decreases Size(p) - 1, 5
  {
    if p.JMap? then JMap(EnforceFields(p.fields)) else JList(EnforceList(p.elems))
  }

  function EnforceFields(fs: seq<Field>): (r: seq<Field>)
    ensures |r| == |fs|
    decreases FieldsSize(fs), 4
  {
    if fs == [] then [] else [Field(fs[0].key, Enforce(fs[0].value))] + EnforceFields(fs[1..])
  }

  function EnforceList(xs: seq<Json>): (r: seq<Json>)
    ensures |r| == |xs|
    decreases ListSize(xs), 4
  {
    if xs == [] then [] else [Enforce(xs[0])] + EnforceList(xs[1..])
  }

  // ------------------------------------------------------------ what it does

  /** Each property keeps its key and position; its schema is rewritten. */
  lemma {:induction false} EnforceFieldsShape(fs: seq<Field>)
    ensures Keys(EnforceFields(fs)) == Keys(fs)
    ensures forall i :: 0 <= i < |fs| ==> EnforceFields(fs)[i].value == Enforce(fs[i].value)
  {
    if fs != [] {
      EnforceFieldsShape(fs[1..]);
      assert forall i :: 1 <= i < |fs| ==> EnforceFields(fs)[i] == EnforceFields(fs[1..])[i - 1];
    }
  }

  /** The keys `required` is filled with are the property keys, in order. */
  lemma EnforceValuesKeys(p: Json)
    requires IsArray(p)
    ensures ArrayKeys(EnforceValues(p)) == ArrayKeys(p)
  {
    if p.JMap? {
      EnforceFieldsShape(p.fields);
    }
  }

  /** `additionalProperties` is added as false only when the key is absent. */
  lemma CloseObjectGet(s: seq<Field>)
    ensures Get(CloseObject(s), "additionalProperties") ==
      if Has(s, "additionalProperties") then Get(s, "additionalProperties") else Some(JBool(false))
    ensures forall k :: k != "additionalProperties" ==> Get(CloseObject(s), k) == Get(s, k)
  {
    PutGet(s, "additionalProperties", JBool(false));
  }

  /** `required` is filled with the property keys only when unset or null. */
  lemma FillRequiredGet(s: seq<Field>, properties: Json)
    requires IsArray(properties)
    ensures Get(FillRequired(s, properties), "required") ==
      if Isset(s, "required") then Get(s, "required") else Some(ArrayKeys(properties))
    ensures forall k :: k != "required" ==> Get(FillRequired(s, properties), k) == Get(s, k)
  {
    PutGet(s, "required", ArrayKeys(properties));
  }

  lemma FillPropertiesGet(fs: seq<Field>)
    ensures IsArray(PropertiesOf(fs)) ==>
      Get(FillProperties(fs), "properties") == Some(EnforceValues(PropertiesOf(fs)))
    ensures IsArray(PropertiesOf(fs)) && !Isset(fs, "required") ==>
      Get(FillProperties(fs), "required") == Some(ArrayKeys(PropertiesOf(fs)))
    ensures Isset(fs, "required") || !IsArray(PropertiesOf(fs)) ==>
      Get(FillProperties(fs), "required") == Get(fs, "required")
    ensures forall k :: k != "properties" && k != "required" ==> Get(FillProperties(fs), k) == Get(fs, k)
  {
    var p1 := PropertiesOf(fs);
    if IsArray(p1) {
      var p2 := EnforceValues(p1);
      EnforceValuesKeys(p1);
      var s1 := Put(fs, "properties", p2);
      PutGet(fs, "properties", p2);
      FillRequiredGet(s1, p2);
    }
  }

  /** The `object` branch: `properties` rewritten, `required` filled with
      the property keys only when it is unset or null, `additionalProperties`
      added only when absent, and every other key left alone. */
  lemma ObjectRewriteGet(fs: seq<Field>)
    ensures IsArray(PropertiesOf(fs)) ==>
      Get(ObjectRewrite(fs), "properties") == Some(EnforceValues(PropertiesOf(fs)))
    ensures IsArray(PropertiesOf(fs)) && !Isset(fs, "required") ==>
      Get(ObjectRewrite(fs), "required") == Some(ArrayKeys(PropertiesOf(fs)))
    ensures Isset(fs, "required") || !IsArray(PropertiesOf(fs)) ==>
      Get(ObjectRewrite(fs), "required") == Get(fs, "required")
    ensures Get(ObjectRewrite(fs), "additionalProperties") ==
      if Has(fs, "additionalProperties") then Get(fs, "additionalProperties") else Some(JBool(false))
    ensures forall k :: k != "properties" && k != "required" && k != "additionalProperties" ==>
      Get(ObjectRewrite(fs), k) == Get(fs, k)
  {
    var f := FillProperties(fs);
    FillPropertiesGet(fs);
    CloseObjectGet(f);
    assert ObjectRewrite(fs) == CloseObject(f);
    assert "additionalProperties" != "properties" && "additionalProperties" != "required" by {
      assert "additionalProperties"[0] != "properties"[0] && "additionalProperties"[0] != "required"[0];
    }
    assert Get(f, "additionalProperties") == Get(fs, "additionalProperties");
    assert Get(CloseObject(f), "properties") == Get(f, "properties");
    assert Get(CloseObject(f), "required") == Get(f, "required");
  }

  /** An `array` node with `items` has its items rewritten and nothing else. */
  lemma ArrayNode(fs: seq<Field>)
    requires Get(fs, "type") == Some(JStr("array")) && Isset(fs, "items")
    ensures EnforceMap(fs).fields == Put(fs, "items", Enforce(Get(fs, "items").value))
    ensures Get(EnforceMap(fs).fields, "items") == Some(Enforce(Get(fs, "items").value))
    ensures forall k :: k != "items" ==> Get(EnforceMap(fs).fields, k) == Get(fs, k)
  {
    PutGet(fs, "items", Enforce(Get(fs, "items").value));
  }

  // ------------------------------------------------------------ idempotence

  /** The rewrite only fills what is absent, so a second pass changes nothing. */
  lemma {:induction false} EnforceIdempotent(x: Json)
    ensures Enforce(Enforce(x)) == Enforce(x)
    decreases Size(x), 3
  {
    match x
    case JObj(fs) => EnforceMapIdempotent(fs);
    case JMap(fs) => EnforceMapIdempotent(fs);
    case _ =>
  }

  lemma {:induction false} EnforceMapIdempotent(fs: seq<Field>)
    ensures EnforceMap(EnforceMap(fs).fields) == EnforceMap(fs)
    decreases FieldsSize(fs) + 1, 2
  {
    var t := Get(fs, "type").GetOr(JNull);
    if t == JStr("object") {
      ObjectRewriteIdempotent(fs);
      ObjectRewriteGet(fs);
    } else if t == JStr("array") && Isset(fs, "items") {
      GetSize(fs, "items");
      var items := Get(fs, "items").value;
      var r := Put(fs, "items", Enforce(items));
      PutGet(fs, "items", Enforce(items));
      EnforceIdempotent(items);
      PutSame(r, "items", Enforce(items));
    }
  }

  /** A second `object` pass finds the rewritten properties, a set `required`
      and a present `additionalProperties`. */
  lemma {:induction false} ObjectRewriteIdempotent(fs: seq<Field>)
    ensures ObjectRewrite(ObjectRewrite(fs)) == ObjectRewrite(fs)
    decreases FieldsSize(fs) + 1, 1
  {
    var p1 := PropertiesOf(fs);
    var r := ObjectRewrite(fs);
    FillPropertiesGet(fs);
    CloseObjectGet(FillProperties(fs));
    CloseObjectGet(r);
    assert Has(r, "additionalProperties");
    if IsArray(p1) {
      var p2 := EnforceValues(p1);
      assert Get(r, "properties") == Some(p2);
      assert PropertiesOf(r) == p2;
      EnforceValuesIdempotent(p1);
      PutSame(r, "properties", p2);
      FillRequiredGet(r, p2);
      assert Isset(r, "required");
      assert FillProperties(r) == r;
    } else {
      assert PropertiesOf(r) == p1;
      assert FillProperties(r) == r;
    }
  }

  lemma {:induction false} EnforceValuesIdempotent(p: Json)
    requires IsArray(p)
    ensures EnforceValues(EnforceValues(p)) == EnforceValues(p)
    decreases Size(p) - 1, 5
  {
    if p.JMap? {
      EnforceFieldsIdempotent(p.fields);
    } else {
      EnforceListIdempotent(p.elems);
    }
  }

  lemma {:induction false} EnforceFieldsIdempotent(fs: seq<Field>)
    ensures EnforceFields(EnforceFields(fs)) == EnforceFields(fs)
    decreases FieldsSize(fs), 4
  {
    if fs != [] {
      EnforceIdempotent(fs[0].value);
      EnforceFieldsIdempotent(fs[1..]);
      assert EnforceFields(fs)[1..] == EnforceFields(fs[1..]);
    }
  }

  lemma {:induction false} EnforceListIdempotent(xs: seq<Json>)
    ensures EnforceList(EnforceList(xs)) == EnforceList(xs)
    decreases ListSize(xs), 4
  {
    if xs != [] {
      EnforceIdempotent(xs[0]);
      EnforceListIdempotent(xs[1..]);
      assert EnforceList(xs)[1..] == EnforceList(xs[1..]);
    }
  }

  // ------------------------------------------------------------ response format

  /** `mapResponseFormatForResponsesApi`: a `json_schema` format becomes
      `{type, name, schema, strict}` with `name` defaulting to `Response`,
      `strict` to true, and the schema rewritten; anything else is returned
      (an object cast to an array). */
  function MapResponseFormat(format: Json): Json {
    var f := if format.JObj? then JMap(format.props) else format;
    if Idx(f, "type") == JStr("json_schema") then
      var js0 := Coalesce(Idx(f, "json_schema"), JList([]));
      var js := if js0.JObj? then JMap(js0.props) else js0;
      JMap([Field("type", JStr("json_schema")),
            Field("name", Coalesce(Idx(js, "name"), JStr("Response"))),
            Field("schema", Enforce(Coalesce(Idx(js, "schema"), JList([])))),
            Field("strict", Coalesce(Idx(js, "strict"), JBool(true)))])
    else f
  }

  /** The defaults apply only where the format leaves a key unset. */
  lemma MapResponseFormatFields(js: seq<Field>)
    ensures var r := MapResponseFormat(JMap([Field("type", JStr("json_schema")), Field("json_schema", JMap(js))]));
      Idx(r, "type") == JStr("json_schema") &&
      Idx(r, "name") == (if Isset(js, "name") then Get(js, "name").value else JStr("Response")) &&
      Idx(r, "schema") == Enforce(if Isset(js, "schema") then Get(js, "schema").value else JList([])) &&
      Idx(r, "strict") == (if Isset(js, "strict") then Get(js, "strict").value else JBool(true))
  {
    var f := [Field("type", JStr("json_schema")), Field("json_schema", JMap(js))];
    GetAt(f, 0);
    GetAt(f, 1);
    var r := MapResponseFormat(JMap(f));
    GetAt(r.fields, 1);
    GetAt(r.fields, 2);
    GetAt(r.fields, 3);
  }

  /** The library's own format maps to name `Response`, the rewritten schema
      and the stored strict flag. */
  lemma MapFormatJson(f: JsonSchemaFormat)
    ensures Idx(MapResponseFormat(FormatJson(f)), "type") == JStr("json_schema")
    ensures Idx(MapResponseFormat(FormatJson(f)), "name") == JStr("Response")
    ensures Idx(MapResponseFormat(FormatJson(f)), "schema") == Enforce(JMap(f.schema))
    ensures Idx(MapResponseFormat(FormatJson(f)), "strict") == JBool(f.strict)
  {
    FormatJsonFields(f);
    var r := MapResponseFormat(FormatJson(f));
    GetAt(r.fields, 0);
    GetAt(r.fields, 1);
    GetAt(r.fields, 2);
    GetAt(r.fields, 3);
  }
}
