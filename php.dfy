/** PHP values as the library sees them once JSON is decoded, the error
    taxonomy, and the few PHP string and conversion primitives the core
    relies on.  The JSON text codec, the schema validator and the
    serialisation of the scalar property classes are collaborators whose
    code is not part of this model; they are the fields of `Host`. */
module Php {

  datatype Option<+T> = None | Some(value: T) {
    function GetOr(default: T): T {
      match this
      case Some(v) => v
      case None => default
    }
  }

  /** The exceptions the core raises (section names as in the library). */
  datatype Error =
    | InvalidResponse(message: string)    // InvalidResponseException
    | NoResponseFromAPI(message: string)  // NoResponseFromAPI
    | Runtime(message: string)            // RuntimeException
    | PhpError(message: string)           // an Error or TypeError raised by the PHP engine itself
    | JsonError                           // JSON::parse rejected its input
    | Network(message: string)            // the transport failed

  datatype Result<+T> = Ok(value: T) | Err(error: Error) {
    predicate IsFailure() { Err? }
    function PropagateFailure<U>(): Result<U>
      requires Err?
    {
      Err(error)
    }
    function Extract(): T
      requires Ok?
    {
      value
    }
  }

  /** A PHP float, carried by the string that `(string)` turns it into. */
  datatype Float = Float(repr: string)

  /** A PHP value: scalars, a list array, an associative array with string
      keys (in insertion order) or an stdClass object (properties in order). */
  datatype Json =
    | JNull
    | JBool(b: bool)
    | JInt(i: int)
    | JFloat(f: Float)
    | JStr(s: string)
    | JList(elems: seq<Json>)
    | JMap(fields: seq<Field>)
    | JObj(props: seq<Field>)

  datatype Field = Field(key: string, value: Json)

  /** Kinds of the scalar property classes (string, integer, number, boolean). */
  datatype ScalarKind = StringKind | IntegerKind | NumberKind | BooleanKind

  /** Collaborators whose code is not part of this model. */
  datatype Host = Host(
    stringify: Json -> string,                                    // JSON::stringify
    parse: string -> Option<Json>,                                // JSON::parse (None: it throws)
    validate: (Json, Json) -> bool,                               // JsonSchemaValidator::validate
    scalarSchema: (ScalarKind, string, Option<string>) -> Json)   // jsonSerialize of a scalar property

  function ParseJson(h: Host, text: string): (r: Result<Json>)
    ensures r.Ok? <==> h.parse(text).Some?
    ensures r.Ok? ==> r.value == h.parse(text).value
    ensures r.Err? ==> r.error == JsonError
  {
    match h.parse(text)
    case Some(v) => Ok(v)
    case None => Err(JsonError)
  }

  // ---------------------------------------------------------------- fields

  /** The value stored under `k` (PHP keys are unique, so the first one). */
  function Get(fs: seq<Field>, k: string): Option<Json>
  {
    if fs == [] then None
    else if fs[0].key == k then Some(fs[0].value)
    else Get(fs[1..], k)
  }

  /** A key is present exactly when some field carries it, and the value
      found is the one stored in the first such field. */
  lemma {:induction false} GetFirst(fs: seq<Field>, k: string)
    ensures Get(fs, k).Some? <==> exists i :: 0 <= i < |fs| && fs[i].key == k
    ensures Get(fs, k).Some? ==>
      exists i :: 0 <= i < |fs| && fs[i] == Field(k, Get(fs, k).value) && forall j :: 0 <= j < i ==> fs[j].key != k
  {
    if fs != [] && fs[0].key != k {
      GetFirst(fs[1..], k);
      if Get(fs, k).Some? {
        var i :| 0 <= i < |fs[1..]| && fs[1..][i] == Field(k, Get(fs, k).value) &&
          forall j :: 0 <= j < i ==> fs[1..][j].key != k;
        assert fs[i + 1] == Field(k, Get(fs, k).value);
      } else {
        assert forall i :: 1 <= i < |fs| ==> fs[i] == fs[1..][i - 1];
      }
    }
  }

  /** Lookup in a concatenation: the left part first. */
  lemma {:induction false} GetAppend(a: seq<Field>, b: seq<Field>)
    ensures forall k :: Get(a + b, k) == if Get(a, k).Some? then Get(a, k) else Get(b, k)
  {
    if a != [] {
      GetAppend(a[1..], b);
      assert (a + b)[1..] == a[1..] + b;
    } else {
      assert a + b == b;
    }
  }

  /** In a field list written out with distinct keys, each key finds its own value. */
  lemma {:induction false} GetAt(fs: seq<Field>, i: nat)
    requires i < |fs|
    requires forall j :: 0 <= j < i ==> fs[j].key != fs[i].key
    ensures Get(fs, fs[i].key) == Some(fs[i].value)
  {
    if i > 0 {
      assert fs[1..][i - 1] == fs[i];
      GetAt(fs[1..], i - 1);
    }
  }

  /** A key no field carries is absent. */
  lemma {:induction false} GetMissing(fs: seq<Field>, k: string)
    requires forall i :: 0 <= i < |fs| ==> fs[i].key != k
    ensures Get(fs, k) == None
  {
    if fs != [] {
      assert forall i :: 0 <= i < |fs| - 1 ==> fs[1..][i] == fs[i + 1];
      GetMissing(fs[1..], k);
    }
  }

  predicate Has(fs: seq<Field>, k: string) {
    Get(fs, k).Some?
  }

  function Keys(fs: seq<Field>): (r: seq<string>)
    ensures |r| == |fs|
    ensures forall i :: 0 <= i < |fs| ==> r[i] == fs[i].key
  {
    if fs == [] then [] else [fs[0].key] + Keys(fs[1..])
  }

  lemma KeysConcat(a: seq<Field>, b: seq<Field>)
    ensures Keys(a + b) == Keys(a) + Keys(b)
  {
    assert forall i :: 0 <= i < |a| ==> (a + b)[i] == a[i];
    assert forall i :: |a| <= i < |a| + |b| ==> (a + b)[i] == b[i - |a|];
  }

  /** A key is present exactly when it is among the keys. */
  lemma HasIffKey(fs: seq<Field>, k: string)
    ensures Has(fs, k) <==> k in Keys(fs)
  {
    GetFirst(fs, k);
    if Has(fs, k) {
      var i :| 0 <= i < |fs| && fs[i].key == k;
      assert Keys(fs)[i] == k;
    }
  }

  /** Appending a field appends its key. */
  lemma KeysAppend(fs: seq<Field>, f: Field)
    ensures Keys(fs + [f]) == Keys(fs) + [f.key]
  {
    assert forall i :: 0 <= i < |fs| ==> (fs + [f])[i] == fs[i];
  }

  /** An assignment adds its key at the end only when the key is new. */
  lemma KeysPut(fs: seq<Field>, k: string, v: Json)
    ensures Keys(Put(fs, k, v)) == if k in Keys(fs) then Keys(fs) else Keys(fs) + [k]
  {
    HasIffKey(fs, k);
    PutPosition(fs, k, v);
    if !Has(fs, k) {
      KeysAppend(fs, Field(k, v));
    }
  }

  /** `$a[$k] = $v`: overwrite in place when the key exists, else append. */
  function Put(fs: seq<Field>, k: string, v: Json): seq<Field>
  {
    if fs == [] then [Field(k, v)]
    else if fs[0].key == k then [Field(k, v)] + fs[1..]
    else [fs[0]] + Put(fs[1..], k, v)
  }

  /** After the assignment the key holds the new value and every other key
      is as before. */
  lemma {:induction false} PutGet(fs: seq<Field>, k: string, v: Json)
    ensures Get(Put(fs, k, v), k) == Some(v)
    ensures forall k' :: k' != k ==> Get(Put(fs, k, v), k') == Get(fs, k')
  {
    if fs != [] && fs[0].key != k {
      PutGet(fs[1..], k, v);
    }
  }

  /** Assigning a key the value it already holds changes nothing. */
  lemma {:induction false} PutSame(fs: seq<Field>, k: string, v: Json)
    requires Get(fs, k) == Some(v)
    ensures Put(fs, k, v) == fs
  {
    if fs[0].key != k {
      PutSame(fs[1..], k, v);
    }
  }

  /** `isset($a[$k])`: present and not null. */
  predicate Isset(fs: seq<Field>, k: string) {
    Get(fs, k).Some? && !Get(fs, k).value.JNull?
  }

  /** Assigning an existing key keeps the key order; a new key is appended. */
  lemma {:induction false} PutPosition(fs: seq<Field>, k: string, v: Json)
    ensures Has(fs, k) ==> Keys(Put(fs, k, v)) == Keys(fs)
    ensures !Has(fs, k) ==> Put(fs, k, v) == fs + [Field(k, v)]
  {
    if fs != [] && fs[0].key != k {
      var rest := fs[1..];
      PutPosition(rest, k, v);
      assert Put(fs, k, v) == [fs[0]] + Put(rest, k, v);
      if Has(fs, k) {
        assert Keys(Put(fs, k, v)) == [fs[0].key] + Keys(Put(rest, k, v));
      } else {
        assert [fs[0]] + (rest + [Field(k, v)]) == fs + [Field(k, v)];
      }
    }
  }

  /** A PHP array holds each key once. */
  predicate DistinctKeys(fs: seq<Field>) {
    forall i, j :: 0 <= i < j < |fs| ==> fs[i].key != fs[j].key
  }

  /** `array_merge` of two string-keyed arrays: the right side's entries are
      assigned in order, so their keys override in place. */
  function ArrayMerge(a: seq<Field>, b: seq<Field>): seq<Field>
    decreases |b|
  {
    if b == [] then a else ArrayMerge(Put(a, b[0].key, b[0].value), b[1..])
  }

  /** A key of the right side takes its value from there; any other key keeps
      the left side's value (or stays absent). */
  lemma {:induction false} ArrayMergeGet(a: seq<Field>, b: seq<Field>, k: string)
    requires DistinctKeys(b)
    ensures Get(ArrayMerge(a, b), k) == if Has(b, k) then Get(b, k) else Get(a, k)
    decreases |b|
  {
    if b != [] {
      var a' := Put(a, b[0].key, b[0].value);
      PutGet(a, b[0].key, b[0].value);
      assert DistinctKeys(b[1..]) by {
        forall i, j | 0 <= i < j < |b[1..]| ensures b[1..][i].key != b[1..][j].key {
          assert b[1..][i] == b[i + 1] && b[1..][j] == b[j + 1];
        }
      }
      ArrayMergeGet(a', b[1..], k);
      if k == b[0].key {
        forall i | 0 <= i < |b[1..]| ensures b[1..][i].key != k {
          assert b[1..][i] == b[i + 1];
        }
        GetFirst(b[1..], k);
      }
    }
  }

  function OptString(o: Option<string>): Option<Json> {
    match o
    case None => None
    case Some(s) => Some(JStr(s))
  }

  /** A one-field list for a present value, nothing for an absent one. */
  function OptField(k: string, o: Option<Json>): seq<Field> {
    match o
    case None => []
    case Some(v) => [Field(k, v)]
  }

  lemma GetOptField(k: string, o: Option<Json>, k': string)
    ensures Get(OptField(k, o), k') == if k == k' then o else None
  {
  }

  /** The text list of a PHP list of strings. */
  function Strings(xs: seq<string>): (r: seq<Json>)
    ensures |r| == |xs| && forall i :: 0 <= i < |xs| ==> r[i] == JStr(xs[i])
  {
    if xs == [] then [] else [JStr(xs[0])] + Strings(xs[1..])
  }

  /** `$v['k'] ?? null` */
  function Idx(v: Json, k: string): Json {
    if v.JMap? then Get(v.fields, k).GetOr(JNull) else JNull
  }

  /** `$v->k ?? null` */
  function Prop(v: Json, k: string): Json {
    if v.JObj? then Get(v.props, k).GetOr(JNull) else JNull
  }

  /** `$a ?? $b` */
  function Coalesce(a: Json, b: Json): Json {
    if a.JNull? then b else a
  }

  predicate IsArray(v: Json) {
    v.JList? || v.JMap?
  }

  /** The values an array holds, in order. */
  function ArrayValues(v: Json): (r: seq<Json>)
    requires IsArray(v)
    ensures v.JList? ==> r == v.elems
    ensures |r| == if v.JList? then |v.elems| else |v.fields|
  {
    if v.JList? then v.elems else FieldValues(v.fields)
  }

  function FieldValues(fs: seq<Field>): (r: seq<Json>)
    ensures |r| == |fs|
    ensures forall i :: 0 <= i < |fs| ==> r[i] == fs[i].value
  {
    if fs == [] then [] else [fs[0].value] + FieldValues(fs[1..])
  }

  /** What `foreach` visits: array values or object properties; a scalar is skipped with a warning. */
  function IterValues(v: Json): seq<Json> {
    match v
    case JList(xs) => xs
    case JMap(fs) => FieldValues(fs)
    case JObj(fs) => FieldValues(fs)
    case _ => []
  }

  /** PHP truthiness. */
  predicate Truthy(v: Json) {
    match v
    case JNull => false
    case JBool(b) => b
    case JInt(i) => i != 0
    case JFloat(f) => f.repr != "0" && f.repr != "-0"
    case JStr(s) => s != "" && s != "0"
    case JList(xs) => xs != []
    case JMap(fs) => fs != []
    case JObj(_) => true
  }

  // ---------------------------------------------------------------- strings

  function DigitChar(d: nat): char
    requires d < 10
  {
    "0123456789"[d]
  }

  function NatToString(n: nat): (r: string)
    ensures |r| >= 1
    decreases n
  {
    if n < 10 then [DigitChar(n)] else NatToString(n / 10) + [DigitChar(n % 10)]
  }

  /** PHP's decimal form of an integer. */
  function IntToString(i: int): string {
    if i < 0 then "-" + NatToString(-i) else NatToString(i)
  }

  /** `(string) $v` */
  function CastToString(v: Json): Result<string> {
    match v
    case JNull => Ok("")
    case JBool(b) => Ok(if b then "1" else "")
    case JInt(i) => Ok(IntToString(i))
    case JFloat(f) => Ok(f.repr)
    case JStr(s) => Ok(s)
    case JList(_) => Ok("Array")
    case JMap(_) => Ok("Array")
    case JObj(_) => Err(PhpError("Object of class stdClass could not be converted to string"))
  }

  /** Passing `v` where a `string` is declared, in PHP's coercive typing mode. */
  function CoerceToString(v: Json): (r: Result<string>)
    ensures v.JStr? ==> r == Ok(v.s)
    ensures (v.JNull? || IsArray(v) || v.JObj?) ==> r.Err?
  {
    match v
    case JStr(s) => Ok(s)
    case JInt(i) => Ok(IntToString(i))
    case JFloat(f) => Ok(f.repr)
    case JBool(b) => Ok(if b then "1" else "")
    case _ => Err(PhpError("TypeError: a string was expected"))
  }

  predicate StartsWith(s: string, prefix: string) {
    |prefix| <= |s| && s[..|prefix|] == prefix
  }

  /** The characters PHP's `trim` strips by default. */
  predicate IsTrimmed(c: char) {
    c == ' ' || c == '\t' || c == '\n' || c == '\r' || c == '\0' || c == '\U{000B}'
  }

  function TrimLeft(s: string): (r: string)
    ensures |r| <= |s| && r == s[|s| - |r|..]
    ensures r == [] || !IsTrimmed(r[0])
  {
    if |s| > 0 && IsTrimmed(s[0]) then TrimLeft(s[1..]) else s
  }

  function TrimRight(s: string): (r: string)
    ensures |r| <= |s| && r == s[..|r|]
    ensures r == [] || !IsTrimmed(r[|r| - 1])
  {
    if |s| > 0 && IsTrimmed(s[|s| - 1]) then TrimRight(s[..|s| - 1]) else s
  }

  /** PHP `trim`. */
  function Trim(s: string): (r: string)
    ensures r == [] || (!IsTrimmed(r[0]) && !IsTrimmed(r[|r| - 1]))
  {
    TrimRight(TrimLeft(s))
  }

  /** PHP `implode`. */
  function Implode(sep: string, parts: seq<string>): (r: string)
    ensures |parts| == 1 ==> r == parts[0]
  {
    if parts == [] then ""
    else if |parts| == 1 then parts[0]
    else parts[0] + sep + Implode(sep, parts[1..])
  }

  /** `array_filter($parts, fn($p) => $p !== '')`, values in order. */
  function NonEmpty(parts: seq<string>): seq<string>
  {
    if parts == [] then []
    else if parts[0] == "" then NonEmpty(parts[1..])
    else [parts[0]] + NonEmpty(parts[1..])
  }

  /** The filter keeps exactly the non-empty parts. */
  lemma {:induction false} NonEmptyMembers(parts: seq<string>)
    ensures forall i :: 0 <= i < |NonEmpty(parts)| ==> NonEmpty(parts)[i] != "" && NonEmpty(parts)[i] in parts
    ensures forall p :: p in parts && p != "" ==> p in NonEmpty(parts)
  {
    if parts != [] {
      NonEmptyMembers(parts[1..]);
      assert forall p :: p in parts[1..] ==> p in parts;
      assert forall p :: p in parts ==> p == parts[0] || p in parts[1..];
    }
  }
}
