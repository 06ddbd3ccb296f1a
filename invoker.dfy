/** Binding the named argument fields of a tool call to the positional
    parameters of a PHP callable.  The reflection that lists the parameters
    is abstracted: a callable is its parameter list and an opaque body. */
module Invoker {
  import opened Php

  /** One declared parameter: its name, whether it is optional, and its
      default value when the reflection API can provide one. */
  datatype Param = Param(name: string, optional: bool, default: Option<Json>)

  /** A callable: its parameters in declaration order and what it computes
      from the positional arguments. */
  datatype Callable = Callable(params: seq<Param>, body: seq<Json> -> Json)

  function MissingArgument(name: string): Error {
    Runtime("Missing required argument '" + name + "' for callable tool.")
  }

  /** The argument one parameter receives. */
  function BindOne(p: Param, args: seq<Field>): (r: Result<Json>)
    ensures Has(args, p.name) ==> r == Ok(Get(args, p.name).value)
    ensures !Has(args, p.name) && p.optional ==> r == Ok(p.default.GetOr(JNull))
    ensures !Has(args, p.name) && !p.optional ==> r == Err(MissingArgument(p.name))
  {
    match Get(args, p.name)
    case Some(v) => Ok(v)
    case None =>
      if p.optional then Ok(p.default.GetOr(JNull)) else Err(MissingArgument(p.name))
  }

  /** The positional argument list for `params`, or the error for the first
      required parameter that has no field. */
  function Bind(params: seq<Param>, args: seq<Field>): (r: Result<seq<Json>>)
    ensures r.Ok? ==> |r.value| == |params|
    ensures r.Ok? ==> forall i :: 0 <= i < |params| ==> BindOne(params[i], args) == Ok(r.value[i])
    decreases |params|
  {
    if params == [] then Ok([])
    else
      var front :- Bind(params[..|params| - 1], args);
      var last :- BindOne(params[|params| - 1], args);
      Ok(front + [last])
  }

  /** A failing prefix makes the whole binding fail with the same error. */
  lemma {:induction false} BindPrefixErr(params: seq<Param>, args: seq<Field>, k: nat)
    requires k <= |params|
    requires Bind(params[..k], args).Err?
    ensures Bind(params, args) == Bind(params[..k], args)
    decreases |params| - k
  {
    if k < |params| {
      var k' := k + 1;
      assert params[..k'][..k] == params[..k];
      assert Bind(params[..k'], args) == Bind(params[..k], args);
      BindPrefixErr(params, args, k');
      assert params[..k'] == params[..k + 1];
    } else {
      assert params[..k] == params;
    }
  }

  /** The binding fails exactly when some required parameter has no field,
      and then with the message naming the first such parameter. */
  lemma {:induction false} BindErrIff(params: seq<Param>, args: seq<Field>)
    ensures Bind(params, args).Err? <==>
      exists i :: 0 <= i < |params| && !params[i].optional && !Has(args, params[i].name)
    ensures Bind(params, args).Err? ==>
      exists i :: 0 <= i < |params| && !params[i].optional && !Has(args, params[i].name) &&
        Bind(params, args).error == MissingArgument(params[i].name) &&
        forall j :: 0 <= j < i ==> BindOne(params[j], args).Ok?
    decreases |params|
  {
    if params != [] {
      var n := |params| - 1;
      var front := params[..n];
      BindErrIff(front, args);
      assert forall i :: 0 <= i < n ==> front[i] == params[i];
      if Bind(front, args).Err? {
        var i :| 0 <= i < n && !front[i].optional && !Has(args, front[i].name) &&
          Bind(front, args).error == MissingArgument(front[i].name) &&
          forall j :: 0 <= j < i ==> BindOne(front[j], args).Ok?;
        assert !params[i].optional && !Has(args, params[i].name);
      } else if BindOne(params[n], args).Err? {
        assert !params[n].optional && !Has(args, params[n].name);
        assert forall j :: 0 <= j < n ==> BindOne(params[j], args).Ok? by {
          forall j | 0 <= j < n ensures BindOne(params[j], args).Ok? {
            assert BindOne(front[j], args) == Ok(Bind(front, args).value[j]);
          }
        }
      } else {
        forall i | 0 <= i < |params| && !params[i].optional
          ensures Has(args, params[i].name)
        {
          if i < n {
            assert BindOne(front[i], args).Ok?;
          }
        }
      }
    }
  }

  /** A parameter whose name is a field takes that field's value, even a null. */
  lemma BindPresent(params: seq<Param>, args: seq<Field>, i: nat)
    requires Bind(params, args).Ok? && i < |params| && Has(args, params[i].name)
    ensures Bind(params, args).value[i] == Get(args, params[i].name).value
  {
    assert BindOne(params[i], args) == Ok(Bind(params, args).value[i]);
  }

  /** A missing optional parameter takes its default, or null without one. */
  lemma BindMissingOptional(params: seq<Param>, args: seq<Field>, i: nat)
    requires Bind(params, args).Ok? && i < |params|
    requires !Has(args, params[i].name) && params[i].optional
    ensures Bind(params, args).value[i] == params[i].default.GetOr(JNull)
  {
    assert BindOne(params[i], args) == Ok(Bind(params, args).value[i]);
  }

  /** Argument fields that match no parameter name do not affect the binding. */
  lemma {:induction false} BindIgnoresExtraFields(params: seq<Param>, a: seq<Field>, b: seq<Field>)
    requires forall i :: 0 <= i < |params| ==> Get(a, params[i].name) == Get(b, params[i].name)
    ensures Bind(params, a) == Bind(params, b)
    decreases |params|
  {
    if params != [] {
      var n := |params| - 1;
      assert forall i :: 0 <= i < n ==> params[..n][i] == params[i];
      BindIgnoresExtraFields(params[..n], a, b);
    }
  }

  /** The imperative binding loop: one argument per parameter, skipping to
      the next parameter once one is found, throwing for a missing required one. */
  method BindArguments(params: seq<Param>, args: seq<Field>) returns (r: Result<seq<Json>>)
    ensures r == Bind(params, args)
  {
    var out: seq<Json> := [];
    var i := 0;
    while i < |params|
      invariant 0 <= i <= |params|
      invariant Bind(params[..i], args) == Ok(out)
    {
      var p := params[i];
      var found := Get(args, p.name);
      assert params[..i + 1][..i] == params[..i];
      if found.Some? {
        out := out + [found.value];
        i := i + 1;
        continue;
      }
      if p.optional {
        if p.default.Some? {
          out := out + [p.default.value];
        } else {
          out := out + [JNull];
        }
        i := i + 1;
        continue;
      }
      BindPrefixErr(params, args, i + 1);
      return Err(MissingArgument(p.name));
    }
    assert params[..i] == params;
    return Ok(out);
  }

  /** `CallableInvoker::invoke`: bind, then call; a binding error means the
      callable is never invoked. */
  function Invoke(c: Callable, args: seq<Field>): (r: Result<Json>)
    ensures r.Err? <==> exists i :: 0 <= i < |c.params| && !c.params[i].optional && !Has(args, c.params[i].name)
    ensures r.Err? ==> Bind(c.params, args).Err? && r.error == Bind(c.params, args).error
    ensures r.Ok? ==> Bind(c.params, args).Ok? && r.value == c.body(Bind(c.params, args).value)
  {
    BindErrIff(c.params, args);
    var positional :- Bind(c.params, args);
    Ok(c.body(positional))
  }

  method InvokeCallable(c: Callable, args: seq<Field>) returns (r: Result<Json>)
    ensures r == Invoke(c, args)
  {
    var positional := BindArguments(c.params, args);
    if positional.Err? {
      return Err(positional.error);
    }
    return Ok(c.body(positional.value));
  }
}
