/** How calls behave: closures bind parameters in a child of the caller's
    scope, and `partial`, `flip`, `compose` and `apply` build or make calls
    with rearranged arguments. */
module CallLaws {
  import opened Errors
  import Syntax
  import opened Values
  import opened Scopes
  import opened Semantics
  import opened CursorLaws

  /** An identifier token for `name`, as the tokeniser makes it. */
  function Name(name: string): Syntax.Token {
    Syntax.Leaf(Syntax.Identifier, name, |name|)
  }

  /** A closure's body is evaluated in the scope it is called from, not the
      one it was written in: a body that reads a free name sees the
      caller's binding of it. A free name spelled like a member of
      `Object.prototype` is answered by the body's own empty table, never
      by the caller. */
  lemma {:induction false} ClosureReadsCallerScope(fuel: nat, env: Env, name: string, args: seq<Arg>)
    ensures name !in ObjectNames ==>
              CallWith(fuel + 1, Fn(Closure([], Some(Name(name)))), env, args) == Ok(Lookup(env, name))
    ensures name in ObjectNames ==>
              CallWith(fuel + 1, Fn(Closure([], Some(Name(name)))), env, args) == Err(Unsupported)
  {
    var c := Cursor(args, 0);
    assert BindParams(fuel, env, c, [], 0, map[]) == Ok(map[]);
    var scope: Env := [map[]] + env;
    assert scope[1..] == env;
    assert Lookup(scope, name) == Lookup(env, name);
    assert Eval(fuel, Name(name), scope) == Resolve(scope, name);
    assert Dispatch(fuel, Closure([], Some(Name(name))), env, c) == Eval(fuel, Name(name), scope);
  }

  /** A one-parameter closure whose body is the parameter returns its
      argument, whatever the caller's scope holds under that name. */
  lemma {:induction false} ClosureBindsParameter(fuel: nat, env: Env, p: string, v: Value)
    ensures p != "__proto__" ==> CallWith(fuel + 1, Fn(Closure([p], Some(Name(p)))), env, Vals([v])) == Ok(v)
    ensures p == "__proto__" ==> CallWith(fuel + 1, Fn(Closure([p], Some(Name(p)))), env, Vals([v])) == Err(Unsupported)
  {
    var c := Cursor(Vals([v]), 0);
    assert Get(fuel, env, c, 0) == Ok(v);
    if p == "__proto__" {
      assert BindParams(fuel, env, c, [p], 0, map[]) == Err(Unsupported);
      return;
    }
    assert BindParams(fuel, env, c, [p], 1, map[p := v]) == Ok(map[p := v]);
    assert BindParams(fuel, env, c, [p], 0, map[]) == Ok(map[p := v]);
    var scope: Env := [map[p := v]] + env;
    assert Resolve(scope, p) == Ok(v);
    assert Eval(fuel, Name(p), scope) == Ok(v);
    assert Dispatch(fuel, Closure([p], Some(Name(p))), env, c) == Eval(fuel, Name(p), scope);
  }

  /** Parameter binding succeeds exactly when every `args.get(i)` does and
      no parameter is named `__proto__`, and the frame then gains exactly
      the parameter names. */
  lemma {:induction false} BindParamsKeys(fuel: nat, env: Env, c: Cursor, params: seq<string>, i: nat, frame: Frame)
    requires i <= |params|
    ensures BindParams(fuel, env, c, params, i, frame).Ok? ==>
              forall k :: i <= k < |params| ==> Get(fuel, env, c, k).Ok? && params[k] != "__proto__"
    ensures BindParams(fuel, env, c, params, i, frame).Err? ==>
              exists k :: i <= k < |params| &&
                (Get(fuel, env, c, k) == Err(BindParams(fuel, env, c, params, i, frame).error)
                 || (params[k] == "__proto__" && BindParams(fuel, env, c, params, i, frame).error == Unsupported))
    ensures BindParams(fuel, env, c, params, i, frame).Ok? ==>
              BindParams(fuel, env, c, params, i, frame).value.Keys
              == frame.Keys + (set k | i <= k < |params| :: params[k])
    decreases |params| - i
  {
    if i < |params| {
      var v := Get(fuel, env, c, i);
      if v.Ok? && params[i] == "__proto__" {
        assert BindParams(fuel, env, c, params, i, frame) == Err(Unsupported);
      } else if v.Ok? {
        var next := frame[params[i] := v.value];
        BindParamsKeys(fuel, env, c, params, i + 1, next);
        assert BindParams(fuel, env, c, params, i, frame) == BindParams(fuel, env, c, params, i + 1, next);
        assert next.Keys == frame.Keys + {params[i]};
        assert (set k | i <= k < |params| :: params[k]) == {params[i]} + (set k | i + 1 <= k < |params| :: params[k]);
      } else {
        assert BindParams(fuel, env, c, params, i, frame) == Err(v.error);
      }
    }
  }

  /** Each parameter is bound to `args.get(i)` for the last position that
      names it; names that are not parameters keep their bindings. */
  lemma {:induction false} BindParamsValues(fuel: nat, env: Env, c: Cursor, params: seq<string>, i: nat, frame: Frame)
    requires i <= |params|
    ensures BindParams(fuel, env, c, params, i, frame).Ok? ==>
              forall k :: i <= k < |params| && (forall j :: k < j < |params| ==> params[j] != params[k]) ==>
                params[k] in BindParams(fuel, env, c, params, i, frame).value
                && Get(fuel, env, c, k) == Ok(BindParams(fuel, env, c, params, i, frame).value[params[k]])
    ensures BindParams(fuel, env, c, params, i, frame).Ok? ==>
              forall name :: name in frame && (forall k :: i <= k < |params| ==> params[k] != name) ==>
                name in BindParams(fuel, env, c, params, i, frame).value
                && BindParams(fuel, env, c, params, i, frame).value[name] == frame[name]
    decreases |params| - i
  {
    if i < |params| {
      var v := Get(fuel, env, c, i);
      if v.Ok? && params[i] != "__proto__" {
        var next := frame[params[i] := v.value];
        BindParamsValues(fuel, env, c, params, i + 1, next);
        var r := BindParams(fuel, env, c, params, i + 1, next);
        assert BindParams(fuel, env, c, params, i, frame) == r;
        if r.Ok? {
          forall k | i <= k < |params| && (forall j :: k < j < |params| ==> params[j] != params[k])
            ensures params[k] in r.value && Get(fuel, env, c, k) == Ok(r.value[params[k]])
          {
            if k == i {
              assert params[i] in next && next[params[i]] == v.value;
            }
          }
          forall name | name in frame && (forall k :: i <= k < |params| ==> params[k] != name)
            ensures name in r.value && r.value[name] == frame[name]
          {
            assert name in next && next[name] == frame[name];
          }
        }
      }
    }
  }

  /** `partial`: `(partial f a b)` is `f` with `a b` bound in front, and
      calling it with `xs` calls `f` with `a b xs`. */
  lemma {:induction false} PartialLaw(fuel: nat, env: Env, f: Value, bound: seq<Value>, xs: seq<Value>)
    ensures PartialCall(fuel, env, Cursor(Vals([f] + bound), 0)) == Ok(Fn(Partial(f, bound)))
    ensures CallWith(fuel + 1, Fn(Partial(f, bound)), env, Vals(xs)) == CallWith(fuel, f, env, Vals(bound + xs))
  {
    AllOfVals(fuel, env, [f] + bound, 0);
    assert ([f] + bound)[0..] == [f] + bound;
    assert ([f] + bound)[1..] == bound;
    AllOfVals(fuel, env, xs, 0);
    assert xs[0..] == xs;
  }

  /** `flip`: `(flip f a b)` is a function that ignores its own arguments
      and calls `f` with `b a`. */
  lemma {:induction false} FlipLaw(fuel: nat, env: Env, f: Value, xs: seq<Value>, args: seq<Arg>)
    ensures FlipCall(fuel, env, Cursor(Vals([f] + xs), 0)) == Ok(Fn(Flipped(f, Reverse(xs))))
    ensures CallWith(fuel + 1, Fn(Flipped(f, Reverse(xs))), env, args) == CallWith(fuel, f, env, Vals(Reverse(xs)))
  {
    AllOfVals(fuel, env, [f] + xs, 0);
    assert ([f] + xs)[0..] == [f] + xs;
    assert ([f] + xs)[1..] == xs;
  }

  /** `compose`: `(compose h g)` applied to `xs` is `h` applied to the
      result of `g` applied to `xs`; the rightmost function runs first. */
  lemma {:induction false} ComposeLaw(fuel: nat, env: Env, h: Value, g: Value, xs: seq<Value>)
    ensures ComposeCall(fuel, env, Cursor(Vals([h, g]), 0)) == Ok(Fn(Composed([g, h])))
    ensures var inner := CallWith(fuel, g, env, Vals(xs));
            CallWith(fuel + 1, Fn(Composed([g, h])), env, Vals(xs))
            == (if inner.Err? then inner else CallWith(fuel, h, env, [Val(inner.value)]))
  {
    AllOfVals(fuel, env, [h, g], 0);
    assert [h, g][0..] == [h, g];
    var r := Reverse([h, g]);
    assert r[0] == g && r[1] == h;
    assert r == [g, h];
    AllOfVals(fuel, env, xs, 0);
    assert xs[0..] == xs;
    var inner := CallWith(fuel, g, env, Vals(xs));
    if inner.Ok? {
      var outer := CallWith(fuel, h, env, [Val(inner.value)]);
      if outer.Ok? {
        assert PipeFrom(fuel, env, [g, h], 2, outer.value) == Ok(outer.value);
      }
      assert PipeFrom(fuel, env, [g, h], 1, inner.value) == outer;
    }
  }

  /** `apply`: calls the function with the items of the array, as separate
      arguments. */
  lemma {:induction false} ApplyLaw(fuel: nat, env: Env, f: Value, xs: seq<Value>)
    ensures ApplyCall(fuel, env, Cursor(Vals([f, Arr(xs)]), 0)) == CallWith(fuel, f, env, Vals(xs))
  {
    var c := Cursor(Vals([f, Arr(xs)]), 0);
    assert Next(fuel, env, c) == Ok(Step(f, c.(index := 1)));
    assert Next(fuel, env, c.(index := 1)) == Ok(Step(Arr(xs), c.(index := 2)));
  }

  /** Only functions can be called: any other value in call position is a
      type error, before any argument is evaluated. */
  lemma {:induction false} CallNonFunction(fuel: nat, env: Env, v: Value, args: seq<Arg>)
    requires !v.Fn?
    ensures CallWith(fuel, v, env, args) == Err(TypeError)
  {
  }
}
