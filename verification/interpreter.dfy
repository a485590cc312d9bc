/** The evaluator as the program runs it: every `evaluate` and `callWith`
    works on `Scope` objects, an argument cursor whose `argIndex` moves as
    arguments are taken, and builtins that loop while the cursor has more.
    Each method is proved to compute what `Semantics` says. */
module Interpreter {
  import opened Errors
  import Syntax
  import opened Numbers
  import opened Values
  import opened Scopes
  import Sem = Semantics

  /** What a loop has produced so far, followed by what the rest yields. */
  function Prefixed<T>(done: seq<T>, rest: Result<seq<T>>): Result<seq<T>> {
    if rest.Err? then Err(rest.error) else Ok(done + rest.value)
  }

  lemma {:induction false} PrefixedNothing<T>(rest: Result<seq<T>>)
    ensures Prefixed([], rest) == rest
  {
    if rest.Ok? {
      assert [] + rest.value == rest.value;
    }
  }

  lemma {:induction false} PrefixedMore<T>(done: seq<T>, more: seq<T>, rest: Result<seq<T>>)
    ensures Prefixed(done, Prefixed(more, rest)) == Prefixed(done + more, rest)
  {
    if rest.Ok? {
      assert done + (more + rest.value) == (done + more) + rest.value;
    }
  }

  /** The `args` object `callWith` hands to a function. */
  class ArgCursor {
    const fuel: nat
    const scope: Scope
    const args: seq<Sem.Arg>
    var argIndex: nat

    ghost predicate Valid()
      reads this
    {
      scope.Valid() && argIndex <= |args|
    }

    /** The cursor as a value. */
    ghost function State(): Sem.Cursor
      reads this
    {
      Sem.Cursor(args, argIndex)
    }

    /** The tables of the scope the arguments are evaluated in. */
    ghost function Env(): Env
      reads scope.Repr
      requires scope.Valid()
    {
      scope.Chain()
    }

    constructor (fuel: nat, scope: Scope, args: seq<Sem.Arg>)
      requires scope.Valid()
      ensures Valid()
      ensures this.fuel == fuel && this.scope == scope && this.args == args && argIndex == 0
    {
      this.fuel := fuel;
      this.scope := scope;
      this.args := args;
      this.argIndex := 0;
    }

    /** `hasNext`. */
    predicate HasNext()
      reads this
    {
      argIndex < |args|
    }

    /** `next`: the argument at `argIndex`, evaluated, and the index moves
        on by one; an exhausted cursor is the arity error. */
    method Next() returns (r: Result<Value>)
      requires Valid()
      modifies this
      ensures Valid()
      ensures var n := Sem.Next(fuel, Env(), old(State()));
              (n.Ok? ==> r == Ok(n.value.value) && State() == n.value.rest)
              && (n.Err? ==> r == Err(n.error) && argIndex == old(argIndex))
      decreases fuel, 2, 1
    {
      if argIndex >= |args| {
        return Err(ArgumentCount);
      }
      match args[argIndex] {
        case Node(t) => r := Evaluate(fuel, t, scope);
        case Val(v) => r := Ok(v);
      }
      if r.Ok? {
        argIndex := argIndex + 1;
      }
    }

    /** `get(index)`: any argument, evaluated; the cursor does not move. */
    method Get(index: nat) returns (r: Result<Value>)
      requires Valid()
      ensures r == Sem.Get(fuel, Env(), State(), index)
      decreases fuel, 2, 1
    {
      if index >= |args| {
        return Ok(Undefined);
      }
      match args[index] {
        case Node(t) => r := Evaluate(fuel, t, scope);
        case Val(v) => r := Ok(v);
      }
    }

    /** `all`: the remaining arguments in order; afterwards none remain. */
    method All() returns (r: Result<seq<Value>>)
      requires Valid()
      modifies this
      ensures Valid() && old(argIndex) <= argIndex
      ensures r == Sem.AllFrom(fuel, Env(), old(State()))
      ensures r.Ok? ==> !HasNext()
      decreases fuel, 3, 0
    {
      var all: seq<Value> := [];
      PrefixedNothing(Sem.AllFrom(fuel, Env(), State()));
      while HasNext()
        invariant Valid() && old(argIndex) <= argIndex
        invariant Sem.AllFrom(fuel, Env(), old(State())) == Prefixed(all, Sem.AllFrom(fuel, Env(), State()))
        decreases |args| - argIndex
      {
        ghost var before := State();
        var v := Next();
        if v.Err? {
          return Err(v.error);
        }
        assert Sem.AllFrom(fuel, Env(), before) == Prefixed([v.value], Sem.AllFrom(fuel, Env(), State()));
        PrefixedMore(all, [v.value], Sem.AllFrom(fuel, Env(), State()));
        all := all + [v.value];
      }
      assert all + [] == all;
      return Ok(all);
    }

    /** `raw(evaluated)`: a copy of the argument list; when asked, every
        token among them is evaluated first. The cursor does not move. */
    method Raw(evaluated: bool) returns (r: Result<seq<Sem.Arg>>)
      requires Valid()
      ensures r == Sem.RawArgs(fuel, Env(), State(), evaluated)
      ensures r.Ok? ==> r.value == args
      decreases fuel, 2, 1
    {
      if evaluated {
        var k := 0;
        while k < |args|
          invariant k <= |args|
          invariant Sem.EvaluateEach(fuel, Env(), args, 0) == Sem.EvaluateEach(fuel, Env(), args, k)
        {
          match args[k] {
            case Node(t) =>
              var v := Evaluate(fuel, t, scope);
              if v.Err? {
                return Err(v.error);
              }
            case Val(_) =>
          }
          k := k + 1;
        }
      }
      return Ok(args);
    }
  }

  // ---------------------------------------------------------------- evaluation and calls

  /** A token's `evaluate` in a scope. */
  method Evaluate(fuel: nat, t: Syntax.Token, scope: Scope) returns (r: Result<Value>)
    requires scope.Valid()
    ensures r == Sem.Eval(fuel, t, scope.Chain())
    decreases fuel, 1, Sem.Size(t)
  {
    if t.kind.Parenthesis? {
      var local := new Scope(scope);
      if t.children == [] {
        return Err(TypeError);
      }
      var head := Evaluate(fuel, t.children[0], local);
      if head.Err? {
        return Err(head.error);
      }
      r := CallWith(fuel, head.value, local, Sem.Nodes(t.children[1..]));
    } else if t.kind.FunctionBraces? {
      r := Ok(Fn(Sem.Literal(t.children)));
    } else if t.kind.Period? {
      if t.target.None? {
        return Err(TypeError);
      }
      var target := Evaluate(fuel, t.target.value, scope);
      if target.Err? {
        return Err(target.error);
      }
      r := Sem.MemberOf(target.value, t.member);
    } else if t.kind.Delimiter? {
      r := Err(TypeError);
    } else if t.kind.DoubleQuoted? || t.kind.SingleQuoted? {
      r := Ok(Str(Sem.Unquoted(t.original)));
    } else if t.kind.Number? {
      var n := NumberValue(t.original);
      r := if n.Err? then Err(n.error) else Ok(Num(n.value));
    } else if t.kind.Identifier? {
      // a prototype name answers with a host function
      var found := scope.Get(t.original);
      r := if found.HostMember? then Err(Unsupported) else Ok(found.value);
    } else if t.kind.Boolean? {
      r := Ok(Bool(t.original == "true"));
    } else if t.kind.Null? {
      r := Ok(Null);
    } else {
      r := Ok(Undefined);
    }
  }

  /** `callWith(fn, scope, args)`: a fresh cursor over the arguments. */
  method CallWith(fuel: nat, callee: Value, scope: Scope, args: seq<Sem.Arg>) returns (r: Result<Value>)
    requires scope.Valid()
    ensures r == Sem.CallWith(fuel, callee, scope.Chain(), args)
    decreases fuel, 0, 0
  {
    if !callee.Fn? {
      return Err(TypeError);
    }
    if fuel == 0 {
      return Err(OutOfFuel);
    }
    var cursor := new ArgCursor(fuel - 1, scope, args);
    r := Dispatch(callee.f, cursor);
  }

  /** Running a function on a cursor. A literal binds its parameters with
      `args.get(i)` in a new scope inside the one it is called from. */
  method Dispatch(f: Func, a: ArgCursor) returns (r: Result<Value>)
    requires a.Valid()
    modifies a
    ensures a.Valid() && old(a.argIndex) <= a.argIndex
    ensures r == Sem.Dispatch(a.fuel, f, a.Env(), old(a.State()))
    decreases a.fuel, 6, 0
  {
    match f
    case Builtin(name) =>
      r := RunBuiltin(name, a);
    case Closure(params, body) =>
      var local := Bind(a, params);
      if local.Err? {
        return Err(local.error);
      }
      if body.None? {
        return Err(TypeError);
      }
      r := Evaluate(a.fuel, body.value, local.value);
    case Partial(target, bound) =>
      var inner := a.All();
      if inner.Err? {
        return Err(inner.error);
      }
      r := CallWith(a.fuel, target, a.scope, Sem.Vals(bound + inner.value));
    case Flipped(target, fixed) =>
      r := CallWith(a.fuel, target, a.scope, Sem.Vals(fixed));
    case Composed(stages) =>
      var inner := a.All();
      if inner.Err? {
        return Err(inner.error);
      }
      var first := CallWith(a.fuel, if stages == [] then Undefined else stages[0], a.scope, Sem.Vals(inner.value));
      if first.Err? {
        return first;
      }
      r := Pipe(a.fuel, a.scope, stages, first.value);
  }

  /** A literal's parameters: parameter `i` is bound to `args.get(i)` in a
      new scope inside the caller's. */
  method Bind(a: ArgCursor, params: seq<string>) returns (r: Result<Scope>)
    requires a.Valid()
    ensures var frame := Sem.BindParams(a.fuel, a.Env(), a.State(), params, 0, map[]);
            (frame.Err? ==> r == Err(frame.error))
            && (frame.Ok? ==> r.Ok? && fresh(r.value) && r.value.Valid() && r.value.Chain() == [frame.value] + a.Env())
    decreases a.fuel, 3, 0
  {
    var local := new Scope(a.scope);
    var i := 0;
    while i < |params|
      invariant i <= |params|
      invariant fresh(local) && local.Valid()
      invariant local.Chain() == [local.vars] + a.Env()
      invariant Sem.BindParams(a.fuel, a.Env(), a.State(), params, 0, map[])
                == Sem.BindParams(a.fuel, a.Env(), a.State(), params, i, local.vars)
    {
      var v := a.Get(i);
      if v.Err? {
        return Err(v.error);
      }
      if params[i] == "__proto__" {
        return Err(Unsupported);
      }
      local.Set(params[i], v.value);
      i := i + 1;
    }
    r := Ok(local);
  }

  /** The later stages of a composition, each called with the previous
      result. */
  method Pipe(fuel: nat, scope: Scope, stages: seq<Value>, first: Value) returns (r: Result<Value>)
    requires scope.Valid()
    ensures r == Sem.PipeFrom(fuel, scope.Chain(), stages, 1, first)
    decreases fuel, 3, 0
  {
    var acc := first;
    var i := 1;
    while i < |stages|
      invariant Sem.PipeFrom(fuel, scope.Chain(), stages, 1, first) == Sem.PipeFrom(fuel, scope.Chain(), stages, i, acc)
      decreases |stages| - i
    {
      var next := CallWith(fuel, stages[i], scope, [Sem.Val(acc)]);
      if next.Err? {
        return next;
      }
      acc := next.value;
      i := i + 1;
    }
    r := Ok(acc);
  }

  // ---------------------------------------------------------------- builtins

  method RunBuiltin(name: BuiltinName, a: ArgCursor) returns (r: Result<Value>)
    requires a.Valid()
    modifies a
    ensures a.Valid() && old(a.argIndex) <= a.argIndex
    ensures r == Sem.RunBuiltin(a.fuel, name, a.Env(), old(a.State()))
    decreases a.fuel, 5, 0
  {
    match name
    case Cond => r := CondCall(a);
    case Not => r := NotCall(a);
    case StrictEq => r := EqCall(a, false);
    case StrictNotEq => r := EqCall(a, true);
    case Or => r := OrCall(a);
    case Pipe => r := PipeCall(a);
    case And => r := AndCall(a);
    case ObjectOf => r := ObjectCall(a);
    case ArrayOf => r := ArrayCall(a);
    case MapOver => r := MapCall(a);
    case Filter => r := FilterCall(a);
    case FindOne => r := FindOneCall(a);
    case Concat => r := ConcatCall(a);
    case Join => r := JoinCall(a);
    case Slice => r := SliceCall(a);
    case Last => r := LastCall(a);
    case Length => r := LengthCall(a);
    case GetValue => r := GetValueCall(a);
    case Compare => r := CompareCall(a);
    case CharAt => r := CharAtCall(a);
    case Refine => r := RefineCall(a);
    case Fold => r := FoldCall(a);
    case PartialOf => r := PartialCall(a);
    case Flip => r := FlipCall(a);
    case Compose => r := ComposeCall(a);
    case Apply => r := ApplyCall(a);
    case Other(_) => r := Err(Unsupported);
  }

  /** `?`. */
  method CondCall(a: ArgCursor) returns (r: Result<Value>)
    requires a.Valid()
    modifies a
    ensures a.Valid() && old(a.argIndex) <= a.argIndex
    ensures r == Sem.CondCall(a.fuel, a.Env(), old(a.State()))
    decreases a.fuel, 4, 0
  {
    var test := a.Next();
    if test.Err? {
      return test;
    }
    if Truthy(test.value) {
      r := a.Next();
    } else {
      r := a.Get(2);
    }
  }

  /** `!`. */
  method NotCall(a: ArgCursor) returns (r: Result<Value>)
    requires a.Valid()
    modifies a
    ensures a.Valid() && old(a.argIndex) <= a.argIndex
    ensures r == Sem.NotCall(a.fuel, a.Env(), old(a.State()))
    decreases a.fuel, 4, 0
  {
    var v := a.Next();
    if v.Err? {
      return v;
    }
    r := Ok(Bool(!Truthy(v.value)));
  }

  /** `==` and `!==`. */
  method EqCall(a: ArgCursor, negated: bool) returns (r: Result<Value>)
    requires a.Valid()
    modifies a
    ensures a.Valid() && old(a.argIndex) <= a.argIndex
    ensures r == Sem.EqCall(a.fuel, a.Env(), old(a.State()), negated)
    decreases a.fuel, 4, 0
  {
    var x := a.Next();
    if x.Err? {
      return x;
    }
    var y := a.Next();
    if y.Err? {
      return y;
    }
    var same := StrictEquals(x.value, y.value);
    if same.Err? {
      return Err(same.error);
    }
    r := Ok(Bool(same.value != negated));
  }

  /** `||`. */
  method OrCall(a: ArgCursor) returns (r: Result<Value>)
    requires a.Valid()
    modifies a
    ensures a.Valid() && old(a.argIndex) <= a.argIndex
    ensures r == Sem.OrFrom(a.fuel, a.Env(), old(a.State()), Undefined)
    decreases a.fuel, 4, 0
  {
    var last := Undefined;
    while a.HasNext()
      invariant a.Valid() && old(a.argIndex) <= a.argIndex
      invariant Sem.OrFrom(a.fuel, a.Env(), old(a.State()), Undefined) == Sem.OrFrom(a.fuel, a.Env(), a.State(), last)
      decreases |a.args| - a.argIndex
    {
      var v := a.Next();
      if v.Err? {
        return v;
      }
      if Truthy(v.value) {
        return v;
      }
      last := v.value;
    }
    r := Ok(last);
  }

  /** `|`. */
  method PipeCall(a: ArgCursor) returns (r: Result<Value>)
    requires a.Valid()
    modifies a
    ensures a.Valid() && old(a.argIndex) <= a.argIndex
    ensures r == Sem.PipeTrueFrom(a.fuel, a.Env(), old(a.State()), Undefined)
    decreases a.fuel, 4, 0
  {
    var last := Undefined;
    while a.HasNext()
      invariant a.Valid() && old(a.argIndex) <= a.argIndex
      invariant Sem.PipeTrueFrom(a.fuel, a.Env(), old(a.State()), Undefined) == Sem.PipeTrueFrom(a.fuel, a.Env(), a.State(), last)
      decreases |a.args| - a.argIndex
    {
      var v := a.Next();
      if v.Err? {
        return v;
      }
      if v.value == Bool(true) {
        return v;
      }
      last := v.value;
    }
    r := Ok(last);
  }

  /** `&&`. */
  method AndCall(a: ArgCursor) returns (r: Result<Value>)
    requires a.Valid()
    modifies a
    ensures a.Valid() && old(a.argIndex) <= a.argIndex
    ensures r == Sem.AndFrom(a.fuel, a.Env(), old(a.State()), Undefined)
    decreases a.fuel, 4, 0
  {
    var last := Undefined;
    while a.HasNext()
      invariant a.Valid() && old(a.argIndex) <= a.argIndex
      invariant Sem.AndFrom(a.fuel, a.Env(), old(a.State()), Undefined) == Sem.AndFrom(a.fuel, a.Env(), a.State(), last)
      decreases |a.args| - a.argIndex
    {
      var v := a.Next();
      if v.Err? {
        return v;
      }
      if !Truthy(v.value) {
        return Ok(Bool(false));
      }
      last := v.value;
    }
    r := Ok(last);
  }

  /** `object`. */
  method ObjectCall(a: ArgCursor) returns (r: Result<Value>)
    requires a.Valid()
    modifies a
    ensures a.Valid() && old(a.argIndex) <= a.argIndex
    ensures r == Sem.ObjectFrom(a.fuel, a.Env(), old(a.State()), [])
    decreases a.fuel, 4, 0
  {
    var fields: seq<Field> := [];
    while a.HasNext()
      invariant a.Valid() && old(a.argIndex) <= a.argIndex
      invariant Sem.ObjectFrom(a.fuel, a.Env(), old(a.State()), []) == Sem.ObjectFrom(a.fuel, a.Env(), a.State(), fields)
      decreases |a.args| - a.argIndex
    {
      var k := a.Next();
      if k.Err? {
        return k;
      }
      var v := a.Next();
      if v.Err? {
        return v;
      }
      var key := ToStr(k.value);
      if key.Err? {
        return Err(key.error);
      }
      var updated := SetField(fields, key.value, v.value);
      if updated.Err? {
        return Err(updated.error);
      }
      fields := updated.value;
    }
    r := Ok(Obj(fields));
  }

  /** `array`. */
  method ArrayCall(a: ArgCursor) returns (r: Result<Value>)
    requires a.Valid()
    modifies a
    ensures a.Valid() && old(a.argIndex) <= a.argIndex
    ensures r == Sem.ArrayCall(a.fuel, a.Env(), old(a.State()))
    decreases a.fuel, 4, 0
  {
    var items: seq<Value> := [];
    PrefixedNothing(Sem.AllFrom(a.fuel, a.Env(), a.State()));
    while a.HasNext()
      invariant a.Valid() && old(a.argIndex) <= a.argIndex
      invariant Sem.AllFrom(a.fuel, a.Env(), old(a.State())) == Prefixed(items, Sem.AllFrom(a.fuel, a.Env(), a.State()))
      decreases |a.args| - a.argIndex
    {
      ghost var before := a.State();
      var v := a.Next();
      if v.Err? {
        return v;
      }
      assert Sem.AllFrom(a.fuel, a.Env(), before) == Prefixed([v.value], Sem.AllFrom(a.fuel, a.Env(), a.State()));
      PrefixedMore(items, [v.value], Sem.AllFrom(a.fuel, a.Env(), a.State()));
      items := items + [v.value];
    }
    assert items + [] == items;
    r := Ok(Arr(items));
  }

  /** `map`. */
  method MapCall(a: ArgCursor) returns (r: Result<Value>)
    requires a.Valid()
    modifies a
    ensures a.Valid() && old(a.argIndex) <= a.argIndex
    ensures r == Sem.MapCall(a.fuel, a.Env(), old(a.State()))
    decreases a.fuel, 4, 0
  {
    var source := a.Next();
    if source.Err? {
      return source;
    }
    var fn := a.Next();
    if fn.Err? {
      return fn;
    }
    if source.value.Arr? {
      var items := MapItems(a.fuel, a.scope, fn.value, source.value.items);
      r := if items.Err? then Err(items.error) else Ok(Arr(items.value));
    } else {
      var fields := MapFields(a.fuel, a.scope, fn.value, Entries(source.value));
      r := if fields.Err? then Err(fields.error) else Ok(Obj(fields.value));
    }
  }

  /** `map` over an array: the function is called on each item in turn. */
  method MapItems(fuel: nat, scope: Scope, f: Value, items: seq<Value>) returns (r: Result<seq<Value>>)
    requires scope.Valid()
    ensures r == Sem.MapItems(fuel, scope.Chain(), f, items)
    decreases fuel, 3, 0
  {
    var mapped: seq<Value> := [];
    var k := 0;
    PrefixedNothing(Sem.MapItems(fuel, scope.Chain(), f, items));
    assert items[0..] == items;
    while k < |items|
      invariant k <= |items|
      invariant Sem.MapItems(fuel, scope.Chain(), f, items) == Prefixed(mapped, Sem.MapItems(fuel, scope.Chain(), f, items[k..]))
    {
      assert items[k..][1..] == items[k + 1..];
      var y := CallWith(fuel, f, scope, [Sem.Val(items[k])]);
      if y.Err? {
        return Err(y.error);
      }
      assert Sem.MapItems(fuel, scope.Chain(), f, items[k..]) == Prefixed([y.value], Sem.MapItems(fuel, scope.Chain(), f, items[k + 1..]));
      PrefixedMore(mapped, [y.value], Sem.MapItems(fuel, scope.Chain(), f, items[k + 1..]));
      mapped := mapped + [y.value];
      k := k + 1;
    }
    assert items[k..] == [];
    assert mapped + [] == mapped;
    r := Ok(mapped);
  }

  /** `map` over anything else: each value the for-in loop visits is
      mapped into a new object under the same key. */
  method MapFields(fuel: nat, scope: Scope, f: Value, entries: seq<Field>) returns (r: Result<seq<Field>>)
    requires scope.Valid()
    ensures r == Sem.MapFields(fuel, scope.Chain(), f, entries, [])
    decreases fuel, 3, 0
  {
    var fields: seq<Field> := [];
    var k := 0;
    assert entries[0..] == entries;
    while k < |entries|
      invariant k <= |entries|
      invariant Sem.MapFields(fuel, scope.Chain(), f, entries, []) == Sem.MapFields(fuel, scope.Chain(), f, entries[k..], fields)
    {
      assert entries[k..][1..] == entries[k + 1..];
      var y := CallWith(fuel, f, scope, [Sem.Val(entries[k].value)]);
      if y.Err? {
        return Err(y.error);
      }
      var updated := SetField(fields, entries[k].key, y.value);
      if updated.Err? {
        return Err(updated.error);
      }
      fields := updated.value;
      k := k + 1;
    }
    assert entries[k..] == [];
    r := Ok(fields);
  }

  /** `filter`. */
  method FilterCall(a: ArgCursor) returns (r: Result<Value>)
    requires a.Valid()
    modifies a
    ensures a.Valid() && old(a.argIndex) <= a.argIndex
    ensures r == Sem.FilterCall(a.fuel, a.Env(), old(a.State()))
    decreases a.fuel, 4, 0
  {
    var vals := a.All();
    if vals.Err? {
      return Err(vals.error);
    }
    if |vals.value| < 2 {
      return Ok(Arr(vals.value));
    }
    if !vals.value[0].Arr? {
      return Ok(Undefined);
    }
    var kept := FilterItems(a.fuel, a.scope, vals.value[1], vals.value[0].items);
    r := if kept.Err? then Err(kept.error) else Ok(Arr(kept.value));
  }

  /** `filter`'s test of one item: a function is called on it, any other
      value is compared with it. */
  method Keep(fuel: nat, scope: Scope, f: Value, x: Value) returns (r: Result<bool>)
    requires scope.Valid()
    ensures r == Sem.Keeps(fuel, scope.Chain(), f, x)
    decreases fuel, 2, 0
  {
    if f.Fn? {
      var out := CallWith(fuel, f, scope, [Sem.Val(x)]);
      r := if out.Err? then Err(out.error) else Ok(Truthy(out.value));
    } else {
      r := StrictEquals(x, f);
    }
  }

  /** `filter` at item `k`: its test, then the items after it. */
  lemma {:induction false} FilterItemsAt(fuel: nat, env: Env, f: Value, items: seq<Value>, k: nat)
    requires k < |items|
    ensures var keep := Sem.Keeps(fuel, env, f, items[k]);
            Sem.FilterItems(fuel, env, f, items[k..])
            == if keep.Err? then Err(keep.error)
               else Prefixed(if keep.value then [items[k]] else [], Sem.FilterItems(fuel, env, f, items[k + 1..]))
  {
    assert items[k..][1..] == items[k + 1..];
  }

  /** The items `filter` keeps, in their order. */
  method FilterItems(fuel: nat, scope: Scope, f: Value, items: seq<Value>) returns (r: Result<seq<Value>>)
    requires scope.Valid()
    ensures r == Sem.FilterItems(fuel, scope.Chain(), f, items)
    decreases fuel, 3, 0
  {
    var kept: seq<Value> := [];
    var k := 0;
    PrefixedNothing(Sem.FilterItems(fuel, scope.Chain(), f, items));
    assert items[0..] == items;
    while k < |items|
      invariant k <= |items|
      invariant Sem.FilterItems(fuel, scope.Chain(), f, items) == Prefixed(kept, Sem.FilterItems(fuel, scope.Chain(), f, items[k..]))
    {
      var keep := Keep(fuel, scope, f, items[k]);
      FilterItemsAt(fuel, scope.Chain(), f, items, k);
      if keep.Err? {
        return Err(keep.error);
      }
      var head := if keep.value then [items[k]] else [];
      PrefixedMore(kept, head, Sem.FilterItems(fuel, scope.Chain(), f, items[k + 1..]));
      kept := kept + head;
      k := k + 1;
    }
    assert items[k..] == [];
    assert kept + [] == kept;
    r := Ok(kept);
  }

  /** `findOne`. */
  method FindOneCall(a: ArgCursor) returns (r: Result<Value>)
    requires a.Valid()
    modifies a
    ensures a.Valid() && old(a.argIndex) <= a.argIndex
    ensures r == Sem.FindOneCall(a.fuel, a.Env(), old(a.State()))
    decreases a.fuel, 4, 0
  {
    var vals := a.All();
    if vals.Err? {
      return Err(vals.error);
    }
    if |vals.value| < 2 {
      return Ok(Arr(vals.value));
    }
    if !vals.value[0].Arr? {
      return Ok(Undefined);
    }
    r := FindFirst(a.fuel, a.scope, vals.value[1], vals.value[0].items);
  }

  /** The first item the function accepts; the items after it are not
      visited. */
  method FindFirst(fuel: nat, scope: Scope, f: Value, items: seq<Value>) returns (r: Result<Value>)
    requires scope.Valid()
    ensures r == Sem.FindFirst(fuel, scope.Chain(), f, items)
    decreases fuel, 3, 0
  {
    var k := 0;
    assert items[0..] == items;
    while k < |items|
      invariant k <= |items|
      invariant Sem.FindFirst(fuel, scope.Chain(), f, items) == Sem.FindFirst(fuel, scope.Chain(), f, items[k..])
    {
      assert items[k..][1..] == items[k + 1..];
      var out := CallWith(fuel, f, scope, [Sem.Val(items[k])]);
      if out.Err? {
        assert Sem.Accepts(fuel, scope.Chain(), f, items[k]) == Err(out.error);
        return out;
      }
      assert Sem.Accepts(fuel, scope.Chain(), f, items[k]) == Ok(Truthy(out.value));
      if Truthy(out.value) {
        return Ok(items[k]);
      }
      k := k + 1;
    }
    r := Ok(Undefined);
  }

  /** `concat`. */
  method ConcatCall(a: ArgCursor) returns (r: Result<Value>)
    requires a.Valid()
    modifies a
    ensures a.Valid() && old(a.argIndex) <= a.argIndex
    ensures r == Sem.ConcatCall(a.fuel, a.Env(), old(a.State()))
    decreases a.fuel, 4, 0
  {
    var first := a.Next();
    if first.Err? {
      return first;
    }
    r := ConcatRest(a, first.value);
  }

  /** `concat`'s loop over the arguments after the first. */
  method ConcatRest(a: ArgCursor, first: Value) returns (r: Result<Value>)
    requires a.Valid()
    modifies a
    ensures a.Valid() && old(a.argIndex) <= a.argIndex
    ensures r == Sem.ConcatFrom(a.fuel, a.Env(), old(a.State()), first)
    decreases a.fuel, 3, 0
  {
    var result := first;
    while a.HasNext() && (result.Str? || result.Arr?)
      invariant a.Valid() && old(a.argIndex) <= a.argIndex
      invariant Sem.ConcatFrom(a.fuel, a.Env(), old(a.State()), first) == Sem.ConcatFrom(a.fuel, a.Env(), a.State(), result)
      decreases |a.args| - a.argIndex
    {
      ConcatFromStep(a.fuel, a.Env(), a.State(), result);
      var v := a.Next();
      if v.Err? {
        return v;
      }
      var joined := Sem.Appended(result, v.value);
      if joined.Err? {
        return joined;
      }
      result := joined.value;
    }
    r := ConcatEnd(a, result);
  }

  /** How `concat`'s loop ends: with the arguments used up, or at a running
      result that has no string or array `concat`. */
  method ConcatEnd(a: ArgCursor, result: Value) returns (r: Result<Value>)
    requires a.Valid() && !(a.HasNext() && (result.Str? || result.Arr?))
    modifies a
    ensures a.Valid() && old(a.argIndex) <= a.argIndex
    ensures r == Sem.ConcatFrom(a.fuel, a.Env(), old(a.State()), result)
    decreases a.fuel, 2, 2
  {
    if !a.HasNext() {
      return Ok(result);
    }
    if result.Obj? && Sem.OwnConcat(result.fields).Some? {
      // an object's own truthy `concat` is host code, called with the next argument
      var v := a.Next();
      if v.Err? {
        return v;
      }
      return if Sem.OwnConcat(result.fields).value.Fn? then Err(Unsupported) else Err(TypeError);
    }
    r := Ok(Undefined);
  }

  /** `concat` onto a string or an array: the next argument is appended,
      then the loop goes on. */
  lemma {:induction false} ConcatFromStep(fuel: nat, env: Env, c: Sem.Cursor, result: Value)
    requires Sem.HasNext(c) && (result.Str? || result.Arr?)
    ensures var s := Sem.Next(fuel, env, c);
            Sem.ConcatFrom(fuel, env, c, result)
            == if s.Err? then Err(s.error)
               else if Sem.Appended(result, s.value.value).Err? then Err(Sem.Appended(result, s.value.value).error)
               else Sem.ConcatFrom(fuel, env, s.value.rest, Sem.Appended(result, s.value.value).value)
  {
  }

  /** `join`. */
  method JoinCall(a: ArgCursor) returns (r: Result<Value>)
    requires a.Valid()
    modifies a
    ensures a.Valid() && old(a.argIndex) <= a.argIndex
    ensures r == Sem.JoinCall(a.fuel, a.Env(), old(a.State()))
    decreases a.fuel, 4, 0
  {
    var vals := a.All();
    if vals.Err? {
      return Err(vals.error);
    }
    var vs := vals.value;
    var sep := if vs == [] || vs[0].Undefined? then Ok(",") else ToStr(vs[0]);
    if sep.Err? {
      return Err(sep.error);
    }
    var text := JoinText(if vs == [] then [] else vs[1..], sep.value);
    if text.Err? {
      return Err(text.error);
    }
    r := Ok(Str(text.value));
  }

  /** `slice`. */
  method SliceCall(a: ArgCursor) returns (r: Result<Value>)
    requires a.Valid()
    modifies a
    ensures a.Valid() && old(a.argIndex) <= a.argIndex
    ensures r == Sem.SliceCall(a.fuel, a.Env(), old(a.State()))
    decreases a.fuel, 4, 0
  {
    ghost var env := a.Env();
    ghost var c0 := a.State();
    var target := a.Next();
    if target.Err? {
      return target;
    }
    if !a.HasNext() {
      return Sem.SliceOf(target.value, Undefined, Undefined);
    }
    var start := target.value;
    ghost var c1 := a.State();
    target := a.Next();
    if target.Err? {
      return target;
    }
    assert Sem.SliceCall(a.fuel, env, c0) == SliceTail(a.fuel, env, c1, start);
    if !a.HasNext() {
      return Sem.SliceOf(target.value, start, Undefined);
    }
    var end := target.value;
    target := a.Next();
    if target.Err? {
      return target;
    }
    r := Sem.SliceOf(target.value, start, end);
  }

  /** `slice` after its first argument. */
  ghost function SliceTail(fuel: nat, env: Env, c: Sem.Cursor, first: Value): Result<Value> {
    var b :- Sem.Next(fuel, env, c);
    if !Sem.HasNext(b.rest) then Sem.SliceOf(b.value, first, Undefined)
    else
      var d :- Sem.Next(fuel, env, b.rest);
      Sem.SliceOf(d.value, first, b.value)
  }

  /** `last`. */
  method LastCall(a: ArgCursor) returns (r: Result<Value>)
    requires a.Valid()
    modifies a
    ensures a.Valid() && old(a.argIndex) <= a.argIndex
    ensures r == Sem.LastCall(a.fuel, a.Env(), old(a.State()))
    decreases a.fuel, 4, 0
  {
    var v := a.Next();
    if v.Err? {
      return v;
    }
    if v.value.Arr? && v.value.items != [] {
      r := Ok(v.value.items[|v.value.items| - 1]);
    } else {
      r := Ok(Undefined);
    }
  }

  /** `length`. */
  method LengthCall(a: ArgCursor) returns (r: Result<Value>)
    requires a.Valid()
    modifies a
    ensures a.Valid() && old(a.argIndex) <= a.argIndex
    ensures r == Sem.LengthCall(a.fuel, a.Env(), old(a.State()))
    decreases a.fuel, 4, 0
  {
    var v := a.Next();
    if v.Err? {
      return v;
    }
    r := Member(v.value, "length");
  }

  /** `getValue`. */
  method GetValueCall(a: ArgCursor) returns (r: Result<Value>)
    requires a.Valid()
    modifies a
    ensures a.Valid() && old(a.argIndex) <= a.argIndex
    ensures r == Sem.GetValueCall(a.fuel, a.Env(), old(a.State()))
    decreases a.fuel, 4, 0
  {
    var target := a.Next();
    if target.Err? {
      return target;
    }
    var key := a.Next();
    if key.Err? {
      return key;
    }
    if !(target.value.Arr? || target.value.Obj?) {
      return Ok(Undefined);
    }
    var name := ToStr(key.value);
    if name.Err? {
      return Err(name.error);
    }
    r := Member(target.value, name.value);
  }

  /** `compare`. */
  method CompareCall(a: ArgCursor) returns (r: Result<Value>)
    requires a.Valid()
    modifies a
    ensures a.Valid() && old(a.argIndex) <= a.argIndex
    ensures r == Sem.CompareCall(a.fuel, a.Env(), old(a.State()))
    decreases a.fuel, 4, 0
  {
    var vals := a.All();
    if vals.Err? {
      return Err(vals.error);
    }
    var objects := vals.value;
    var n := |objects|;
    var comparator := if n >= 1 then objects[n - 1] else Undefined;
    var reference := if n >= 2 then objects[n - 2] else Undefined;
    var same := CompareObjects(a.fuel, a.scope, comparator, reference, if n >= 2 then objects[..n - 2] else []);
    r := if same.Err? then Err(same.error) else Ok(Bool(same.value));
  }

  /** The objects are taken from the end; every property of each is
      compared, and a false comparison only clears the result. */
  method CompareObjects(fuel: nat, scope: Scope, comparator: Value, reference: Value, objects: seq<Value>)
    returns (r: Result<bool>)
    requires scope.Valid()
    ensures r == Sem.CompareItems(fuel, scope.Chain(), comparator, reference, objects, true)
    decreases fuel, 3, 0
  {
    var rest := objects;
    var result := true;
    while |rest| > 0
      invariant Sem.CompareItems(fuel, scope.Chain(), comparator, reference, objects, true)
                == Sem.CompareItems(fuel, scope.Chain(), comparator, reference, rest, result)
      decreases |rest|
    {
      var same := CompareEntries(fuel, scope, comparator, reference, Entries(rest[|rest| - 1]), result);
      CompareItemsLast(fuel, scope.Chain(), comparator, reference, rest, result);
      if same.Err? {
        return Err(same.error);
      }
      rest := rest[..|rest| - 1];
      result := same.value;
    }
    r := Ok(result);
  }

  /** `compare` over the objects, from the last: one step. */
  lemma {:induction false} CompareItemsLast(fuel: nat, env: Env, comparator: Value, reference: Value, objects: seq<Value>, result: bool)
    requires objects != []
    ensures var same := Sem.CompareEntries(fuel, env, comparator, reference, Entries(objects[|objects| - 1]), result);
            Sem.CompareItems(fuel, env, comparator, reference, objects, result)
            == if same.Err? then Err(same.error)
               else Sem.CompareItems(fuel, env, comparator, reference, objects[..|objects| - 1], same.value)
  {
  }

  /** One comparison: the comparator called with a property's value and
      the reference's property of the same name. */
  method Compare(fuel: nat, scope: Scope, comparator: Value, reference: Value, e: Field) returns (r: Result<bool>)
    requires scope.Valid()
    ensures r == Sem.Compared(fuel, scope.Chain(), comparator, reference, e)
    decreases fuel, 1, 0
  {
    var other := Member(reference, e.key);
    if other.Err? {
      return Err(other.error);
    }
    var out := CallWith(fuel, comparator, scope, [Sem.Val(e.value), Sem.Val(other.value)]);
    if out.Err? {
      return Err(out.error);
    }
    r := Ok(Truthy(out.value));
  }

  /** The comparisons from property `j` on: its comparison, then the rest. */
  lemma {:induction false} CompareEntriesAt(fuel: nat, env: Env, comparator: Value, reference: Value, entries: seq<Field>, j: nat, result: bool)
    requires j < |entries|
    ensures var same := Sem.Compared(fuel, env, comparator, reference, entries[j]);
            Sem.CompareEntries(fuel, env, comparator, reference, entries[j..], result)
            == if same.Err? then Err(same.error)
               else Sem.CompareEntries(fuel, env, comparator, reference, entries[j + 1..], result && same.value)
  {
    assert entries[j..][1..] == entries[j + 1..];
  }

  /** The comparisons for one object's properties. */
  method CompareEntries(fuel: nat, scope: Scope, comparator: Value, reference: Value, entries: seq<Field>, result: bool)
    returns (r: Result<bool>)
    requires scope.Valid()
    ensures r == Sem.CompareEntries(fuel, scope.Chain(), comparator, reference, entries, result)
    decreases fuel, 2, 0
  {
    var same := result;
    var j := 0;
    assert entries[0..] == entries;
    while j < |entries|
      invariant j <= |entries|
      invariant Sem.CompareEntries(fuel, scope.Chain(), comparator, reference, entries, result)
                == Sem.CompareEntries(fuel, scope.Chain(), comparator, reference, entries[j..], same)
    {
      var one := Compare(fuel, scope, comparator, reference, entries[j]);
      CompareEntriesAt(fuel, scope.Chain(), comparator, reference, entries, j, same);
      if one.Err? {
        return Err(one.error);
      }
      same := same && one.value;
      j := j + 1;
    }
    assert entries[j..] == [];
    r := Ok(same);
  }

  /** `charAt`. */
  method CharAtCall(a: ArgCursor) returns (r: Result<Value>)
    requires a.Valid()
    modifies a
    ensures a.Valid() && old(a.argIndex) <= a.argIndex
    ensures r == Sem.CharAtCall(a.fuel, a.Env(), old(a.State()))
    decreases a.fuel, 4, 0
  {
    var target := a.Next();
    if target.Err? {
      return target;
    }
    var position := Undefined;
    if a.HasNext() {
      var p := a.Next();
      if p.Err? {
        return p;
      }
      position := p.value;
    }
    if !target.value.Str? {
      return Ok(Undefined);
    }
    var n := ToNumberArg(position);
    if n.Err? {
      return Err(n.error);
    }
    r := Ok(Str(Sem.CharOf(target.value.s, n.value)));
  }

  /** `refine`: names are converted to strings in place, then the for-in
      loop copies the chosen properties. */
  method RefineCall(a: ArgCursor) returns (r: Result<Value>)
    requires a.Valid()
    modifies a
    ensures a.Valid() && old(a.argIndex) <= a.argIndex
    ensures r == Sem.RefineCall(a.fuel, a.Env(), old(a.State()))
    decreases a.fuel, 4, 0
  {
    var vals := a.All();
    if vals.Err? {
      return Err(vals.error);
    }
    var vs := vals.value;
    var flagged := vs != [] && vs[0].Bool?;
    var exclude := flagged && vs[0].b;
    var rest := if flagged then vs[1..] else vs;
    var original := if rest == [] then Undefined else rest[0];
    var names := NameTexts(if rest == [] then [] else rest[1..]);
    if names.Err? {
      return Err(names.error);
    }
    var fields := Refined(Entries(original), names.value, exclude);
    r := if fields.Err? then Err(fields.error) else Ok(Obj(fields.value));
  }

  /** Each name converted to a string; undefined and null have no
      `toString`. */
  method NameTexts(given: seq<Value>) returns (r: Result<seq<string>>)
    ensures r == Sem.NameTexts(given)
  {
    var names: seq<string> := [];
    var i := 0;
    PrefixedNothing(Sem.NameTexts(given));
    assert given[0..] == given;
    while i < |given|
      invariant i <= |given| && |names| == i
      invariant Sem.NameTexts(given) == Prefixed(names, Sem.NameTexts(given[i..]))
    {
      assert given[i..][1..] == given[i + 1..];
      if given[i].Undefined? || given[i].Null? {
        return Err(TypeError);
      }
      var text := ToStr(given[i]);
      if text.Err? {
        return Err(text.error);
      }
      assert Sem.NameTexts(given[i..]) == Prefixed([text.value], Sem.NameTexts(given[i + 1..]));
      PrefixedMore(names, [text.value], Sem.NameTexts(given[i + 1..]));
      names := names + [text.value];
      i := i + 1;
    }
    assert given[i..] == [];
    assert names + [] == names;
    r := Ok(names);
  }

  /** The for-in loop of `refine`: a property is copied when its name is
      listed, or, excluding, when it is not. */
  method Refined(entries: seq<Field>, names: seq<string>, exclude: bool) returns (r: Result<seq<Field>>)
    ensures r == Sem.Refined(entries, names, exclude, [])
  {
    var fields: seq<Field> := [];
    var k := 0;
    assert entries[0..] == entries;
    while k < |entries|
      invariant k <= |entries|
      invariant Sem.Refined(entries, names, exclude, []) == Sem.Refined(entries[k..], names, exclude, fields)
    {
      assert entries[k..][1..] == entries[k + 1..];
      if (entries[k].key in names) != exclude {
        var updated := SetField(fields, entries[k].key, entries[k].value);
        if updated.Err? {
          return Err(updated.error);
        }
        fields := updated.value;
      }
      k := k + 1;
    }
    assert entries[k..] == [];
    r := Ok(fields);
  }

  /** `fold`. */
  method FoldCall(a: ArgCursor) returns (r: Result<Value>)
    requires a.Valid()
    modifies a
    ensures a.Valid() && old(a.argIndex) <= a.argIndex
    ensures r == Sem.FoldCall(a.fuel, a.Env(), old(a.State()))
    decreases a.fuel, 4, 0
  {
    var vals := a.All();
    if vals.Err? {
      return Err(vals.error);
    }
    var vs := vals.value;
    var n := |vs|;
    var fn := if n >= 1 then vs[n - 1] else Undefined;
    var seed := if n >= 2 then vs[n - 2] else Undefined;
    var rest := if n >= 2 then vs[..n - 2] else [];
    var source := if |rest| > 1 then Arr(rest) else if |rest| == 1 then rest[0] else Undefined;
    var items := Indexed(source);
    if items.Err? {
      return Err(items.error);
    }
    r := FoldItems(a.fuel, a.scope, fn, seed, items.value);
  }

  /** A left fold: the function is called with the running result and
      each item in turn. */
  method FoldItems(fuel: nat, scope: Scope, f: Value, seed: Value, items: seq<Value>) returns (r: Result<Value>)
    requires scope.Valid()
    ensures r == Sem.FoldItems(fuel, scope.Chain(), f, seed, items)
    decreases fuel, 3, 0
  {
    var result := seed;
    var i := 0;
    assert items[0..] == items;
    while i < |items|
      invariant i <= |items|
      invariant Sem.FoldItems(fuel, scope.Chain(), f, seed, items) == Sem.FoldItems(fuel, scope.Chain(), f, result, items[i..])
    {
      assert items[i..][1..] == items[i + 1..];
      var next := CallWith(fuel, f, scope, [Sem.Val(result), Sem.Val(items[i])]);
      if next.Err? {
        return next;
      }
      result := next.value;
      i := i + 1;
    }
    assert items[i..] == [];
    r := Ok(result);
  }

  /** `partial`. */
  method PartialCall(a: ArgCursor) returns (r: Result<Value>)
    requires a.Valid()
    modifies a
    ensures a.Valid() && old(a.argIndex) <= a.argIndex
    ensures r == Sem.PartialCall(a.fuel, a.Env(), old(a.State()))
    decreases a.fuel, 4, 0
  {
    var vals := a.All();
    if vals.Err? {
      return Err(vals.error);
    }
    var vs := vals.value;
    r := Ok(Fn(Partial(if vs == [] then Undefined else vs[0], if vs == [] then [] else vs[1..])));
  }

  /** `flip`. */
  method FlipCall(a: ArgCursor) returns (r: Result<Value>)
    requires a.Valid()
    modifies a
    ensures a.Valid() && old(a.argIndex) <= a.argIndex
    ensures r == Sem.FlipCall(a.fuel, a.Env(), old(a.State()))
    decreases a.fuel, 4, 0
  {
    var vals := a.All();
    if vals.Err? {
      return Err(vals.error);
    }
    var vs := vals.value;
    r := Ok(Fn(Flipped(if vs == [] then Undefined else vs[0], if vs == [] then [] else Reverse(vs[1..]))));
  }

  /** `compose`. */
  method ComposeCall(a: ArgCursor) returns (r: Result<Value>)
    requires a.Valid()
    modifies a
    ensures a.Valid() && old(a.argIndex) <= a.argIndex
    ensures r == Sem.ComposeCall(a.fuel, a.Env(), old(a.State()))
    decreases a.fuel, 4, 0
  {
    var vals := a.All();
    if vals.Err? {
      return Err(vals.error);
    }
    r := Ok(Fn(Composed(Reverse(vals.value))));
  }

  /** `apply`. */
  method ApplyCall(a: ArgCursor) returns (r: Result<Value>)
    requires a.Valid()
    modifies a
    ensures a.Valid() && old(a.argIndex) <= a.argIndex
    ensures r == Sem.ApplyCall(a.fuel, a.Env(), old(a.State()))
    decreases a.fuel, 4, 0
  {
    var f := a.Next();
    if f.Err? {
      return f;
    }
    var list := a.Next();
    if list.Err? {
      return list;
    }
    var args := ApplyArgs(list.value);
    if args.Err? {
      return Err(args.error);
    }
    r := CallWith(a.fuel, f.value, a.scope, Sem.Vals(args.value));
  }
}
