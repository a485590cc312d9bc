/** `gel.evaluate(expression, injectedScope)`: a top-level scope holding
    the functions registry and then the injected properties, the
    expression tokenised and parsed, every top-level token evaluated in
    that scope, and the result of the last one returned. */
module Session {
  import opened Errors
  import Syntax
  import opened Values
  import opened Scopes
  import Sem = Semantics
  import Tokeniser
  import Parser
  import Interpreter

  /** The registry as the properties `for (key in gel.functions)` visits. */
  function RegistryFields(): (r: seq<Field>)
    ensures |r| == |Registry|
    ensures forall i :: 0 <= i < |Registry| ==> r[i] == Field(Registry[i].0, Fn(Builtin(Registry[i].1)))
  {
    seq(|Registry|, i requires 0 <= i < |Registry| => Field(Registry[i].0, Fn(Builtin(Registry[i].1))))
  }

  /** The table of the top-level scope: the functions, then the injected
      properties over them. */
  function TopFrame(injected: seq<Field>): (r: Frame)
    ensures forall k :: k in r <==>
              (exists i :: 0 <= i < |Registry| && Registry[i].0 == k)
              || (exists j :: 0 <= j < |injected| && injected[j].key == k)
  {
    AddAll(AddAll(map[], RegistryFields()), injected)
  }

  /** The top-level loop: each token in the same scope, in order; the
      value is the last token's result, or `last` when there is none. */
  function EvaluateAll(fuel: nat, ts: seq<Syntax.Token>, env: Env, last: Value): Result<Value>
    decreases |ts|
  {
    if ts == [] then Ok(last)
    else
      var v :- Sem.Eval(fuel, ts[0], env);
      EvaluateAll(fuel, ts[1..], env, v)
  }

  /** `gel.evaluate`: a failure anywhere (tokenising, parsing, evaluating)
      is the error the call throws. An injected `__proto__` property would
      replace the top table's prototype instead of binding a name, which is
      Unsupported. */
  function Evaluate(fuel: nat, expression: string, injected: seq<Field>): Result<Value> {
    if FieldIndex(injected, "__proto__").Some? then Err(Unsupported)
    else
      var tokens :- Tokeniser.Tokens(expression);
      var tree :- Parser.Parse(tokens);
      EvaluateAll(fuel, tree, [TopFrame(injected)], Undefined)
  }

  // ---------------------------------------------------------------- properties

  /** The result is the last top-level token's result: every token before
      it evaluated without error; a failure is the first failing token's
      error. */
  lemma {:induction false} LastTokenResult(fuel: nat, ts: seq<Syntax.Token>, env: Env, last: Value)
    ensures ts == [] ==> EvaluateAll(fuel, ts, env, last) == Ok(last)
    ensures ts != [] && EvaluateAll(fuel, ts, env, last).Ok? ==>
              EvaluateAll(fuel, ts, env, last) == Sem.Eval(fuel, ts[|ts| - 1], env)
              && forall k :: 0 <= k < |ts| ==> Sem.Eval(fuel, ts[k], env).Ok?
    ensures EvaluateAll(fuel, ts, env, last).Err? ==>
              exists k :: 0 <= k < |ts|
                && (forall j :: 0 <= j < k ==> Sem.Eval(fuel, ts[j], env).Ok?)
                && Sem.Eval(fuel, ts[k], env) == Err(EvaluateAll(fuel, ts, env, last).error)
    decreases |ts|
  {
    if ts != [] {
      var v := Sem.Eval(fuel, ts[0], env);
      if v.Ok? {
        var rest := ts[1..];
        LastTokenResult(fuel, rest, env, v.value);
        assert forall k :: 1 <= k < |ts| ==> ts[k] == rest[k - 1];
        if rest != [] {
          assert rest[|rest| - 1] == ts[|ts| - 1];
        }
        var r := EvaluateAll(fuel, rest, env, v.value);
        if r.Err? {
          var k :| 0 <= k < |rest|
                   && (forall j :: 0 <= j < k ==> Sem.Eval(fuel, rest[j], env).Ok?)
                   && Sem.Eval(fuel, rest[k], env) == Err(r.error);
          assert forall j :: 0 <= j < k + 1 ==> Sem.Eval(fuel, ts[j], env).Ok?;
          assert Sem.Eval(fuel, ts[k + 1], env) == Err(r.error);
        }
      }
    }
  }

  /** An empty expression evaluates to undefined. */
  lemma {:induction false} EmptyExpression(fuel: nat, injected: seq<Field>)
    ensures Evaluate(fuel, "", injected)
            == if FieldIndex(injected, "__proto__").Some? then Err(Unsupported) else Ok(Undefined)
  {
    assert Tokeniser.Tokens("") == Ok([]);
    assert Parser.Parse([]) == Ok([]);
  }

  /** An injected property overrides a function of the same name: the top
      scope binds the name to the last injected value that carries it. */
  lemma {:induction false} InjectedShadowsFunctions(injected: seq<Field>, i: nat)
    requires i < |injected|
    requires forall j :: i < j < |injected| ==> injected[j].key != injected[i].key
    ensures Resolve([TopFrame(injected)], injected[i].key) == Ok(injected[i].value)
  {
    AddAllLastWins(AddAll(map[], RegistryFields()), injected, i);
  }

  /** A registry name that nothing injected overrides is bound to its
      builtin (the last registry entry with the name). */
  lemma {:induction false} FunctionsVisible(injected: seq<Field>, i: nat)
    requires i < |Registry|
    requires forall j :: i < j < |Registry| ==> Registry[j].0 != Registry[i].0
    requires forall j :: 0 <= j < |injected| ==> injected[j].key != Registry[i].0
    ensures Resolve([TopFrame(injected)], Registry[i].0) == Ok(Fn(Builtin(Registry[i].1)))
  {
    var fields := RegistryFields();
    AddAllLastWins(map[], fields, i);
    AddAllKeeps(AddAll(map[], fields), injected, Registry[i].0);
  }

  /** A name bound neither by the registry nor by the injected scope is
      undefined at the top level, unless `Object.prototype` has it. */
  lemma {:induction false} UnboundIsUndefined(injected: seq<Field>, name: string)
    requires forall j :: 0 <= j < |Registry| ==> Registry[j].0 != name
    requires forall j :: 0 <= j < |injected| ==> injected[j].key != name
    ensures Resolve([TopFrame(injected)], name) == if name in ObjectNames then Err(Unsupported) else Ok(Undefined)
  {
    var fields := RegistryFields();
    assert forall j :: 0 <= j < |fields| ==> fields[j].key != name;
  }

  // ---------------------------------------------------------------- the imperative form

  /** The module-level `evaluate(tokens, scope)`: each token evaluated in
      the scope, in order; the value is the last token's result. */
  method EvaluateTokens(fuel: nat, tokens: seq<Syntax.Token>, scope: Scope) returns (r: Result<Value>)
    requires scope.Valid()
    ensures r == EvaluateAll(fuel, tokens, scope.Chain(), Undefined)
  {
    var last := Undefined;
    var i := 0;
    assert tokens[0..] == tokens;
    while i < |tokens|
      invariant i <= |tokens|
      invariant EvaluateAll(fuel, tokens, scope.Chain(), Undefined) == EvaluateAll(fuel, tokens[i..], scope.Chain(), last)
    {
      assert tokens[i..][1..] == tokens[i + 1..];
      var token := Interpreter.Evaluate(fuel, tokens[i], scope);
      if token.Err? {
        return token;
      }
      last := token.value;
      i := i + 1;
    }
    assert tokens[i..] == [];
    r := Ok(last);
  }

  /** `gel.evaluate`: the scope is built with two `add` calls, the
      expression is tokenised and parsed, and the tree evaluated. */
  method EvaluateExpression(fuel: nat, expression: string, injected: seq<Field>) returns (r: Result<Value>)
    ensures r == Evaluate(fuel, expression, injected)
  {
    if FieldIndex(injected, "__proto__").Some? {
      return Err(Unsupported);
    }
    var scope := new Scope(null);
    scope.Add(RegistryFields());
    scope.Add(injected);
    assert scope.Chain() == [TopFrame(injected)];
    var tokens := Tokeniser.Tokenise(expression);
    if tokens.Err? {
      return Err(tokens.error);
    }
    var tree := Parser.ParseTokens(tokens.value);
    if tree.Err? {
      return Err(tree.error);
    }
    r := EvaluateTokens(fuel, tree.value, scope);
  }
}
