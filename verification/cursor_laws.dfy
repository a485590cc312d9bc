/** The argument cursor's protocol and the short-circuiting builtins that
    rely on it: an argument is evaluated only when the cursor reaches it. */
module CursorLaws {
  import opened Errors
  import opened Values
  import opened Scopes
  import opened Semantics

  /** `next` on an exhausted cursor is the arity error; otherwise it is the
      value of the argument at `argIndex`, and the cursor moves by one. */
  lemma {:induction false} NextLaw(fuel: nat, env: Env, c: Cursor)
    ensures !HasNext(c) ==> Next(fuel, env, c) == Err(ArgumentCount)
    ensures HasNext(c) ==>
      (Next(fuel, env, c).Ok? <==> ArgValue(fuel, env, c.args[c.index]).Ok?)
      && (Next(fuel, env, c).Err? ==> Next(fuel, env, c).error == ArgValue(fuel, env, c.args[c.index]).error)
      && (Next(fuel, env, c).Ok? ==>
            Next(fuel, env, c).value == Step(ArgValue(fuel, env, c.args[c.index]).value, c.(index := c.index + 1)))
  {
  }

  /** One step of `all`: the argument at the cursor, then the rest. */
  lemma {:induction false} AllFromStep(fuel: nat, env: Env, c: Cursor)
    requires HasNext(c)
    ensures var a := ArgValue(fuel, env, c.args[c.index]);
      (a.Err? ==> AllFrom(fuel, env, c) == Err(a.error))
      && (a.Ok? ==>
            var more := AllFrom(fuel, env, c.(index := c.index + 1));
            AllFrom(fuel, env, c) == if more.Err? then Err(more.error) else Ok([a.value] + more.value))
  {
    var a := ArgValue(fuel, env, c.args[c.index]);
    if a.Ok? {
      assert Next(fuel, env, c) == Ok(Step(a.value, c.(index := c.index + 1)));
    }
  }

  /** `all` evaluates every remaining argument in order: it succeeds exactly
      when each does, and then returns their values. */
  lemma {:induction false} AllFromValues(fuel: nat, env: Env, c: Cursor)
    requires c.index <= |c.args|
    ensures AllFrom(fuel, env, c).Ok? <==>
              forall k :: c.index <= k < |c.args| ==> ArgValue(fuel, env, c.args[k]).Ok?
    ensures AllFrom(fuel, env, c).Ok? ==>
              |AllFrom(fuel, env, c).value| == |c.args| - c.index
              && forall k :: c.index <= k < |c.args| ==>
                   ArgValue(fuel, env, c.args[k]) == Ok(AllFrom(fuel, env, c).value[k - c.index])
    decreases |c.args| - c.index
  {
    if HasNext(c) {
      AllFromStep(fuel, env, c);
      if ArgValue(fuel, env, c.args[c.index]).Ok? {
        AllFromValues(fuel, env, c.(index := c.index + 1));
      }
    }
  }

  /** Argument `k` is the first from the cursor's position to fail, and it
      fails with `e`. */
  ghost predicate FirstFailure(fuel: nat, env: Env, c: Cursor, k: int, e: Error) {
    c.index <= k < |c.args|
    && (forall j :: c.index <= j < k ==> ArgValue(fuel, env, c.args[j]).Ok?)
    && ArgValue(fuel, env, c.args[k]) == Err(e)
  }

  /** A failing `all` fails with the error of the first argument that
      fails, every argument before it having been evaluated. */
  lemma {:induction false} AllFromFirstError(fuel: nat, env: Env, c: Cursor)
    requires c.index <= |c.args|
    ensures AllFrom(fuel, env, c).Err? ==>
              exists k :: FirstFailure(fuel, env, c, k, AllFrom(fuel, env, c).error)
    decreases |c.args| - c.index
  {
    if HasNext(c) && AllFrom(fuel, env, c).Err? {
      AllFromStep(fuel, env, c);
      var e := AllFrom(fuel, env, c).error;
      if ArgValue(fuel, env, c.args[c.index]).Ok? {
        var d := c.(index := c.index + 1);
        AllFromFirstError(fuel, env, d);
        var k :| FirstFailure(fuel, env, d, k, e);
        FirstFailureBack(fuel, env, c, k, e);
      } else {
        assert FirstFailure(fuel, env, c, c.index, e);
      }
    }
  }

  /** A first failure after an argument that succeeds is also the first
      failure counting from that argument. */
  lemma {:induction false} FirstFailureBack(fuel: nat, env: Env, c: Cursor, k: int, e: Error)
    requires c.index < |c.args| && ArgValue(fuel, env, c.args[c.index]).Ok?
    requires FirstFailure(fuel, env, c.(index := c.index + 1), k, e)
    ensures FirstFailure(fuel, env, c, k, e)
  {
  }

  /** `all` over plain values returns them unchanged. */
  lemma {:induction false} AllOfVals(fuel: nat, env: Env, vs: seq<Value>, i: nat)
    requires i <= |vs|
    ensures AllFrom(fuel, env, Cursor(Vals(vs), i)) == Ok(vs[i..])
    decreases |vs| - i
  {
    if i < |vs| {
      var c := Cursor(Vals(vs), i);
      assert ArgValue(fuel, env, c.args[i]) == Ok(vs[i]);
      assert Next(fuel, env, c) == Ok(Step(vs[i], c.(index := i + 1)));
      AllOfVals(fuel, env, vs, i + 1);
      assert AllFrom(fuel, env, c) == Ok([vs[i]] + vs[i + 1..]);
      assert vs[i..] == [vs[i]] + vs[i + 1..];
    } else {
      assert !HasNext(Cursor(Vals(vs), i));
      assert AllFrom(fuel, env, Cursor(Vals(vs), i)) == Ok([]);
      assert vs[i..] == [];
    }
  }

  /** `?` evaluates the condition and exactly one branch: the second
      argument when the condition is truthy, the third (or undefined) when
      it is not. The other branch plays no part in the result. */
  lemma {:induction false} CondOneBranch(fuel: nat, env: Env, args: seq<Arg>)
    ensures args == [] ==> CondCall(fuel, env, Cursor(args, 0)) == Err(ArgumentCount)
    ensures args != [] && ArgValue(fuel, env, args[0]).Err? ==>
              CondCall(fuel, env, Cursor(args, 0)) == Err(ArgValue(fuel, env, args[0]).error)
    ensures args != [] && ArgValue(fuel, env, args[0]).Ok? && Truthy(ArgValue(fuel, env, args[0]).value) ==>
              CondCall(fuel, env, Cursor(args, 0))
              == (if |args| >= 2 then ArgValue(fuel, env, args[1]) else Err(ArgumentCount))
    ensures args != [] && ArgValue(fuel, env, args[0]).Ok? && !Truthy(ArgValue(fuel, env, args[0]).value) ==>
              CondCall(fuel, env, Cursor(args, 0))
              == (if |args| >= 3 then ArgValue(fuel, env, args[2]) else Ok(Undefined))
  {
    var c := Cursor(args, 0);
    if args != [] {
      NextLaw(fuel, env, c);
      if ArgValue(fuel, env, args[0]).Ok? {
        NextLaw(fuel, env, c.(index := 1));
      }
    }
  }

  /** The arguments before position `k` evaluate, and none of them is
      truthy. */
  ghost predicate FalsyBefore(fuel: nat, env: Env, c: Cursor, k: nat) {
    forall j :: c.index <= j < k && j < |c.args| ==>
      ArgValue(fuel, env, c.args[j]).Ok? && !Truthy(ArgValue(fuel, env, c.args[j]).value)
  }

  ghost predicate TruthyBefore(fuel: nat, env: Env, c: Cursor, k: nat) {
    forall j :: c.index <= j < k && j < |c.args| ==>
      ArgValue(fuel, env, c.args[j]).Ok? && Truthy(ArgValue(fuel, env, c.args[j]).value)
  }

  /** `||` returns the first truthy argument; the arguments after it are
      never evaluated, so they cannot change the result. */
  lemma {:induction false} OrFirstTruthy(fuel: nat, env: Env, c: Cursor, last: Value, k: nat)
    requires c.index <= k < |c.args|
    requires FalsyBefore(fuel, env, c, k)
    requires ArgValue(fuel, env, c.args[k]).Ok? && Truthy(ArgValue(fuel, env, c.args[k]).value)
    ensures OrFrom(fuel, env, c, last) == ArgValue(fuel, env, c.args[k])
    decreases k - c.index
  {
    var a := ArgValue(fuel, env, c.args[c.index]);
    var d := c.(index := c.index + 1);
    assert Next(fuel, env, c) == Ok(Step(a.value, d));
    if c.index < k {
      OrFirstTruthy(fuel, env, d, a.value, k);
    }
  }

  /** When no argument is truthy, `||` returns the last one (undefined when
      there are none). */
  lemma {:induction false} OrAllFalsy(fuel: nat, env: Env, c: Cursor, last: Value)
    requires c.index <= |c.args|
    requires FalsyBefore(fuel, env, c, |c.args|)
    ensures OrFrom(fuel, env, c, last)
            == Ok(if c.index == |c.args| then last else ArgValue(fuel, env, c.args[|c.args| - 1]).value)
    decreases |c.args| - c.index
  {
    if HasNext(c) {
      var a := ArgValue(fuel, env, c.args[c.index]);
      var d := c.(index := c.index + 1);
      assert Next(fuel, env, c) == Ok(Step(a.value, d));
      OrAllFalsy(fuel, env, d, a.value);
    }
  }

  /** `&&` returns false at the first falsy argument, evaluating none after
      it. */
  lemma {:induction false} AndFirstFalsy(fuel: nat, env: Env, c: Cursor, last: Value, k: nat)
    requires c.index <= k < |c.args|
    requires TruthyBefore(fuel, env, c, k)
    requires ArgValue(fuel, env, c.args[k]).Ok? && !Truthy(ArgValue(fuel, env, c.args[k]).value)
    ensures AndFrom(fuel, env, c, last) == Ok(Bool(false))
    decreases k - c.index
  {
    var a := ArgValue(fuel, env, c.args[c.index]);
    var d := c.(index := c.index + 1);
    assert Next(fuel, env, c) == Ok(Step(a.value, d));
    if c.index < k {
      AndFirstFalsy(fuel, env, d, a.value, k);
    }
  }

  /** When every argument is truthy, `&&` returns the last one (undefined
      when there are none). */
  lemma {:induction false} AndAllTruthy(fuel: nat, env: Env, c: Cursor, last: Value)
    requires c.index <= |c.args|
    requires TruthyBefore(fuel, env, c, |c.args|)
    ensures AndFrom(fuel, env, c, last)
            == Ok(if c.index == |c.args| then last else ArgValue(fuel, env, c.args[|c.args| - 1]).value)
    decreases |c.args| - c.index
  {
    if HasNext(c) {
      var a := ArgValue(fuel, env, c.args[c.index]);
      var d := c.(index := c.index + 1);
      assert Next(fuel, env, c) == Ok(Step(a.value, d));
      AndAllTruthy(fuel, env, d, a.value);
    }
  }

  /** `|` returns the first argument that is exactly `true`, evaluating
      none after it; truthy values other than `true` do not stop it. */
  lemma {:induction false} PipeFirstTrue(fuel: nat, env: Env, c: Cursor, last: Value, k: nat)
    requires c.index <= k < |c.args|
    requires forall j :: c.index <= j < k ==>
               ArgValue(fuel, env, c.args[j]).Ok? && ArgValue(fuel, env, c.args[j]).value != Bool(true)
    requires ArgValue(fuel, env, c.args[k]) == Ok(Bool(true))
    ensures PipeTrueFrom(fuel, env, c, last) == Ok(Bool(true))
    decreases k - c.index
  {
    var a := ArgValue(fuel, env, c.args[c.index]);
    var d := c.(index := c.index + 1);
    assert Next(fuel, env, c) == Ok(Step(a.value, d));
    if c.index < k {
      PipeFirstTrue(fuel, env, d, a.value, k);
    }
  }
}
