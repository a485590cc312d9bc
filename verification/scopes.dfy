/** `Scope`: a local table of names plus a link to the scope it was made
    in. Reads search outwards; writes only ever touch the local table. */
module Scopes {
  import opened Errors
  import opened Values

  type Frame = map<string, Value>

  /** A scope chain, innermost table first. */
  type Env = seq<Frame>

  /** `Scope.get`: the binding in the innermost table that has the name,
      or undefined once the chain is exhausted. A table that has the name
      answers even when it holds undefined. */
  function Lookup(env: Env, key: string): (r: Value)
    ensures (forall i :: 0 <= i < |env| ==> key !in env[i]) ==> r == Undefined
    ensures forall i :: 0 <= i < |env| && key in env[i] && (forall j :: 0 <= j < i ==> key !in env[j]) ==>
              r == env[i][key]
  {
    if env == [] then Undefined
    else if key in env[0] then env[0][key]
    else
      var r := Lookup(env[1..], key);
      assert forall i :: 1 <= i < |env| ==> env[i] == env[1..][i - 1];
      r
  }

  /** What `key in table` finds in the host: the table's own names and
      also every name on `Object.prototype`. */
  datatype Found = Bound(value: Value) | HostMember(name: string)

  /** `Scope.get` exactly as its `in` test reads it: a prototype name such
      as `constructor` stops the search at the innermost table, whatever
      the outer tables hold. */
  function LookupAsWritten(env: Env, key: string): (r: Found)
    ensures key !in ObjectNames ==> r == Bound(Lookup(env, key))
    ensures key in ObjectNames && env != [] && key !in env[0] ==> r == HostMember(key)
  {
    if env == [] then Bound(Undefined)
    else if key in env[0] then Bound(env[0][key])
    else if key in ObjectNames then HostMember(key)
    else LookupAsWritten(env[1..], key)
  }

  /** An identifier's value: `scope.get(name)` as written. When the `in`
      test answers with a member of `Object.prototype` the value would be
      a host function, which is Unsupported. On every other name it is the
      innermost binding. */
  function Resolve(env: Env, name: string): (r: Result<Value>)
    ensures name !in ObjectNames ==> r == Ok(Lookup(env, name))
    ensures r.Err? ==> r.error == Unsupported && name in ObjectNames
    ensures name in ObjectNames ==> (r.Ok? <==> env == [] || name in env[0])
    ensures name in ObjectNames && env != [] && name in env[0] ==> r == Ok(env[0][name])
  {
    match LookupAsWritten(env, name)
    case Bound(v) => Ok(v)
    case HostMember(_) => Err(Unsupported)
  }

  /** Inside any call (which always runs in a fresh child scope) a
      variable named like a prototype member is not found in the outer
      scope that binds it. */
  lemma {:induction false} PrototypeNamesShadowOuterBindings()
    ensures var env := [map[], map["constructor" := Num(Numbers.Int(1))]];
      LookupAsWritten(env, "constructor") == HostMember("constructor")
      && Lookup(env, "constructor") == Num(Numbers.Int(1))
  {
    var env: Env := [map[], map["constructor" := Num(Numbers.Int(1))]];
    assert "constructor" !in env[0];
    assert Lookup(env[1..], "constructor") == Num(Numbers.Int(1));
  }

  /** `for (key in obj) table[key] = obj[key]`. */
  function AddAll(vars: Frame, fields: seq<Field>): (r: Frame)
    ensures forall k :: k in r <==> k in vars || exists i :: 0 <= i < |fields| && fields[i].key == k
    decreases |fields|
  {
    if fields == [] then vars else AddAll(vars[fields[0].key := fields[0].value], fields[1..])
  }

  /** After `add`, a name holds the value of the last property that
      carries it. */
  lemma {:induction false} AddAllLastWins(vars: Frame, fields: seq<Field>, i: nat)
    requires i < |fields|
    requires forall j :: i < j < |fields| ==> fields[j].key != fields[i].key
    ensures fields[i].key in AddAll(vars, fields)
    ensures AddAll(vars, fields)[fields[i].key] == fields[i].value
    decreases |fields|
  {
    var next := vars[fields[0].key := fields[0].value];
    if i == 0 {
      AddAllKeeps(next, fields[1..], fields[0].key);
    } else {
      AddAllLastWins(next, fields[1..], i - 1);
    }
  }

  /** A name no property carries keeps the binding it had before `add`. */
  lemma {:induction false} AddAllKeeps(vars: Frame, fields: seq<Field>, key: string)
    requires key in vars
    requires forall j :: 0 <= j < |fields| ==> fields[j].key != key
    ensures key in AddAll(vars, fields) && AddAll(vars, fields)[key] == vars[key]
    decreases |fields|
  {
    if fields != [] {
      AddAllKeeps(vars[fields[0].key := fields[0].value], fields[1..], key);
    }
  }

  class Scope {
    var vars: Frame
    const outer: Scope?
    ghost const Repr: set<Scope>
    ghost const depth: nat

    ghost predicate Valid()
      decreases depth
    {
      this in Repr
      && (outer == null ==> Repr == {this} && depth == 0)
      && (outer != null ==>
            outer in Repr && this !in outer.Repr && Repr == {this} + outer.Repr
            && outer.depth < depth && outer.Valid())
    }

    /** The tables from this scope outwards. */
    ghost function Chain(): (r: Env)
      reads Repr
      requires Valid()
      ensures r != [] && r[0] == vars
      ensures outer != null ==> r == [vars] + outer.Chain()
      ensures outer == null ==> r == [vars]
      decreases depth
    {
      if outer == null then [vars] else [vars] + outer.Chain()
    }

    /** `new Scope(outer)`. */
    constructor (outer: Scope?)
      requires outer != null ==> outer.Valid()
      ensures Valid() && this.outer == outer && vars == map[]
      ensures Chain() == [map[]] + (if outer == null then [] else outer.Chain())
    {
      this.vars := map[];
      this.outer := outer;
      if outer == null {
        this.Repr := {this};
        this.depth := 0;
      } else {
        this.Repr := {this} + outer.Repr;
        this.depth := outer.depth + 1;
      }
    }

    /** `get`: the `in` test on each table, outwards. Outside the
        prototype names it finds the innermost binding. */
    function Get(key: string): (r: Found)
      reads Repr
      requires Valid()
      ensures r == LookupAsWritten(Chain(), key)
      ensures key !in ObjectNames ==> r == Bound(Lookup(Chain(), key))
      decreases depth
    {
      if key in vars then Bound(vars[key])
      else if key in ObjectNames then HostMember(key)
      else if outer == null then Bound(Undefined)
      else outer.Get(key)
    }

    /** `set`: binds the name in this scope only. */
    method Set(key: string, value: Value)
      requires Valid()
      modifies this
      ensures Valid()
      ensures vars == old(vars)[key := value]
      ensures Chain() == [vars] + old(Chain())[1..]
      ensures Get(key) == Bound(value)
      ensures forall k :: k != key ==> Get(k) == old(Get(k))
    {
      vars := vars[key := value];
    }

    /** `add`: copies every own property of `obj` into this scope. */
    method Add(obj: seq<Field>)
      requires Valid()
      modifies this
      ensures Valid()
      ensures vars == AddAll(old(vars), obj)
      ensures Chain() == [vars] + old(Chain())[1..]
    {
      var i := 0;
      while i < |obj|
        invariant 0 <= i <= |obj|
        invariant Valid()
        invariant AddAll(old(vars), obj) == AddAll(vars, obj[i..])
        invariant Chain() == [vars] + old(Chain())[1..]
      {
        assert obj[i..][1..] == obj[i + 1..];
        vars := vars[obj[i].key := obj[i].value];
        i := i + 1;
      }
    }
  }
}
