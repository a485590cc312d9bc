/** What evaluating a parsed gel expression computes: the `evaluate`
    method of every token kind, `callWith` with its argument cursor, and
    the control, collection and higher-order builtins.

    Scopes are never written after a call has bound its parameters, so
    the chain of tables is passed as a value (`Env`, innermost first). A
    cursor is the argument list and its `argIndex`; the cursor operations
    return the advanced cursor. Every call spends one unit of `fuel`, and a
    call made with none left is `OutOfFuel`. */
module Semantics {
  import opened Errors
  import Syntax
  import opened Numbers
  import opened Values
  import opened Scopes

  /** An argument handed to `callWith`: a token still to be evaluated, or
      a value a builtin computed. */
  datatype Arg = Node(token: Syntax.Token) | Val(value: Value)

  /** The `args` object of one call: the arguments and `argIndex`. */
  datatype Cursor = Cursor(args: seq<Arg>, index: nat)

  /** A value taken from a cursor, and the cursor after it. */
  datatype Step = Step(value: Value, rest: Cursor)

  function Vals(vs: seq<Value>): (r: seq<Arg>)
    ensures |r| == |vs|
    ensures forall k :: 0 <= k < |vs| ==> r[k] == Val(vs[k])
  {
    seq(|vs|, k requires 0 <= k < |vs| => Val(vs[k]))
  }

  function Nodes(ts: seq<Syntax.Token>): (r: seq<Arg>)
    ensures |r| == |ts|
    ensures forall k :: 0 <= k < |ts| ==> r[k] == Node(ts[k])
  {
    seq(|ts|, k requires 0 <= k < |ts| => Node(ts[k]))
  }

  /** `args.hasNext()`. */
  predicate HasNext(c: Cursor) {
    c.index < |c.args|
  }

  /** The number of tokens in a tree, counting children, targets and
      members. */
  function Size(t: Syntax.Token): (n: nat)
    ensures t.children != [] ==> Size(t.children[0]) < n
    ensures t.target.Some? ==> Size(t.target.value) < n
    decreases t, 1
  {
    1 + SizeAll(t.children)
    + (match t.target case Some(x) => Size(x) case None => 0)
    + (match t.member case Some(x) => Size(x) case None => 0)
  }

  function SizeAll(ts: seq<Syntax.Token>): (n: nat)
    ensures ts != [] ==> Size(ts[0]) <= n
    decreases ts, 0
  {
    if ts == [] then 0 else Size(ts[0]) + SizeAll(ts[1..])
  }

  // ---------------------------------------------------------------- token evaluation helpers

  /** A function literal `{p1 p2 ... body}`: every child but the last names
      a parameter, and the last is the body. An empty literal has no body. */
  function Literal(children: seq<Syntax.Token>): (f: Func)
    ensures f.Closure?
    ensures children == [] <==> f.body.None?
    ensures |f.params| <= |children|
    ensures children != [] ==> |f.params| == |children| - 1 && f.body == Some(children[|children| - 1])
    ensures forall k :: 0 <= k < |f.params| ==> f.params[k] == children[k].original
  {
    if children == [] then Closure([], None)
    else
      var n := |children| - 1;
      Closure(seq(n, k requires 0 <= k < n => children[k].original), Some(children[n]))
  }

  /** A string token's value: its original without the two terminals. */
  function Unquoted(original: string): (s: string)
    ensures |original| >= 2 ==> |s| == |original| - 2
    ensures |original| >= 2 ==> original == [original[0]] + s + [original[|original| - 1]]
  {
    if |original| >= 2 then original[1..|original| - 1] else []
  }

  /** The period's decision: an own property of an array, object or
      function; undefined for anything else. */
  function MemberOf(v: Value, member: Option<Syntax.Token>): (r: Result<Value>)
    ensures !(v.Arr? || v.Obj? || v.Fn?) ==> r == Ok(Undefined)
    ensures (v.Arr? || v.Obj?) && member.None? ==> r == Err(TypeError)
    ensures v.Arr? && member.Some? ==> r.Ok?
    ensures v.Obj? && member.Some? ==> (r.Ok? <==> FieldIndex(v.fields, "hasOwnProperty").None?)
    ensures v.Obj? && member.Some? && FieldIndex(v.fields, "hasOwnProperty").None? ==>
              r == (match FieldIndex(v.fields, member.value.original)
                    case Some(k) => Ok(v.fields[k].value)
                    case None => Ok(Undefined))
  {
    if v.Arr? || v.Obj? || v.Fn? then
      if member.None? then Err(TypeError) else OwnMember(v, member.value.original)
    else Ok(Undefined)
  }

  function TruthyResult(r: Result<Value>): (b: Result<bool>)
    ensures r.Err? <==> b.Err?
    ensures r.Ok? ==> b == Ok(Truthy(r.value))
  {
    if r.Err? then Err(r.error) else Ok(Truthy(r.value))
  }

  // ---------------------------------------------------------------- evaluation and calls

  /** A token's `evaluate`. An identifier is read through the scope chain;
      a function literal and a string always have a value. */
  function Eval(fuel: nat, t: Syntax.Token, env: Env): (r: Result<Value>)
    ensures t.kind.Identifier? && t.original !in ObjectNames ==> r == Ok(Lookup(env, t.original))
    ensures t.kind.Identifier? && r.Err? ==> r.error == Unsupported && t.original in ObjectNames
    ensures t.kind.FunctionBraces? ==> r.Ok? && r.value.Fn? && r.value.f.Closure?
    ensures (t.kind.DoubleQuoted? || t.kind.SingleQuoted?) ==> r.Ok? && r.value.Str?
    decreases fuel, 1, Size(t)
  {
    if t.kind.Parenthesis? then
      // a call runs in a fresh scope inside the current one
      var scope := [map[]] + env;
      if t.children == [] then Err(TypeError)
      else
        var head :- Eval(fuel, t.children[0], scope);
        CallWith(fuel, head, scope, Nodes(t.children[1..]))
    else if t.kind.FunctionBraces? then Ok(Fn(Literal(t.children)))
    else if t.kind.Period? then
      if t.target.None? then Err(TypeError)
      else
        var v :- Eval(fuel, t.target.value, env);
        MemberOf(v, t.member)
    else if t.kind.Delimiter? then Err(TypeError)      // delimiters have no evaluate
    else if t.kind.DoubleQuoted? || t.kind.SingleQuoted? then Ok(Str(Unquoted(t.original)))
    else if t.kind.Number? then
      var n :- NumberValue(t.original);
      Ok(Num(n))
    else if t.kind.Identifier? then Resolve(env, t.original)
    else if t.kind.Boolean? then Ok(Bool(t.original == "true"))
    else if t.kind.Null? then Ok(Null)
    else Ok(Undefined)
  }

  /** `callWith(fn, scope, args)`: a fresh cursor at index 0. Calling
      anything but a function is a TypeError. */
  function CallWith(fuel: nat, callee: Value, env: Env, args: seq<Arg>): (r: Result<Value>)
    ensures !callee.Fn? ==> r == Err(TypeError)
    ensures callee.Fn? && fuel == 0 ==> r == Err(OutOfFuel)
    decreases fuel, 0, 0
  {
    if !callee.Fn? then Err(TypeError)
    else if fuel == 0 then Err(OutOfFuel)
    else Dispatch(fuel - 1, callee.f, env, Cursor(args, 0))
  }

  /** Running a function on a cursor, in the scope it was called from. */
  function Dispatch(fuel: nat, f: Func, env: Env, c: Cursor): Result<Value>
    decreases fuel, 6, 0
  {
    match f
    case Builtin(name) => RunBuiltin(fuel, name, env, c)
    case Closure(params, body) =>
      // parameters are bound in a child of the caller's scope
      var frame :- BindParams(fuel, env, c, params, 0, map[]);
      if body.None? then Err(TypeError) else Eval(fuel, body.value, [frame] + env)
    case Partial(target, bound) =>
      var inner :- AllFrom(fuel, env, c);
      CallWith(fuel, target, env, Vals(bound + inner))
    case Flipped(target, fixed) => CallWith(fuel, target, env, Vals(fixed))
    case Composed(stages) =>
      var inner :- AllFrom(fuel, env, c);
      var first :- CallWith(fuel, if stages == [] then Undefined else stages[0], env, Vals(inner));
      PipeFrom(fuel, env, stages, 1, first)
  }

  // ---------------------------------------------------------------- the cursor

  function ArgValue(fuel: nat, env: Env, a: Arg): Result<Value>
    decreases fuel, 2, 0
  {
    match a
    case Node(t) => Eval(fuel, t, env)
    case Val(v) => Ok(v)
  }

  /** `args.next()`. */
  function Next(fuel: nat, env: Env, c: Cursor): (r: Result<Step>)
    ensures r.Ok? ==> HasNext(c) && r.value.rest == c.(index := c.index + 1)
    decreases fuel, 2, 1
  {
    if !HasNext(c) then Err(ArgumentCount)
    else
      var v :- ArgValue(fuel, env, c.args[c.index]);
      Ok(Step(v, c.(index := c.index + 1)))
  }

  /** `args.get(i)`: any argument, whatever the index; past the end is
      undefined. */
  function Get(fuel: nat, env: Env, c: Cursor, i: nat): Result<Value>
    decreases fuel, 2, 1
  {
    if i < |c.args| then ArgValue(fuel, env, c.args[i]) else Ok(Undefined)
  }

  /** The next value if there is one, else undefined. */
  function NextOr(fuel: nat, env: Env, c: Cursor): Result<Value>
    decreases fuel, 2, 2
  {
    if HasNext(c) then
      var s :- Next(fuel, env, c);
      Ok(s.value)
    else Ok(Undefined)
  }

  /** `args.all()`: the values of the remaining arguments, in order. */
  function AllFrom(fuel: nat, env: Env, c: Cursor): Result<seq<Value>>
    decreases fuel, 3, |c.args| - c.index
  {
    if !HasNext(c) then Ok([])
    else
      var s :- Next(fuel, env, c);
      var more :- AllFrom(fuel, env, s.rest);
      Ok([s.value] + more)
  }

  /** `args.raw(evaluated)`: the arguments themselves; when asked, every
      token among them is evaluated first (for its effects only). */
  function RawArgs(fuel: nat, env: Env, c: Cursor, evaluated: bool): Result<seq<Arg>>
    decreases fuel, 4, 0
  {
    if !evaluated then Ok(c.args)
    else
      var _ :- EvaluateEach(fuel, env, c.args, 0);
      Ok(c.args)
  }

  function EvaluateEach(fuel: nat, env: Env, args: seq<Arg>, k: nat): Result<nat>
    decreases fuel, 3, |args| - k
  {
    if k >= |args| then Ok(k)
    else
      var _ :- ArgValue(fuel, env, args[k]);
      EvaluateEach(fuel, env, args, k + 1)
  }

  /** A closure binds parameter `i` to `args.get(i)`, in order; a repeated
      name keeps the later binding. A parameter named `__proto__` would
      replace the table's prototype instead of binding a name, which is
      Unsupported. */
  function BindParams(fuel: nat, env: Env, c: Cursor, params: seq<string>, i: nat, frame: Frame): Result<Frame>
    decreases fuel, 3, |params| - i
  {
    if i >= |params| then Ok(frame)
    else
      var v :- Get(fuel, env, c, i);
      if params[i] == "__proto__" then Err(Unsupported)
      else BindParams(fuel, env, c, params, i + 1, frame[params[i] := v])
  }

  /** The tail of `compose`: each later stage is called with the previous
      result. */
  function PipeFrom(fuel: nat, env: Env, stages: seq<Value>, i: nat, acc: Value): Result<Value>
    decreases fuel, 3, |stages| - i
  {
    if i >= |stages| then Ok(acc)
    else
      var r :- CallWith(fuel, stages[i], env, [Val(acc)]);
      PipeFrom(fuel, env, stages, i + 1, r)
  }

  // ---------------------------------------------------------------- builtins

  function RunBuiltin(fuel: nat, name: BuiltinName, env: Env, c: Cursor): Result<Value>
    decreases fuel, 5, 0
  {
    match name
    case Cond => CondCall(fuel, env, c)
    case Not => NotCall(fuel, env, c)
    case StrictEq => EqCall(fuel, env, c, false)
    case StrictNotEq => EqCall(fuel, env, c, true)
    case Or => OrFrom(fuel, env, c, Undefined)
    case Pipe => PipeTrueFrom(fuel, env, c, Undefined)
    case And => AndFrom(fuel, env, c, Undefined)
    case ObjectOf => ObjectFrom(fuel, env, c, [])
    case ArrayOf => ArrayCall(fuel, env, c)
    case MapOver => MapCall(fuel, env, c)
    case Filter => FilterCall(fuel, env, c)
    case FindOne => FindOneCall(fuel, env, c)
    case Concat => ConcatCall(fuel, env, c)
    case Join => JoinCall(fuel, env, c)
    case Slice => SliceCall(fuel, env, c)
    case Last => LastCall(fuel, env, c)
    case Length => LengthCall(fuel, env, c)
    case GetValue => GetValueCall(fuel, env, c)
    case Compare => CompareCall(fuel, env, c)
    case CharAt => CharAtCall(fuel, env, c)
    case Refine => RefineCall(fuel, env, c)
    case Fold => FoldCall(fuel, env, c)
    case PartialOf => PartialCall(fuel, env, c)
    case Flip => FlipCall(fuel, env, c)
    case Compose => ComposeCall(fuel, env, c)
    case Apply => ApplyCall(fuel, env, c)
    case Other(_) => Err(Unsupported)
  }

  /** `?`: the condition, then the second argument when it holds and the
      third (by index) when it does not. */
  function CondCall(fuel: nat, env: Env, c: Cursor): Result<Value>
    decreases fuel, 4, 0
  {
    var test :- Next(fuel, env, c);
    if Truthy(test.value) then
      var chosen :- Next(fuel, env, test.rest);
      Ok(chosen.value)
    else Get(fuel, env, test.rest, 2)
  }

  /** `!`. */
  function NotCall(fuel: nat, env: Env, c: Cursor): Result<Value>
    decreases fuel, 4, 0
  {
    var a :- Next(fuel, env, c);
    Ok(Bool(!Truthy(a.value)))
  }

  /** `==` (`===`) and, negated, `!==`. */
  function EqCall(fuel: nat, env: Env, c: Cursor, negated: bool): Result<Value>
    decreases fuel, 4, 0
  {
    var a :- Next(fuel, env, c);
    var b :- Next(fuel, env, a.rest);
    var same :- StrictEquals(a.value, b.value);
    Ok(Bool(same != negated))
  }

  /** `||`: the first truthy argument, else the last one evaluated. */
  function OrFrom(fuel: nat, env: Env, c: Cursor, last: Value): Result<Value>
    decreases fuel, 3, |c.args| - c.index
  {
    if !HasNext(c) then Ok(last)
    else
      var s :- Next(fuel, env, c);
      if Truthy(s.value) then Ok(s.value) else OrFrom(fuel, env, s.rest, s.value)
  }

  /** `|`: the first argument that is exactly `true`, else the last one. */
  function PipeTrueFrom(fuel: nat, env: Env, c: Cursor, last: Value): Result<Value>
    decreases fuel, 3, |c.args| - c.index
  {
    if !HasNext(c) then Ok(last)
    else
      var s :- Next(fuel, env, c);
      if s.value == Bool(true) then Ok(s.value) else PipeTrueFrom(fuel, env, s.rest, s.value)
  }

  /** `&&`: false at the first falsy argument, else the last one. */
  function AndFrom(fuel: nat, env: Env, c: Cursor, last: Value): Result<Value>
    decreases fuel, 3, |c.args| - c.index
  {
    if !HasNext(c) then Ok(last)
    else
      var s :- Next(fuel, env, c);
      if !Truthy(s.value) then Ok(Bool(false)) else AndFrom(fuel, env, s.rest, s.value)
  }

  /** `object`: key, value, key, value, ... */
  function ObjectFrom(fuel: nat, env: Env, c: Cursor, fields: seq<Field>): Result<Value>
    decreases fuel, 3, |c.args| - c.index
  {
    if !HasNext(c) then Ok(Obj(fields))
    else
      var k :- Next(fuel, env, c);
      var v :- Next(fuel, env, k.rest);
      var key :- ToStr(k.value);
      var updated :- SetField(fields, key, v.value);
      ObjectFrom(fuel, env, v.rest, updated)
  }

  /** `array`. */
  function ArrayCall(fuel: nat, env: Env, c: Cursor): Result<Value>
    decreases fuel, 4, 0
  {
    var vals :- AllFrom(fuel, env, c);
    Ok(Arr(vals))
  }

  /** `map`: an array maps item by item; anything else maps the values its
      `for-in` visits into a new object. */
  function MapCall(fuel: nat, env: Env, c: Cursor): Result<Value>
    decreases fuel, 4, 0
  {
    var source :- Next(fuel, env, c);
    var fn :- Next(fuel, env, source.rest);
    if source.value.Arr? then
      var items :- MapItems(fuel, env, fn.value, source.value.items);
      Ok(Arr(items))
    else
      var fields :- MapFields(fuel, env, fn.value, Entries(source.value), []);
      Ok(Obj(fields))
  }

  function MapItems(fuel: nat, env: Env, f: Value, items: seq<Value>): Result<seq<Value>>
    decreases fuel, 3, |items|
  {
    if items == [] then Ok([])
    else
      var y :- CallWith(fuel, f, env, [Val(items[0])]);
      var ys :- MapItems(fuel, env, f, items[1..]);
      Ok([y] + ys)
  }

  function MapFields(fuel: nat, env: Env, f: Value, entries: seq<Field>, acc: seq<Field>): Result<seq<Field>>
    decreases fuel, 3, |entries|
  {
    if entries == [] then Ok(acc)
    else
      var y :- CallWith(fuel, f, env, [Val(entries[0].value)]);
      var updated :- SetField(acc, entries[0].key, y);
      MapFields(fuel, env, f, entries[1..], updated)
  }

  /** `filter`: fewer than two arguments come back as an array; a
      non-array source gives undefined; a function keeps the items it
      accepts, any other value keeps the items identical to it. */
  function FilterCall(fuel: nat, env: Env, c: Cursor): Result<Value>
    decreases fuel, 4, 0
  {
    var vals :- AllFrom(fuel, env, c);
    if |vals| < 2 then Ok(Arr(vals))
    else if !vals[0].Arr? then Ok(Undefined)
    else
      var kept :- FilterItems(fuel, env, vals[1], vals[0].items);
      Ok(Arr(kept))
  }

  function FilterItems(fuel: nat, env: Env, f: Value, items: seq<Value>): Result<seq<Value>>
    decreases fuel, 3, |items|
  {
    if items == [] then Ok([])
    else
      var keep :- Keeps(fuel, env, f, items[0]);
      var rest :- FilterItems(fuel, env, f, items[1..]);
      Ok((if keep then [items[0]] else []) + rest)
  }

  /** Whether `filter` keeps an item: a function is called on it, any
      other value is compared with it by `===`. */
  function Keeps(fuel: nat, env: Env, f: Value, x: Value): Result<bool>
    decreases fuel, 2, 0
  {
    if f.Fn? then Accepts(fuel, env, f, x) else StrictEquals(x, f)
  }

  /** Whether a function called on one item returns something truthy. */
  function Accepts(fuel: nat, env: Env, f: Value, x: Value): Result<bool>
    decreases fuel, 1, 0
  {
    TruthyResult(CallWith(fuel, f, env, [Val(x)]))
  }

  /** `findOne`: the first item the function accepts. */
  function FindOneCall(fuel: nat, env: Env, c: Cursor): Result<Value>
    decreases fuel, 4, 0
  {
    var vals :- AllFrom(fuel, env, c);
    if |vals| < 2 then Ok(Arr(vals))
    else if !vals[0].Arr? then Ok(Undefined)
    else FindFirst(fuel, env, vals[1], vals[0].items)
  }

  function FindFirst(fuel: nat, env: Env, f: Value, items: seq<Value>): Result<Value>
    decreases fuel, 3, |items|
  {
    if items == [] then Ok(Undefined)
    else
      var hit :- Accepts(fuel, env, f, items[0]);
      if hit then Ok(items[0]) else FindFirst(fuel, env, f, items[1..])
  }

  /** `concat`: the first argument's own `concat`, applied to each later
      argument in turn. */
  function ConcatCall(fuel: nat, env: Env, c: Cursor): Result<Value>
    decreases fuel, 4, 0
  {
    var first :- Next(fuel, env, c);
    ConcatFrom(fuel, env, first.rest, first.value)
  }

  /** Before each further argument the running result must be a string or
      an array; anything without a `concat` ends the call with undefined,
      leaving the rest unevaluated. */
  function ConcatFrom(fuel: nat, env: Env, c: Cursor, result: Value): Result<Value>
    decreases fuel, 3, |c.args| - c.index
  {
    if !HasNext(c) then Ok(result)
    else if result.Str? || result.Arr? then
      var s :- Next(fuel, env, c);
      var joined :- Appended(result, s.value);
      ConcatFrom(fuel, env, s.rest, joined)
    else if result.Obj? && OwnConcat(result.fields).Some? then
      // an object's own truthy `concat` is called with the next argument
      var s :- Next(fuel, env, c);
      if OwnConcat(result.fields).value.Fn? then Err(Unsupported) else Err(TypeError)
    else Ok(Undefined)
  }

  /** An object's own `concat` property, when truthy. */
  function OwnConcat(fields: seq<Field>): (r: Option<Value>)
    ensures r.Some? ==> Truthy(r.value)
  {
    match FieldIndex(fields, "concat")
    case Some(k) => if Truthy(fields[k].value) then Some(fields[k].value) else None
    case None => None
  }

  /** `String.prototype.concat` and `Array.prototype.concat` with one
      argument: strings append its text, arrays spread an array argument. */
  function Appended(result: Value, v: Value): (r: Result<Value>)
    requires result.Str? || result.Arr?
    ensures result.Arr? ==> r.Ok? && r.value.Arr? && result.items <= r.value.items
    ensures result.Str? && r.Ok? ==> r.value.Str? && result.s <= r.value.s
  {
    if result.Str? then
      var t :- ToStr(v);
      Ok(Str(result.s + t))
    else Ok(Arr(result.items + (if v.Arr? then v.items else [v])))
  }

  /** `join`: the first argument is the separator (`,` when undefined or
      absent), the rest are joined. */
  function JoinCall(fuel: nat, env: Env, c: Cursor): Result<Value>
    decreases fuel, 4, 0
  {
    var vals :- AllFrom(fuel, env, c);
    var sep :- if vals == [] || vals[0].Undefined? then Ok(",") else ToStr(vals[0]);
    var text :- JoinText(if vals == [] then [] else vals[1..], sep);
    Ok(Str(text))
  }

  /** `slice`: one argument is the target; two are start and target; three
      are start, end and target. */
  function SliceCall(fuel: nat, env: Env, c: Cursor): Result<Value>
    decreases fuel, 4, 0
  {
    var a :- Next(fuel, env, c);
    if !HasNext(a.rest) then SliceOf(a.value, Undefined, Undefined)
    else
      var b :- Next(fuel, env, a.rest);
      if !HasNext(b.rest) then SliceOf(b.value, a.value, Undefined)
      else
        var d :- Next(fuel, env, b.rest);
        SliceOf(d.value, a.value, b.value)
  }

  /** `target.slice(start, end)` on a string or an array; an object's own
      `slice` function is host code, and anything else has none. */
  function SliceOf(target: Value, start: Value, end: Value): (r: Result<Value>)
    ensures target.Str? && r.Ok? ==> r.value.Str? && |r.value.s| <= |target.s|
    ensures target.Arr? && r.Ok? ==> r.value.Arr? && |r.value.items| <= |target.items|
    ensures !(target.Str? || target.Arr? || target.Obj?) ==> r == Err(TypeError)
  {
    match target
    case Str(s) =>
      var b :- Span(start, end, |s|);
      Ok(Str(s[b.0..b.1]))
    case Arr(items) =>
      var b :- Span(start, end, |items|);
      Ok(Arr(items[b.0..b.1]))
    case Obj(fields) =>
      (match FieldIndex(fields, "slice")
       case Some(k) => if fields[k].value.Fn? then Err(Unsupported) else Err(TypeError)
       case None => Err(TypeError))
    case _ => Err(TypeError)
  }

  /** The half-open range `slice` copies: relative start, relative end
      (the length when undefined), empty when the end precedes the start. */
  function Span(start: Value, end: Value, len: nat): (r: Result<(nat, nat)>)
    ensures r.Ok? ==> r.value.0 <= r.value.1 <= len
  {
    var s :- ToNumberArg(start);
    var from := RelativeIndex(s, len);
    var to :- EndIndex(end, len);
    Ok(if from <= to then (from, to) else (from, from))
  }

  function EndIndex(end: Value, len: nat): (r: Result<nat>)
    ensures r.Ok? ==> r.value <= len
    ensures end.Undefined? ==> r == Ok(len)
  {
    if end.Undefined? then Ok(len)
    else
      var e :- ToNumberArg(end);
      Ok(RelativeIndex(e, len))
  }

  /** `last`: an array's last item; undefined for an empty array or a
      non-array. */
  function LastCall(fuel: nat, env: Env, c: Cursor): Result<Value>
    decreases fuel, 4, 0
  {
    var a :- Next(fuel, env, c);
    if a.value.Arr? && a.value.items != [] then Ok(a.value.items[|a.value.items| - 1])
    else Ok(Undefined)
  }

  /** `length`: the argument's `length` property. */
  function LengthCall(fuel: nat, env: Env, c: Cursor): Result<Value>
    decreases fuel, 4, 0
  {
    var a :- Next(fuel, env, c);
    Member(a.value, "length")
  }

  /** `getValue`: a property of an array or object (the only truthy values
      of type `object`); undefined for anything else. */
  function GetValueCall(fuel: nat, env: Env, c: Cursor): Result<Value>
    decreases fuel, 4, 0
  {
    var target :- Next(fuel, env, c);
    var key :- Next(fuel, env, target.rest);
    if !(target.value.Arr? || target.value.Obj?) then Ok(Undefined)
    else
      var name :- ToStr(key.value);
      Member(target.value, name)
  }

  /** `compare`: the last argument is the comparator and the one before it
      the reference; every property of every other argument (last first)
      is compared with the reference's property of the same name. */
  function CompareCall(fuel: nat, env: Env, c: Cursor): Result<Value>
    decreases fuel, 4, 0
  {
    var vals :- AllFrom(fuel, env, c);
    var n := |vals|;
    var comparator := if n >= 1 then vals[n - 1] else Undefined;
    var reference := if n >= 2 then vals[n - 2] else Undefined;
    var same :- CompareItems(fuel, env, comparator, reference, if n >= 2 then vals[..n - 2] else [], true);
    Ok(Bool(same))
  }

  function CompareItems(fuel: nat, env: Env, comparator: Value, reference: Value, objects: seq<Value>, result: bool): Result<bool>
    decreases fuel, 3, |objects|
  {
    if objects == [] then Ok(result)
    else
      var last := objects[|objects| - 1];
      var r :- CompareEntries(fuel, env, comparator, reference, Entries(last), result);
      CompareItems(fuel, env, comparator, reference, objects[..|objects| - 1], r)
  }

  /** A false comparison makes the result false but does not stop the
      loop. */
  function CompareEntries(fuel: nat, env: Env, comparator: Value, reference: Value, entries: seq<Field>, result: bool): Result<bool>
    decreases fuel, 2, |entries|
  {
    if entries == [] then Ok(result)
    else
      var same :- Compared(fuel, env, comparator, reference, entries[0]);
      CompareEntries(fuel, env, comparator, reference, entries[1..], result && same)
  }

  /** One comparison: the comparator called with a property's value and
      the reference's property of the same name. */
  function Compared(fuel: nat, env: Env, comparator: Value, reference: Value, e: Field): Result<bool>
    decreases fuel, 1, 0
  {
    var other :- Member(reference, e.key);
    var out :- CallWith(fuel, comparator, env, [Val(e.value), Val(other)]);
    Ok(Truthy(out))
  }

  /** `charAt`: the character at an integer position of a string, or the
      empty string; undefined for a non-string. */
  function CharAtCall(fuel: nat, env: Env, c: Cursor): Result<Value>
    decreases fuel, 4, 0
  {
    var target :- Next(fuel, env, c);
    var position :- NextOr(fuel, env, target.rest);
    if !target.value.Str? then Ok(Undefined)
    else
      var n :- ToNumberArg(position);
      Ok(Str(CharOf(target.value.s, n)))
  }

  function CharOf(s: string, n: Number): (r: string)
    ensures |r| <= 1
    ensures n.Int? && 0 <= n.i < |s| ==> r == [s[n.i]]
  {
    match IntegerPart(n)
    case Some(i) => if 0 <= i < |s| then [s[i]] else []
    case None => []
  }

  /** `refine`: an optional leading boolean (exclude), the source, then the
      names; the source's properties named (or, excluding, not named) are
      copied into a new object. */
  function RefineCall(fuel: nat, env: Env, c: Cursor): Result<Value>
    decreases fuel, 4, 0
  {
    var vals :- AllFrom(fuel, env, c);
    var flagged := vals != [] && vals[0].Bool?;
    var exclude := flagged && vals[0].b;
    var rest := if flagged then vals[1..] else vals;
    var original := if rest == [] then Undefined else rest[0];
    var names :- NameTexts(if rest == [] then [] else rest[1..]);
    var fields :- Refined(Entries(original), names, exclude, []);
    Ok(Obj(fields))
  }

  /** `args[i].toString()` for every name. */
  function NameTexts(vs: seq<Value>): (r: Result<seq<string>>)
    ensures r.Ok? ==> |r.value| == |vs|
    ensures (exists k :: 0 <= k < |vs| && (vs[k].Undefined? || vs[k].Null?)) ==> r.Err?
  {
    if vs == [] then Ok([])
    else
      var first :- if vs[0].Undefined? || vs[0].Null? then Err(TypeError) else ToStr(vs[0]);
      var rest :- NameTexts(vs[1..]);
      Ok([first] + rest)
  }

  function Refined(entries: seq<Field>, names: seq<string>, exclude: bool, acc: seq<Field>): Result<seq<Field>>
    decreases |entries|
  {
    if entries == [] then Ok(acc)
    else if (entries[0].key in names) != exclude then
      var updated :- SetField(acc, entries[0].key, entries[0].value);
      Refined(entries[1..], names, exclude, updated)
    else Refined(entries[1..], names, exclude, acc)
  }

  /** `fold`: the last argument is the function and the one before it the
      seed; what remains is the array (or, with more than one, the list of
      them). */
  function FoldCall(fuel: nat, env: Env, c: Cursor): Result<Value>
    decreases fuel, 4, 0
  {
    var vals :- AllFrom(fuel, env, c);
    var n := |vals|;
    var fn := if n >= 1 then vals[n - 1] else Undefined;
    var seed := if n >= 2 then vals[n - 2] else Undefined;
    var rest := if n >= 2 then vals[..n - 2] else [];
    var source := if |rest| > 1 then Arr(rest) else if |rest| == 1 then rest[0] else Undefined;
    var items :- Indexed(source);
    FoldItems(fuel, env, fn, seed, items)
  }

  function FoldItems(fuel: nat, env: Env, f: Value, acc: Value, items: seq<Value>): Result<Value>
    decreases fuel, 3, |items|
  {
    if items == [] then Ok(acc)
    else
      var next :- CallWith(fuel, f, env, [Val(acc), Val(items[0])]);
      FoldItems(fuel, env, f, next, items[1..])
  }

  /** `partial`: the first argument, with the others bound in front. */
  function PartialCall(fuel: nat, env: Env, c: Cursor): Result<Value>
    decreases fuel, 4, 0
  {
    var vals :- AllFrom(fuel, env, c);
    Ok(Fn(Partial(if vals == [] then Undefined else vals[0], if vals == [] then [] else vals[1..])))
  }

  /** `flip`: the first argument, with the others fixed in reverse. */
  function FlipCall(fuel: nat, env: Env, c: Cursor): Result<Value>
    decreases fuel, 4, 0
  {
    var vals :- AllFrom(fuel, env, c);
    Ok(Fn(Flipped(if vals == [] then Undefined else vals[0], if vals == [] then [] else Reverse(vals[1..]))))
  }

  /** `compose`: the arguments as stages, last first. */
  function ComposeCall(fuel: nat, env: Env, c: Cursor): Result<Value>
    decreases fuel, 4, 0
  {
    var vals :- AllFrom(fuel, env, c);
    Ok(Fn(Composed(Reverse(vals))))
  }

  /** `apply`: calls the first argument with the items of the second. */
  function ApplyCall(fuel: nat, env: Env, c: Cursor): Result<Value>
    decreases fuel, 4, 0
  {
    var f :- Next(fuel, env, c);
    var list :- Next(fuel, env, f.rest);
    var args :- ApplyArgs(list.value);
    CallWith(fuel, f.value, env, Vals(args))
  }
}
