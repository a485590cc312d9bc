/** `parse`: walks the flat token list once, left to right, letting each
    token restructure the list around itself. Nests pull the tokens up to
    their matching closer in as children, delimiters drop out, and a period
    takes its neighbours as target and member. */
module Parser {
  import opened Errors
  import opened Syntax

  /** What one token's parse step leaves behind: the new list and the
      adjustment the loop adds to its index (besides the usual step of one). */
  datatype Progress = Progress(tokens: seq<Token>, shift: int)

  predicate IsNest(k: Kind) {
    k == Parenthesis || k == FunctionBraces
  }

  function Opener(k: Kind): string
    requires IsNest(k)
  {
    if k == Parenthesis then "(" else "{"
  }

  function Closer(k: Kind): string
    requires IsNest(k)
  {
    if k == Parenthesis then ")" else "}"
  }

  /** How a token moves the nesting depth of a nest of kind `k`. */
  function Delta(t: Token, k: Kind): (d: int)
    requires IsNest(k)
    ensures -1 <= d <= 1
    ensures d == 1 <==> t.original == Opener(k)
    ensures d == -1 <==> t.original == Closer(k)
  {
    (if t.original == Opener(k) then 1 else 0) - (if t.original == Closer(k) then 1 else 0)
  }

  /** The net depth change over `ts[a..b]`: a declarative reading of the
      nesting parser's counter. */
  function Net(ts: seq<Token>, k: Kind, a: nat, b: nat): int
    requires IsNest(k) && a <= b <= |ts|
    decreases b - a
  {
    if a == b then 0 else Net(ts, k, a, b - 1) + Delta(ts[b - 1], k)
  }

  /** The nesting parser's scan: from `p` on, with `opens` nests still
      open, the position of the closer that brings the count to zero. */
  function CloserFrom(ts: seq<Token>, k: Kind, p: nat, opens: nat): (r: Result<nat>)
    requires IsNest(k) && opens > 0
    ensures r.Ok? ==> p <= r.value < |ts| && ts[r.value].original == Closer(k)
    ensures r.Err? ==> r.error == BadNesting
    decreases |ts| - p
  {
    if p >= |ts| then Err(BadNesting)
    else
      var o := opens + Delta(ts[p], k);
      if o == 0 then Ok(p) else CloserFrom(ts, k, p + 1, o)
  }

  /** One token's parse step at index `i`. */
  function ParseStep(ts: seq<Token>, i: nat): (r: Result<Progress>)
    requires i < |ts|
    ensures r.Ok? ==> -1 <= r.value.shift && i + r.value.shift + 1 <= |r.value.tokens|
    ensures r.Ok? ==> |r.value.tokens| < |ts| || (|r.value.tokens| == |ts| && r.value.shift == 0)
    decreases |ts|, |ts| - i, 1
  {
    var t := ts[i];
    match t.kind
    case Parenthesis => NestStep(ts, i)
    case FunctionBraces => NestStep(ts, i)
    case Delimiter => Ok(Progress(ts[..i] + ts[i + 1..], -1))
    case Period => Ok(PeriodStep(ts, i))
    case _ => Ok(Progress(ts, 0))
  }

  /** The period parser: the token before it becomes its target and the
      token after it (unparsed) its member; both leave the list. A period
      at the very front splices at index -1: its target is the last token,
      its member is the period itself, and both leave the list. */
  function PeriodStep(ts: seq<Token>, i: nat): (r: Progress)
    requires i < |ts|
    ensures r.shift == -1 && i <= |r.tokens| < |ts|
    ensures i == 0 ==> r.tokens == (if |ts| == 1 then [] else ts[1..|ts| - 1])
    ensures i > 0 ==>
              r.tokens[i - 1] == ts[i].(target := Some(ts[i - 1]),
                                        member := if i + 1 < |ts| then Some(ts[i + 1]) else None)
    ensures i > 0 ==> r.tokens[..i - 1] == ts[..i - 1] && r.tokens[i..] == (if i + 1 < |ts| then ts[i + 2..] else [])
  {
    if i == 0 then
      // the target index is -1, which the host's splice reads as the last token
      if |ts| == 1 then Progress([], -1)
      else Progress(ts[1..|ts| - 1], -1)
    else
      var member := if i + 1 < |ts| then Some(ts[i + 1]) else None;
      var node := ts[i].(target := Some(ts[i - 1]), member := member);
      var after := if i + 1 < |ts| then ts[i + 2..] else [];
      Progress(ts[..i - 1] + [node] + after, -1)
  }

  /** The nesting parser: an opener takes everything up to its matching
      closer as its (parsed) children and the closer disappears; reaching a
      closer is an error, because its opener would have removed it. */
  function NestStep(ts: seq<Token>, i: nat): (r: Result<Progress>)
    requires i < |ts| && IsNest(ts[i].kind)
    ensures r.Ok? ==> r.value.shift == 0 && i + 1 <= |r.value.tokens| < |ts|
    ensures ts[i].original != Opener(ts[i].kind) ==> r == Err(BadNesting)
    ensures CloserFrom(ts, ts[i].kind, i + 1, 1).Err? ==> r == Err(BadNesting)
    decreases |ts|, |ts| - i, 0
  {
    var k := ts[i].kind;
    if ts[i].original != Opener(k) then Err(BadNesting)
    else
      var p :- CloserFrom(ts, k, i + 1, 1);
      var children :- ParseFrom(ts[i + 1..p], 0);
      Ok(Progress(ts[..i] + [ts[i].(children := children)] + ts[p + 1..], 0))
  }

  /** The parse loop from index `i`. */
  function ParseFrom(ts: seq<Token>, i: nat): Result<seq<Token>>
    requires i <= |ts|
    decreases |ts|, |ts| - i, 2
  {
    if i == |ts| then Ok(ts)
    else
      var step :- ParseStep(ts, i);
      ParseFrom(step.tokens, i + step.shift + 1)
  }

  function Parse(ts: seq<Token>): Result<seq<Token>> {
    ParseFrom(ts, 0)
  }

  // ---------------------------------------------------------------- the closer

  /** The scan stops at the first token after the opener where the net depth,
      counting the opener, comes back to zero; it fails exactly when the
      depth never does. */
  lemma {:induction false} MatchingCloser(ts: seq<Token>, k: Kind, i: nat)
    requires IsNest(k) && i < |ts|
    ensures var r, start := CloserFrom(ts, k, i + 1, 1), i + 1;
      (r.Ok? ==> 1 + Net(ts, k, start, r.value + 1) == 0
                 && forall e :: start <= e <= r.value ==> 1 + Net(ts, k, start, e) > 0)
      && (r.Err? ==> forall e :: start <= e <= |ts| ==> 1 + Net(ts, k, start, e) > 0)
  {
    CloserFromNet(ts, k, i + 1, i + 1, 1);
  }

  lemma {:induction false} CloserFromNet(ts: seq<Token>, k: Kind, start: nat, p: nat, opens: nat)
    requires IsNest(k) && start <= p <= |ts| && opens > 0
    requires opens == 1 + Net(ts, k, start, p)
    requires forall e :: start <= e <= p ==> 1 + Net(ts, k, start, e) > 0
    ensures var r := CloserFrom(ts, k, p, opens);
      (r.Ok? ==> 1 + Net(ts, k, start, r.value + 1) == 0
                 && forall e :: start <= e <= r.value ==> 1 + Net(ts, k, start, e) > 0)
      && (r.Err? ==> forall e :: start <= e <= |ts| ==> 1 + Net(ts, k, start, e) > 0)
    decreases |ts| - p
  {
    if p < |ts| {
      var o := opens + Delta(ts[p], k);
      assert o == 1 + Net(ts, k, start, p + 1);
      if o != 0 {
        assert forall e :: start <= e <= p + 1 ==> 1 + Net(ts, k, start, e) > 0 by {
          assert 1 + Net(ts, k, start, p + 1) > 0;
        }
        CloserFromNet(ts, k, start, p + 1, o);
      } else {
        assert CloserFrom(ts, k, p, opens) == Ok(p);
      }
    } else {
      assert CloserFrom(ts, k, p, opens) == Err(BadNesting);
    }
  }

  // ---------------------------------------------------------------- no delimiters survive

  /** No delimiter anywhere in the token, its children or its target. A
      period's member is taken unparsed, so it may be one. */
  predicate Clean(t: Token)
    decreases t
  {
    t.kind != Delimiter
    && (forall k :: 0 <= k < |t.children| ==> Clean(t.children[k]))
    && (t.target.Some? ==> Clean(t.target.value))
  }

  predicate AllClean(ts: seq<Token>) {
    forall k :: 0 <= k < |ts| ==> Clean(ts[k])
  }

  /** Parsing the tokeniser's output leaves no delimiter in the tree. */
  lemma {:induction false} ParseClean(ts: seq<Token>)
    requires AllRaw(ts)
    ensures Parse(ts).Ok? ==> AllClean(Parse(ts).value)
  {
    ParseFromClean(ts, 0);
  }

  lemma {:induction false} ParseFromClean(ts: seq<Token>, i: nat)
    requires i <= |ts| && AllClean(ts[..i]) && AllRaw(ts[i..])
    ensures ParseFrom(ts, i).Ok? ==> AllClean(ParseFrom(ts, i).value)
    decreases |ts|, |ts| - i, 2
  {
    if i == |ts| {
      assert ts[..i] == ts;
    } else if ParseStep(ts, i).Ok? {
      var step := ParseStep(ts, i).value;
      ParseStepClean(ts, i);
      ParseFromClean(step.tokens, i + step.shift + 1);
    }
  }

  lemma {:induction false} ParseStepClean(ts: seq<Token>, i: nat)
    requires i < |ts| && AllClean(ts[..i]) && AllRaw(ts[i..])
    ensures ParseStep(ts, i).Ok? ==>
      var step := ParseStep(ts, i).value;
      var n := i + step.shift + 1;
      AllClean(step.tokens[..n]) && AllRaw(step.tokens[n..])
    decreases |ts|, |ts| - i, 1
  {
    assert IsRaw(ts[i]) by { assert ts[i] == ts[i..][0]; }
    match ts[i].kind
    case Parenthesis => NestStepClean(ts, i);
    case FunctionBraces => NestStepClean(ts, i);
    case Delimiter =>
      assert ParseStep(ts, i) == Ok(Progress(ts[..i] + ts[i + 1..], -1));
      DropClean(ts, i);
    case Period =>
      assert ParseStep(ts, i) == Ok(PeriodStep(ts, i));
      PeriodClean(ts, i);
    case _ =>
      assert ParseStep(ts, i) == Ok(Progress(ts, 0));
      KeepClean(ts, i);
  }

  lemma {:induction false} DropClean(ts: seq<Token>, i: nat)
    requires i < |ts| && AllClean(ts[..i]) && AllRaw(ts[i..])
    ensures AllClean((ts[..i] + ts[i + 1..])[..i]) && AllRaw((ts[..i] + ts[i + 1..])[i..])
  {
    assert (ts[..i] + ts[i + 1..])[..i] == ts[..i];
    assert (ts[..i] + ts[i + 1..])[i..] == ts[i..][1..];
  }

  lemma {:induction false} KeepClean(ts: seq<Token>, i: nat)
    requires i < |ts| && AllClean(ts[..i]) && AllRaw(ts[i..]) && ts[i].kind != Delimiter
    ensures AllClean(ts[..i + 1]) && AllRaw(ts[i + 1..])
  {
    assert ts[i] == ts[i..][0];
    assert ts[..i + 1] == ts[..i] + [ts[i]];
    assert ts[i + 1..] == ts[i..][1..];
  }

  lemma {:induction false} PeriodClean(ts: seq<Token>, i: nat)
    requires i < |ts| && AllClean(ts[..i]) && AllRaw(ts[i..]) && ts[i].kind == Period
    ensures var tokens := PeriodStep(ts, i).tokens;
      AllClean(tokens[..i]) && AllRaw(tokens[i..])
  {
    var tokens := PeriodStep(ts, i).tokens;
    if i == 0 {
      assert tokens[..0] == [];
      if |ts| > 1 {
        assert tokens[0..] == ts[0..][1..|ts| - 1];
      }
    } else {
      assert IsRaw(ts[i]) by { assert ts[i] == ts[i..][0]; }
      assert tokens[..i] == ts[..i - 1] + [tokens[i - 1]];
      assert ts[i - 1] == ts[..i][i - 1];
      assert Clean(tokens[i - 1]);
      if i + 1 < |ts| {
        assert tokens[i..] == ts[i..][2..];
      }
    }
  }

  lemma {:induction false} NestStepClean(ts: seq<Token>, i: nat)
    requires i < |ts| && IsNest(ts[i].kind) && AllClean(ts[..i]) && AllRaw(ts[i..])
    ensures NestStep(ts, i).Ok? ==>
      var step := NestStep(ts, i).value;
      AllClean(step.tokens[..i + 1]) && AllRaw(step.tokens[i + 1..])
    decreases |ts|, |ts| - i, 0
  {
    var k := ts[i].kind;
    if NestStep(ts, i).Ok? {
      var p := CloserFrom(ts, k, i + 1, 1).value;
      var inner := ts[i + 1..p];
      assert inner == ts[i..][1..p - i];
      ParseFromClean(inner, 0);
      var step := NestStep(ts, i).value;
      assert step.tokens[..i + 1] == ts[..i] + [step.tokens[i]];
      assert step.tokens[i + 1..] == ts[i..][p + 1 - i..];
    }
  }

  // ---------------------------------------------------------------- grouping keeps the order

  /** The token texts a parsed token stands for, with the closer a nest
      swallowed written back. */
  function Spelling(t: Token): seq<string>
    decreases t, 1
  {
    if IsNest(t.kind) then [t.original] + Spellings(t.children) + [Closer(t.kind)]
    else [t.original]
  }

  function Spellings(ts: seq<Token>): seq<string>
    decreases ts, 0
  {
    if ts == [] then [] else Spelling(ts[0]) + Spellings(ts[1..])
  }

  /** The texts of the tokens that are not delimiters, in order. */
  function Words(ts: seq<Token>): seq<string> {
    if ts == [] then []
    else (if ts[0].kind == Delimiter then [] else [ts[0].original]) + Words(ts[1..])
  }

  /** A closer or opener text only ever labels a nest token, and there are
      no periods (whose member is taken unparsed). */
  predicate Groupable(ts: seq<Token>) {
    forall k :: 0 <= k < |ts| ==>
      ts[k].kind != Period
      && (ts[k].original in {"(", ")", "{", "}"} ==> IsNest(ts[k].kind))
  }

  lemma {:induction false} SpellingsAppend(a: seq<Token>, b: seq<Token>)
    ensures Spellings(a + b) == Spellings(a) + Spellings(b)
    decreases |a|
  {
    if a != [] {
      assert (a + b)[1..] == a[1..] + b;
      SpellingsAppend(a[1..], b);
    } else {
      assert a + b == b;
    }
  }

  lemma {:induction false} WordsAppend(a: seq<Token>, b: seq<Token>)
    ensures Words(a + b) == Words(a) + Words(b)
    decreases |a|
  {
    if a != [] {
      assert (a + b)[1..] == a[1..] + b;
      WordsAppend(a[1..], b);
    } else {
      assert a + b == b;
    }
  }

  /** Parsing a period-free token list loses nothing but its delimiters:
      writing each nest's closer back after its children spells the
      non-delimiter tokens in their original order. */
  lemma {:induction false} ParseKeepsOrder(ts: seq<Token>)
    requires AllRaw(ts) && Groupable(ts)
    ensures Parse(ts).Ok? ==> Spellings(Parse(ts).value) == Words(ts)
  {
    ParseFromOrder(ts, 0);
    assert ts[..0] == [] && ts[0..] == ts;
  }

  lemma {:induction false} ParseFromOrder(ts: seq<Token>, i: nat)
    requires i <= |ts| && AllRaw(ts[i..]) && Groupable(ts[i..])
    ensures ParseFrom(ts, i).Ok? ==>
      Spellings(ParseFrom(ts, i).value) == Spellings(ts[..i]) + Words(ts[i..])
    decreases |ts|, |ts| - i, 2
  {
    if i == |ts| {
      assert ts[..i] == ts && ts[i..] == [];
    } else if ParseStep(ts, i).Ok? {
      var step := ParseStep(ts, i).value;
      var n := i + step.shift + 1;
      assert ParseFrom(ts, i) == ParseFrom(step.tokens, n);
      ParseStepOrder(ts, i);
      ParseFromOrder(step.tokens, n);
    }
  }

  lemma {:induction false} ParseStepOrder(ts: seq<Token>, i: nat)
    requires i < |ts| && AllRaw(ts[i..]) && Groupable(ts[i..])
    ensures ParseStep(ts, i).Ok? ==>
      var step := ParseStep(ts, i).value;
      var n := i + step.shift + 1;
      AllRaw(step.tokens[n..]) && Groupable(step.tokens[n..])
      && Spellings(step.tokens[..n]) + Words(step.tokens[n..]) == Spellings(ts[..i]) + Words(ts[i..])
    decreases |ts|, |ts| - i, 1
  {
    assert ts[i] == ts[i..][0];
    if IsNest(ts[i].kind) {
      assert ParseStep(ts, i) == NestStep(ts, i);
      NestStepOrder(ts, i);
    } else if ts[i].kind == Delimiter {
      assert ParseStep(ts, i) == Ok(Progress(ts[..i] + ts[i + 1..], -1));
      DropOrder(ts, i);
    } else {
      assert ts[i].kind != Period;
      assert ParseStep(ts, i) == Ok(Progress(ts, 0));
      KeepOrder(ts, i);
    }
  }

  /** A delimiter leaves the list and contributes no word. */
  lemma {:induction false} DropOrder(ts: seq<Token>, i: nat)
    requires i < |ts| && AllRaw(ts[i..]) && Groupable(ts[i..]) && ts[i].kind == Delimiter
    ensures AllRaw((ts[..i] + ts[i + 1..])[i..]) && Groupable((ts[..i] + ts[i + 1..])[i..])
    ensures Spellings((ts[..i] + ts[i + 1..])[..i]) + Words((ts[..i] + ts[i + 1..])[i..])
            == Spellings(ts[..i]) + Words(ts[i..])
  {
    var after := ts[..i] + ts[i + 1..];
    assert after[..i] == ts[..i];
    assert after[i..] == ts[i..][1..];
  }

  /** Any other token stays where it is and spells its own text. */
  lemma {:induction false} KeepOrder(ts: seq<Token>, i: nat)
    requires i < |ts| && AllRaw(ts[i..]) && Groupable(ts[i..]) && !IsNest(ts[i].kind)
    requires ts[i].kind != Delimiter
    ensures AllRaw(ts[i + 1..]) && Groupable(ts[i + 1..])
    ensures Spellings(ts[..i + 1]) + Words(ts[i + 1..]) == Spellings(ts[..i]) + Words(ts[i..])
  {
    assert ts[i + 1..] == ts[i..][1..];
    assert ts[..i + 1] == ts[..i] + [ts[i]];
    SpellingsAppend(ts[..i], [ts[i]]);
    assert Spellings([ts[i]]) == Spelling(ts[i]);
    assert ts[i..] == [ts[i]] + ts[i + 1..];
    WordsAppend([ts[i]], ts[i + 1..]);
  }

  lemma {:induction false} NestStepOrder(ts: seq<Token>, i: nat)
    requires i < |ts| && IsNest(ts[i].kind) && AllRaw(ts[i..]) && Groupable(ts[i..])
    ensures NestStep(ts, i).Ok? ==>
      var step := NestStep(ts, i).value;
      AllRaw(step.tokens[i + 1..]) && Groupable(step.tokens[i + 1..])
      && Spellings(step.tokens[..i + 1]) + Words(step.tokens[i + 1..])
         == Spellings(ts[..i]) + Words(ts[i..])
    decreases |ts|, |ts| - i, 0
  {
    if NestStep(ts, i).Ok? {
      NestStepShape(ts, i);
      var p := CloserFrom(ts, ts[i].kind, i + 1, 1).value;
      var inner := ts[i + 1..p];
      NestParts(ts, i, p);
      ParseFromOrder(inner, 0);
      assert inner[..0] == [] && inner[0..] == inner;
      NestWords(ts, i, p);
      NestOrderAlgebra(ts, i, p, ts[i].(children := Parse(inner).value));
    }
  }

  /** The tokens inside a nest and after it are as raw and groupable as
      the list they came from. */
  lemma {:induction false} NestParts(ts: seq<Token>, i: nat, p: nat)
    requires i < p < |ts| && AllRaw(ts[i..]) && Groupable(ts[i..])
    ensures AllRaw(ts[i + 1..p]) && Groupable(ts[i + 1..p])
    ensures AllRaw(ts[p + 1..]) && Groupable(ts[p + 1..])
  {
    assert ts[i + 1..p] == ts[i..][1..p - i];
    assert ts[p + 1..] == ts[i..][p + 1 - i..];
  }

  /** The bookkeeping of a nest step: the nest's spelling stands where its
      words stood. */
  lemma {:induction false} NestOrderAlgebra(ts: seq<Token>, i: nat, p: nat, node: Token)
    requires i < p < |ts| && IsNest(node.kind)
    requires Spellings(node.children) == Words(ts[i + 1..p])
    requires Words(ts[i..]) == [node.original] + Words(ts[i + 1..p]) + [Closer(node.kind)] + Words(ts[p + 1..])
    ensures var tokens := ts[..i] + [node] + ts[p + 1..];
      Spellings(tokens[..i + 1]) + Words(tokens[i + 1..]) == Spellings(ts[..i]) + Words(ts[i..])
  {
    var tokens := ts[..i] + [node] + ts[p + 1..];
    assert tokens[..i + 1] == ts[..i] + [node];
    assert tokens[i + 1..] == ts[p + 1..];
    SpellingsAppend(ts[..i], [node]);
    assert Spellings([node]) == Spelling(node);
  }

  /** What a successful nest step is made of: the matching closer at `p`
      and the parsed tokens between. */
  lemma {:induction false} NestStepShape(ts: seq<Token>, i: nat)
    requires i < |ts| && IsNest(ts[i].kind) && NestStep(ts, i).Ok?
    ensures var k := ts[i].kind;
      ts[i].original == Opener(k) && CloserFrom(ts, k, i + 1, 1).Ok?
      && var p := CloserFrom(ts, k, i + 1, 1).value;
      i < p < |ts| && ts[p].original == Closer(k) && Parse(ts[i + 1..p]).Ok?
      && NestStep(ts, i).value.tokens == ts[..i] + [ts[i].(children := Parse(ts[i + 1..p]).value)] + ts[p + 1..]
  {
  }

  /** The words of a nest: the opener, the words inside, the closer. */
  lemma {:induction false} NestWords(ts: seq<Token>, i: nat, p: nat)
    requires i < p < |ts| && IsNest(ts[i].kind) && Groupable(ts[i..])
    requires ts[i].original == Opener(ts[i].kind) && ts[p].original == Closer(ts[i].kind)
    ensures Words(ts[i..]) == [Opener(ts[i].kind)] + Words(ts[i + 1..p]) + [Closer(ts[i].kind)] + Words(ts[p + 1..])
  {
    var inner := ts[i + 1..p];
    assert ts[p] == ts[i..][p - i];
    assert ts[p].kind != Delimiter;
    assert ts[i].kind != Delimiter;
    assert ts[i..] == [ts[i]] + inner + [ts[p]] + ts[p + 1..];
    WordsAppend([ts[i]] + inner + [ts[p]], ts[p + 1..]);
    WordsAppend([ts[i]] + inner, [ts[p]]);
    WordsAppend([ts[i]], inner);
  }

  // ---------------------------------------------------------------- the loops

  /** The nesting parser's counting loop. */
  method FindCloser(tokens: seq<Token>, index: nat, k: Kind) returns (r: Result<nat>)
    requires IsNest(k) && index < |tokens|
    ensures r == CloserFrom(tokens, k, index + 1, 1)
  {
    var position := index + 1;
    var opens := 1;
    while position <= |tokens| && opens != 0
      invariant index + 1 <= position <= |tokens| + 1
      invariant opens >= 0
      invariant opens > 0 ==> position <= |tokens|
      invariant opens > 0 ==> CloserFrom(tokens, k, index + 1, 1) == CloserFrom(tokens, k, position, opens)
      invariant opens == 0 ==> index + 1 < position && CloserFrom(tokens, k, index + 1, 1) == Ok(position - 1)
      decreases |tokens| + 1 - position
    {
      if position == |tokens| {
        return Err(BadNesting);
      }
      if tokens[position].original == Opener(k) {
        opens := opens + 1;
      }
      if tokens[position].original == Closer(k) {
        opens := opens - 1;
      }
      position := position + 1;
    }
    return Ok(position - 1);
  }

  /** A token's own parse function, at index `i` of the list. */
  method ParseAt(tokens: seq<Token>, i: nat) returns (r: Result<Progress>)
    requires i < |tokens|
    ensures r == ParseStep(tokens, i)
    decreases |tokens|, 1
  {
    var t := tokens[i];
    match t.kind
    case Parenthesis => r := ParseNest(tokens, i);
    case FunctionBraces => r := ParseNest(tokens, i);
    case Delimiter =>
      r := Ok(Progress(tokens[..i] + tokens[i + 1..], -1));
    case Period =>
      var step := ParsePeriod(tokens, i);
      r := Ok(step);
    case _ => r := Ok(Progress(tokens, 0));
  }

  /** The period's parse function: two splices, at `i - 1` and then at `i`. */
  method ParsePeriod(tokens: seq<Token>, i: nat) returns (r: Progress)
    requires i < |tokens|
    ensures r == PeriodStep(tokens, i)
  {
    if i == 0 {
      if |tokens| == 1 {
        r := Progress([], -1);
      } else {
        r := Progress(tokens[1..|tokens| - 1], -1);
      }
    } else {
      var t := tokens[i];
      // take the target out; the period moves down to i - 1
      var ts := tokens[..i - 1] + tokens[i..];
      var member: Option<Token> := None;
      var node;
      if i < |ts| {
        member := Some(ts[i]);
        ts := ts[..i] + ts[i + 1..];
        node := t.(target := Some(tokens[i - 1]), member := member);
        assert ts[i - 1 := node] == tokens[..i - 1] + [node] + tokens[i + 2..];
      } else {
        node := t.(target := Some(tokens[i - 1]), member := member);
        assert ts[i - 1 := node] == tokens[..i - 1] + [node] + [];
      }
      ts := ts[i - 1 := node];
      r := Progress(ts, -1);
    }
  }

  method ParseNest(tokens: seq<Token>, i: nat) returns (r: Result<Progress>)
    requires i < |tokens| && IsNest(tokens[i].kind)
    ensures r == NestStep(tokens, i)
    decreases |tokens|, 0
  {
    var k := tokens[i].kind;
    if tokens[i].original != Opener(k) {
      return Err(BadNesting);
    }
    var position := FindCloser(tokens, i, k);
    if position.Err? {
      return Err(position.error);
    }
    var p := position.value;
    var children := ParseTokens(tokens[i + 1..p]);
    if children.Err? {
      return Err(children.error);
    }
    r := Ok(Progress(tokens[..i] + [tokens[i].(children := children.value)] + tokens[p + 1..], 0));
  }

  /** `parse`: the loop adds each token's adjustment plus one to the index. */
  method ParseTokens(tokens: seq<Token>) returns (r: Result<seq<Token>>)
    ensures r == Parse(tokens)
    decreases |tokens|, 2
  {
    var ts := tokens;
    var i: nat := 0;
    while i < |ts|
      invariant i <= |ts| <= |tokens|
      invariant Parse(tokens) == ParseFrom(ts, i)
      decreases |ts|, |ts| - i
    {
      var step := ParseAt(ts, i);
      if step.Err? {
        return Err(step.error);
      }
      ts, i := step.value.tokens, i + step.value.shift + 1;
    }
    return Ok(ts);
  }
}
