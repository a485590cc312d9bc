/** `tokenise`: repeatedly asks the converter groups, in a fixed order, for
    one token at the start of the unconsumed text. */
module Tokeniser {
  import opened Errors
  import opened Syntax
  import opened Scanners

  datatype Converter =
    | ParenthesesConverter | FunctionConverter | PeriodConverter
    | DelimiterConverter | StringConverter | SingleQuoteStringConverter | NumberConverter
    | IdentifierConverter

  /** The converter groups, each in its registration order. */
  const Nests: seq<Converter> := [ParenthesesConverter, FunctionConverter, PeriodConverter]
  const Primitives: seq<Converter> :=
    [DelimiterConverter, StringConverter, SingleQuoteStringConverter, NumberConverter]
  const Identifiers: seq<Converter> := [IdentifierConverter]

  /** `t` is a fresh token made of the first `t.length` characters of `s`. */
  ghost predicate Consumes(s: string, t: Token) {
    IsRaw(t) && 1 <= t.length <= |s| && Source(t) == s[..t.length]
  }

  function Recognised(c: Converter, s: string): (r: Result<Option<Token>>)
    ensures r.Ok? && r.value.Some? ==> Consumes(s, r.value.value)
    ensures r.Err? ==> r.error.UnclosedString?
  {
    match c
    case ParenthesesConverter =>
      OptionConsumes(s, NestToken(s, Parenthesis));
      Ok(NestToken(s, Parenthesis))
    case FunctionConverter =>
      OptionConsumes(s, NestToken(s, FunctionBraces));
      Ok(NestToken(s, FunctionBraces))
    case PeriodConverter =>
      OptionConsumes(s, NestToken(s, Period));
      Ok(NestToken(s, Period))
    case DelimiterConverter =>
      OptionConsumes(s, DelimiterToken(s));
      Ok(DelimiterToken(s))
    case StringConverter =>
      StringConsumes(s, '"', DoubleQuoted, "double quoted");
      StringToken(s, '"', DoubleQuoted, "double quoted")
    case SingleQuoteStringConverter =>
      StringConsumes(s, '\'', SingleQuoted, "single quoted");
      StringToken(s, '\'', SingleQuoted, "single quoted")
    case NumberConverter =>
      OptionConsumes(s, NumberToken(s));
      Ok(NumberToken(s))
    case IdentifierConverter =>
      OptionConsumes(s, IdentifierToken(s));
      Ok(IdentifierToken(s))
  }

  /** A plain token of one to `|s|` characters, copied from the front of
      `s`, consumes them. */
  lemma {:induction false} OptionConsumes(s: string, t: Option<Token>)
    requires t.Some? ==> !IsStringKind(t.value.kind) && IsRaw(t.value)
                         && 1 <= t.value.length <= |s| && t.value.original == s[..t.value.length]
    ensures t.Some? ==> Consumes(s, t.value)
  {
  }

  /** A string converter's token consumes the text it was made from; its
      only failure is an unclosed string. */
  lemma {:induction false} StringConsumes(s: string, term: char, kind: Kind, stringType: string)
    requires term != '\\' && IsStringKind(kind)
    ensures var r := StringToken(s, term, kind, stringType);
            (r.Ok? && r.value.Some? ==> Consumes(s, r.value.value))
            && (r.Err? ==> r.error.UnclosedString?)
  {
    StringTokenShape(s, term, kind, stringType);
  }

  /** `scanForToken`: the first converter of the group that makes a token. */
  function FirstRecognised(group: seq<Converter>, s: string): (r: Result<Option<Token>>)
    ensures r.Ok? && r.value.Some? ==> Consumes(s, r.value.value)
    ensures r.Ok? && r.value.None? ==> forall k :: 0 <= k < |group| ==> Recognised(group[k], s) == Ok(None)
    ensures r.Err? ==> r.error.UnclosedString?
  {
    if group == [] then Ok(None)
    else
      var t :- Recognised(group[0], s);
      if t.Some? then Ok(t) else FirstRecognised(group[1..], s)
  }

  /** An identifier becomes a keyword token when its text is reserved. */
  function Reclassify(t: Token): (r: Token)
    ensures r.original == t.original
    ensures KeywordToken(t).None? ==> r == t
    ensures IsRaw(t) && t.length == |t.original| ==> IsRaw(r) && r.length == t.length
  {
    match KeywordToken(t)
    case Some(k) => k
    case None => t
  }

  /** Nests first, then primitives, then identifiers (reclassified). */
  function NextToken(s: string): (r: Result<Option<Token>>)
    ensures r.Ok? && r.value.Some? ==> Consumes(s, r.value.value)
    ensures r.Err? ==> r.error.UnclosedString?
  {
    var n :- FirstRecognised(Nests, s);
    if n.Some? then Ok(n)
    else
      var p :- FirstRecognised(Primitives, s);
      if p.Some? then Ok(p)
      else
        var i := FirstRecognised(Identifiers, s);
        IdentifierGroup(s);
        if i.Ok? && i.value.Some? then Ok(Some(Reclassify(i.value.value))) else i
  }

  /** The identifier group has one converter, so it answers as that one does. */
  lemma {:induction false} IdentifierGroup(s: string)
    ensures FirstRecognised(Identifiers, s) == Ok(IdentifierToken(s))
  {
    assert Identifiers[1..] == [];
    assert FirstRecognised(Identifiers[1..], s) == Ok(None);
  }

  /** The tokens of a whole expression. */
  function Tokens(s: string): Result<seq<Token>>
    decreases |s|
  {
    if s == [] then Ok([])
    else
      var t :- NextToken(s);
      if t.None? then Err(UnparseableToken(s))
      else
        var rest :- Tokens(s[t.value.length..]);
        Ok([t.value] + rest)
  }

  function Prepend(ts: seq<Token>, r: Result<seq<Token>>): Result<seq<Token>> {
    if r.Err? then r else Ok(ts + r.value)
  }

  // ---------------------------------------------------------------- properties

  /** Tokenising loses no text: the tokens' sources, in order, spell the
      expression, every token consumes at least one character, and the
      lengths add up to the length of the expression. */
  lemma {:induction false} TokensRoundTrip(s: string)
    ensures s == [] ==> Tokens(s) == Ok([])
    ensures Tokens(s).Ok? ==>
      var ts := Tokens(s).value;
      Sources(ts) == s && TotalLength(ts) == |s| && AllRaw(ts)
      && forall k :: 0 <= k < |ts| ==> ts[k].length >= 1
    decreases |s|
  {
    if s != [] && Tokens(s).Ok? {
      var t := NextToken(s).value.value;
      var rest := s[t.length..];
      TokensRoundTrip(rest);
      var ts := Tokens(s).value;
      assert ts == [t] + Tokens(rest).value;
      assert ts[1..] == Tokens(rest).value;
      assert s == s[..t.length] + rest;
    }
  }

  /** `tokenise` fails with UnparseableToken exactly at a non-empty suffix
      of the expression where no converter makes a token; the only other
      failure is an unclosed string. */
  lemma {:induction false} TokensFailure(s: string)
    ensures Tokens(s).Err? ==>
      match Tokens(s).error
      case UnparseableToken(rest) =>
        rest != [] && |rest| <= |s| && rest == s[|s| - |rest|..] && NextToken(rest) == Ok(None)
      case UnclosedString(_) => true
      case _ => false
    decreases |s|
  {
    if s != [] && Tokens(s).Err? && NextToken(s).Ok? && NextToken(s).value.Some? {
      var t := NextToken(s).value.value;
      TokenThenRest(s);
      TokensFailure(s[t.length..]);
      var e := Tokens(s[t.length..]).error;
      if e.UnparseableToken? {
        SuffixOfSuffix(s, t.length, e.rest);
      }
    }
  }

  /** After a token, tokenising goes on from the text that follows it. */
  lemma {:induction false} TokenThenRest(s: string)
    requires s != [] && NextToken(s).Ok? && NextToken(s).value.Some?
    ensures var t := NextToken(s).value.value;
            Tokens(s) == Prepend([t], Tokens(s[t.length..]))
  {
  }

  /** A suffix of a suffix is a suffix. */
  lemma {:induction false} SuffixOfSuffix(s: string, n: nat, rest: string)
    requires n <= |s| && |rest| <= |s| - n && rest == s[n..][|s| - n - |rest|..]
    ensures rest == s[|s| - |rest|..]
  {
    assert s[n..][|s| - n - |rest|..] == s[|s| - |rest|..];
  }

  /** A token that the identifier converter reclassifies keeps its text and
      length; only the four reserved words change kind. */
  lemma {:induction false} ReclassifyKeepsText(t: Token)
    requires t.kind == Identifier && |t.original| == t.length && IsRaw(t)
    ensures Reclassify(t).original == t.original && Reclassify(t).length == t.length
    ensures IsRaw(Reclassify(t))
    ensures Reclassify(t).kind != Identifier <==> t.original in {"true", "false", "null", "undefined"}
  {
  }

  // ---------------------------------------------------------------- the loops

  method Recognise(c: Converter, s: string) returns (r: Result<Option<Token>>)
    ensures r == Recognised(c, s)
  {
    match c
    case ParenthesesConverter => r := Ok(NestToken(s, Parenthesis));
    case FunctionConverter => r := Ok(NestToken(s, FunctionBraces));
    case PeriodConverter => r := Ok(NestToken(s, Period));
    case DelimiterConverter =>
      var t := ScanDelimiter(s);
      r := Ok(t);
    case StringConverter => r := DetectString(s, '"', DoubleQuoted, "double quoted");
    case SingleQuoteStringConverter => r := DetectString(s, '\'', SingleQuoted, "single quoted");
    case NumberConverter =>
      var t := ScanNumber(s);
      r := Ok(t);
    case IdentifierConverter =>
      var t := ScanIdentifier(s);
      r := Ok(t);
  }

  /** `scanForToken`: tries the group's converters in order. */
  method ScanForToken(group: seq<Converter>, s: string) returns (r: Result<Option<Token>>)
    ensures r == FirstRecognised(group, s)
  {
    for k := 0 to |group|
      invariant FirstRecognised(group, s) == FirstRecognised(group[k..], s)
    {
      assert group[k..][1..] == group[k + 1..];
      var t := Recognise(group[k], s);
      if t.Err? || t.value.Some? {
        return t;
      }
    }
    return Ok(None);
  }

  /** One pass of the loop body: nests, then primitives, then identifiers. */
  method NextTokenOf(rest: string) returns (token: Result<Option<Token>>)
    ensures token == NextToken(rest)
  {
    token := ScanForToken(Nests, rest);
    if token.Ok? && token.value.None? {
      token := ScanForToken(Primitives, rest);
    }
    if token.Ok? && token.value.None? {
      token := ScanForToken(Identifiers, rest);
      IdentifierGroup(rest);
      if token.Ok? && token.value.Some? {
        token := Ok(Some(Reclassify(token.value.value)));
      }
    }
  }

  /** Consuming one token moves it from the remaining text to the output. */
  lemma {:induction false} TokensStep(tokens: seq<Token>, rest: string, t: Token)
    requires rest != [] && NextToken(rest) == Ok(Some(t))
    ensures Prepend(tokens, Tokens(rest)) == Prepend(tokens + [t], Tokens(rest[t.length..]))
  {
    var after := Tokens(rest[t.length..]);
    if after.Ok? {
      assert tokens + ([t] + after.value) == (tokens + [t]) + after.value;
    }
  }

  /** `tokenise`: the do-while that consumes the expression token by token. */
  method Tokenise(expression: string) returns (r: Result<seq<Token>>)
    ensures r == Tokens(expression)
  {
    if expression == [] {
      return Ok([]);
    }
    var rest := expression;
    var tokens: seq<Token> := [];
    var totalCharsProcessed := 0;
    assert Prepend(tokens, Tokens(rest)) == Tokens(rest) by {
      if Tokens(rest).Ok? { assert [] + Tokens(rest).value == Tokens(rest).value; }
    }
    // a do-while loop: the expression is not empty on entry
    while rest != []
      invariant totalCharsProcessed + |rest| == |expression|
      invariant rest == expression[totalCharsProcessed..]
      invariant Tokens(expression) == Prepend(tokens, Tokens(rest))
      decreases |rest|
    {
      var previousLength := |rest|;
      var token := NextTokenOf(rest);
      if token.Err? {
        return Err(token.error);
      }
      if token.value.Some? {
        var t := token.value.value;
        TokensStep(tokens, rest, t);
        rest := rest[t.length..];
        totalCharsProcessed := totalCharsProcessed + t.length;
        tokens := tokens + [t];
        continue;
      }
      if |rest| == previousLength {
        return Err(UnparseableToken(rest));
      }
    }
    assert tokens + [] == tokens;
    return Ok(tokens);
  }
}
