/** The token converters: each looks at the start of the unconsumed text and
    either recognises one token there or declines. */
module Scanners {
  import opened Errors
  import opened Syntax

  // ---------------------------------------------------------------- runs

  /** Length of the longest prefix of `s` whose characters all satisfy `p`. */
  function LeadingRun(s: string, p: char -> bool): (n: nat)
    ensures n <= |s|
    ensures forall k :: 0 <= k < n ==> p(s[k])
    ensures n < |s| ==> !p(s[n])
  {
    if s == [] || !p(s[0]) then 0 else 1 + LeadingRun(s[1..], p)
  }

  /** The run above is the only prefix with those two properties. */
  lemma {:induction false} LeadingRunUnique(s: string, p: char -> bool, n: nat)
    requires n <= |s|
    requires forall k :: 0 <= k < n ==> p(s[k])
    requires n < |s| ==> !p(s[n])
    ensures LeadingRun(s, p) == n
  {
    if n > 0 {
      assert p(s[0]);
      assert forall k :: 0 <= k < n - 1 ==> s[1..][k] == s[k + 1];
      LeadingRunUnique(s[1..], p, n - 1);
    }
  }

  predicate HasPrefix(s: string, prefix: string) {
    |prefix| <= |s| && s[..|prefix|] == prefix
  }

  // ---------------------------------------------------------------- nests

  /** `(`, `)`, `{`, `}` and `.` are one-character tokens. */
  function NestToken(s: string, kind: Kind): (r: Option<Token>)
    requires kind == Parenthesis || kind == FunctionBraces || kind == Period
    ensures r.Some? <==> |s| > 0 && NestChar(kind, s[0])
    ensures r.Some? ==> r.value == Leaf(kind, s[..1], 1)
  {
    if |s| > 0 && NestChar(kind, s[0]) then Some(Leaf(kind, [s[0]], 1)) else None
  }

  predicate NestChar(kind: Kind, c: char) {
    match kind
    case Parenthesis => c == '(' || c == ')'
    case FunctionBraces => c == '{' || c == '}'
    case Period => c == '.'
    case _ => false
  }

  // ---------------------------------------------------------------- delimiters

  /** Characters for which the host's `trim()` leaves the empty string. */
  predicate IsWhitespace(c: char) {
    c == '\t' || c == '\n' || c == '\U{000B}' || c == '\U{000C}' || c == '\r' || c == ' '
    || c == '\U{00A0}' || c == '\U{1680}' || ('\U{2000}' <= c <= '\U{200A}')
    || c == '\U{2028}' || c == '\U{2029}' || c == '\U{202F}' || c == '\U{205F}'
    || c == '\U{3000}' || c == '\U{FEFF}'
  }

  predicate IsDelimiterChar(c: char) {
    IsWhitespace(c) || c == ','
  }

  function DelimiterToken(s: string): (r: Option<Token>) {
    var n := LeadingRun(s, IsDelimiterChar);
    if n > 0 then Some(Leaf(Delimiter, s[..n], n)) else None
  }

  /** The delimiter converter's counting loop. */
  method ScanDelimiter(s: string) returns (r: Option<Token>)
    ensures r.Some? <==> |s| > 0 && IsDelimiterChar(s[0])
    ensures r.Some? ==> r.value.kind == Delimiter && 1 <= r.value.length <= |s|
    ensures r.Some? ==> r.value.original == s[..r.value.length]
    ensures r.Some? ==> forall k :: 0 <= k < r.value.length ==> IsDelimiterChar(s[k])
    ensures r.Some? && r.value.length < |s| ==> !IsDelimiterChar(s[r.value.length])
    ensures r == DelimiterToken(s)
  {
    var i := 0;
    while i < |s| && IsDelimiterChar(s[i])
      invariant 0 <= i <= |s|
      invariant forall k :: 0 <= k < i ==> IsDelimiterChar(s[k])
    {
      i := i + 1;
    }
    LeadingRunUnique(s, IsDelimiterChar, i);
    if i > 0 {
      r := Some(Leaf(Delimiter, s[..i], i));
    } else {
      r := None;
    }
  }

  // ---------------------------------------------------------------- strings

  /** What the string scan found after the opening terminal: the collapsed
      body and the position of the closing terminal in the original text. */
  datatype Scanned = Scanned(body: string, close: nat)

  function Prefixed(p: string, r: Result<Scanned>): Result<Scanned> {
    if r.Err? then r else Ok(Scanned(p + r.value.body, r.value.close))
  }

  lemma {:induction false} PrefixedAppend(a: string, b: string, r: Result<Scanned>)
    ensures Prefixed(a, Prefixed(b, r)) == Prefixed(a + b, r)
    ensures Prefixed([], r) == r
  {
    if r.Ok? {
      assert a + (b + r.value.body) == (a + b) + r.value.body;
      assert [] + r.value.body == r.value.body;
    }
  }

  /** The string scan from original position `j` on: a terminal closes, a
      backslash followed by the terminal stands for the terminal alone. */
  function StringTail(s: string, term: char, j: nat, stringType: string): (r: Result<Scanned>)
    decreases |s| - j
  {
    if j >= |s| then Err(UnclosedString(stringType))
    else if s[j] == term then Ok(Scanned([], j))
    else if s[j] == '\\' && j + 1 < |s| && s[j + 1] == term then
      Prefixed([term], StringTail(s, term, j + 2, stringType))
    else
      Prefixed([s[j]], StringTail(s, term, j + 1, stringType))
  }

  function StringToken(s: string, term: char, kind: Kind, stringType: string): Result<Option<Token>> {
    if |s| == 0 || s[0] != term then Ok(None)
    else
      var sc :- StringTail(s, term, 1, stringType);
      Ok(Some(Leaf(kind, [term] + sc.body + [term], sc.close + 1)))
  }

  /** What the scan promises: the closing terminal lies inside the text,
      and restoring the escapes in the body gives back the text between
      the terminals. */
  lemma {:induction false} StringTailRestores(s: string, term: char, j: nat, stringType: string)
    requires term != '\\'
    ensures StringTail(s, term, j, stringType).Ok? ==>
      var sc := StringTail(s, term, j, stringType).value;
      j <= sc.close < |s| && s[sc.close] == term && Restore(sc.body, term) == s[j..sc.close]
    ensures StringTail(s, term, j, stringType).Err? ==>
      StringTail(s, term, j, stringType).error == UnclosedString(stringType)
    decreases |s| - j
  {
    if j >= |s| || s[j] == term {
    } else if s[j] == '\\' && j + 1 < |s| && s[j + 1] == term {
      StringTailRestores(s, term, j + 2, stringType);
      var r := StringTail(s, term, j + 2, stringType);
      assert StringTail(s, term, j, stringType) == Prefixed([term], r);
      if r.Ok? {
        RestoreStep(s, term, j, 2, r.value.body, r.value.close);
      }
    } else {
      StringTailRestores(s, term, j + 1, stringType);
      var r := StringTail(s, term, j + 1, stringType);
      assert StringTail(s, term, j, stringType) == Prefixed([s[j]], r);
      if r.Ok? {
        RestoreStep(s, term, j, 1, r.value.body, r.value.close);
      }
    }
  }

  /** One more character of the scan: an escaped terminal (`width` 2)
      restores to the backslash and the terminal, any other character
      (`width` 1) to itself. */
  lemma {:induction false} RestoreStep(s: string, term: char, j: nat, width: nat, body: string, close: nat)
    requires term != '\\' && 1 <= width <= 2 && j + width <= close < |s|
    requires width == 2 ==> s[j] == '\\' && s[j + 1] == term
    requires width == 1 ==> s[j] != term
    requires Restore(body, term) == s[j + width..close]
    ensures Restore([if width == 2 then term else s[j]] + body, term) == s[j..close]
  {
    var head := if width == 2 then term else s[j];
    assert ([head] + body)[1..] == body;
    assert Restore([head] + body, term) == s[j..j + width] + Restore(body, term);
    assert s[j..close] == s[j..j + width] + s[j + width..close];
  }

  /** A string token starts and ends with its terminal, its source is
      exactly the text it consumed, and its length exceeds its original by
      the number of collapsed escapes. */
  lemma {:induction false} StringTokenShape(s: string, term: char, kind: Kind, stringType: string)
    requires term != '\\' && IsStringKind(kind)
    ensures var r := StringToken(s, term, kind, stringType);
      (r.Ok? && r.value.None? <==> |s| == 0 || s[0] != term)
      && (r.Err? ==> r.error == UnclosedString(stringType))
      && (r.Ok? && r.value.Some? ==>
            var t := r.value.value;
            IsRaw(t) && t.kind == kind
            && |t.original| >= 2 && t.original[0] == term && t.original[|t.original| - 1] == term
            && 2 <= t.length <= |s| && Source(t) == s[..t.length]
            && t.length == |t.original| + Occurrences(t.original[1..|t.original| - 1], term))
  {
    if |s| > 0 && s[0] == term {
      StringTailRestores(s, term, 1, stringType);
      var r := StringTail(s, term, 1, stringType);
      if r.Ok? {
        ClosedString(s, term, kind, r.value);
      }
    }
  }

  /** The token made from a scan that closed inside the text. */
  lemma {:induction false} ClosedString(s: string, term: char, kind: Kind, sc: Scanned)
    requires IsStringKind(kind)
    requires |s| > 0 && s[0] == term
    requires 1 <= sc.close < |s| && s[sc.close] == term && Restore(sc.body, term) == s[1..sc.close]
    ensures var t := Leaf(kind, [term] + sc.body + [term], sc.close + 1);
            IsRaw(t) && t.kind == kind
            && |t.original| >= 2 && t.original[0] == term && t.original[|t.original| - 1] == term
            && 2 <= t.length <= |s| && Source(t) == s[..t.length]
            && t.length == |t.original| + Occurrences(t.original[1..|t.original| - 1], term)
  {
    var o := [term] + sc.body + [term];
    assert o[1..|o| - 1] == sc.body;
    assert s[..sc.close + 1] == [term] + s[1..sc.close] + [term];
  }

  /** The loop state of `detectString`: `e` is the text with the first
      `escapes` escapes collapsed, and position `index` of `e` is position
      `index + escapes` of `s`. */
  ghost predicate ScanState(s: string, term: char, stringType: string, e: string, index: nat, escapes: nat) {
    && 1 <= index <= |e|
    && |e| + escapes == |s| && e[0] == term && s[0] == term
    && e[index..] == s[index + escapes..]
    && StringTail(s, term, 1, stringType)
       == Prefixed(e[1..index], StringTail(s, term, index + escapes, stringType))
  }

  lemma {:induction false} ScanStart(s: string, term: char, stringType: string)
    requires |s| > 0 && s[0] == term
    ensures ScanState(s, term, stringType, s, 1, 0)
  {
    PrefixedAppend([], [], StringTail(s, term, 1, stringType));
    assert s[1..1] == [];
  }

  lemma {:induction false} ScanEscape(s: string, term: char, stringType: string, e: string, index: nat, escapes: nat)
    requires ScanState(s, term, stringType, e, index, escapes)
    requires index + 1 < |e| && e[index] == '\\' && e[index] != term && e[index + 1] == term
    ensures ScanState(s, term, stringType, e[..index] + e[index + 1..], index + 1, escapes + 1)
  {
    var j := index + escapes;
    assert e[index..][0] == s[j..][0] && e[index..][1] == s[j..][1];
    assert StringTail(s, term, j, stringType) == Prefixed([term], StringTail(s, term, j + 2, stringType));
    PrefixedAppend(e[1..index], [term], StringTail(s, term, j + 2, stringType));
    assert e[index + 2..] == s[j + 2..] by {
      assert e[index..][2..] == e[index + 2..] && s[j..][2..] == s[j + 2..];
    }
    var e' := e[..index] + e[index + 1..];
    assert e'[1..index + 1] == e[1..index] + [term];
    assert e'[index + 1..] == s[j + 2..];
  }

  lemma {:induction false} ScanPlain(s: string, term: char, stringType: string, e: string, index: nat, escapes: nat)
    requires ScanState(s, term, stringType, e, index, escapes)
    requires index < |e| && e[index] != term
    requires !(index + 1 < |e| && e[index] == '\\' && e[index + 1] == term)
    ensures ScanState(s, term, stringType, e, index + 1, escapes)
  {
    var j := index + escapes;
    assert e[index..][0] == s[j..][0];
    assert index + 1 < |e| ==> e[index..][1] == s[j..][1];
    assert StringTail(s, term, j, stringType) == Prefixed([s[j]], StringTail(s, term, j + 1, stringType));
    PrefixedAppend(e[1..index], [s[j]], StringTail(s, term, j + 1, stringType));
    assert e[1..index + 1] == e[1..index] + [s[j]];
    assert e[index + 1..] == s[j + 1..] by {
      assert e[index..][1..] == e[index + 1..] && s[j..][1..] == s[j + 1..];
    }
  }

  lemma {:induction false} ScanEnd(s: string, term: char, kind: Kind, stringType: string, e: string, index: nat, escapes: nat)
    requires ScanState(s, term, stringType, e, index, escapes)
    requires index < |e| && e[index] == term
    ensures StringToken(s, term, kind, stringType) == Ok(Some(Leaf(kind, e[..index + 1], index + escapes + 1)))
  {
    assert e[index..][0] == s[index + escapes..][0];
    assert StringTail(s, term, index + escapes, stringType) == Ok(Scanned([], index + escapes));
    assert e[1..index] + [] == e[1..index];
    assert e[..index + 1] == [term] + e[1..index] + [term];
  }

  /** `detectString`: scans the text while collapsing each escaped terminal
      into the text itself, counting the escapes. */
  method DetectString(s: string, term: char, kind: Kind, stringType: string) returns (r: Result<Option<Token>>)
    ensures r == StringToken(s, term, kind, stringType)
  {
    if |s| == 0 || s[0] != term {
      return Ok(None);
    }
    var e := s;
    var index := 1;
    var escapes := 0;
    ScanStart(s, term, stringType);
    while !(index < |e| && e[index] == term)
      invariant ScanState(s, term, stringType, e, index, escapes)
      decreases |e| - index
    {
      if index >= |e| {
        assert StringTail(s, term, index + escapes, stringType).Err?;
        return Err(UnclosedString(stringType));
      }
      if e[index] == '\\' && index + 1 < |e| && e[index + 1] == term {
        ScanEscape(s, term, stringType, e, index, escapes);
        e := e[..index] + e[index + 1..];
        escapes := escapes + 1;
      } else {
        ScanPlain(s, term, stringType, e, index, escapes);
      }
      index := index + 1;
    }
    ScanEnd(s, term, kind, stringType, e, index, escapes);
    r := Ok(Some(Leaf(kind, e[..index + 1], index + escapes + 1)));
  }

  // ---------------------------------------------------------------- numbers

  const Specials: seq<string> := ["NaN", "-NaN", "Infinity", "-Infinity"]

  predicate IsNumberChar(c: char) {
    c in "0123456789-.Eex"
  }

  predicate IsDigit(c: char) {
    '0' <= c <= '9'
  }

  /** Whether the host's float parser finds a number at the start of a run
      of number characters: an optional minus, then a digit or a point
      followed by a digit. */
  predicate ParsesAsNumber(run: string) {
    var t := if |run| > 0 && run[0] == '-' then run[1..] else run;
    |t| > 0 && (IsDigit(t[0]) || (t[0] == '.' && |t| > 1 && IsDigit(t[1])))
  }

  function NumberToken(s: string): (r: Option<Token>) {
    if HasPrefix(s, Specials[0]) then Some(Leaf(Number, Specials[0], |Specials[0]|))
    else if HasPrefix(s, Specials[1]) then Some(Leaf(Number, Specials[1], |Specials[1]|))
    else if HasPrefix(s, Specials[2]) then Some(Leaf(Number, Specials[2], |Specials[2]|))
    else if HasPrefix(s, Specials[3]) then Some(Leaf(Number, Specials[3], |Specials[3]|))
    else
      var n := LeadingRun(s, IsNumberChar);
      if n > 0 && ParsesAsNumber(s[..n]) then Some(Leaf(Number, s[..n], n)) else None
  }

  /** The number converter: the special names first, then the longest run of
      number characters, kept only if it parses. */
  method ScanNumber(s: string) returns (r: Option<Token>)
    ensures r.Some? ==> r.value.kind == Number && 1 <= r.value.length <= |s|
                        && r.value.original == s[..r.value.length]
    ensures r.None? ==> forall k :: 0 <= k < |Specials| ==> !HasPrefix(s, Specials[k])
    ensures r == NumberToken(s)
  {
    for k := 0 to |Specials|
      invariant forall k' :: 0 <= k' < k ==> !HasPrefix(s, Specials[k'])
    {
      var key := Specials[k];
      if |key| <= |s| && s[..|key|] == key {
        return Some(Leaf(Number, key, |key|));
      }
    }
    var index := 0;
    while index < |s| && IsNumberChar(s[index])
      invariant 0 <= index <= |s|
      invariant forall k :: 0 <= k < index ==> IsNumberChar(s[k])
    {
      index := index + 1;
    }
    LeadingRunUnique(s, IsNumberChar, index);
    if index > 0 {
      var run := s[..index];
      if !ParsesAsNumber(run) {
        return None;
      }
      return Some(Leaf(Number, run, index));
    }
    return None;
  }

  // ---------------------------------------------------------------- identifiers

  predicate IsOperatorChar(c: char) {
    c in "!=<>/&|*%-^?+\\"
  }

  predicate IsAsciiLetter(c: char) {
    ('A' <= c <= 'Z') || ('a' <= c <= 'z')
  }

  predicate IsIdentifierStart(c: char) {
    c == '$' || c == '_' || IsAsciiLetter(c)
  }

  predicate IsIdentifierPart(c: char) {
    IsIdentifierStart(c) || IsDigit(c)
  }

  /** Length of the match of `[$A-Za-z_][0-9A-Za-z_$]*` at the start of `s`. */
  function NameLength(s: string): (n: nat)
    ensures n <= |s|
    ensures n > 0 <==> |s| > 0 && IsIdentifierStart(s[0])
    ensures n > 0 ==> (forall k :: 1 <= k < n ==> IsIdentifierPart(s[k]))
                      && (n < |s| ==> !IsIdentifierPart(s[n]))
  {
    if |s| > 0 && IsIdentifierStart(s[0]) then 1 + LeadingRun(s[1..], IsIdentifierPart) else 0
  }

  function IdentifierToken(s: string): (r: Option<Token>)
    ensures r.Some? ==> r.value.kind == Identifier && 1 <= r.value.length <= |s|
                        && r.value.original == s[..r.value.length] && IsRaw(r.value)
    ensures r.None? <==> NameLength(s) == 0 && (s == [] || !IsOperatorChar(s[0]))
  {
    var n := LeadingRun(s, IsOperatorChar);
    if n > 0 then Some(Leaf(Identifier, s[..n], n))
    else
      var m := NameLength(s);
      if m > 0 then Some(Leaf(Identifier, s[..m], m)) else None
  }

  /** The identifier converter: a maximal run of operator characters when
      there is one, otherwise the longest name at the start of `s`. */
  method ScanIdentifier(s: string) returns (r: Option<Token>)
    ensures r.Some? ==> r.value.kind == Identifier && 1 <= r.value.length <= |s|
                        && r.value.original == s[..r.value.length]
    ensures |s| > 0 && IsOperatorChar(s[0]) ==>
              r.Some? && (forall k :: 0 <= k < r.value.length ==> IsOperatorChar(s[k]))
              && (r.value.length < |s| ==> !IsOperatorChar(s[r.value.length]))
    ensures r.None? <==> |s| == 0 || (!IsOperatorChar(s[0]) && !IsIdentifierStart(s[0]))
    ensures r == IdentifierToken(s)
  {
    var index := 0;
    while index < |s| && IsOperatorChar(s[index])
      invariant 0 <= index <= |s|
      invariant forall k :: 0 <= k < index ==> IsOperatorChar(s[k])
    {
      index := index + 1;
    }
    LeadingRunUnique(s, IsOperatorChar, index);
    if index > 0 {
      return Some(Leaf(Identifier, s[..index], index));
    }
    var m := NameLength(s);
    if m > 0 {
      return Some(Leaf(Identifier, s[..m], m));
    }
    return None;
  }

  // ---------------------------------------------------------------- keywords

  /** The reserved-keyword converters, tried on an identifier token. */
  function KeywordToken(t: Token): (r: Option<Token>)
    ensures r.Some? <==> t.original in {"true", "false", "null", "undefined"}
    ensures r.Some? ==> r.value == Leaf(r.value.kind, t.original, |t.original|)
    ensures r.Some? ==> r.value.kind == (if t.original == "null" then Null
                                        else if t.original == "undefined" then Undefined
                                        else Boolean)
  {
    if t.original == "true" then Some(Leaf(Boolean, "true", 4))
    else if t.original == "false" then Some(Leaf(Boolean, "false", 5))
    else if t.original == "null" then Some(Leaf(Null, "null", 4))
    else if t.original == "undefined" then Some(Leaf(Undefined, "undefined", 9))
    else None
  }
}
