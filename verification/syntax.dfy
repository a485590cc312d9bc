/** Tokens, which the parser later turns into tree nodes in place. */
module Syntax {
  import opened Errors

  /** The converter a token came from; it selects the token's parse and
      evaluate behaviour. */
  datatype Kind =
    | Parenthesis      // `(` or `)`: a call once parsed
    | FunctionBraces   // `{` or `}`: a function literal once parsed
    | Period           // `.`: member access once parsed
    | Delimiter        // a run of whitespace and commas
    | DoubleQuoted     // "..."
    | SingleQuoted     // '...'
    | Number
    | Identifier       // a name or a run of operator characters
    | Boolean
    | Null
    | Undefined

  /** A token. `length` counts the characters consumed from the expression,
      which exceeds `|original|` when a string collapsed escapes. The parser
      fills `children` (nests) and `target`/`member` (periods). */
  datatype Token = Token(
    kind: Kind,
    original: string,
    length: nat,
    children: seq<Token>,
    target: Option<Token>,
    member: Option<Token>)

  /** A token as a converter creates it. */
  function Leaf(kind: Kind, original: string, length: nat): (t: Token)
    ensures t.kind == kind && t.original == original && t.length == length
    ensures IsRaw(t)
  {
    Token(kind, original, length, [], None, None)
  }

  /** Not yet restructured by the parser. */
  predicate IsRaw(t: Token) {
    t.children == [] && t.target.None? && t.member.None?
  }

  predicate AllRaw(ts: seq<Token>) {
    forall k :: 0 <= k < |ts| ==> IsRaw(ts[k])
  }

  predicate IsStringKind(k: Kind) {
    k == DoubleQuoted || k == SingleQuoted
  }

  /** `s` with a backslash put back before every occurrence of `term`. */
  function Restore(s: string, term: char): (r: string)
    ensures |r| == |s| + Occurrences(s, term)
  {
    if s == [] then []
    else (if s[0] == term then ['\\', term] else [s[0]]) + Restore(s[1..], term)
  }

  function Occurrences(s: string, c: char): nat {
    if s == [] then 0 else (if s[0] == c then 1 else 0) + Occurrences(s[1..], c)
  }

  /** The text a token was made from: its original, with the collapsed
      escapes of a string put back. */
  function Source(t: Token): string {
    if IsStringKind(t.kind) && |t.original| >= 2 then
      var o := t.original;
      [o[0]] + Restore(o[1..|o| - 1], o[0]) + [o[|o| - 1]]
    else
      t.original
  }

  function Sources(ts: seq<Token>): string {
    if ts == [] then [] else Source(ts[0]) + Sources(ts[1..])
  }

  function TotalLength(ts: seq<Token>): nat {
    if ts == [] then 0 else ts[0].length + TotalLength(ts[1..])
  }
}
