/** The part of the host's number semantics that gel's core relies on:
    number literals, array-index keys, and numbers written as text. Values
    are integers, NaN and the two infinities; fractions and exponents are
    not modelled. */
module Numbers {
  import opened Errors

  datatype Number = Int(i: int) | NaN | Infinity(negative: bool)

  predicate IsDigit(c: char) {
    '0' <= c <= '9'
  }

  function DigitChar(d: nat): char
    requires d < 10
  {
    "0123456789"[d]
  }

  /** `n` in decimal, without leading zeros. */
  function Decimal(n: nat): (s: string)
    ensures 1 <= |s|
    ensures forall k :: 0 <= k < |s| ==> IsDigit(s[k])
    ensures |s| > 1 ==> s[0] != '0'
    ensures s[0] == '0' ==> n == 0
  {
    if n < 10 then [DigitChar(n)] else Decimal(n / 10) + [DigitChar(n % 10)]
  }

  /** The value of a run of decimal digits. */
  function DigitsValue(s: string): nat
    requires forall k :: 0 <= k < |s| ==> IsDigit(s[k])
  {
    if s == [] then 0
    else
      assert IsDigit(s[|s| - 1]);
      DigitsValue(s[..|s| - 1]) * 10 + (s[|s| - 1] as int - '0' as int)
  }

  /** Writing a number in decimal and reading it back gives the number. */
  lemma {:induction false} DecimalValue(n: nat)
    ensures DigitsValue(Decimal(n)) == n
  {
    if n >= 10 {
      DecimalValue(n / 10);
      var s := Decimal(n);
      assert s[..|s| - 1] == Decimal(n / 10);
    }
  }

  /** Reading a canonical digit string and writing the value back gives
      the string. */
  lemma {:induction false} ValueDecimal(s: string)
    requires 1 <= |s| && (forall k :: 0 <= k < |s| ==> IsDigit(s[k])) && (|s| > 1 ==> s[0] != '0')
    ensures Decimal(DigitsValue(s)) == s
  {
    if |s| > 1 {
      var init := s[..|s| - 1];
      ValueDecimal(init);
      LeadingDigitBound(init);
      assert DigitsValue(s) / 10 == DigitsValue(init);
      assert s == init + [s[|s| - 1]];
    }
  }

  /** A canonical digit string of two or more digits is at least ten. */
  lemma {:induction false} LeadingDigitBound(s: string)
    requires 1 <= |s| && (forall k :: 0 <= k < |s| ==> IsDigit(s[k])) && s[0] != '0'
    ensures DigitsValue(s) >= 1
  {
    if |s| > 1 {
      LeadingDigitBound(s[..|s| - 1]);
    }
  }

  /** One more than the largest array index of the host (2^32 - 2). */
  const IndexBound: nat := 0xFFFF_FFFF

  /** The array index a property key names, if any: a canonical decimal
      below 2^32 - 1. */
  function ArrayIndex(key: string): (r: Option<nat>)
    ensures r.Some? ==> r.value < IndexBound
  {
    if 1 <= |key| && (forall k :: 0 <= k < |key| ==> IsDigit(key[k])) && (|key| > 1 ==> key[0] != '0')
       && DigitsValue(key) < IndexBound
    then Some(DigitsValue(key))
    else None
  }

  /** Index keys and decimals are the same thing, both ways round. */
  lemma {:induction false} ArrayIndexDecimal(key: string, n: nat)
    requires n < IndexBound
    ensures ArrayIndex(key) == Some(n) <==> key == Decimal(n)
  {
    DecimalValue(n);
    if ArrayIndex(key) == Some(n) {
      ValueDecimal(key);
    }
  }

  /** A number as the host writes it (`String(n)`); integers of 10^21 or
      more switch to exponent notation, which is not modelled. */
  function NumberString(n: Number): Result<string> {
    match n
    case NaN => Ok("NaN")
    case Infinity(negative) => Ok(if negative then "-Infinity" else "Infinity")
    case Int(i) =>
      if i <= -1_000_000_000_000_000_000_000 || 1_000_000_000_000_000_000_000 <= i then Err(Unsupported)
      else if i < 0 then Ok("-" + Decimal(-i))
      else Ok(Decimal(i))
  }

  /** The length of the longest run of digits at the start of `s`. */
  function DigitRun(s: string): (n: nat)
    ensures n <= |s|
    ensures forall k :: 0 <= k < n ==> IsDigit(s[k])
    ensures n < |s| ==> !IsDigit(s[n])
  {
    if s == [] || !IsDigit(s[0]) then 0 else 1 + DigitRun(s[1..])
  }

  /** `parseFloat` of a number token's text. The special words are exact;
      otherwise an optional minus and a run of digits give an integer, and
      a fraction or exponent after them is Unsupported. */
  function NumberValue(text: string): (r: Result<Number>)
    ensures r.Ok? && r.value.Int? && text != [] && text[0] != '-' ==> r.value.i >= 0
  {
    if text == "NaN" || text == "-NaN" then Ok(NaN)
    else if text == "Infinity" then Ok(Infinity(false))
    else if text == "-Infinity" then Ok(Infinity(true))
    else
      var negative := |text| > 0 && text[0] == '-';
      var body := if negative then text[1..] else text;
      var n := DigitRun(body);
      if n == 0 || (n < |body| && body[n] in ".eE") then Err(Unsupported)
      else
        var v := DigitsValue(body[..n]);
        Ok(Int(if negative then -(v as int) else v))
  }

  /** Reading back a decimal gives its value, and a minus sign negates it. */
  lemma {:induction false} NumberValueDecimal(n: nat)
    ensures NumberValue(Decimal(n)) == Ok(Int(n))
    ensures n > 0 ==> NumberValue("-" + Decimal(n)) == Ok(Int(-(n as int)))
  {
    DecimalValue(n);
    NumberValueDigits(Decimal(n));
    NumberValueNegated(Decimal(n));
  }

  /** A run of digits reads as its value. */
  lemma {:induction false} NumberValueDigits(s: string)
    requires s != [] && forall k :: 0 <= k < |s| ==> IsDigit(s[k])
    ensures NumberValue(s) == Ok(Int(DigitsValue(s)))
  {
    assert s != "NaN" && s != "Infinity" && s != "-NaN" && s != "-Infinity" by { assert IsDigit(s[0]); }
    DigitRunAll(s);
    assert s[..|s|] == s;
  }

  /** A minus sign before a run of digits negates its value. */
  lemma {:induction false} NumberValueNegated(s: string)
    requires s != [] && forall k :: 0 <= k < |s| ==> IsDigit(s[k])
    ensures NumberValue("-" + s) == Ok(Int(-(DigitsValue(s) as int)))
  {
    var m := "-" + s;
    assert m != "NaN" && m != "Infinity" by { assert m[0] == '-'; }
    assert m != "-NaN" && m != "-Infinity" by { assert m[1] == s[0] && IsDigit(s[0]); }
    assert m[1..] == s;
    DigitRunAll(s);
    assert s[..|s|] == s;
  }

  lemma {:induction false} DigitRunAll(s: string)
    requires forall k :: 0 <= k < |s| ==> IsDigit(s[k])
    ensures DigitRun(s) == |s|
  {
    if s != [] {
      DigitRunAll(s[1..]);
    }
  }

  /** `ToIntegerOrInfinity`, with the infinities as None. */
  function IntegerPart(n: Number): Option<int> {
    match n
    case Int(i) => Some(i)
    case NaN => Some(0)
    case Infinity(_) => None
  }

  /** A relative position (`slice`) resolved against a length: negative
      counts from the end, and the result is clamped to `0..len`. */
  function RelativeIndex(n: Number, len: nat): (r: nat)
    ensures r <= len
    ensures n.Int? && 0 <= n.i <= len ==> r == n.i
    ensures n.Int? && -(len as int) <= n.i < 0 ==> r == len + n.i
  {
    match n
    case Infinity(negative) => if negative then 0 else len
    case NaN => 0
    case Int(i) => if i < 0 then (if len + i < 0 then 0 else len + i) else (if i > len then len else i)
  }
}
