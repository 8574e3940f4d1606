/**
 * The JavaScript built-ins the client's deterministic logic relies on, restricted to
 * the inputs it gives them: `Number.prototype.toString()` of a non-negative integer,
 * `String.prototype.padStart(2, '0')`, the global `parseInt` without a radix,
 * `String.prototype.split(',')` and `Math.ceil` of an integer quotient.
 */
module JsBuiltins {

  // ---------------------------------------------------------------------------
  // Digits and Number.prototype.toString()
  // ---------------------------------------------------------------------------

  predicate IsDecimalDigit(c: char) {
    '0' <= c <= '9'
  }

  /** The numeric value of an ASCII letter or digit ('a' and 'A' are 10, ... 'z' and 'Z' are 35). */
  function CharValue(c: char): nat {
    if '0' <= c <= '9' then c as int - '0' as int
    else if 'a' <= c <= 'z' then c as int - 'a' as int + 10
    else if 'A' <= c <= 'Z' then c as int - 'A' as int + 10
    else 36
  }

  /** A digit of the given radix (2..36), as `parseInt` accepts it. */
  predicate IsDigitIn(c: char, radix: nat) {
    CharValue(c) < radix
  }

  function DigitChar(d: nat): (c: char)
    requires d < 10
    ensures IsDecimalDigit(c) && CharValue(c) == d
  {
    "0123456789"[d]
  }

  /** The value of a digit string, most significant digit first. */
  function DigitsValue(s: string, radix: nat): nat {
    if s == [] then 0 else DigitsValue(s[..|s| - 1], radix) * radix + CharValue(s[|s| - 1])
  }

  /** `n.toString()` for a non-negative integer `n`: its shortest decimal numeral, with no leading zero. */
  function DecimalString(n: nat): (s: string)
    ensures 1 <= |s|
    ensures forall i :: 0 <= i < |s| ==> IsDecimalDigit(s[i])
    ensures n < 10 <==> |s| == 1
    ensures n < 100 <==> |s| <= 2
    ensures |s| >= 2 ==> s[0] != '0'
  {
    if n < 10 then [DigitChar(n)] else DecimalString(n / 10) + [DigitChar(n % 10)]
  }

  /** Reading the numeral back gives the number: `DecimalString` is a faithful encoding. */
  lemma {:induction false} DecimalStringValue(n: nat)
    ensures DigitsValue(DecimalString(n), 10) == n
  {
    if n >= 10 {
      var s := DecimalString(n);
      assert s[..|s| - 1] == DecimalString(n / 10);
      DecimalStringValue(n / 10);
    }
  }

  /** A leading '0' does not change the value of a decimal numeral. */
  lemma {:induction false} LeadingZeroValue(s: string)
    ensures DigitsValue("0" + s, 10) == DigitsValue(s, 10)
  {
    if s != [] {
      assert ("0" + s)[..|"0" + s| - 1] == "0" + s[..|s| - 1];
      LeadingZeroValue(s[..|s| - 1]);
    }
  }

  // ---------------------------------------------------------------------------
  // String.prototype.padStart(2, '0')
  // ---------------------------------------------------------------------------

  function PadStart2(s: string): (r: string)
    ensures |r| == if |s| >= 2 then |s| else 2
    ensures |s| >= 2 ==> r == s
    ensures |s| < 2 ==> r[2 - |s|..] == s && forall i :: 0 <= i < 2 - |s| ==> r[i] == '0'
  {
    if |s| == 0 then "00" else if |s| == 1 then "0" + s else s
  }

  /** `n.toString().padStart(2, '0')` is a decimal numeral of `n`, exactly two characters when n < 100. */
  lemma PaddedDecimal(n: nat)
    ensures forall i :: 0 <= i < |PadStart2(DecimalString(n))| ==> IsDecimalDigit(PadStart2(DecimalString(n))[i])
    ensures DigitsValue(PadStart2(DecimalString(n)), 10) == n
    ensures n < 100 ==> |PadStart2(DecimalString(n))| == 2
  {
    DecimalStringValue(n);
    if n < 10 {
      LeadingZeroValue(DecimalString(n));
    }
  }

  // ---------------------------------------------------------------------------
  // parseInt(text) with no radix argument
  // ---------------------------------------------------------------------------

  /** The result of `parseInt`: NaN, or an integer. */
  datatype ParsedInt = NaN | Int(value: int)

  /** StrWhiteSpaceChar: the white space and line terminators `parseInt` skips. */
  predicate IsJsWhiteSpace(c: char) {
    c == '\t' || c == '\n' || c == '\U{000B}' || c == '\U{000C}' || c == '\r' || c == ' ' ||
    c == '\U{00A0}' || c == '\U{1680}' || ('\U{2000}' <= c <= '\U{200A}') ||
    c == '\U{2028}' || c == '\U{2029}' || c == '\U{202F}' || c == '\U{205F}' || c == '\U{3000}' ||
    c == '\U{FEFF}'
  }

  /** The text after its leading white space: the skipped prefix is all white space and the rest does not start with any. */
  function TrimStart(s: string): (r: string)
    ensures |r| <= |s| && r == s[|s| - |r|..]
    ensures r != [] ==> !IsJsWhiteSpace(r[0])
    ensures forall i :: 0 <= i < |s| - |r| ==> IsJsWhiteSpace(s[i])
  {
    if s != [] && IsJsWhiteSpace(s[0]) then TrimStart(s[1..]) else s
  }

  /** The length of the longest prefix of `s` made of digits of `radix`. */
  function DigitPrefixLength(s: string, radix: nat): (k: nat)
    ensures k <= |s|
    ensures forall i :: 0 <= i < k ==> IsDigitIn(s[i], radix)
    ensures k < |s| ==> !IsDigitIn(s[k], radix)
  {
    if s == [] || !IsDigitIn(s[0], radix) then 0 else 1 + DigitPrefixLength(s[1..], radix)
  }

  /**
   * `parseInt(text)`: skip leading white space, take an optional sign, then read
   * the magnitude.
   */
  function ParseInt(text: string): ParsedInt {
    var t := TrimStart(text);
    if t != [] && t[0] == '-' then Negate(ParseMagnitude(t[1..]))
    else if t != [] && t[0] == '+' then ParseMagnitude(t[1..])
    else ParseMagnitude(t)
  }

  function Negate(p: ParsedInt): ParsedInt {
    match p
    case NaN => NaN
    case Int(v) => Int(-v)
  }

  /** After the sign: radix 16 behind a "0x"/"0X" prefix, radix 10 otherwise. */
  function ParseMagnitude(u: string): ParsedInt {
    if |u| >= 2 && u[0] == '0' && (u[1] == 'x' || u[1] == 'X') then DigitRun(u[2..], 16)
    else DigitRun(u, 10)
  }

  /** The value of the longest run of digits at the start of `w`; no digit at all gives NaN. */
  function DigitRun(w: string, radix: nat): ParsedInt {
    var k := DigitPrefixLength(w, radix);
    if k == 0 then NaN else Int(DigitsValue(w[..k], radix))
  }

  /** `parseInt` reads back what `toString` writes: `parseInt(String(n)) === n`. */
  lemma ParseIntOfDecimalString(n: nat)
    ensures ParseInt(DecimalString(n)) == Int(n)
  {
    ParseIntOfNumeral(DecimalString(n));
    DecimalStringValue(n);
  }

  /** A decimal numeral without a sign, white space or "0x" prefix parses to its value. */
  lemma ParseIntOfNumeral(s: string)
    requires 1 <= |s| && forall i :: 0 <= i < |s| ==> IsDecimalDigit(s[i])
    ensures ParseInt(s) == Int(DigitsValue(s, 10))
  {
    TrimStartOfDigit(s);
    assert ParseInt(s) == ParseMagnitude(s);
    MagnitudeOfNumeral(s);
  }

  lemma TrimStartOfDigit(s: string)
    requires s != [] && IsDecimalDigit(s[0])
    ensures TrimStart(s) == s && s[0] != '-' && s[0] != '+'
  {
    DigitIsNotWhiteSpace(s[0]);
  }

  lemma MagnitudeOfNumeral(s: string)
    requires 1 <= |s| && forall i :: 0 <= i < |s| ==> IsDecimalDigit(s[i])
    ensures ParseMagnitude(s) == Int(DigitsValue(s, 10))
  {
    assert |s| >= 2 ==> IsDecimalDigit(s[1]);
    assert ParseMagnitude(s) == DigitRun(s, 10);
    DigitsOnlyPrefix(s);
    assert s[..|s|] == s;
  }

  lemma DigitIsNotWhiteSpace(c: char)
    requires IsDecimalDigit(c)
    ensures !IsJsWhiteSpace(c)
  {
  }

  lemma {:induction false} DigitsOnlyPrefix(s: string)
    requires forall i :: 0 <= i < |s| ==> IsDecimalDigit(s[i])
    ensures DigitPrefixLength(s, 10) == |s|
  {
    if s != [] {
      DigitsOnlyPrefix(s[1..]);
    }
  }

  // ---------------------------------------------------------------------------
  // String.prototype.split(sep) for a one-character separator, and its inverse join
  // ---------------------------------------------------------------------------

  /** `s.split(sep)`: the pieces between separators; the empty string splits into [""]. */
  function Split(s: string, sep: char): (parts: seq<string>)
    ensures |parts| >= 1
  {
    if s == [] then [[]]
    else
      var rest := Split(s[1..], sep);
      if s[0] == sep then [[]] + rest else [[s[0]] + rest[0]] + rest[1..]
  }

  /** `parts.join(sep)`. */
  function Join(parts: seq<string>, sep: char): string {
    if |parts| == 0 then []
    else if |parts| == 1 then parts[0]
    else parts[0] + [sep] + Join(parts[1..], sep)
  }

  function Occurrences(s: string, c: char): nat {
    if s == [] then 0 else (if s[0] == c then 1 else 0) + Occurrences(s[1..], c)
  }

  /** Joining the pieces with the separator gives back the original text. */
  lemma {:induction false} JoinSplit(s: string, sep: char)
    ensures Join(Split(s, sep), sep) == s
  {
    if s != [] {
      var rest := Split(s[1..], sep);
      JoinSplit(s[1..], sep);
      if s[0] == sep {
        assert Split(s, sep) == [[]] + rest;
      } else {
        var parts := [[s[0]] + rest[0]] + rest[1..];
        assert Split(s, sep) == parts;
        if |rest| == 1 {
          assert Join(parts, sep) == [s[0]] + rest[0];
        } else {
          assert parts[1..] == rest[1..];
          assert Join(rest, sep) == rest[0] + [sep] + Join(rest[1..], sep);
        }
      }
    }
  }

  /** No piece contains the separator, and there is one more piece than separators. */
  lemma {:induction false} SplitPieces(s: string, sep: char)
    ensures |Split(s, sep)| == Occurrences(s, sep) + 1
    ensures forall i :: 0 <= i < |Split(s, sep)| ==> sep !in Split(s, sep)[i]
  {
    if s != [] {
      SplitPieces(s[1..], sep);
    }
  }

  // ---------------------------------------------------------------------------
  // Math.ceil(a / b) for integers
  // ---------------------------------------------------------------------------

  /** `Math.ceil(a / b)` for a non-negative integer `a` and a positive integer `b`. */
  function CeilDiv(a: nat, b: nat): (q: nat)
    requires b > 0
    ensures q * b >= a
    ensures q == 0 || (q - 1) * b < a
  {
    (a + b - 1) / b
  }
}
