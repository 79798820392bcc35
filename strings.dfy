/**
 * The JavaScript string primitives the application relies on, over Unicode
 * scalar values: the `\s` and `\w` character classes of a regular expression
 * without the `u` flag, `toLowerCase` / `toUpperCase` restricted to the ASCII
 * letters, `trim`, and the decimal rendering of a non-negative integer in a
 * template literal.
 */
module Strings {

  /** `\s`: the WhiteSpace and LineTerminator code points of ECMAScript. */
  predicate IsSpace(c: char)
  {
    || c == ' ' || c == '\t' || c == '\n' || c == '\U{000B}' || c == '\U{000C}' || c == '\r'
    || c == '\U{00A0}' || c == '\U{1680}' || ('\U{2000}' <= c <= '\U{200A}')
    || c == '\U{2028}' || c == '\U{2029}' || c == '\U{202F}' || c == '\U{205F}'
    || c == '\U{3000}' || c == '\U{FEFF}'
  }

  /** `\w` without the `u` flag: `[A-Za-z0-9_]`. */
  predicate IsWordChar(c: char)
  {
    ('a' <= c <= 'z') || ('A' <= c <= 'Z') || ('0' <= c <= '9') || c == '_'
  }

  predicate IsUpper(c: char)
  {
    'A' <= c <= 'Z'
  }

  function LowerChar(c: char): char
  {
    if IsUpper(c) then (c as int + 32) as char else c
  }

  function UpperChar(c: char): char
  {
    if 'a' <= c <= 'z' then (c as int - 32) as char else c
  }

  /** `s.toLowerCase()` for the ASCII letters; every other character is kept. */
  function ToLower(s: string): (r: string)
    ensures |r| == |s|
    ensures forall i :: 0 <= i < |s| ==> r[i] == LowerChar(s[i])
  {
    seq(|s|, i requires 0 <= i < |s| => LowerChar(s[i]))
  }

  /** `s.toUpperCase()` for the ASCII letters; every other character is kept. */
  function ToUpper(s: string): (r: string)
    ensures |r| == |s|
    ensures forall i :: 0 <= i < |s| ==> r[i] == UpperChar(s[i])
  {
    seq(|s|, i requires 0 <= i < |s| => UpperChar(s[i]))
  }

  /** Lower-casing leaves no upper-case ASCII letter behind. */
  lemma ToLowerHasNoUpper(s: string, c: char)
    requires c in ToLower(s)
    ensures !IsUpper(c)
  {
    var i :| 0 <= i < |ToLower(s)| && ToLower(s)[i] == c;
  }

  lemma ToLowerConcat(a: string, b: string)
    ensures ToLower(a + b) == ToLower(a) + ToLower(b)
  {
  }

  /** Lower-casing forgets what upper-casing did. */
  lemma {:induction false} ToLowerAfterToUpper(s: string)
    ensures ToLower(ToUpper(s)) == ToLower(s)
  {
    forall i | 0 <= i < |s| ensures ToLower(ToUpper(s))[i] == ToLower(s)[i] {
      var c := s[i];
      if 'a' <= c <= 'z' {
        assert UpperChar(c) as int == c as int - 32;
      }
    }
  }

  /** `s.trimStart()`. */
  function TrimStart(s: string): (r: string)
    ensures |r| <= |s| && r == s[|s| - |r|..]
    ensures r != "" ==> !IsSpace(r[0])
    ensures forall i :: 0 <= i < |s| - |r| ==> IsSpace(s[i])
  {
    if s != "" && IsSpace(s[0]) then
      var r := TrimStart(s[1..]);
      assert s[1..][|s| - 1 - |r|..] == s[|s| - |r|..];
      assert forall i :: 1 <= i < |s| - |r| ==> s[i] == s[1..][i - 1];
      r
    else s
  }

  /** `s.trimEnd()`. */
  function TrimEnd(s: string): (r: string)
    ensures |r| <= |s| && r == s[..|r|]
    ensures r != "" ==> !IsSpace(r[|r| - 1])
    ensures forall i :: |r| <= i < |s| ==> IsSpace(s[i])
  {
    if s != "" && IsSpace(s[|s| - 1]) then
      var r := TrimEnd(s[..|s| - 1]);
      assert s[..|s| - 1][..|r|] == s[..|r|];
      r
    else s
  }

  /** Every character of `s` is white space; the empty string is blank. */
  predicate IsBlank(s: string)
  {
    forall i :: 0 <= i < |s| ==> IsSpace(s[i])
  }

  /** `s.trim()`: `s` without its leading and trailing white space. */
  function Trim(s: string): (r: string)
    ensures r == "" <==> IsBlank(s)
    ensures r != "" ==> !IsSpace(r[0]) && !IsSpace(r[|r| - 1])
  {
    var r := TrimEnd(TrimStart(s));
    TrimIsEmptyWhenBlank(s);
    r
  }

  lemma TrimIsEmptyWhenBlank(s: string)
    ensures TrimEnd(TrimStart(s)) == "" <==> IsBlank(s)
    ensures TrimEnd(TrimStart(s)) != "" ==> TrimEnd(TrimStart(s))[0] == TrimStart(s)[0]
  {
    var t := TrimStart(s);
    var k := |s| - |t|;
    if t != "" {
      assert t[0] == s[k];
    }
  }

  function DigitChar(d: nat): (c: char)
    requires d < 10
    ensures '0' <= c <= '9'
  {
    ('0' as int + d) as char
  }

  /** The decimal numeral of `n`, as `${n}` renders an integer. */
  function Decimal(n: nat): (r: string)
    ensures r != ""
    ensures forall i :: 0 <= i < |r| ==> '0' <= r[i] <= '9'
    ensures |r| > 1 ==> r[0] != '0'
  {
    if n < 10 then [DigitChar(n)] else Decimal(n / 10) + [DigitChar(n % 10)]
  }

  predicate IsNumeral(s: string)
  {
    forall i :: 0 <= i < |s| ==> '0' <= s[i] <= '9'
  }

  /** The number a string of decimal digits denotes, most significant digit first. */
  function NumeralValue(s: string): nat
    requires IsNumeral(s)
  {
    if s == [] then 0 else NumeralValue(s[..|s| - 1]) * 10 + (s[|s| - 1] as int - '0' as int)
  }

  /** Reading back the numeral of `n` gives `n`. */
  lemma {:induction false} DecimalValue(n: nat)
    ensures IsNumeral(Decimal(n)) && NumeralValue(Decimal(n)) == n
  {
    if n >= 10 {
      DecimalValue(n / 10);
      var d := Decimal(n);
      assert d[..|d| - 1] == Decimal(n / 10);
    }
  }

  /** Different numbers have different numerals. */
  lemma DecimalInjective(a: nat, b: nat)
    requires Decimal(a) == Decimal(b)
    ensures a == b
  {
    DecimalValue(a);
    DecimalValue(b);
  }
}
