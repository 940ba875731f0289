/** String helpers with the JavaScript meaning the web app relies on.
    Strings are sequences of Unicode scalar values; case mapping covers ASCII letters only. */
module Strings {

  /** The ECMAScript WhiteSpace and LineTerminator code points: what `trim()` removes and `\s` matches. */
  predicate IsSpace(c: char) {
    c == ' ' || c == '\t' || c == '\n' || c == '\r' || c == '\U{000B}' || c == '\U{000C}'
    || c == '\U{00A0}' || c == '\U{1680}' || ('\U{2000}' <= c <= '\U{200A}')
    || c == '\U{2028}' || c == '\U{2029}' || c == '\U{202F}' || c == '\U{205F}'
    || c == '\U{3000}' || c == '\U{FEFF}'
  }

  predicate IsDigit(c: char) { '0' <= c <= '9' }
  predicate IsUpper(c: char) { 'A' <= c <= 'Z' }
  predicate IsLowerLetter(c: char) { 'a' <= c <= 'z' }
  predicate IsAlnum(c: char) { IsDigit(c) || IsUpper(c) || IsLowerLetter(c) }

  function LowerChar(c: char): char {
    if IsUpper(c) then (c as int + 32) as char else c
  }

  function UpperChar(c: char): char {
    if IsLowerLetter(c) then (c as int - 32) as char else c
  }

  /** `toLowerCase()` restricted to ASCII letters. */
  function Lower(s: string): (r: string)
    ensures |r| == |s|
  {
    seq(|s|, i requires 0 <= i < |s| => LowerChar(s[i]))
  }

  /** `toUpperCase()` restricted to ASCII letters. */
  function Upper(s: string): (r: string)
    ensures |r| == |s|
  {
    seq(|s|, i requires 0 <= i < |s| => UpperChar(s[i]))
  }

  /** Lower-casing forgets any earlier case mapping. */
  lemma {:induction false} LowerOfUpper(s: string)
    ensures Lower(Upper(s)) == Lower(s)
    ensures Lower(Lower(s)) == Lower(s)
  {
    assert forall i :: 0 <= i < |s| ==> LowerChar(UpperChar(s[i])) == LowerChar(s[i]);
  }

  predicate IsPrefix(p: string, s: string) {
    |p| <= |s| && p == s[..|p|]
  }

  /** `s.includes(sub)`: `sub` occurs in `s` at some position. */
  predicate Contains(s: string, sub: string) {
    exists i | 0 <= i <= |s| - |sub| :: IsPrefix(sub, s[i..])
  }

  lemma {:induction false} ContainsEmpty(s: string)
    ensures Contains(s, "")
  {
    assert IsPrefix("", s[0..]);
  }

  lemma {:induction false} ContainsSelf(s: string)
    ensures Contains(s, s)
  {
    assert IsPrefix(s, s[0..]);
  }

  /** `trimStart()` */
  function TrimStart(s: string): (r: string)
    ensures |r| <= |s|
    ensures r == s[|s| - |r|..]
    ensures r == [] || !IsSpace(r[0])
  {
    if s != [] && IsSpace(s[0]) then TrimStart(s[1..]) else s
  }

  /** `trimEnd()` */
  function TrimEnd(s: string): (r: string)
    ensures |r| <= |s|
    ensures r == s[..|r|]
    ensures r == [] || !IsSpace(r[|r| - 1])
  {
    if s != [] && IsSpace(s[|s| - 1]) then TrimEnd(s[..|s| - 1]) else s
  }

  /** `trim()`: neither end of the result is white space. */
  function Trim(s: string): (r: string)
    ensures |r| <= |s|
    ensures r == [] || (!IsSpace(r[0]) && !IsSpace(r[|r| - 1]))
  {
    TrimEnd(TrimStart(s))
  }

  lemma TrimEndKeepsHead(s: string)
    requires s != [] && !IsSpace(s[0])
    ensures TrimEnd(s) != [] && TrimEnd(s)[0] == s[0]
  {
  }

  /** JavaScript `<` on strings: lexicographic order of the characters. JavaScript compares UTF-16
      code units, which orders characters above U+FFFF differently against U+E000-U+FFFF. */
  predicate StrLt(a: string, b: string) {
    if a == [] then b != []
    else if b == [] then false
    else if a[0] < b[0] then true
    else if a[0] == b[0] then StrLt(a[1..], b[1..])
    else false
  }

  lemma {:induction false} StrLtIrreflexive(a: string)
    ensures !StrLt(a, a)
  {
    if a != [] { StrLtIrreflexive(a[1..]); }
  }

  lemma {:induction false} StrLtTransitive(a: string, b: string, c: string)
    requires StrLt(a, b) && StrLt(b, c)
    ensures StrLt(a, c)
  {
    if a != [] && b != [] && c != [] && a[0] == b[0] && b[0] == c[0] {
      StrLtTransitive(a[1..], b[1..], c[1..]);
    }
  }

  lemma {:induction false} StrLtTotal(a: string, b: string)
    requires a != b
    ensures StrLt(a, b) || StrLt(b, a)
  {
    if a != [] && b != [] && a[0] == b[0] {
      StrLtTotal(a[1..], b[1..]);
    }
  }

  function DigitChar(d: nat): char
    requires d < 10
  {
    ('0' as int + d) as char
  }

  /** Decimal rendering of a natural number, as `String(n)` / template literals do. */
  function NatToString(n: nat): (r: string)
    ensures |r| >= 1
    ensures forall i :: 0 <= i < |r| ==> IsDigit(r[i])
    decreases n
  {
    if n < 10 then [DigitChar(n)] else NatToString(n / 10) + [DigitChar(n % 10)]
  }

  /** Decimal rendering of an integer, with a leading '-' when negative. */
  function IntToString(n: int): string {
    if n < 0 then "-" + NatToString(-n) else NatToString(n)
  }

  function Pow10(f: nat): (r: nat)
    ensures r >= 1
  {
    if f == 0 then 1 else 10 * Pow10(f - 1)
  }

  /** `s` left-padded with '0' to at least `f` characters. */
  function ZeroPad(s: string, f: nat): (r: string)
    ensures |r| == if |s| >= f then |s| else f
    decreases f - |s|
  {
    if |s| >= f then s else ZeroPad("0" + s, f)
  }

  lemma {:induction false} NatToStringWidth(n: nat, f: nat)
    requires f >= 1 && n < Pow10(f)
    ensures |NatToString(n)| <= f
    decreases f
  {
    if n >= 10 {
      NatToStringWidth(n / 10, f - 1);
    }
  }

  lemma {:induction false} DivModBounds(n: nat, d: nat)
    requires d > 0
    ensures n / d >= 0 && 0 <= n % d < d
  {
  }

  /** The rendering of `n / 10^f` with exactly `f` decimals. */
  function FixedDigits(n: nat, f: nat): (r: string)
    ensures f > 0 ==> |r| >= f + 2 && r[|r| - f - 1] == '.'
    ensures |r| >= 1 && r[0] != '-'
  {
    var p := Pow10(f);
    DivModBounds(n, p);
    var whole := NatToString(n / p);
    if f == 0 then whole
    else
      var rest: nat := n % p;
      var fraction := NatToString(rest);
      NatToStringWidth(rest, f);
      FixedShape(whole, ZeroPad(fraction, f), f);
      whole + "." + ZeroPad(fraction, f)
  }

  lemma {:induction false} FixedShape(whole: string, fraction: string, f: nat)
    requires |whole| >= 1 && IsDigit(whole[0]) && |fraction| == f
    ensures var r := whole + "." + fraction; |r| >= f + 2 && r[|r| - f - 1] == '.' && r[0] != '-'
  {
    var r := whole + "." + fraction;
    assert r[|whole|] == '.';
    assert r[0] == whole[0];
  }

  /** `x.toFixed(f)` on the exact value `x`: rounded to `f` decimals, halves away from zero, with a
      leading '-' for a negative `x` (even when it rounds to zero, as ECMAScript does). */
  function ToFixed(x: real, f: nat): (r: string)
    ensures f > 0 ==> |r| >= f + 2 && r[|r| - f - 1] == '.'
    ensures |r| >= 1 && (r[0] == '-' <==> x < 0.0)
  {
    var ax := if x < 0.0 then -x else x;
    var n := (ax * Pow10(f) as real + 0.5).Floor;
    assert n >= 0;
    var digits := FixedDigits(n, f);
    if x < 0.0 then "-" + digits else digits
  }
}
