/**
 * The few JavaScript string and number primitives the core relies on:
 * `parseInt(s, 10)`, `String(n)`, ASCII digit runs, `toLowerCase` and the
 * truthiness of optional strings.
 */
module JsText {
  import opened Wrappers

  /** A number as `parseInt` returns it: an integer or NaN. */
  datatype JsInt = NaN | Int(value: int)

  predicate IsDigit(c: char)
  {
    '0' <= c <= '9'
  }

  predicate AllDigits(s: string)
  {
    forall i :: 0 <= i < |s| ==> IsDigit(s[i])
  }

  function DigitValue(c: char): (d: nat)
    requires IsDigit(c)
    ensures d < 10
  {
    (c as int) - ('0' as int)
  }

  function DigitChar(d: nat): (c: char)
    requires d < 10
    ensures IsDigit(c) && DigitValue(c) == d
  {
    (('0' as int) + d) as char
  }

  /** The value of a decimal digit string, most significant digit first. */
  function DigitsValue(s: string): nat
    requires AllDigits(s)
  {
    if s == [] then 0 else DigitsValue(s[..|s| - 1]) * 10 + DigitValue(s[|s| - 1])
  }

  /** The number of ASCII digits at the start of `s`: what a greedy `\d+` or `parseInt` consumes. */
  function LeadingDigits(s: string): (n: nat)
    ensures n <= |s|
    ensures AllDigits(s[..n])
    ensures n < |s| ==> !IsDigit(s[n])
  {
    if s == [] || !IsDigit(s[0]) then 0
    else
      var n := 1 + LeadingDigits(s[1..]);
      assert s[..n] == [s[0]] + s[1..][..n - 1];
      n
  }

  /** `String(n)` for a natural number: its canonical decimal spelling. */
  function NatToString(n: nat): (s: string)
    ensures |s| > 0 && AllDigits(s)
    ensures DigitsValue(s) == n
  {
    if n < 10 then [DigitChar(n)]
    else
      var s := NatToString(n / 10) + [DigitChar(n % 10)];
      assert s[..|s| - 1] == NatToString(n / 10);
      s
  }

  /** `String(i)` for an integer. */
  function IntToString(i: int): (s: string)
    ensures |s| > 0
  {
    if i < 0 then "-" + NatToString(-i) else NatToString(i)
  }

  /**
   * ECMAScript's StrWhiteSpaceChar: the white space and line terminator code
   * points that `parseInt` skips before the number.
   */
  predicate IsJsWhitespace(c: char)
  {
    || c == '\t' || c == '\n' || c == '\U{000B}' || c == '\U{000C}' || c == '\r'
    || c == ' ' || c == '\U{00A0}' || c == '\U{1680}' || ('\U{2000}' <= c <= '\U{200A}')
    || c == '\U{2028}' || c == '\U{2029}' || c == '\U{202F}' || c == '\U{205F}'
    || c == '\U{3000}' || c == '\U{FEFF}'
  }

  /** The number of white-space characters at the start of `s`. */
  function LeadingSpace(s: string): (n: nat)
    ensures n <= |s|
    ensures forall i :: 0 <= i < n ==> IsJsWhitespace(s[i])
    ensures n < |s| ==> !IsJsWhitespace(s[n])
  {
    if s == [] || !IsJsWhitespace(s[0]) then 0 else 1 + LeadingSpace(s[1..])
  }

  /** What `parseInt` reads after the white space: the text behind one optional sign. */
  function Unsigned(t: string): string
  {
    if |t| > 0 && (t[0] == '-' || t[0] == '+') then t[1..] else t
  }

  /**
   * `parseInt(s, 10)`: skip leading white space, read one optional sign, then
   * the longest run of decimal digits; NaN when that run is empty. Whatever
   * follows the digits is ignored.
   */
  function ParseInt(s: string): JsInt
  {
    var t := s[LeadingSpace(s)..];
    var u := Unsigned(t);
    var n := LeadingDigits(u);
    if n == 0 then NaN
    else if |t| > 0 && t[0] == '-' then Int(0 - DigitsValue(u[..n]))
    else Int(DigitsValue(u[..n]))
  }

  /** A suffix that cannot extend a run of digits. */
  predicate StopsDigits(rest: string)
  {
    rest == [] || !IsDigit(rest[0])
  }

  lemma {:induction false} LeadingDigitsOfConcat(d: string, rest: string)
    requires AllDigits(d) && StopsDigits(rest)
    ensures LeadingDigits(d + rest) == |d|
    ensures (d + rest)[..|d|] == d
  {
    if d != [] {
      assert (d + rest)[1..] == d[1..] + rest;
      LeadingDigitsOfConcat(d[1..], rest);
    }
  }

  /** `parseInt` reads back `String(i)`, whatever non-digit text follows it. */
  lemma ParseIntOfIntToString(i: int, rest: string)
    requires StopsDigits(rest)
    ensures ParseInt(IntToString(i) + rest) == Int(i)
  {
    var s := IntToString(i) + rest;
    var d := if i < 0 then NatToString(-i) else NatToString(i);
    assert IsDigit(d[0]);
    if i < 0 {
      assert s == "-" + (d + rest);
      assert s[0] == '-';
    } else {
      assert s == d + rest;
      assert s[0] == d[0];
    }
    assert LeadingSpace(s) == 0;
    assert s[LeadingSpace(s)..] == s;
    assert Unsigned(s) == d + rest;
    LeadingDigitsOfConcat(d, rest);
  }

  /** `parseInt` is NaN exactly when no digit follows the white space and the optional sign. */
  lemma ParseIntNaN(s: string)
    ensures ParseInt(s) == NaN <==> StopsDigits(Unsigned(s[LeadingSpace(s)..]))
  {
  }

  function ToLowerChar(c: char): (l: char)
    ensures 'A' <= c <= 'Z' ==> 'a' <= l <= 'z'
    ensures !('A' <= c <= 'Z') ==> l == c
  {
    if 'A' <= c <= 'Z' then ((c as int) + 32) as char else c
  }

  /**
   * `String.prototype.toLowerCase` on ASCII letters. (Only U+212A and U+0130
   * lower-case to ASCII letters outside this range: to 'k' and to "i" plus a
   * combining dot, neither of which can spell a log level.)
   */
  function ToLower(s: string): (r: string)
    ensures |r| == |s|
    ensures forall i :: 0 <= i < |s| ==> r[i] == ToLowerChar(s[i])
  {
    seq(|s|, i requires 0 <= i < |s| => ToLowerChar(s[i]))
  }

  /** JavaScript truthiness of an optional string: present and not empty. */
  predicate Truthy(s: Option<string>)
  {
    s.Some? && s.value != ""
  }

  /** `a || b` where `a` is an optional string and `b` a string. */
  function Or(a: Option<string>, b: string): (r: string)
    ensures Truthy(a) ==> r == a.value
    ensures !Truthy(a) ==> r == b
  {
    if Truthy(a) then a.value else b
  }

  /** `needle` occurs in `hay` starting at index `k`. */
  ghost predicate OccursAt(hay: string, needle: string, k: nat)
  {
    k + |needle| <= |hay| && hay[k..k + |needle|] == needle
  }

  /** `hay.includes(needle)`. */
  ghost predicate Contains(hay: string, needle: string)
  {
    exists k: nat :: OccursAt(hay, needle, k)
  }

  /** `hay.startsWith(prefix)`. */
  predicate StartsWith(hay: string, prefix: string)
  {
    |prefix| <= |hay| && hay[..|prefix|] == prefix
  }

  /** `s.split('.')`: the pieces between dots, in order; an empty string gives `[""]`. */
  function SplitDots(s: string): (r: seq<string>)
    ensures |r| >= 1
  {
    if s == [] then [""]
    else
      var rest := SplitDots(s[1..]);
      if s[0] == '.' then [""] + rest else [[s[0]] + rest[0]] + rest[1..]
  }

  /** A piece without dots is split off whole. */
  lemma {:induction false} SplitDotsPiece(d: string, rest: string)
    requires '.' !in d
    ensures SplitDots(d + "." + rest) == [d] + SplitDots(rest)
    ensures SplitDots(d) == [d]
  {
    if d == [] {
      assert d + "." + rest == "." + rest;
    } else {
      assert d[0] in d;
      assert forall c :: c in d[1..] ==> c in d;
      var s := d + "." + rest;
      assert s[0] == d[0] && s[1..] == d[1..] + "." + rest;
      SplitDotsPiece(d[1..], rest);
      assert [d[0]] + d[1..] == d;
    }
  }
}
