/**
 * The value checks the command line applies to its options: port numbers,
 * log levels and the HTTP bind address.
 */
module Cli {
  import opened Wrappers
  import opened JsText

  /** The console and file log levels the command line accepts. */
  const ValidLogLevels: seq<string> := ["debug", "info", "warn", "error"]

  /**
   * `parsePort`: `parseInt(value, 10)`, then a range check; NaN and anything
   * outside 1..65535 is refused.
   */
  function ParsePort(value: string): (r: Result<int, string>)
    ensures r.Success? ==> 1 <= r.value <= 65535
    ensures r.Failure? ==> r.error == "Invalid port number: " + value + ". Must be between 1 and 65535."
  {
    match ParseInt(value)
    case NaN => Failure("Invalid port number: " + value + ". Must be between 1 and 65535.")
    case Int(port) =>
      if port < 1 || port > 65535 then Failure("Invalid port number: " + value + ". Must be between 1 and 65535.")
      else Success(port)
  }

  /**
   * `parsePort` accepts exactly the strings whose leading integer is a port;
   * what follows the digits is ignored.
   */
  lemma ParsePortAcceptsIff(value: string)
    ensures ParsePort(value).Success? <==> ParseInt(value).Int? && 1 <= ParseInt(value).value <= 65535
    ensures ParsePort(value).Success? ==> ParsePort(value).value == ParseInt(value).value
  {
  }

  /** Every port in range, spelled in decimal and followed by any non-digit text, is accepted as itself. */
  lemma ParsePortOfSpelling(port: int, rest: string)
    requires 1 <= port <= 65535 && StopsDigits(rest)
    ensures ParsePort(IntToString(port) + rest) == Success(port)
  {
    ParseIntOfIntToString(port, rest);
  }

  /** A number outside 1..65535 is refused however it is spelled. */
  lemma ParsePortRefusesOutOfRange(port: int, rest: string)
    requires (port < 1 || port > 65535) && StopsDigits(rest)
    ensures ParsePort(IntToString(port) + rest).Failure?
  {
    ParseIntOfIntToString(port, rest);
  }

  /**
   * `validateLogLevel`: accepted when its lower-case form is one of the four
   * levels, and then returned in lower case.
   */
  function ValidateLogLevel(value: string): (r: Result<string, string>)
    ensures r.Success? <==> ToLower(value) in ValidLogLevels
    ensures r.Success? ==> r.value == ToLower(value) && r.value in ValidLogLevels
    ensures r.Failure? ==>
      r.error == "Invalid log level: " + value + ". Valid levels: debug, info, warn, error"
  {
    if ToLower(value) !in ValidLogLevels then
      Failure("Invalid log level: " + value + ". Valid levels: debug, info, warn, error")
    else Success(ToLower(value))
  }

  lemma ToLowerIdempotent(s: string)
    ensures ToLower(ToLower(s)) == ToLower(s)
  {
  }

  /** Lower-casing ignores case: two spellings that differ only in case lower-case alike. */
  lemma ToLowerCaseInsensitive(a: string, b: string)
    requires |a| == |b|
    requires forall i :: 0 <= i < |a| ==> ToLowerChar(a[i]) == ToLowerChar(b[i])
    ensures ToLower(a) == ToLower(b)
  {
  }

  /** A level that was accepted is accepted again, unchanged: validation is idempotent. */
  lemma ValidateLogLevelIdempotent(value: string)
    requires ValidateLogLevel(value).Success?
    ensures ValidateLogLevel(ValidateLogLevel(value).value) == ValidateLogLevel(value)
  {
    ToLowerIdempotent(value);
  }

  /** `validateLogLevel` is case-insensitive. */
  lemma ValidateLogLevelIgnoresCase(a: string, b: string)
    requires ToLower(a) == ToLower(b)
    ensures ValidateLogLevel(a).Success? <==> ValidateLogLevel(b).Success?
    ensures ValidateLogLevel(a).Success? ==> ValidateLogLevel(a) == ValidateLogLevel(b)
  {
  }

  /** `/^(\d{1,3}\.){3}\d{1,3}$/.test(value)`: four groups of one to three digits. */
  predicate MatchesIpv4Pattern(value: string)
  {
    var groups := SplitDots(value);
    |groups| == 4 && forall i :: 0 <= i < 4 ==> 1 <= |groups[i]| <= 3 && AllDigits(groups[i])
  }

  /** `value.split('.').map(Number).some(o => o < 0 || o > 255)` on a string of the IPv4 pattern. */
  predicate HasOctetOver255(value: string)
    requires MatchesIpv4Pattern(value)
  {
    var groups := SplitDots(value);
    exists i :: 0 <= i < 4 && DigitsValue(groups[i]) > 255
  }

  /** The three names accepted verbatim. */
  predicate IsNamedHost(value: string)
  {
    value == "localhost" || value == "127.0.0.1" || value == "0.0.0.0"
  }

  const HostAdvice := ". Must be localhost, 127.0.0.1, 0.0.0.0, or a valid IPv4 address"
  const OctetAdvice := ". IPv4 octets must be between 0 and 255"

  /**
   * `validateHost`: the three named hosts verbatim; otherwise a dotted quad
   * whose four groups have one to three digits and value at most 255.
   */
  function ValidateHost(value: string): (r: Result<string, string>)
    ensures r.Success? ==> r.value == value
    ensures r.Success? <==>
      IsNamedHost(value) || (MatchesIpv4Pattern(value) && !HasOctetOver255(value))
    ensures r.Failure? ==>
      r.error == "Invalid host: " + value + (if MatchesIpv4Pattern(value) then OctetAdvice else HostAdvice)
  {
    if IsNamedHost(value) then Success(value)
    else if !MatchesIpv4Pattern(value) then Failure("Invalid host: " + value + HostAdvice)
    else if HasOctetOver255(value) then Failure("Invalid host: " + value + OctetAdvice)
    else Success(value)
  }

  /** The dotted-quad spelling of four numbers. */
  function DottedQuad(a: nat, b: nat, c: nat, d: nat): string
  {
    NatToString(a) + "." + NatToString(b) + "." + NatToString(c) + "." + NatToString(d)
  }

  lemma NoDotInDigits(s: string)
    requires AllDigits(s)
    ensures '.' !in s
  {
    assert forall i :: 0 <= i < |s| ==> s[i] != '.';
  }

  /** Four dot-free pieces joined by dots split back into those pieces. */
  lemma SplitFour(p: string, q: string, r: string, t: string)
    requires '.' !in p && '.' !in q && '.' !in r && '.' !in t
    ensures SplitDots(p + "." + q + "." + r + "." + t) == [p, q, r, t]
  {
    var t3 := r + "." + t;
    var t2 := q + "." + t3;
    assert p + "." + q + "." + r + "." + t == p + "." + t2;
    SplitDotsPiece(t, "");
    SplitDotsPiece(r, t);
    SplitDotsPiece(q, t3);
    SplitDotsPiece(p, t2);
  }

  lemma SplitDottedQuad(a: nat, b: nat, c: nat, d: nat)
    ensures SplitDots(DottedQuad(a, b, c, d))
      == [NatToString(a), NatToString(b), NatToString(c), NatToString(d)]
  {
    NoDotInDigits(NatToString(a));
    NoDotInDigits(NatToString(b));
    NoDotInDigits(NatToString(c));
    NoDotInDigits(NatToString(d));
    SplitFour(NatToString(a), NatToString(b), NatToString(c), NatToString(d));
  }

  /** Every address with four octets in 0..255 is accepted unchanged. */
  lemma ValidateHostAcceptsOctets(a: nat, b: nat, c: nat, d: nat)
    requires a <= 255 && b <= 255 && c <= 255 && d <= 255
    ensures ValidateHost(DottedQuad(a, b, c, d)) == Success(DottedQuad(a, b, c, d))
  {
    var v := DottedQuad(a, b, c, d);
    SplitDottedQuad(a, b, c, d);
    var g := SplitDots(v);
    assert forall i :: 0 <= i < 4 ==> |g[i]| <= 3 by {
      forall i | 0 <= i < 4 ensures |g[i]| <= 3 {
        NatToStringShort(if i == 0 then a else if i == 1 then b else if i == 2 then c else d);
      }
    }
    assert MatchesIpv4Pattern(v);
    assert DigitsValue(g[0]) == a && DigitsValue(g[1]) == b;
    assert DigitsValue(g[2]) == c && DigitsValue(g[3]) == d;
    assert !HasOctetOver255(v);
  }

  /** An octet above 255 is refused with the octet message. */
  lemma ValidateHostRefusesLargeOctet(a: nat, b: nat, c: nat, d: nat)
    requires a <= 999 && b <= 999 && c <= 999 && d <= 999
    requires a > 255 || b > 255 || c > 255 || d > 255
    ensures ValidateHost(DottedQuad(a, b, c, d))
      == Failure("Invalid host: " + DottedQuad(a, b, c, d) + OctetAdvice)
  {
    var v := DottedQuad(a, b, c, d);
    SplitDottedQuad(a, b, c, d);
    var g := SplitDots(v);
    assert forall i :: 0 <= i < 4 ==> |g[i]| <= 3 by {
      forall i | 0 <= i < 4 ensures |g[i]| <= 3 {
        NatToStringShort(if i == 0 then a else if i == 1 then b else if i == 2 then c else d);
      }
    }
    assert MatchesIpv4Pattern(v);
    if a > 255 { assert DigitsValue(g[0]) > 255; }
    else if b > 255 { assert DigitsValue(g[1]) > 255; }
    else if c > 255 { assert DigitsValue(g[2]) > 255; }
    else { assert DigitsValue(g[3]) > 255; }
    NamedHostsHaveSmallOctets(v);
    assert !IsNamedHost(v);
  }

  /** The named hosts that look like addresses have no octet above 255. */
  lemma NamedHostsHaveSmallOctets(value: string)
    ensures IsNamedHost(value) && MatchesIpv4Pattern(value) ==> !HasOctetOver255(value)
  {
    if value == "127.0.0.1" {
      SplitFour("127", "0", "0", "1");
      assert value == "127" + "." + "0" + "." + "0" + "." + "1";
      assert DigitsValue("127") == 127;
    } else if value == "0.0.0.0" {
      SplitFour("0", "0", "0", "0");
      assert value == "0" + "." + "0" + "." + "0" + "." + "0";
      assert DigitsValue("0") == 0;
      assert forall i :: 0 <= i < 4 ==> SplitDots(value)[i] == "0";
    } else {
      SplitDotsPiece("localhost", "");
    }
  }

  lemma NatToStringShort(n: nat)
    requires n <= 999
    ensures |NatToString(n)| <= 3
  {
    if n >= 10 {
      assert |NatToString(n)| == |NatToString(n / 10)| + 1;
      if n / 10 >= 10 {
        assert |NatToString(n / 10)| == |NatToString(n / 100)| + 1;
      }
    }
  }
}
