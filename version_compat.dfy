/**
 * Compatibility between the server's version and the version the RemNote
 * plugin announces, for 0.x semantic versions: compatible exactly when major
 * and minor agree, whatever the patch.
 */
module VersionCompat {
  import opened Wrappers
  import opened JsText

  datatype Version = Version(major: nat, minor: nat, patch: nat)

  /** `\d+\.` at the start of `s`: the value of the digit run and the text after the dot. */
  function DigitsThenDot(s: string): Option<(nat, string)>
  {
    var a := LeadingDigits(s);
    if a == 0 || a == |s| || s[a] != '.' then None else Some((DigitsValue(s[..a]), s[a + 1..]))
  }

  /**
   * `version.match(/^(\d+)\.(\d+)\.(\d+)/)` followed by `parseInt` of each
   * group: three greedy digit runs separated by dots at the start of the
   * string; anything after the third run is ignored.
   */
  function ParseVersion(s: string): Option<Version>
  {
    match DigitsThenDot(s)
    case None => None
    case Some((major, s1)) =>
      match DigitsThenDot(s1)
      case None => None
      case Some((minor, s2)) =>
        var c := LeadingDigits(s2);
        if c == 0 then None else Some(Version(major, minor, DigitsValue(s2[..c])))
  }

  /** `s` matches `^\d+\.\d+\.\d+` with the dots at `i` and `j` and the third run ending at `k`. */
  ghost predicate MatchesAt(s: string, i: nat, j: nat, k: nat)
  {
    && 0 < i && i + 1 < j && j + 1 < k && k <= |s|
    && AllDigits(s[..i]) && s[i] == '.'
    && AllDigits(s[i + 1..j]) && s[j] == '.'
    && AllDigits(s[j + 1..k])
  }

  /** `/^(\d+)\.(\d+)\.(\d+)/.test(s)`, stated by the positions of the match. */
  ghost predicate StartsWithVersion(s: string)
  {
    exists i: nat, j: nat, k: nat :: MatchesAt(s, i, j, k)
  }

  /** A digit run followed by a non-digit is exactly what `LeadingDigits` reads. */
  lemma {:induction false} LeadingDigitsExact(s: string, n: nat)
    requires n < |s| && AllDigits(s[..n]) && !IsDigit(s[n])
    ensures LeadingDigits(s) == n
  {
    if n > 0 {
      assert IsDigit(s[..n][0]);
      assert s[1..][..n - 1] == s[..n][1..];
      LeadingDigitsExact(s[1..], n - 1);
    }
  }

  /** A digit run of length `n` at the start means `LeadingDigits` reads at least `n`. */
  lemma {:induction false} LeadingDigitsAtLeast(s: string, n: nat)
    requires n <= |s| && AllDigits(s[..n])
    ensures LeadingDigits(s) >= n
  {
    if n > 0 {
      assert IsDigit(s[..n][0]);
      assert s[1..][..n - 1] == s[..n][1..];
      LeadingDigitsAtLeast(s[1..], n - 1);
    }
  }

  /** A digit run ending in a dot at `i` is what `DigitsThenDot` reads. */
  lemma DigitsThenDotAt(s: string, i: nat)
    requires 0 < i < |s| && AllDigits(s[..i]) && s[i] == '.'
    ensures DigitsThenDot(s) == Some((DigitsValue(s[..i]), s[i + 1..]))
  {
    LeadingDigitsExact(s, i);
  }

  /** What `DigitsThenDot` reads is a digit run ending in a dot. */
  lemma DigitsThenDotShape(s: string)
    requires DigitsThenDot(s).Some?
    ensures var i := |s| - |DigitsThenDot(s).value.1| - 1;
      0 < i < |s| && AllDigits(s[..i]) && s[i] == '.' && DigitsThenDot(s).value.1 == s[i + 1..]
  {
  }

  /** A successful parse comes from a match of `^\d+\.\d+\.\d+`. */
  lemma ParsedMatches(s: string)
    requires ParseVersion(s).Some?
    ensures StartsWithVersion(s)
  {
    DigitsThenDotShape(s);
    var s1 := DigitsThenDot(s).value.1;
    var i := |s| - |s1| - 1;
    DigitsThenDotShape(s1);
    var s2 := DigitsThenDot(s1).value.1;
    var i1 := |s1| - |s2| - 1;
    var c := LeadingDigits(s2);
    assert s1 == s[i + 1..];
    assert s2 == s[i + i1 + 2..];
    assert s[i + 1..i + 1 + i1] == s1[..i1];
    assert s[i + i1 + 2..i + i1 + 2 + c] == s2[..c];
    assert MatchesAt(s, i, i + 1 + i1, i + i1 + 2 + c);
  }

  /** Every match of `^\d+\.\d+\.\d+` parses. */
  lemma MatchParses(s: string, i: nat, j: nat, k: nat)
    requires MatchesAt(s, i, j, k)
    ensures ParseVersion(s).Some?
  {
    DigitsThenDotAt(s, i);
    var s1 := s[i + 1..];
    assert s1[..j - i - 1] == s[i + 1..j];
    DigitsThenDotAt(s1, j - i - 1);
    var s2 := s1[j - i..];
    assert s2[..k - j - 1] == s[j + 1..k];
    LeadingDigitsAtLeast(s2, k - j - 1);
  }

  /** `parseVersion` succeeds exactly when the string starts with `digits.digits.digits`. */
  lemma ParseVersionSucceedsIff(s: string)
    ensures ParseVersion(s).Some? <==> StartsWithVersion(s)
  {
    if ParseVersion(s).Some? {
      ParsedMatches(s);
    }
    if StartsWithVersion(s) {
      var i: nat, j: nat, k: nat :| MatchesAt(s, i, j, k);
      MatchParses(s, i, j, k);
    }
  }

  /** The canonical spelling `major.minor.patch`. */
  function ShowVersion(v: Version): string
  {
    NatToString(v.major) + "." + NatToString(v.minor) + "." + NatToString(v.patch)
  }

  /** Parsing reads back any version from its spelling, whatever non-digit suffix follows. */
  lemma ParseShowVersion(v: Version, rest: string)
    requires StopsDigits(rest)
    ensures ParseVersion(ShowVersion(v) + rest) == Some(v)
  {
    var d1, d2, d3 := NatToString(v.major), NatToString(v.minor), NatToString(v.patch);
    var s2 := d3 + rest;
    var s1 := d2 + "." + s2;
    var s := d1 + "." + s1;
    assert ShowVersion(v) + rest == s;
    DigitsThenDotOfConcat(d1, s1);
    DigitsThenDotOfConcat(d2, s2);
    LeadingDigitsOfConcat(d3, rest);
  }

  lemma DigitsThenDotOfConcat(d: string, rest: string)
    requires |d| > 0 && AllDigits(d)
    ensures DigitsThenDot(d + "." + rest) == Some((DigitsValue(d), rest))
  {
    var s := d + "." + rest;
    assert s[..|d|] == d;
    assert s[|d| + 1..] == rest;
    DigitsThenDotAt(s, |d|);
  }

  function CannotParseMessage(local: string, bridge: string): string
  {
    "Cannot parse versions: local=" + local + ", bridge=" + bridge
  }

  function MismatchMessage(local: string, bridge: string): string
  {
    "Version mismatch: server v" + local + " \U{2194} bridge v" + bridge
      + ". Minor version must match during 0.x development. See compatibility guide."
  }

  lemma CannotParseMentionsBoth(local: string, bridge: string)
    ensures StartsWith(CannotParseMessage(local, bridge), "Cannot parse versions")
    ensures Contains(CannotParseMessage(local, bridge), local)
    ensures Contains(CannotParseMessage(local, bridge), bridge)
  {
    var p, q := "Cannot parse versions: local=", ", bridge=";
    var m := CannotParseMessage(local, bridge);
    assert m == p + local + q + bridge;
    assert m[|p|..|p| + |local|] == local;
    assert OccursAt(m, local, |p|);
    assert m[|p| + |local| + |q|..] == bridge;
    assert OccursAt(m, bridge, |p| + |local| + |q|);
  }

  lemma MismatchMentionsBoth(local: string, bridge: string)
    ensures Contains(MismatchMessage(local, bridge), local)
    ensures Contains(MismatchMessage(local, bridge), bridge)
  {
    var p, q := "Version mismatch: server v", " \U{2194} bridge v";
    var t := ". Minor version must match during 0.x development. See compatibility guide.";
    var m := MismatchMessage(local, bridge);
    assert m == p + local + q + bridge + t;
    assert m[|p|..|p| + |local|] == local;
    assert OccursAt(m, local, |p|);
    assert m[|p| + |local| + |q|..|p| + |local| + |q| + |bridge|] == bridge;
    assert OccursAt(m, bridge, |p| + |local| + |q|);
  }

  /**
   * `checkVersionCompatibility`: `None` (JavaScript `null`) when both versions
   * parse and agree on major and minor; otherwise a message naming both inputs.
   */
  function CheckVersionCompatibility(local: string, bridge: string): (r: Option<string>)
    ensures (ParseVersion(local).None? || ParseVersion(bridge).None?) ==>
      r == Some(CannotParseMessage(local, bridge)) && StartsWith(r.value, "Cannot parse versions")
    ensures (&& ParseVersion(local).Some? && ParseVersion(bridge).Some?
             && (|| ParseVersion(local).value.major != ParseVersion(bridge).value.major
                 || ParseVersion(local).value.minor != ParseVersion(bridge).value.minor)) ==>
      r == Some(MismatchMessage(local, bridge))
    ensures r.None? <==>
      && ParseVersion(local).Some? && ParseVersion(bridge).Some?
      && ParseVersion(local).value.major == ParseVersion(bridge).value.major
      && ParseVersion(local).value.minor == ParseVersion(bridge).value.minor
    ensures r.Some? ==> Contains(r.value, local) && Contains(r.value, bridge)
  {
    var l, b := ParseVersion(local), ParseVersion(bridge);
    if l.None? || b.None? then
      CannotParseMentionsBoth(local, bridge);
      Some(CannotParseMessage(local, bridge))
    else if l.value.major != b.value.major || l.value.minor != b.value.minor then
      MismatchMentionsBoth(local, bridge);
      Some(MismatchMessage(local, bridge))
    else
      None
  }

  /** Compatibility is symmetric. */
  lemma CompatibilitySymmetric(a: string, b: string)
    ensures CheckVersionCompatibility(a, b).None? <==> CheckVersionCompatibility(b, a).None?
  {
  }

  /** Every parseable version is compatible with itself. */
  lemma CompatibleWithItself(a: string)
    requires StartsWithVersion(a)
    ensures CheckVersionCompatibility(a, a) == None
  {
    ParseVersionSucceedsIff(a);
  }

  /**
   * Patch levels never matter: two versions spelled with equal major and
   * minor, each followed by any suffix that does not continue the patch
   * digits (a pre-release tag, say), are compatible.
   */
  lemma PatchIrrelevant(major: nat, minor: nat, p: nat, q: nat, restP: string, restQ: string)
    requires StopsDigits(restP) && StopsDigits(restQ)
    ensures CheckVersionCompatibility(
      ShowVersion(Version(major, minor, p)) + restP,
      ShowVersion(Version(major, minor, q)) + restQ) == None
  {
    ParseShowVersion(Version(major, minor, p), restP);
    ParseShowVersion(Version(major, minor, q), restQ);
  }

  /**
   * A different major or minor version is a mismatch, reported with both
   * inputs, whatever suffixes follow the two spellings.
   */
  lemma MinorMismatch(v: Version, w: Version, restV: string, restW: string)
    requires StopsDigits(restV) && StopsDigits(restW)
    requires v.major != w.major || v.minor != w.minor
    ensures CheckVersionCompatibility(ShowVersion(v) + restV, ShowVersion(w) + restW)
      == Some(MismatchMessage(ShowVersion(v) + restV, ShowVersion(w) + restW))
  {
    ParseShowVersion(v, restV);
    ParseShowVersion(w, restW);
  }
}
