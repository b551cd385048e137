/**
 * The pieces of Rust's `str` API that the engines and the handler rely on:
 * `trim`, `starts_with`, `contains`, `trim_start_matches`,
 * `eq_ignore_ascii_case`, decimal formatting of integers (`format!("{}")`),
 * and the `(<strong>|</strong>)` replacement Bing applies to titles.
 */
module Strings {
  import opened Common

  // ---------------------------------------------------------------------------
  // Prefixes and infixes
  // ---------------------------------------------------------------------------

  predicate StartsWith(s: string, prefix: string) {
    |prefix| <= |s| && s[..|prefix|] == prefix
  }

  /** `str::contains` with a string pattern. */
  predicate Contains(s: string, pattern: string)
    decreases |s|
  {
    StartsWith(s, pattern) || (s != [] && Contains(s[1..], pattern))
  }

  lemma {:induction false} ContainsAt(s: string, pattern: string, i: nat)
    requires i + |pattern| <= |s| && s[i..i + |pattern|] == pattern
    ensures Contains(s, pattern)
    decreases i
  {
    if i == 0 {
      assert s[..|pattern|] == pattern;
    } else {
      assert s[1..][i - 1..i - 1 + |pattern|] == s[i..i + |pattern|];
      ContainsAt(s[1..], pattern, i - 1);
    }
  }

  lemma {:induction false} ContainsWitness(s: string, pattern: string) returns (i: nat)
    requires Contains(s, pattern)
    ensures i + |pattern| <= |s| && s[i..i + |pattern|] == pattern
    decreases |s|
  {
    if StartsWith(s, pattern) {
      i := 0;
    } else {
      var j := ContainsWitness(s[1..], pattern);
      assert s[1..][j..j + |pattern|] == s[j + 1..j + 1 + |pattern|];
      i := j + 1;
    }
  }

  // ---------------------------------------------------------------------------
  // Whitespace and `trim`
  // ---------------------------------------------------------------------------

  /** `char::is_whitespace`: the Unicode White_Space property. */
  predicate IsWhitespace(c: char) {
    ('\t' <= c <= '\r') || c == ' ' || c == '\U{85}' || c == '\U{A0}' || c == '\U{1680}'
    || ('\U{2000}' <= c <= '\U{200A}') || c == '\U{2028}' || c == '\U{2029}'
    || c == '\U{202F}' || c == '\U{205F}' || c == '\U{3000}'
  }

  /** `str::trim_start`: drops the leading whitespace and nothing else. */
  function TrimStart(s: string): (r: string)
    ensures |r| <= |s| && r == s[|s| - |r|..]
    ensures r == [] || !IsWhitespace(r[0])
    ensures forall i :: 0 <= i < |s| - |r| ==> IsWhitespace(s[i])
    decreases |s|
  {
    if s != [] && IsWhitespace(s[0]) then TrimStart(s[1..]) else s
  }

  /** `str::trim_end`: drops the trailing whitespace and nothing else. */
  function TrimEnd(s: string): (r: string)
    ensures |r| <= |s| && r == s[..|r|]
    ensures r == [] || !IsWhitespace(r[|r| - 1])
    ensures forall i :: |r| <= i < |s| ==> IsWhitespace(s[i])
    decreases |s|
  {
    if s != [] && IsWhitespace(s[|s| - 1]) then TrimEnd(s[..|s| - 1]) else s
  }

  /** `str::trim`. */
  function Trim(s: string): string {
    TrimEnd(TrimStart(s))
  }

  /**
   * What `trim` promises: the result is a slice of the input that neither
   * starts nor ends with whitespace, and everything cut off on either side is
   * whitespace.
   */
  lemma TrimSpec(s: string) returns (lo: nat, hi: nat)
    ensures lo <= hi <= |s| && Trim(s) == s[lo..hi]
    ensures Trim(s) == [] || (!IsWhitespace(Trim(s)[0]) && !IsWhitespace(Trim(s)[|Trim(s)| - 1]))
    ensures forall i :: 0 <= i < lo ==> IsWhitespace(s[i])
    ensures forall i :: hi <= i < |s| ==> IsWhitespace(s[i])
  {
    lo := |s| - |TrimStart(s)|;
    hi := lo + |Trim(s)|;
    TrimIsSlice(s);
    TrimEnds(s);
    TrimCutsWhitespace(s);
  }

  lemma TrimIsSlice(s: string)
    ensures var lo := |s| - |TrimStart(s)|;
            lo + |Trim(s)| <= |s| && Trim(s) == s[lo..lo + |Trim(s)|]
  {
    var t := TrimStart(s);
    var r := TrimEnd(t);
    var lo := |s| - |t|;
    SliceOfSlice(s, lo, t, r);
  }


  lemma TrimEnds(s: string)
    ensures Trim(s) == [] || (!IsWhitespace(Trim(s)[0]) && !IsWhitespace(Trim(s)[|Trim(s)| - 1]))
  {
    var t := TrimStart(s);
    var r := TrimEnd(t);
    if r != [] {
      assert r[0] == t[0];
    }
  }

  lemma TrimCutsWhitespace(s: string)
    ensures var lo := |s| - |TrimStart(s)|;
            forall i :: lo + |Trim(s)| <= i < |s| ==> IsWhitespace(s[i])
  {
    var t := TrimStart(s);
    var r := TrimEnd(t);
    var lo := |s| - |t|;
    forall i | lo + |r| <= i < |s| ensures IsWhitespace(s[i]) {
      assert t == s[lo..];
      assert s[i] == t[i - lo];
    }
  }

  /** Trimming twice is trimming once. */
  lemma TrimIdempotent(s: string)
    ensures Trim(Trim(s)) == Trim(s)
  {
    var r := Trim(s);
    if r != [] {
      TrimEnds(s);
      assert TrimStart(r) == r;
      assert TrimEnd(r) == r;
    }
  }

  // ---------------------------------------------------------------------------
  // `trim_start_matches`
  // ---------------------------------------------------------------------------

  /** `p` repeated `n` times. */
  function Repeat(p: string, n: nat): (r: string)
    ensures |r| == n * |p|
  {
    if n == 0 then [] else p + Repeat(p, n - 1)
  }

  /** `str::trim_start_matches` with a string pattern: strips every leading repetition of `p`. */
  function TrimStartMatches(s: string, p: string): string
    decreases |s|
  {
    if p != [] && StartsWith(s, p) then TrimStartMatches(s[|p|..], p) else s
  }

  /** How many leading repetitions of `p` `TrimStartMatches` removes. */
  function LeadingMatches(s: string, p: string): nat
    decreases |s|
  {
    if p != [] && StartsWith(s, p) then 1 + LeadingMatches(s[|p|..], p) else 0
  }

  /**
   * `TrimStartMatches(s, p)` is what is left after the leading repetitions of
   * a non-empty `p`, and it does not itself start with `p`.
   */
  lemma TrimStartMatchesSpec(s: string, p: string)
    requires p != []
    ensures s == Repeat(p, LeadingMatches(s, p)) + TrimStartMatches(s, p)
    ensures !StartsWith(TrimStartMatches(s, p), p)
  {
    TrimStartMatchesSplits(s, p);
    TrimStartMatchesStops(s, p);
  }

  lemma {:induction false} TrimStartMatchesSplits(s: string, p: string)
    requires p != []
    ensures s == Repeat(p, LeadingMatches(s, p)) + TrimStartMatches(s, p)
    decreases |s|
  {
    if StartsWith(s, p) {
      var t := s[|p|..];
      TrimStartMatchesSplits(t, p);
      var k := LeadingMatches(t, p);
      var rest := TrimStartMatches(t, p);
      assert LeadingMatches(s, p) == k + 1 && TrimStartMatches(s, p) == rest;
      assert Repeat(p, k + 1) == p + Repeat(p, k);
      SplitAt(s, |p|);
      Associative(p, Repeat(p, k), rest);
    }
  }

  lemma {:induction false} TrimStartMatchesStops(s: string, p: string)
    requires p != []
    ensures !StartsWith(TrimStartMatches(s, p), p)
    decreases |s|
  {
    if StartsWith(s, p) {
      TrimStartMatchesStops(s[|p|..], p);
    }
  }

  /**
   * Conversely, however `s` is split into repetitions of `p` and a rest that
   * does not start with `p`, that rest is `TrimStartMatches(s, p)`.
   */
  lemma {:induction false} TrimStartMatchesUnique(p: string, n: nat, rest: string)
    requires p != [] && !StartsWith(rest, p)
    ensures TrimStartMatches(Repeat(p, n) + rest, p) == rest
    ensures LeadingMatches(Repeat(p, n) + rest, p) == n
  {
    var s := Repeat(p, n) + rest;
    if n > 0 {
      assert s == p + (Repeat(p, n - 1) + rest);
      assert StartsWith(s, p);
      assert s[|p|..] == Repeat(p, n - 1) + rest;
      TrimStartMatchesUnique(p, n - 1, rest);
    } else {
      assert s == rest;
    }
  }

  // ---------------------------------------------------------------------------
  // ASCII case folding
  // ---------------------------------------------------------------------------

  function AsciiLower(c: char): char {
    if 'A' <= c <= 'Z' then (c as int + 32) as char else c
  }

  /**
   * `str::eq_ignore_ascii_case`. Rust compares the UTF-8 bytes after mapping
   * ASCII upper-case letters to lower case; since that mapping leaves every
   * non-ASCII byte alone, comparing characters the same way is equivalent.
   */
  predicate EqIgnoreAsciiCase(a: string, b: string) {
    |a| == |b| && forall i :: 0 <= i < |a| ==> AsciiLower(a[i]) == AsciiLower(b[i])
  }

  // ---------------------------------------------------------------------------
  // Decimal formatting (`format!("{}", n)`)
  // ---------------------------------------------------------------------------

  predicate IsDigit(c: char) {
    '0' <= c <= '9'
  }

  function DigitChar(d: nat): (c: char)
    requires d < 10
    ensures IsDigit(c) && c as int - '0' as int == d
  {
    (d + '0' as int) as char
  }

  /** The decimal representation of `n`: digits only, no leading zero. */
  function NatToString(n: nat): (r: string)
    ensures r != []
    ensures forall i :: 0 <= i < |r| ==> IsDigit(r[i])
    ensures r[0] == '0' ==> n == 0 && r == "0"
    decreases n
  {
    if n < 10 then [DigitChar(n)] else NatToString(n / 10) + [DigitChar(n % 10)]
  }

  /** The value of a string of decimal digits. */
  function DecimalValue(s: string): nat
    requires forall i :: 0 <= i < |s| ==> IsDigit(s[i])
  {
    if s == [] then 0
    else
      assert IsDigit(s[|s| - 1]);
      10 * DecimalValue(s[..|s| - 1]) + (s[|s| - 1] as int - '0' as int)
  }

  /** Formatting a number and reading it back gives the number. */
  lemma {:induction false} DecimalRoundTrip(n: nat)
    ensures DecimalValue(NatToString(n)) == n
    decreases n
  {
    var s := NatToString(n);
    if n >= 10 {
      DecimalRoundTrip(n / 10);
      assert s[..|s| - 1] == NatToString(n / 10);
    }
  }

  /** Formatting is injective: different numbers print differently. */
  lemma NatToStringInjective(m: nat, n: nat)
    requires NatToString(m) == NatToString(n)
    ensures m == n
  {
    DecimalRoundTrip(m);
    DecimalRoundTrip(n);
  }

  // ---------------------------------------------------------------------------
  // Bing's `RE_STRONG.replace_all(s, "")`
  // ---------------------------------------------------------------------------

  const StrongOpen: string := "<strong>"
  const StrongClose: string := "</strong>"

  /** `s` holds `<strong>` or `</strong>` somewhere. */
  predicate HasStrongTag(s: string)
    decreases |s|
  {
    StartsWith(s, StrongOpen) || StartsWith(s, StrongClose) || (s != [] && HasStrongTag(s[1..]))
  }

  /**
   * The regex `(<strong>|</strong>)` replaced by "" everywhere: scanning left
   * to right, each match is deleted and the scan resumes after it, so matches
   * never overlap. The two alternatives differ in their second character, so
   * at most one of them matches at any position.
   */
  function StripStrong(s: string): (r: string)
    ensures |r| <= |s|
    decreases |s|
  {
    if s == [] then []
    else if StartsWith(s, StrongOpen) then StripStrong(s[|StrongOpen|..])
    else if StartsWith(s, StrongClose) then StripStrong(s[|StrongClose|..])
    else [s[0]] + StripStrong(s[1..])
  }

  /**
   * The replacement changes `s` exactly when a tag occurs in it, and then it
   * makes the text strictly shorter.
   */
  lemma {:induction false} StripStrongChanges(s: string)
    ensures !HasStrongTag(s) ==> StripStrong(s) == s
    ensures HasStrongTag(s) ==> |StripStrong(s)| < |s|
    decreases |s|
  {
    if s == [] {
    } else if StartsWith(s, StrongOpen) || StartsWith(s, StrongClose) {
    } else {
      StripStrongChanges(s[1..]);
      assert [s[0]] + s[1..] == s;
    }
  }

  /** A text without `<` is left alone. */
  lemma {:induction false} StripStrongNoAngle(s: string)
    requires forall i :: 0 <= i < |s| ==> s[i] != '<'
    ensures StripStrong(s) == s
    decreases |s|
  {
    if s != [] {
      assert !StartsWith(s, StrongOpen) && !StartsWith(s, StrongClose) by {
        assert s[0] != '<';
      }
      StripStrongNoAngle(s[1..]);
      assert [s[0]] + s[1..] == s;
    }
  }
}
