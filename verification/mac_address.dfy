/**
 * Hardware (MAC) addresses as they appear in the text printed by the scanning
 * tools: finding the leftmost address in a line and normalising it to one
 * canonical spelling (upper-case hex digits separated by colons).
 */
module MacAddress {
  import opened Wrappers

  /** A textual address is six two-digit hex groups joined by five separators. */
  const MacLength: nat := 17

  predicate IsHexDigit(c: char) {
    '0' <= c <= '9' || 'A' <= c <= 'F' || 'a' <= c <= 'f'
  }

  predicate IsUpperHexDigit(c: char) {
    '0' <= c <= '9' || 'A' <= c <= 'F'
  }

  predicate IsSeparator(c: char) {
    c == ':' || c == '-'
  }

  /** Offsets 2, 5, 8, 11 and 14 of an address hold separators, all others hex digits. */
  predicate IsSeparatorOffset(k: int) {
    k % 3 == 2
  }

  /** `w` is a whole match of the pattern ([0-9A-Fa-f]{2}[:-]){5}([0-9A-Fa-f]{2}). */
  predicate IsMacText(w: string) {
    && |w| == MacLength
    && forall k :: 0 <= k < MacLength ==>
         if IsSeparatorOffset(k) then IsSeparator(w[k]) else IsHexDigit(w[k])
  }

  /** The one spelling addresses have once they enter any set: upper case, colons only. */
  predicate IsCanonical(m: string) {
    && |m| == MacLength
    && forall k :: 0 <= k < MacLength ==>
         if IsSeparatorOffset(k) then m[k] == ':' else IsUpperHexDigit(m[k])
  }

  /** The pattern matches the 17 characters of `line` that start at offset `i`. */
  predicate MatchesAt(line: string, i: nat) {
    i + MacLength <= |line| && IsMacText(line[i..i + MacLength])
  }

  /** `i` is where a leftmost-first search for the pattern finds its match. */
  predicate IsLeftmostMatch(line: string, i: nat) {
    MatchesAt(line, i) && forall j: nat :: j < i ==> !MatchesAt(line, j)
  }

  /** The first offset at or after `from` where the pattern matches, if any. */
  function FindMatchFrom(line: string, from: nat): (r: Option<nat>)
    ensures r.Some? ==> from <= r.value && MatchesAt(line, r.value)
    ensures r.Some? ==> forall j: nat :: from <= j < r.value ==> !MatchesAt(line, j)
    ensures r.None? ==> forall j: nat :: from <= j ==> !MatchesAt(line, j)
    decreases |line| - from
  {
    if |line| < from + MacLength then None
    else if MatchesAt(line, from) then Some(from)
    else FindMatchFrom(line, from + 1)
  }

  /** Upper-casing of the ASCII letters, the only letters a match can hold. */
  function ToUpper(c: char): char {
    if 'a' <= c <= 'z' then (c as int - 32) as char else c
  }

  /** One character of the normalised spelling: upper-cased, with '-' turned into ':'. */
  function CanonicalChar(c: char): char {
    if c == '-' then ':' else ToUpper(c)
  }

  /** Upper-cases the matched text and replaces every '-' by ':'. */
  function Normalize(w: string): (m: string)
    ensures |m| == |w|
    ensures IsMacText(w) ==> IsCanonical(m)
  {
    seq(|w|, k requires 0 <= k < |w| => CanonicalChar(w[k]))
  }

  /** The address a line of tool output contributes: its leftmost match, normalised. */
  function ExtractMac(line: string): (r: Option<string>)
    ensures r.None? <==> forall j: nat :: !MatchesAt(line, j)
    ensures r.Some? ==> IsCanonical(r.value)
    ensures r.Some? ==>
      exists i: nat :: IsLeftmostMatch(line, i) && r.value == Normalize(line[i..i + MacLength])
  {
    match FindMatchFrom(line, 0)
    case None => None
    case Some(i) =>
      assert IsLeftmostMatch(line, i);
      Some(Normalize(line[i..i + MacLength]))
  }

  /** The set of addresses found in a sequence of output lines, at most one per line. */
  function ExtractAll(lines: seq<string>): (r: set<string>)
    ensures forall m :: m in r ==> IsCanonical(m)
    ensures forall m :: m in r <==> exists i :: 0 <= i < |lines| && ExtractMac(lines[i]) == Some(m)
  {
    if |lines| == 0 then {}
    else
      var front := lines[..|lines| - 1];
      assert forall i :: 0 <= i < |front| ==> front[i] == lines[i];
      match ExtractMac(lines[|lines| - 1])
      case None => ExtractAll(front)
      case Some(m) => ExtractAll(front) + {m}
  }

  /** The numeric value of a hex digit, in either case. */
  function HexValue(c: char): (v: nat)
    requires IsHexDigit(c)
    ensures v < 16
  {
    if '0' <= c <= '9' then c as int - '0' as int
    else if 'A' <= c <= 'F' then c as int - 'A' as int + 10
    else c as int - 'a' as int + 10
  }

  /**
   * Two matched texts denote the same physical address: digit for digit the
   * same hex value, whatever the letter case and whichever separators are used.
   */
  predicate SameAddress(a: string, b: string)
    requires IsMacText(a) && IsMacText(b)
  {
    forall k :: 0 <= k < MacLength && !IsSeparatorOffset(k) ==> HexValue(a[k]) == HexValue(b[k])
  }

  /** Normalisation identifies two spellings exactly when they denote the same address. */
  lemma NormalizeIdentifiesSameAddress(a: string, b: string)
    requires IsMacText(a) && IsMacText(b)
    ensures Normalize(a) == Normalize(b) <==> SameAddress(a, b)
  {
  }

  /** A canonical address is itself a match and normalises to itself. */
  lemma CanonicalIsFixedPoint(m: string)
    requires IsCanonical(m)
    ensures IsMacText(m)
    ensures Normalize(m) == m
  {
  }

  /** The hyphenated lower-case and the colon upper-case spellings normalise alike. */
  lemma HyphenatedLowerCaseNormalizes()
    ensures Normalize("aa-bb-cc-dd-ee-ff") == "AA:BB:CC:DD:EE:FF"
    ensures Normalize("AA:BB:CC:DD:EE:FF") == "AA:BB:CC:DD:EE:FF"
    ensures ExtractMac("aa-bb-cc-dd-ee-ff") == Some("AA:BB:CC:DD:EE:FF")
  {
    var lower := "aa-bb-cc-dd-ee-ff";
    var upper := "AA:BB:CC:DD:EE:FF";
    assert IsMacText(lower);
    assert MatchesAt(lower, 0) by {
      assert lower[0..MacLength] == lower;
    }
    assert Normalize(lower) == upper;
    assert Normalize(upper) == upper;
  }

  /** A line without a match adds nothing to the set of found addresses. */
  lemma UnmatchedLineContributesNothing(lines: seq<string>, line: string)
    requires forall j: nat :: !MatchesAt(line, j)
    ensures ExtractAll(lines + [line]) == ExtractAll(lines)
  {
  }

  /** The canonical spelling never contains a newline. */
  lemma CanonicalOnOneLine(m: string)
    requires IsCanonical(m)
    ensures '\n' !in m
  {
  }
}
