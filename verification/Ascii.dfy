/**
 * The parts of java.lang.String that the processors use, restricted to ASCII:
 * toUpperCase, toLowerCase, trim, isBlank and contains.
 */
module Ascii {

  predicate IsLowerLetter(c: char) { 'a' <= c <= 'z' }

  predicate IsUpperLetter(c: char) { 'A' <= c <= 'Z' }

  /** Character.toUpperCase over ASCII: only 'a'..'z' change. */
  function UpperChar(c: char): char
  {
    if IsLowerLetter(c) then (c as int - 32) as char else c
  }

  /** Character.toLowerCase over ASCII: only 'A'..'Z' change. */
  function LowerChar(c: char): char
  {
    if IsUpperLetter(c) then (c as int + 32) as char else c
  }

  /** String.toUpperCase, character by character. */
  function Upper(s: string): (u: string)
    ensures |u| == |s|
    ensures forall i :: 0 <= i < |s| ==> u[i] == UpperChar(s[i])
  {
    seq(|s|, i requires 0 <= i < |s| => UpperChar(s[i]))
  }

  /** String.toLowerCase, character by character. */
  function Lower(s: string): (l: string)
    ensures |l| == |s|
    ensures forall i :: 0 <= i < |s| ==> l[i] == LowerChar(s[i])
  {
    seq(|s|, i requires 0 <= i < |s| => LowerChar(s[i]))
  }

  /** Character.isWhitespace over ASCII: tab, line feed, vertical tab, form feed,
      carriage return, the four separators U+001C..U+001F, and space. */
  predicate IsJavaWhitespace(c: char)
  {
    c as int == 32 || 9 <= c as int <= 13 || 28 <= c as int <= 31
  }

  /** String.isBlank: empty or only whitespace. */
  predicate IsBlank(s: string)
  {
    forall i :: 0 <= i < |s| ==> IsJavaWhitespace(s[i])
  }

  /** The first index at or after `i` whose character is above U+0020. */
  function SkipLeading(s: string, i: nat): (k: nat)
    requires i <= |s|
    ensures i <= k <= |s|
    ensures forall j :: i <= j < k ==> s[j] <= ' '
    ensures k < |s| ==> ' ' < s[k]
    decreases |s| - i
  {
    if i < |s| && s[i] <= ' ' then SkipLeading(s, i + 1) else i
  }

  /** The end, at most `hi` and at least `lo`, after dropping the characters at or below
      U+0020 that end s[lo..hi]. */
  function SkipTrailing(s: string, lo: nat, hi: nat): (k: nat)
    requires lo <= hi <= |s|
    ensures lo <= k <= hi
    ensures forall j :: k <= j < hi ==> s[j] <= ' '
    ensures lo < k ==> ' ' < s[k - 1]
    decreases hi - lo
  {
    if lo < hi && s[hi - 1] <= ' ' then SkipTrailing(s, lo, hi - 1) else hi
  }

  /** String.trim: drops every leading and trailing character at or below U+0020
      (a wider set than the whitespace of isBlank, and a different one). */
  function Trim(s: string): (t: string)
    ensures |t| <= |s|
    ensures t == [] || (' ' < t[0] && ' ' < t[|t| - 1])
    ensures (forall i :: 0 <= i < |s| ==> s[i] <= ' ') ==> t == []
    ensures |s| > 0 && ' ' < s[0] && ' ' < s[|s| - 1] ==> t == s
    ensures exists lo, hi ::
              && 0 <= lo <= hi <= |s| && t == s[lo..hi]
              && (forall j :: 0 <= j < lo ==> s[j] <= ' ')
              && (forall j :: hi <= j < |s| ==> s[j] <= ' ')
  {
    var lo := SkipLeading(s, 0);
    var hi := SkipTrailing(s, lo, |s|);
    s[lo..hi]
  }

  /** A blank string trims to the empty string: every Java whitespace character lies
      at or below U+0020. */
  lemma BlankTrimsToEmpty(s: string)
    requires IsBlank(s)
    ensures Trim(s) == []
  {
  }

  /** Upper-casing is idempotent and leaves no lower-case letter behind. */
  lemma UpperIdempotent(s: string)
    ensures Upper(Upper(s)) == Upper(s)
    ensures forall i :: 0 <= i < |s| ==> !IsLowerLetter(Upper(s)[i])
  {
  }

  /** Case mapping keeps a character above U+0020 above U+0020. */
  lemma CaseKeepsVisible(c: char)
    requires ' ' < c
    ensures ' ' < UpperChar(c) && ' ' < LowerChar(c)
  {
  }

  /** Applying a case mapping twice is applying it once. */
  lemma CaseIdempotent(c: char)
    ensures UpperChar(UpperChar(c)) == UpperChar(c)
    ensures LowerChar(LowerChar(c)) == LowerChar(c)
  {
  }

  /** A string that starts above U+0020 is not blank. */
  lemma VisibleHeadNotBlank(s: string)
    requires s != [] && ' ' < s[0]
    ensures !IsBlank(s)
  {
    assert !IsJavaWhitespace(s[0]);
  }
}
