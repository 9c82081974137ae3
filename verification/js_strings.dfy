/**
 * The parts of JavaScript's String semantics that the components rely on:
 * `trim()`, `indexOf(pattern)`, and `replace(pattern, "")` with a string pattern.
 */
module JsStrings {
  import opened Optional

  /** ECMAScript WhiteSpace and LineTerminator code points: exactly what `String.prototype.trim` strips. */
  predicate IsTrimmable(c: char) {
    c == '\t' || c == '\n' || c == '\U{000B}' || c == '\U{000C}' || c == '\r' || c == ' '
    || c == '\U{00A0}' || c == '\U{1680}' || ('\U{2000}' <= c <= '\U{200A}')
    || c == '\U{2028}' || c == '\U{2029}' || c == '\U{202F}' || c == '\U{205F}'
    || c == '\U{3000}' || c == '\U{FEFF}'
  }

  /** A string that `trim()` turns into the empty string (falsy after trimming). */
  predicate Blank(s: string) {
    forall i :: 0 <= i < |s| ==> IsTrimmable(s[i])
  }

  /** The index of the first non-trimmable character at or after i, or |s| when there is none. */
  function SkipForward(s: string, i: nat): (r: nat)
    requires i <= |s|
    decreases |s| - i
    ensures i <= r <= |s|
    ensures forall k :: i <= k < r ==> IsTrimmable(s[k])
    ensures r < |s| ==> !IsTrimmable(s[r])
  {
    if i < |s| && IsTrimmable(s[i]) then SkipForward(s, i + 1) else i
  }

  /** The index just past the last non-trimmable character below j, going no lower than lo. */
  function SkipBackward(s: string, lo: nat, j: nat): (r: nat)
    requires lo <= j <= |s|
    decreases j
    ensures lo <= r <= j
    ensures forall k :: r <= k < j ==> IsTrimmable(s[k])
    ensures r > lo ==> !IsTrimmable(s[r - 1])
  {
    if j > lo && IsTrimmable(s[j - 1]) then SkipBackward(s, lo, j - 1) else j
  }

  /** `trim()`. The result is empty exactly for blank strings, and otherwise starts and ends with a non-trimmable character. */
  function Trim(s: string): (r: string)
    ensures |r| <= |s|
    ensures r == [] <==> Blank(s)
    ensures r != [] ==> !IsTrimmable(r[0]) && !IsTrimmable(r[|r| - 1])
  {
    var i := SkipForward(s, 0);
    s[i..SkipBackward(s, i, |s|)]
  }

  /** `trim()` removes only blank runs at both ends: the result is the infix s[i..j]. */
  lemma TrimIsInfix(s: string) returns (i: nat, j: nat)
    ensures i <= j <= |s| && Trim(s) == s[i..j]
    ensures Blank(s[..i]) && Blank(s[j..])
  {
    i := SkipForward(s, 0);
    j := SkipBackward(s, i, |s|);
  }

  /** Trimming a trimmed string changes nothing. */
  lemma TrimIdempotent(s: string)
    ensures Trim(Trim(s)) == Trim(s)
  {
  }

  /** A string that neither starts nor ends with a trimmable character is its own trim. */
  lemma TrimOfTrimmed(s: string)
    requires s != [] ==> !IsTrimmable(s[0]) && !IsTrimmable(s[|s| - 1])
    ensures Trim(s) == s
  {
  }

  /** The pattern occurs in s at index i. */
  predicate OccursAt(s: string, pat: string, i: nat) {
    i + |pat| <= |s| && s[i..i + |pat|] == pat
  }

  /** The first index at or after k where pat occurs, as `indexOf(pat, k)` searches. */
  function IndexFrom(s: string, pat: string, k: nat): (r: Option<nat>)
    decreases |s| - k
    ensures r.Some? ==> k <= r.value && OccursAt(s, pat, r.value)
    ensures r.Some? ==> forall i: nat :: k <= i < r.value ==> !OccursAt(s, pat, i)
    ensures r.None? ==> forall i: nat :: k <= i ==> !OccursAt(s, pat, i)
  {
    if k + |pat| > |s| then None
    else if s[k..k + |pat|] == pat then Some(k)
    else IndexFrom(s, pat, k + 1)
  }

  /** `s.indexOf(pat)`: the first occurrence, or None where JavaScript returns -1. */
  function IndexOf(s: string, pat: string): (r: Option<nat>)
    ensures r.Some? ==> OccursAt(s, pat, r.value) && forall i: nat :: i < r.value ==> !OccursAt(s, pat, i)
    ensures r.None? <==> forall i: nat :: !OccursAt(s, pat, i)
  {
    IndexFrom(s, pat, 0)
  }

  /**
   * `s.replace(pat, "")` with a string pattern: the first occurrence is removed. (With an
   * empty replacement no `$` substitution pattern can arise.)
   */
  function RemoveFirst(s: string, pat: string): (r: string)
    ensures IndexOf(s, pat).None? ==> r == s
    ensures IndexOf(s, pat).Some? ==> var i := IndexOf(s, pat).value;
              r == s[..i] + s[i + |pat|..] && s == r[..i] + pat + r[i..]
  {
    match IndexOf(s, pat)
    case None => s
    case Some(i) =>
      var r := s[..i] + s[i + |pat|..];
      assert s == s[..i] + s[i..i + |pat|] + s[i + |pat|..];
      r
  }
}
