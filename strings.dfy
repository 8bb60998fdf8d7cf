/** Text operations shared by the path helpers: the effect of
    replace(/\\/g, "/"), startsWith / endsWith, lastIndexOf, and the
    case-insensitive test /^https?:\/\//i. */
module Strings {

  /** ASCII lower case; a regular expression with the `i` flag and without
      the `u` flag folds no other character onto an ASCII letter. */
  function Lower(c: char): char
  {
    if 'A' <= c <= 'Z' then (c as int + 32) as char else c
  }

  predicate StartsWith(s: string, prefix: string)
  {
    |prefix| <= |s| && s[..|prefix|] == prefix
  }

  predicate EndsWith(s: string, suffix: string)
  {
    |suffix| <= |s| && s[|s| - |suffix|..] == suffix
  }

  /** s starts with the lower-case text `prefix`, ignoring ASCII case. */
  predicate StartsWithIgnoringCase(s: string, prefix: string)
  {
    |prefix| <= |s| && forall k :: 0 <= k < |prefix| ==> Lower(s[k]) == prefix[k]
  }

  /** /^https?:\/\//i */
  predicate IsHttpUrl(s: string)
  {
    StartsWithIgnoringCase(s, "http://") || StartsWithIgnoringCase(s, "https://")
  }

  /** replace(/\\/g, "/"): every backslash becomes a slash. */
  function WithSlashes(s: string): (r: string)
    ensures |r| == |s|
    ensures forall k :: 0 <= k < |s| ==> r[k] == if s[k] == '\\' then '/' else s[k]
  {
    if s == [] then [] else [if s[0] == '\\' then '/' else s[0]] + WithSlashes(s[1..])
  }

  predicate NoBackslash(s: string)
  {
    forall k :: 0 <= k < |s| ==> s[k] != '\\'
  }

  /** The result holds no backslash, and text without one is left alone. */
  lemma WithSlashesFacts(s: string)
    ensures NoBackslash(WithSlashes(s))
    ensures NoBackslash(s) ==> WithSlashes(s) == s
  {
  }

  /** `marker` starts at position j of s. */
  predicate MarkerAt(s: string, marker: string, j: int)
  {
    0 <= j && j + |marker| <= |s| && s[j..j + |marker|] == marker
  }

  /** The last position at or before k where `marker` starts, or -1. */
  function LastAtOrBefore(s: string, marker: string, k: int): (r: int)
    requires k <= |s| - |marker|
    ensures r == -1 || (0 <= r <= k && MarkerAt(s, marker, r))
    ensures forall j :: r < j <= k ==> !MarkerAt(s, marker, j)
    decreases k + 1
  {
    if k < 0 then -1
    else if s[k..k + |marker|] == marker then k
    else LastAtOrBefore(s, marker, k - 1)
  }

  /** lastIndexOf(marker) for a non-empty marker. */
  function LastIndexOf(s: string, marker: string): (r: int)
    requires |marker| > 0
    ensures r == -1 || (0 <= r <= |s| - |marker| && MarkerAt(s, marker, r))
    ensures forall j :: r < j ==> !MarkerAt(s, marker, j)
  {
    LastAtOrBefore(s, marker, |s| - |marker|)
  }

  /** A text cut just after the last marker holds no further marker. */
  lemma NothingAfterLast(s: string, marker: string, cut: int)
    requires |marker| > 0 && 0 <= LastIndexOf(s, marker) < cut <= |s|
    ensures LastIndexOf(s[cut..], marker) == -1
  {
    var t := s[cut..];
    var r := LastIndexOf(t, marker);
    if r >= 0 {
      assert t[r..r + |marker|] == s[cut + r..cut + r + |marker|];
      assert MarkerAt(s, marker, cut + r);
    }
  }
}
