/**
 * The part of .NET's string handling the chat window relies on:
 * `String.Trim()`, which removes every leading and trailing character
 * for which `Char.IsWhiteSpace` holds, and `String.IsNullOrEmpty`.
 */
module Strings {

  /** `Char.IsWhiteSpace`: the Unicode space separators (category Zs),
      the line and paragraph separators, the controls U+0009 to U+000D
      and U+0085. */
  predicate IsWhiteSpace(c: char)
  {
    || ('\t' <= c <= '\r')
    || c == ' '
    || c == '\U{0085}'
    || c == '\U{00A0}'
    || c == '\U{1680}'
    || ('\U{2000}' <= c <= '\U{200A}')
    || c == '\U{2028}'
    || c == '\U{2029}'
    || c == '\U{202F}'
    || c == '\U{205F}'
    || c == '\U{3000}'
  }

  predicate AllWhiteSpace(s: string)
  {
    forall i :: 0 <= i < |s| ==> IsWhiteSpace(s[i])
  }

  /** The scan from the front: the first index at or after `i` that does
      not hold white space, or `|s|` if there is none. */
  function SkipLeading(s: string, i: nat): (j: nat)
    requires i <= |s|
    ensures i <= j <= |s|
    ensures forall k :: i <= k < j ==> IsWhiteSpace(s[k])
    ensures j < |s| ==> !IsWhiteSpace(s[j])
    decreases |s| - i
  {
    if i < |s| && IsWhiteSpace(s[i]) then SkipLeading(s, i + 1) else i
  }

  /** The scan from the back, which stops at `lo`: one past the last index
      before `j` that does not hold white space, or `lo` if there is none. */
  function SkipTrailing(s: string, lo: nat, j: nat): (k: nat)
    requires lo <= j <= |s|
    ensures lo <= k <= j
    ensures forall m :: k <= m < j ==> IsWhiteSpace(s[m])
    ensures k > lo ==> !IsWhiteSpace(s[k - 1])
    decreases j
  {
    if j > lo && IsWhiteSpace(s[j - 1]) then SkipTrailing(s, lo, j - 1) else j
  }

  /** `r` is the slice of `s` that starts at `lo`, with only white space
      on either side of it, and its first and last characters (if any)
      are not white space. */
  predicate TrimmedAt(s: string, lo: int, r: string)
  {
    && 0 <= lo <= |s| - |r|
    && r == s[lo..lo + |r|]
    && (forall i :: 0 <= i < lo ==> IsWhiteSpace(s[i]))
    && (forall i :: lo + |r| <= i < |s| ==> IsWhiteSpace(s[i]))
    && (r == [] || (!IsWhiteSpace(r[0]) && !IsWhiteSpace(r[|r| - 1])))
  }

  /** `r` is `s` with its leading and trailing white space removed. */
  ghost predicate IsTrimOf(s: string, r: string)
  {
    exists lo :: TrimmedAt(s, lo, r)
  }

  /** `String.Trim()`. The result is empty exactly when `s` is all
      white space, which is how `IsNullOrEmpty(s.Trim())` reads. */
  function Trim(s: string): (r: string)
    ensures IsTrimOf(s, r)
    ensures r == [] <==> AllWhiteSpace(s)
  {
    var lo := SkipLeading(s, 0);
    var hi := SkipTrailing(s, lo, |s|);
    assert TrimmedAt(s, lo, s[lo..hi]);
    s[lo..hi]
  }

  /** Where a non-empty trimmed slice of `s` sits: the character it
      starts with and the one it ends with are not white space. */
  lemma TrimmedAtEnds(s: string, lo: int, r: string)
    requires TrimmedAt(s, lo, r) && r != []
    ensures !IsWhiteSpace(s[lo]) && !IsWhiteSpace(s[lo + |r| - 1])
  {
    assert s[lo] == r[0] && s[lo + |r| - 1] == r[|r| - 1];
  }

  /** Two trimmed slices of the same string are the same slice. */
  lemma TrimmedAtIsUnique(s: string, lo: int, r: string, lo': int, r': string)
    requires TrimmedAt(s, lo, r) && TrimmedAt(s, lo', r')
    ensures r == r'
  {
    if r != [] && r' != [] {
      TrimmedAtEnds(s, lo, r);
      TrimmedAtEnds(s, lo', r');
      assert lo == lo';
      assert lo + |r| == lo' + |r'|;
    } else if r != [] {
      TrimmedAtEnds(s, lo, r);
    } else if r' != [] {
      TrimmedAtEnds(s, lo', r');
    }
  }

  /** The trimmed form is unique: any slice of `s` that satisfies
      `IsTrimOf` is `Trim(s)`. */
  lemma TrimIsUnique(s: string, r: string)
    requires IsTrimOf(s, r)
    ensures r == Trim(s)
  {
    var lo :| TrimmedAt(s, lo, r);
    var lo' :| TrimmedAt(s, lo', Trim(s));
    TrimmedAtIsUnique(s, lo, r, lo', Trim(s));
  }
}
