/**
 * The part of ECMAScript's `String.prototype.trim` that the entry screen relies on:
 * removal of WhiteSpace and LineTerminator code points from both ends of a string.
 */
module JsString {

  /** ECMAScript WhiteSpace: TAB, VT, FF, ZWNBSP and every code point of category Zs. */
  predicate IsWhiteSpace(c: char): (b: bool)
    ensures b ==> !IsLineTerminator(c)
    ensures b ==> c < '\U{10000}'
  {
    c == '\t' || c == '\U{000B}' || c == '\U{000C}' || c == '\U{FEFF}' ||
    // Unicode general category Zs (space separators)
    c == ' ' || c == '\U{00A0}' || c == '\U{1680}' ||
    ('\U{2000}' <= c <= '\U{200A}') ||
    c == '\U{202F}' || c == '\U{205F}' || c == '\U{3000}'
  }

  /** ECMAScript LineTerminator: LF, CR, LINE SEPARATOR and PARAGRAPH SEPARATOR. */
  predicate IsLineTerminator(c: char): (b: bool)
    ensures b ==> c < '\U{10000}'
  {
    c == '\n' || c == '\r' || c == '\U{2028}' || c == '\U{2029}'
  }

  /** The code points `trim` removes; none of them is a letter or digit of ASCII, and all lie in the Basic Multilingual Plane. */
  predicate IsTrimmable(c: char): (b: bool)
    ensures ('a' <= c <= 'z' || 'A' <= c <= 'Z' || '0' <= c <= '9') ==> !b
    ensures b ==> c < '\U{10000}'
  {
    IsWhiteSpace(c) || IsLineTerminator(c)
  }

  /** Every character of `s` is removed by `trim`. */
  predicate Blank(s: string) {
    forall k :: 0 <= k < |s| ==> IsTrimmable(s[k])
  }

  /** `s` neither starts nor ends with a trimmable character. */
  predicate Tight(s: string) {
    s == [] || (!IsTrimmable(s[0]) && !IsTrimmable(s[|s| - 1]))
  }

  /**
   * Reference description of a trim result, independent of how it is computed:
   * every character before index `i` and from index `j` on is trimmable, and
   * `s[i..j]` neither starts nor ends with a trimmable character.
   */
  predicate TrimmedAt(s: string, i: int, j: int) {
    0 <= i <= j <= |s| &&
    (forall m :: 0 <= m < i ==> IsTrimmable(s[m])) &&
    (forall m :: j <= m < |s| ==> IsTrimmable(s[m])) &&
    (i < j ==> !IsTrimmable(s[i]) && !IsTrimmable(s[j - 1]))
  }

  /** The first index at or after `i` whose character `trim` keeps, or `|s|` when there is none. */
  function FirstKept(s: string, i: nat): (k: nat)
    requires i <= |s|
    ensures i <= k <= |s|
    ensures forall m :: i <= m < k ==> IsTrimmable(s[m])
    ensures k == |s| || !IsTrimmable(s[k])
    decreases |s| - i
  {
    if i == |s| || !IsTrimmable(s[i]) then i else FirstKept(s, i + 1)
  }

  /** One past the last index before `j` (and not before `lo`) whose character `trim` keeps, or `lo`. */
  function LastKept(s: string, lo: nat, j: nat): (k: nat)
    requires lo <= j <= |s|
    ensures lo <= k <= j
    ensures forall m :: k <= m < j ==> IsTrimmable(s[m])
    ensures k == lo || !IsTrimmable(s[k - 1])
    decreases j
  {
    if j == lo || !IsTrimmable(s[j - 1]) then j else LastKept(s, lo, j - 1)
  }

  /** `String.prototype.trim`: the string with leading and trailing trimmable characters removed. */
  function Trim(s: string): (r: string)
    ensures TrimmedAt(s, FirstKept(s, 0), FirstKept(s, 0) + |r|)
    ensures r == s[FirstKept(s, 0)..FirstKept(s, 0) + |r|]
    ensures r == [] <==> Blank(s)
  {
    var i := FirstKept(s, 0);
    var j := LastKept(s, i, |s|);
    s[i..j]
  }

  /** The reference description determines the trim result uniquely. */
  lemma TrimUnique(s: string, i: int, j: int)
    requires TrimmedAt(s, i, j)
    ensures Trim(s) == s[i..j]
  {
  }

  /** Trimming an already trimmed string changes nothing. */
  lemma TrimIdempotent(s: string)
    ensures Trim(Trim(s)) == Trim(s)
  {
  }

  /** Padding made of trimmable characters on either side is removed by Trim. */
  lemma TrimRemovesPadding(p: string, m: string, q: string)
    requires Blank(p) && Blank(q) && Tight(m)
    ensures Trim(p + m + q) == m
  {
    var s := p + m + q;
    assert s[|p|..|p| + |m|] == m;
    TrimUnique(s, |p|, |p| + |m|);
  }
}
