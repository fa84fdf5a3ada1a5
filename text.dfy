/**
 * The two string normalisations the system relies on: JavaScript's
 * `String.prototype.trim` (also applied by `Number(...)` before parsing, and by
 * the Mongoose `trim` setter) and `toLowerCase` (the Mongoose `lowercase` setter
 * and the login lookup).
 */
module Text {

  /** White space as `trim` sees it, restricted to the characters below U+0100 and the byte-order mark. */
  predicate IsSpace(c: char) {
    c == ' ' || c == '\t' || c == '\n' || c == '\r' || c == '\U{B}' || c == '\U{C}'
    || c == '\U{A0}' || c == '\U{FEFF}'
  }

  /** No white space at either end. */
  predicate IsTrimmed(s: string) {
    s == [] || (!IsSpace(s[0]) && !IsSpace(s[|s| - 1]))
  }

  /** `r` is the slice of `s` starting at `k`, and everything of `s` before and after it is white space. */
  predicate CutsSpaces(s: string, k: nat, r: string) {
    && k + |r| <= |s| && r == s[k..k + |r|]
    && (forall i :: 0 <= i < k ==> IsSpace(s[i]))
    && (forall i :: k + |r| <= i < |s| ==> IsSpace(s[i]))
  }

  /** Drops leading white space: the result is a suffix of `s` and only spaces were dropped. */
  function TrimStart(s: string): (r: string)
    ensures |r| <= |s| && r == s[|s| - |r|..]
    ensures r == [] || !IsSpace(r[0])
    ensures forall i :: 0 <= i < |s| - |r| ==> IsSpace(s[i])
  {
    if s != [] && IsSpace(s[0]) then
      var r := TrimStart(s[1..]);
      assert forall i :: 1 <= i < |s| ==> s[i] == s[1..][i - 1];
      r
    else s
  }

  /** Drops trailing white space: the result is a prefix of `s` and only spaces were dropped. */
  function TrimEnd(s: string): (r: string)
    ensures |r| <= |s| && r == s[..|r|]
    ensures r == [] || !IsSpace(r[|r| - 1])
    ensures forall i :: |r| <= i < |s| ==> IsSpace(s[i])
  {
    if s != [] && IsSpace(s[|s| - 1]) then
      var r := TrimEnd(s[..|s| - 1]);
      assert forall i :: 0 <= i < |s| - 1 ==> s[i] == s[..|s| - 1][i];
      r
    else s
  }

  /**
   * `s.trim()`: the result is a slice of `s` with no white space at its ends,
   * and everything cut off before and after it is white space; a trimmed string
   * is left alone.
   */
  function Trim(s: string): (r: string)
    ensures |r| <= |s|
    ensures IsTrimmed(r)
    ensures exists k :: CutsSpaces(s, k, r)
    ensures IsTrimmed(s) ==> r == s
  {
    TrimBothEnds(s, TrimStart(s), TrimEnd(TrimStart(s)));
    TrimEnd(TrimStart(s))
  }

  /**
   * Cutting the leading white space (leaving `a`) and then the trailing white
   * space (leaving `r`) cuts only white space around a trimmed slice.
   */
  lemma TrimBothEnds(s: string, a: string, r: string)
    requires |a| <= |s| && a == s[|s| - |a|..] && (a == [] || !IsSpace(a[0]))
    requires forall i :: 0 <= i < |s| - |a| ==> IsSpace(s[i])
    requires |r| <= |a| && r == a[..|r|] && (r == [] || !IsSpace(r[|r| - 1]))
    requires forall i :: |r| <= i < |a| ==> IsSpace(a[i])
    ensures CutsSpaces(s, |s| - |a|, r)
    ensures IsTrimmed(r)
  {
    TrimSlice(s, a, r);
    TrimTail(s, a, r);
    TrimHead(a, r);
    CutsSpacesIntro(s, |s| - |a|, r);
  }

  lemma CutsSpacesIntro(s: string, k: nat, r: string)
    requires k + |r| <= |s| && r == s[k..k + |r|]
    requires forall i :: 0 <= i < k ==> IsSpace(s[i])
    requires forall i :: k + |r| <= i < |s| ==> IsSpace(s[i])
    ensures CutsSpaces(s, k, r)
  {
  }

  lemma TrimSlice(s: string, a: string, r: string)
    requires |a| <= |s| && a == s[|s| - |a|..]
    requires |r| <= |a| && r == a[..|r|]
    ensures r == s[|s| - |a|..|s| - |a| + |r|]
  {
  }

  lemma TrimTail(s: string, a: string, r: string)
    requires |a| <= |s| && a == s[|s| - |a|..]
    requires |r| <= |a| && forall j :: |r| <= j < |a| ==> IsSpace(a[j])
    ensures forall i :: |s| - |a| + |r| <= i < |s| ==> IsSpace(s[i])
  {
    var k := |s| - |a|;
    forall i | k + |r| <= i < |s| ensures IsSpace(s[i]) {
      assert s[i] == a[i - k];
    }
  }

  lemma TrimHead(a: string, r: string)
    requires a == [] || !IsSpace(a[0])
    requires |r| <= |a| && r == a[..|r|]
    requires r == [] || !IsSpace(r[|r| - 1])
    ensures IsTrimmed(r)
  {
    if r != [] {
      assert r[0] == a[0];
    }
  }

  /** Upper-case ASCII letter. */
  predicate IsUpper(c: char) {
    'A' <= c <= 'Z'
  }

  function LowerChar(c: char): (d: char)
    ensures !IsUpper(d)
    ensures !IsUpper(c) ==> d == c
  {
    if IsUpper(c) then (c as int + 32) as char else c
  }

  /** No upper-case letter anywhere. */
  predicate IsLower(s: string) {
    forall i :: 0 <= i < |s| ==> !IsUpper(s[i])
  }

  /**
   * `s.toLowerCase()` on ASCII letters: same length, letter by letter, the
   * result is lower case and a lower-case string is unchanged (so lowering twice
   * is lowering once).
   */
  function Lower(s: string): (r: string)
    ensures |r| == |s|
    ensures forall i :: 0 <= i < |s| ==> r[i] == LowerChar(s[i])
    ensures IsLower(r)
    ensures IsLower(s) ==> r == s
  {
    if s == [] then [] else [LowerChar(s[0])] + Lower(s[1..])
  }
}
