/** `Array.prototype.filter` and the facts about it that the ledger and the list page use. */
module Seqs {

  /** The elements of `s` that satisfy `p`, in their original order. */
  function Filter<T>(p: T -> bool, s: seq<T>): (r: seq<T>)
    ensures |r| <= |s|
  {
    if s == [] then [] else (if p(s[0]) then [s[0]] else []) + Filter(p, s[1..])
  }

  /** Everything kept comes from the input and satisfies `p`. */
  lemma {:induction false} FilterSound<T>(p: T -> bool, s: seq<T>)
    ensures forall i :: 0 <= i < |Filter(p, s)| ==> Filter(p, s)[i] in s && p(Filter(p, s)[i])
  {
    if s != [] {
      FilterSound(p, s[1..]);
      var r := Filter(p, s[1..]);
      assert forall i :: 0 <= i < |r| ==> r[i] in s;
    }
  }

  /** Every element of the input that satisfies `p` is kept. */
  lemma {:induction false} FilterComplete<T>(p: T -> bool, s: seq<T>)
    ensures forall i :: 0 <= i < |s| && p(s[i]) ==> s[i] in Filter(p, s)
  {
    if s != [] {
      FilterComplete(p, s[1..]);
      assert forall i :: 1 <= i < |s| ==> s[i] == s[1..][i - 1];
    }
  }

  /** Filtering works piece by piece: this is what "keeps the rest in order" means. */
  lemma {:induction false} FilterAppend<T>(p: T -> bool, a: seq<T>, b: seq<T>)
    ensures Filter(p, a + b) == Filter(p, a) + Filter(p, b)
  {
    if a == [] {
      assert a + b == b;
    } else {
      var c, h := a + b, if p(a[0]) then [a[0]] else [];
      assert c[0] == a[0] && c[1..] == a[1..] + b;
      assert Filter(p, c) == h + Filter(p, a[1..] + b);
      assert Filter(p, a) == h + Filter(p, a[1..]);
      FilterAppend(p, a[1..], b);
    }
  }

  /** When every element passes, filtering removes nothing. */
  lemma {:induction false} FilterKeepsAll<T>(p: T -> bool, s: seq<T>)
    requires forall i :: 0 <= i < |s| ==> p(s[i])
    ensures Filter(p, s) == s
  {
    if s != [] {
      FilterKeepsAll(p, s[1..]);
    }
  }

  /** When exactly one position fails `p`, filtering removes exactly that element. */
  lemma {:induction false} FilterRemovesOne<T>(p: T -> bool, s: seq<T>, k: nat)
    requires k < |s| && !p(s[k])
    requires forall i :: 0 <= i < |s| && i != k ==> p(s[i])
    ensures Filter(p, s) == s[..k] + s[k + 1..]
  {
    if k == 0 {
      FilterKeepsAll(p, s[1..]);
    } else {
      var t := s[1..];
      assert p(s[0]);
      assert Filter(p, s) == [s[0]] + Filter(p, t);
      FilterRemovesOne(p, t, k - 1);
      assert t[..k - 1] == s[1..k] && t[k..] == s[k + 1..];
      assert s[..k] == [s[0]] + s[1..k];
    }
  }
}
