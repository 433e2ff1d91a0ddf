/** `Array.prototype.filter` and the order facts the filter pipeline needs. */
module Sequences {

  /** `s.filter(p)`: the elements of `s` that satisfy `p`, in their original order. */
  function Select<T(==)>(s: seq<T>, p: T -> bool): (r: seq<T>)
    ensures |r| <= |s|
    ensures forall i :: 0 <= i < |r| ==> p(r[i])
    ensures forall x :: x in r ==> x in s && p(x)
    ensures forall x :: x in s && p(x) ==> x in r
    decreases |s|
  {
    if s == [] then [] else (if p(s[0]) then [s[0]] else []) + Select(s[1..], p)
  }

  /** `r` can be obtained from `s` by deleting elements: order kept, nothing added. */
  predicate IsSubsequence<T(==)>(r: seq<T>, s: seq<T>)
    decreases |s|
  {
    r == [] || (s != [] && ((r[0] == s[0] && IsSubsequence(r[1..], s[1..])) || IsSubsequence(r, s[1..])))
  }

  /** Filtering keeps the input order and adds nothing. */
  lemma {:induction false} SelectIsSubsequence<T>(s: seq<T>, p: T -> bool)
    ensures IsSubsequence(Select(s, p), s)
    decreases |s|
  {
    if s != [] {
      SelectIsSubsequence(s[1..], p);
      var r := Select(s, p);
      if p(s[0]) {
        assert r[0] == s[0] && r[1..] == Select(s[1..], p);
      } else {
        assert r == Select(s[1..], p);
      }
    }
  }

  /** Two filters in a row are one filter by the conjunction of their tests. */
  lemma {:induction false} SelectFuse<T>(s: seq<T>, p: T -> bool, q: T -> bool, pq: T -> bool)
    requires forall x :: pq(x) == (p(x) && q(x))
    ensures Select(Select(s, p), q) == Select(s, pq)
    decreases |s|
  {
    if s != [] {
      SelectFuse(s[1..], p, q, pq);
      var ps := Select(s, p);
      if p(s[0]) {
        assert ps[0] == s[0] && ps[1..] == Select(s[1..], p);
      } else {
        assert ps == Select(s[1..], p);
      }
    }
  }

  /** A filter whose test every element passes changes nothing. */
  lemma {:induction false} SelectKeepsAll<T>(s: seq<T>, p: T -> bool)
    requires forall i :: 0 <= i < |s| ==> p(s[i])
    ensures Select(s, p) == s
    decreases |s|
  {
    if s != [] {
      SelectKeepsAll(s[1..], p);
      assert [s[0]] + s[1..] == s;
    }
  }
}
