/** `Array.prototype.filter` and the order-preserving subsequence relation
    that every list page's result stands in to its source list. */
module Seqs {

  /** `r` can be obtained from `s` by deleting elements, keeping the order of the rest. */
  predicate IsSubsequence<T(==)>(r: seq<T>, s: seq<T>)
    decreases |s|
  {
    if r == [] then true
    else if s == [] then false
    else (r[0] == s[0] && IsSubsequence(r[1..], s[1..])) || IsSubsequence(r, s[1..])
  }

  /** `s.filter(keep)`. */
  function Filter<T(==)>(s: seq<T>, keep: T -> bool): (r: seq<T>)
    ensures |r| <= |s|
    ensures IsSubsequence(r, s)
    ensures forall i :: 0 <= i < |r| ==> r[i] in s && keep(r[i])
    ensures forall i :: 0 <= i < |s| && keep(s[i]) ==> s[i] in r
  {
    if s == [] then []
    else if keep(s[0]) then [s[0]] + Filter(s[1..], keep)
    else Filter(s[1..], keep)
  }

  /** The filter keeps every copy of a kept element and no copy of the others. */
  lemma {:induction false} FilterCounts<T>(s: seq<T>, keep: T -> bool)
    ensures forall x :: multiset(Filter(s, keep))[x] == if keep(x) then multiset(s)[x] else 0
  {
    if s != [] {
      assert s == [s[0]] + s[1..];
      FilterCounts(s[1..], keep);
    }
  }

  /** A filter whose predicate holds of every element returns the whole list. */
  lemma {:induction false} FilterKeepsAll<T>(s: seq<T>, keep: T -> bool)
    requires forall i :: 0 <= i < |s| ==> keep(s[i])
    ensures Filter(s, keep) == s
  {
    if s != [] {
      assert forall i :: 0 <= i < |s[1..]| ==> s[1..][i] == s[i + 1];
      FilterKeepsAll(s[1..], keep);
    }
  }

  /** A filter whose predicate holds of no element returns nothing. */
  lemma FilterKeepsNone<T>(s: seq<T>, keep: T -> bool)
    requires forall i :: 0 <= i < |s| ==> !keep(s[i])
    ensures Filter(s, keep) == []
  {
  }

  /** Strengthening the predicate can only drop elements from the result. */
  lemma {:induction false} FilterMonotone<T>(s: seq<T>, strong: T -> bool, weak: T -> bool)
    requires forall x :: strong(x) ==> weak(x)
    ensures IsSubsequence(Filter(s, strong), Filter(s, weak))
  {
    if s != [] {
      FilterMonotone(s[1..], strong, weak);
      var fs, fw := Filter(s[1..], strong), Filter(s[1..], weak);
      if strong(s[0]) {
        assert ([s[0]] + fs)[1..] == fs;
        assert ([s[0]] + fw)[1..] == fw;
      } else if weak(s[0]) {
        assert ([s[0]] + fw)[1..] == fw;
      }
    }
  }

  /** Every element of a subsequence is an element of the sequence. */
  lemma {:induction false} SubsequenceMembers<T>(r: seq<T>, s: seq<T>, x: T)
    requires IsSubsequence(r, s) && x in r
    ensures x in s
    decreases |s|
  {
    if r[0] == s[0] && IsSubsequence(r[1..], s[1..]) {
      if x != r[0] {
        assert x in r[1..];
        SubsequenceMembers(r[1..], s[1..], x);
      }
    } else {
      SubsequenceMembers(r, s[1..], x);
    }
  }

  /** Filtering distributes over concatenation. */
  lemma {:induction false} FilterAppend<T>(a: seq<T>, b: seq<T>, keep: T -> bool)
    ensures Filter(a + b, keep) == Filter(a, keep) + Filter(b, keep)
  {
    if a == [] {
      assert a + b == b;
    } else {
      assert (a + b)[0] == a[0];
      assert (a + b)[1..] == a[1..] + b;
      FilterAppend(a[1..], b, keep);
    }
  }
}
