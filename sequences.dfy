/** Order-preserving selection from a sequence (Python's `filter`) and what it keeps. */
module Sequences {

  /** The elements of `s` for which `keep` holds, in their original order. */
  function Filter<T(!new)>(s: seq<T>, keep: T -> bool): (r: seq<T>)
    ensures |r| <= |s|
    ensures forall x :: x in r <==> x in s && keep(x)
  {
    if s == [] then []
    else
      assert s == s[..|s| - 1] + [s[|s| - 1]];
      Filter(s[..|s| - 1], keep) + (if keep(s[|s| - 1]) then [s[|s| - 1]] else [])
  }

  /** Filtering a sequence extended by one element extends the filter by that element if it is kept. */
  lemma FilterSnoc<T(!new)>(s: seq<T>, x: T, keep: T -> bool)
    ensures Filter(s + [x], keep) == Filter(s, keep) + (if keep(x) then [x] else [])
  {
    assert (s + [x])[..|s + [x]| - 1] == s;
  }

  /** A filter that keeps nothing of `s` is empty. */
  lemma {:induction false} FilterNoneKept<T(!new)>(s: seq<T>, keep: T -> bool)
    requires forall x :: x in s ==> !keep(x)
    ensures Filter(s, keep) == []
  {
    if s != [] {
      assert forall x :: x in s[..|s| - 1] ==> x in s;
      FilterNoneKept(s[..|s| - 1], keep);
    }
  }

  /** `idx` places the elements of `xs`, in order, at increasing positions of `ys`. */
  ghost predicate Embedding<T(!new)>(idx: seq<nat>, xs: seq<T>, ys: seq<T>) {
    && |idx| == |xs|
    && (forall k :: 0 <= k < |idx| ==> idx[k] < |ys| && xs[k] == ys[idx[k]])
    && (forall k, l :: 0 <= k < l < |idx| ==> idx[k] < idx[l])
  }

  /** `xs` is `ys` with some elements left out and the rest kept in order. */
  ghost predicate IsSubsequence<T(!new)>(xs: seq<T>, ys: seq<T>) {
    exists idx :: Embedding(idx, xs, ys)
  }

  /** Every sequence is a subsequence of itself. */
  lemma SubsequenceOfItself<T(!new)>(s: seq<T>)
    ensures IsSubsequence(s, s)
  {
    var idx: seq<nat> := seq(|s|, k requires 0 <= k < |s| => k);
    assert Embedding(idx, s, s);
  }

  /** A filter keeps the elements it keeps in their original order. */
  lemma {:induction false} FilterIsSubsequence<T(!new)>(s: seq<T>, keep: T -> bool)
    ensures IsSubsequence(Filter(s, keep), s)
  {
    var idx := FilterEmbedding(s, keep);
  }

  lemma {:induction false} FilterEmbedding<T(!new)>(s: seq<T>, keep: T -> bool) returns (idx: seq<nat>)
    ensures Embedding(idx, Filter(s, keep), s)
    ensures forall k :: 0 <= k < |idx| ==> idx[k] < |s|
  {
    if s == [] {
      idx := [];
    } else {
      var init, last := s[..|s| - 1], s[|s| - 1];
      var prev := FilterEmbedding(init, keep);
      if keep(last) {
        idx := prev + [|s| - 1];
        assert Filter(s, keep) == Filter(init, keep) + [last];
      } else {
        idx := prev;
        assert Filter(s, keep) == Filter(init, keep);
      }
    }
  }

  /** Each occurrence of a kept element in `s` appears exactly once in the filter, and
      a dropped element not at all. */
  lemma {:induction false} FilterMultiplicity<T(!new)>(s: seq<T>, keep: T -> bool, x: T)
    ensures multiset(Filter(s, keep))[x] == if keep(x) then multiset(s)[x] else 0
  {
    if s != [] {
      var init, last := s[..|s| - 1], s[|s| - 1];
      assert s == init + [last];
      FilterMultiplicity(init, keep, x);
    }
  }

  /** Filters that agree on every element select the same sub-sequence. */
  lemma {:induction false} FilterCongruent<T(!new)>(s: seq<T>, p: T -> bool, q: T -> bool)
    requires forall x :: x in s ==> p(x) == q(x)
    ensures Filter(s, p) == Filter(s, q)
  {
    if s != [] {
      var init := s[..|s| - 1];
      assert forall x :: x in init ==> x in s;
      FilterCongruent(init, p, q);
    }
  }

  /** Filtering twice is filtering once by both conditions. */
  lemma {:induction false} FilterTwice<T(!new)>(s: seq<T>, p: T -> bool, q: T -> bool, both: T -> bool)
    requires forall x :: x in s ==> both(x) == (p(x) && q(x))
    ensures Filter(Filter(s, p), q) == Filter(s, both)
  {
    if s != [] {
      var init, last := s[..|s| - 1], s[|s| - 1];
      assert s == init + [last];
      assert forall x :: x in init ==> x in s;
      FilterTwice(init, p, q, both);
      var inner := Filter(init, p);
      assert Filter(s, both) == Filter(init, both) + (if both(last) then [last] else []);
      if p(last) {
        var outer := inner + [last];
        assert Filter(s, p) == outer;
        assert outer[..|outer| - 1] == inner && outer[|outer| - 1] == last;
        assert Filter(outer, q) == Filter(inner, q) + (if q(last) then [last] else []);
      } else {
        assert Filter(s, p) == inner;
      }
    }
  }
}
