/**
  Array.prototype.filter, the one list operation the pages in this model are
  built from (search results, the active/archived partition, delete-by-id,
  the per-volume document list and the status tallies), with the facts about
  it that those pages rely on: it keeps exactly the elements that pass, in
  their original order, and a filter and its complement split a list.
 */
module Seqs {

  /** The elements of `s` that satisfy `p`, in the order of `s`. */
  function Filter<T>(s: seq<T>, p: T -> bool): (r: seq<T>)
    ensures |r| <= |s|
    ensures forall x | x in r :: x in s && p(x)
    ensures forall x | x in s && p(x) :: x in r
  {
    if s == [] then []
    else (if p(s[0]) then [s[0]] else []) + Filter(s[1..], p)
  }

  /** `r` can be obtained from `s` by deleting elements (order is kept). */
  predicate IsSubsequence<T(==)>(r: seq<T>, s: seq<T>)
    decreases |s|
  {
    if r == [] then true
    else if s == [] then false
    else (r[0] == s[0] && IsSubsequence(r[1..], s[1..])) || IsSubsequence(r, s[1..])
  }

  lemma {:induction false} FilterIsSubsequence<T>(s: seq<T>, p: T -> bool)
    ensures IsSubsequence(Filter(s, p), s)
  {
    if s != [] {
      FilterIsSubsequence(s[1..], p);
      var rest := Filter(s[1..], p);
      if p(s[0]) {
        assert Filter(s, p) == [s[0]] + rest;
        assert ([s[0]] + rest)[1..] == rest;
      } else {
        assert Filter(s, p) == rest;
        if rest != [] {
          assert IsSubsequence(rest, s[1..]);
        }
      }
    }
  }

  /** Filtering a concatenation filters each part. */
  lemma {:induction false} FilterConcat<T>(a: seq<T>, b: seq<T>, p: T -> bool)
    ensures Filter(a + b, p) == Filter(a, p) + Filter(b, p)
  {
    if a != [] {
      assert (a + b)[0] == a[0];
      assert (a + b)[1..] == a[1..] + b;
      FilterConcat(a[1..], b, p);
    } else {
      assert a + b == b;
    }
  }

  /** Filters whose tests agree on the elements of the list keep the same elements. */
  lemma {:induction false} FilterAgree<T>(s: seq<T>, p: T -> bool, q: T -> bool)
    requires forall x | x in s :: p(x) == q(x)
    ensures Filter(s, p) == Filter(s, q)
  {
    if s != [] {
      assert forall x | x in s[1..] :: x in s;
      FilterAgree(s[1..], p, q);
    }
  }

  /** A filter that every element passes keeps the whole list. */
  lemma {:induction false} FilterKeepsAll<T>(s: seq<T>, p: T -> bool)
    requires forall x | x in s :: p(x)
    ensures Filter(s, p) == s
  {
    if s != [] {
      assert forall x | x in s[1..] :: x in s;
      FilterKeepsAll(s[1..], p);
    }
  }

  /** A filter that no element passes leaves nothing. */
  lemma {:induction false} FilterKeepsNone<T>(s: seq<T>, p: T -> bool)
    requires forall x | x in s :: !p(x)
    ensures Filter(s, p) == []
  {
    if s != [] {
      assert forall x | x in s[1..] :: x in s;
      FilterKeepsNone(s[1..], p);
    }
  }

  /**
    A filter and its complement partition the list: together they hold every
    element exactly as often as the list does.
   */
  lemma {:induction false} FilterPartition<T>(s: seq<T>, p: T -> bool, q: T -> bool)
    requires forall x | x in s :: q(x) == !p(x)
    ensures multiset(Filter(s, p)) + multiset(Filter(s, q)) == multiset(s)
    ensures |Filter(s, p)| + |Filter(s, q)| == |s|
  {
    if s != [] {
      var rest := s[1..];
      assert forall y | y in rest :: y in s;
      FilterPartition(rest, p, q);
      FilterStep(s, p, q);
    }
  }

  /** One element: it goes to exactly one of the two filters. */
  lemma FilterStep<T>(s: seq<T>, p: T -> bool, q: T -> bool)
    requires s != [] && q(s[0]) == !p(s[0])
    ensures multiset(Filter(s, p)) + multiset(Filter(s, q))
         == multiset([s[0]]) + multiset(Filter(s[1..], p)) + multiset(Filter(s[1..], q))
    ensures |Filter(s, p)| + |Filter(s, q)| == 1 + |Filter(s[1..], p)| + |Filter(s[1..], q)|
    ensures multiset(s) == multiset([s[0]]) + multiset(s[1..])
  {
    assert s == [s[0]] + s[1..];
    if p(s[0]) {
      assert Filter(s, p) == [s[0]] + Filter(s[1..], p);
      assert Filter(s, q) == Filter(s[1..], q);
    } else {
      assert Filter(s, p) == Filter(s[1..], p);
      assert Filter(s, q) == [s[0]] + Filter(s[1..], q);
    }
  }
}
