/** Generic sequence operations shared by the form components: the
    `Array.prototype.filter` the forms use to prune and to search, the
    "remove one element at an index" that `splice(index, 1)` performs,
    and the subsequence relation that states what a filter keeps. */
module Sequences {

  /** `s.filter(p)`: the elements of `s` that satisfy `p`, in their order. */
  function Filter<T>(p: T -> bool, s: seq<T>): (r: seq<T>)
    ensures |r| <= |s|
    decreases |s|
  {
    if s == [] then []
    else if p(s[0]) then [s[0]] + Filter(p, s[1..])
    else Filter(p, s[1..])
  }

  /** `a` can be obtained from `b` by deleting elements: the order of what
      remains is that of `b`. */
  predicate IsSubseq<T(==)>(a: seq<T>, b: seq<T>)
    decreases |b|
  {
    if b == [] then a == []
    else (a != [] && a[0] == b[0] && IsSubseq(a[1..], b[1..])) || IsSubseq(a, b[1..])
  }

  /** `s.splice(i, 1)` on a copy of `s`, for an index inside the list. */
  function RemoveAt<T>(s: seq<T>, i: nat): (r: seq<T>)
    requires i < |s|
    ensures |r| == |s| - 1
    ensures forall j :: 0 <= j < i ==> r[j] == s[j]
    ensures forall j :: i <= j < |r| ==> r[j] == s[j + 1]
  {
    s[..i] + s[i + 1..]
  }

  /** Removing at `i` takes away exactly one occurrence of `s[i]`. */
  lemma RemoveAtMultiset<T>(s: seq<T>, i: nat)
    requires i < |s|
    ensures multiset(RemoveAt(s, i)) + multiset{s[i]} == multiset(s)
  {
    assert s == s[..i] + [s[i]] + s[i + 1..];
  }

  /** Soundness and completeness of a filter: an element is kept if and
      only if it occurs in the input and satisfies the predicate. */
  lemma {:induction false} FilterMembership<T>(p: T -> bool, s: seq<T>, x: T)
    ensures x in Filter(p, s) <==> x in s && p(x)
    decreases |s|
  {
    if s != [] {
      FilterMembership(p, s[1..], x);
      assert s == [s[0]] + s[1..];
    }
  }

  /** A filter keeps every occurrence of an element that satisfies the
      predicate and no occurrence of one that does not. */
  lemma {:induction false} FilterCount<T>(p: T -> bool, s: seq<T>)
    ensures forall x :: multiset(Filter(p, s))[x] == if p(x) then multiset(s)[x] else 0
    decreases |s|
  {
    if s != [] {
      FilterCount(p, s[1..]);
      assert s == [s[0]] + s[1..];
    }
  }

  /** The membership law of a filter, for every element at once. */
  lemma FilterMembershipAll<T>(p: T -> bool, s: seq<T>)
    ensures forall x :: x in Filter(p, s) <==> x in s && p(x)
  {
    forall x ensures x in Filter(p, s) <==> x in s && p(x) {
      FilterMembership(p, s, x);
    }
  }

  /** Every element a filter keeps satisfies the predicate. */
  lemma FilterSound<T>(p: T -> bool, s: seq<T>)
    ensures forall x :: x in Filter(p, s) ==> x in s && p(x)
  {
    forall x | x in Filter(p, s) ensures x in s && p(x) {
      FilterMembership(p, s, x);
    }
  }

  /** A filter drops nothing that satisfies the predicate. */
  lemma FilterComplete<T>(p: T -> bool, s: seq<T>)
    ensures forall x :: x in s && p(x) ==> x in Filter(p, s)
  {
    forall x | x in s && p(x) ensures x in Filter(p, s) {
      FilterMembership(p, s, x);
    }
  }

  /** A filter keeps the relative order of what it keeps. */
  lemma {:induction false} FilterIsSubseq<T>(p: T -> bool, s: seq<T>)
    ensures IsSubseq(Filter(p, s), s)
    decreases |s|
  {
    if s != [] {
      FilterIsSubseq(p, s[1..]);
      if p(s[0]) {
        assert Filter(p, s)[1..] == Filter(p, s[1..]);
      }
    }
  }

  /** Filters by predicates that agree on every element agree. */
  lemma {:induction false} FilterSamePredicate<T>(p: T -> bool, q: T -> bool, s: seq<T>)
    requires forall k :: 0 <= k < |s| ==> p(s[k]) == q(s[k])
    ensures Filter(p, s) == Filter(q, s)
    decreases |s|
  {
    if s != [] {
      assert p(s[0]) == q(s[0]);
      FilterSamePredicate(p, q, s[1..]);
    }
  }

  /** A filter whose predicate holds of every element changes nothing. */
  lemma {:induction false} FilterKeepsAll<T>(p: T -> bool, s: seq<T>)
    requires forall k :: 0 <= k < |s| ==> p(s[k])
    ensures Filter(p, s) == s
    decreases |s|
  {
    if s != [] {
      assert p(s[0]);
      FilterKeepsAll(p, s[1..]);
    }
  }

  /** A filter whose predicate holds of no element keeps nothing. */
  lemma {:induction false} FilterDropsAll<T>(p: T -> bool, s: seq<T>)
    requires forall k :: 0 <= k < |s| ==> !p(s[k])
    ensures Filter(p, s) == []
    decreases |s|
  {
    if s != [] {
      assert !p(s[0]);
      FilterDropsAll(p, s[1..]);
    }
  }

  /** Two filters in a row are one filter by the conjunction. */
  lemma {:induction false} FilterFilter<T>(p: T -> bool, q: T -> bool, pq: T -> bool, s: seq<T>)
    requires forall x :: pq(x) == (p(x) && q(x))
    ensures Filter(q, Filter(p, s)) == Filter(pq, s)
    decreases |s|
  {
    if s != [] {
      FilterFilter(p, q, pq, s[1..]);
      if p(s[0]) {
        assert Filter(p, s)[0] == s[0];
        assert Filter(p, s)[1..] == Filter(p, s[1..]);
      }
    }
  }

  /** Filtering a filtered list with the same predicate changes nothing. */
  lemma FilterIdempotent<T>(p: T -> bool, s: seq<T>)
    ensures Filter(p, Filter(p, s)) == Filter(p, s)
  {
    FilterFilter(p, p, p, s);
  }
}
