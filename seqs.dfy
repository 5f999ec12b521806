/** Order-preserving filtering of sequences, the way Kotlin's `List.filter`
    builds a new list, and the facts the note screen relies on: membership,
    multiplicity, order, and splitting a list by a predicate and its negation. */
module Seqs {

  /** The elements of `s` that satisfy `p`, in their original order. */
  function Filter<T(!new)>(s: seq<T>, p: T -> bool): (r: seq<T>)
    ensures |r| <= |s|
    ensures forall x :: x in r <==> x in s && p(x)
    ensures multiset(r) <= multiset(s)
  {
    if s == [] then []
    else
      assert s == [s[0]] + s[1..];
      if p(s[0]) then [s[0]] + Filter(s[1..], p) else Filter(s[1..], p)
  }

  /** `s` is an interleaving of `a` and `b`: walking `s` front to back, each
      element is the next unused element of exactly one of `a` and `b`, and
      both are used up at the end. So `a` and `b` are subsequences of `s` that
      keep its order, and every position of `s` belongs to exactly one of them. */
  ghost predicate Interleaves<T(!new)>(s: seq<T>, a: seq<T>, b: seq<T>)
    decreases |s|
  {
    if s == [] then a == [] && b == []
    else
      || (a != [] && a[0] == s[0] && Interleaves(s[1..], a[1..], b))
      || (b != [] && b[0] == s[0] && Interleaves(s[1..], a, b[1..]))
  }

  /** An interleaving loses and duplicates nothing. */
  lemma {:induction false} InterleavesCounts<T(!new)>(s: seq<T>, a: seq<T>, b: seq<T>)
    requires Interleaves(s, a, b)
    ensures |s| == |a| + |b|
    ensures multiset(s) == multiset(a) + multiset(b)
  {
    if s != [] {
      assert s == [s[0]] + s[1..];
      if a != [] && a[0] == s[0] && Interleaves(s[1..], a[1..], b) {
        InterleavesCounts(s[1..], a[1..], b);
        assert a == [a[0]] + a[1..];
      } else {
        InterleavesCounts(s[1..], a, b[1..]);
        assert b == [b[0]] + b[1..];
      }
    }
  }

  /** Filtering by a predicate and by its negation splits the list into two
      order-preserving parts that together hold every element exactly once. */
  lemma {:induction false} FilterSplits<T(!new)>(s: seq<T>, p: T -> bool, q: T -> bool)
    requires forall x :: q(x) == !p(x)
    ensures Interleaves(s, Filter(s, p), Filter(s, q))
  {
    if s != [] {
      FilterSplits(s[1..], p, q);
    }
  }

  /** A predicate that holds of no element of `s` selects nothing. */
  lemma {:induction false} FilterNone<T(!new)>(s: seq<T>, p: T -> bool)
    requires forall x :: x in s ==> !p(x)
    ensures Filter(s, p) == []
  {
    if s != [] {
      FilterNone(s[1..], p);
    }
  }

  /** Filtering an already filtered list by the same predicate changes nothing. */
  lemma {:induction false} FilterIdempotent<T(!new)>(s: seq<T>, p: T -> bool)
    ensures Filter(Filter(s, p), p) == Filter(s, p)
  {
    if s != [] {
      FilterIdempotent(s[1..], p);
      if p(s[0]) {
        assert Filter(s, p)[1..] == Filter(s[1..], p);
      }
    }
  }

  /** Two predicates that agree on the elements of `s` select the same list. */
  lemma {:induction false} FilterCongruent<T(!new)>(s: seq<T>, p: T -> bool, q: T -> bool)
    requires forall x :: x in s ==> p(x) == q(x)
    ensures Filter(s, p) == Filter(s, q)
  {
    if s != [] {
      FilterCongruent(s[1..], p, q);
    }
  }

  /** Filtering twice is filtering once by the conjunction. */
  lemma {:induction false} FilterFuse<T(!new)>(s: seq<T>, p: T -> bool, q: T -> bool, r: T -> bool)
    requires forall x :: r(x) == (p(x) && q(x))
    ensures Filter(Filter(s, p), q) == Filter(s, r)
  {
    if s != [] {
      FilterFuse(s[1..], p, q, r);
      if p(s[0]) {
        assert Filter(s, p)[1..] == Filter(s[1..], p);
      }
    }
  }
}
