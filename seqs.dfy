/** Generic sequence operations that the views and the store are built from:
    the array `filter`, `map` and `reduce` of the source, written once. */
module Seqs {

  /** The elements of `s` that satisfy `p`, in their original order. */
  function Filter<T>(s: seq<T>, p: T -> bool): (r: seq<T>)
    ensures |r| <= |s|
    ensures forall i :: 0 <= i < |r| ==> p(r[i]) && r[i] in s
    ensures forall i :: 0 <= i < |s| && p(s[i]) ==> s[i] in r
  {
    if s == [] then []
    else if p(s[0]) then [s[0]] + Filter(s[1..], p)
    else Filter(s[1..], p)
  }

  /** Filtering commutes with concatenation, so it never reorders elements. */
  lemma {:induction false} FilterAppend<T>(s: seq<T>, t: seq<T>, p: T -> bool)
    ensures Filter(s + t, p) == Filter(s, p) + Filter(t, p)
  {
    if s == [] {
      assert s + t == t;
    } else {
      assert (s + t)[1..] == s[1..] + t;
      FilterAppend(s[1..], t, p);
    }
  }

  /** The same head in front of two sequences adds the same to both filters. */
  lemma FilterConsBoth<T>(a: T, s: seq<T>, t: seq<T>, extra: seq<T>, p: T -> bool)
    requires Filter(s, p) == Filter(t, p) + extra
    ensures Filter([a] + s, p) == Filter([a] + t, p) + extra
  {
    var head := if p(a) then [a] else [];
    assert Filter([a] + s, p) == head + Filter(s, p) by {
      assert ([a] + s)[0] == a && ([a] + s)[1..] == s;
    }
    assert Filter([a] + t, p) == head + Filter(t, p) by {
      assert ([a] + t)[0] == a && ([a] + t)[1..] == t;
    }
    AppendAssoc(head, Filter(t, p), extra);
  }

  lemma AppendAssoc<T>(a: seq<T>, b: seq<T>, c: seq<T>)
    ensures a + (b + c) == (a + b) + c
  {
  }

  /** A filter whose predicate holds everywhere keeps the whole sequence. */
  lemma {:induction false} FilterKeepsAll<T>(s: seq<T>, p: T -> bool)
    requires forall i :: 0 <= i < |s| ==> p(s[i])
    ensures Filter(s, p) == s
  {
    if s != [] {
      FilterKeepsAll(s[1..], p);
    }
  }

  /** A filter whose predicate holds nowhere keeps nothing. */
  lemma {:induction false} FilterKeepsNone<T>(s: seq<T>, p: T -> bool)
    requires forall i :: 0 <= i < |s| ==> !p(s[i])
    ensures Filter(s, p) == []
  {
    if s != [] {
      FilterKeepsNone(s[1..], p);
    }
  }

  /** Filtering twice is filtering by the conjunction `pq`. */
  lemma {:induction false} FilterFilter<T>(s: seq<T>, p: T -> bool, q: T -> bool, pq: T -> bool)
    requires forall x :: pq(x) == (p(x) && q(x))
    ensures Filter(Filter(s, p), q) == Filter(s, pq)
  {
    if s != [] {
      FilterFilter(s[1..], p, q, pq);
    }
  }

  /** Two predicates that never hold together select at most |s| elements in all. */
  lemma {:induction false} FilterDisjointLength<T>(s: seq<T>, p: T -> bool, q: T -> bool)
    requires forall x :: !(p(x) && q(x))
    ensures |Filter(s, p)| + |Filter(s, q)| == |Filter(s, x => p(x) || q(x))| <= |s|
  {
    if s != [] {
      FilterDisjointLength(s[1..], p, q);
    }
  }

  /** `f` applied to every element, in order. */
  function Map<T, U>(s: seq<T>, f: T -> U): (r: seq<U>)
    ensures |r| == |s|
    ensures forall i :: 0 <= i < |s| ==> r[i] == f(s[i])
  {
    if s == [] then [] else [f(s[0])] + Map(s[1..], f)
  }

  /** The sum of `f` over `s` (a `reduce` starting from 0). */
  function Sum<T>(s: seq<T>, f: T -> real): real
  {
    if s == [] then 0.0 else f(s[0]) + Sum(s[1..], f)
  }

  /** The integer sum of `f` over `s`. */
  function SumInt<T>(s: seq<T>, f: T -> int): int
  {
    if s == [] then 0 else f(s[0]) + SumInt(s[1..], f)
  }

  lemma {:induction false} SumAppend<T>(s: seq<T>, t: seq<T>, f: T -> real)
    ensures Sum(s + t, f) == Sum(s, f) + Sum(t, f)
  {
    if s == [] {
      assert s + t == t;
    } else {
      assert (s + t)[1..] == s[1..] + t;
      SumAppend(s[1..], t, f);
    }
  }

  lemma {:induction false} SumIntAppend<T>(s: seq<T>, t: seq<T>, f: T -> int)
    ensures SumInt(s + t, f) == SumInt(s, f) + SumInt(t, f)
  {
    if s == [] {
      assert s + t == t;
    } else {
      assert (s + t)[1..] == s[1..] + t;
      SumIntAppend(s[1..], t, f);
    }
  }

  /** A sum of non-negative terms is non-negative. */
  lemma {:induction false} SumNonNegative<T>(s: seq<T>, f: T -> real)
    requires forall i :: 0 <= i < |s| ==> f(s[i]) >= 0.0
    ensures Sum(s, f) >= 0.0
  {
    if s != [] {
      SumNonNegative(s[1..], f);
    }
  }

  /** Over non-negative terms, the sums over two disjoint filters stay below the whole sum. */
  lemma {:induction false} SumDisjointFilters<T>(s: seq<T>, p: T -> bool, q: T -> bool, f: T -> real)
    requires forall x :: !(p(x) && q(x))
    requires forall i :: 0 <= i < |s| ==> f(s[i]) >= 0.0
    ensures Sum(Filter(s, p), f) + Sum(Filter(s, q), f) <= Sum(s, f)
  {
    if s != [] {
      SumDisjointFilters(s[1..], p, q, f);
    }
  }
}
