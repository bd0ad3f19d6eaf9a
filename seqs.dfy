/** Sequence combinators that mirror JavaScript's Array.prototype.filter,
    map and reduce, with the facts about them the services rely on. */
module Seqs {

  /** `s.filter(p)`: the elements of `s` satisfying `p`, in their original order. */
  function Filter<T(!new)>(p: T -> bool, s: seq<T>): (r: seq<T>)
    ensures |r| <= |s|
    ensures forall x :: x in r <==> x in s && p(x)
  {
    if s == [] then []
    else if p(s[0]) then [s[0]] + Filter(p, s[1..])
    else Filter(p, s[1..])
  }

  /** `s.map(f)`. */
  function Map<T, U>(f: T -> U, s: seq<T>): (r: seq<U>)
    ensures |r| == |s|
    ensures forall i :: 0 <= i < |s| ==> r[i] == f(s[i])
  {
    if s == [] then [] else [f(s[0])] + Map(f, s[1..])
  }

  /** `s.reduce((acc, x) => acc + f(x), 0)` over exact numbers. */
  function Sum<T>(f: T -> real, s: seq<T>): real
  {
    if s == [] then 0.0 else f(s[0]) + Sum(f, s[1..])
  }

  /** Filtering twice is filtering once by the conjunction, keeping the order. */
  lemma {:induction false} FilterFusion<T(!new)>(p: T -> bool, q: T -> bool, pq: T -> bool, s: seq<T>)
    requires forall x :: pq(x) == (p(x) && q(x))
    ensures Filter(q, Filter(p, s)) == Filter(pq, s)
  {
    if s != [] {
      FilterFusion(p, q, pq, s[1..]);
    }
  }

  /** Summing over a filtered sequence is summing `f` where `p` holds and 0 elsewhere. */
  lemma {:induction false} SumFilter<T(!new)>(p: T -> bool, f: T -> real, g: T -> real, s: seq<T>)
    requires forall x :: g(x) == (if p(x) then f(x) else 0.0)
    ensures Sum(f, Filter(p, s)) == Sum(g, s)
  {
    if s != [] {
      SumFilter(p, f, g, s[1..]);
    }
  }

  /** Sums are linear: the sum of a pointwise difference is the difference of the sums. */
  lemma {:induction false} SumDifference<T>(f: T -> real, g: T -> real, h: T -> real, s: seq<T>)
    requires forall x :: h(x) == f(x) - g(x)
    ensures Sum(h, s) == Sum(f, s) - Sum(g, s)
  {
    if s != [] {
      SumDifference(f, g, h, s[1..]);
    }
  }
}
