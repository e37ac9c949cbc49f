/**
 * Folds and filters over sequences: the `reduce`, `filter`, `count()` and
 * `sum()` that the controllers and pages apply to rows and cart lines.
 */
module Seqs {

  /** Sum of `f` over `s`, left to right (`reduce((acc, x) => acc + f(x), 0)`). */
  function Sum<T>(s: seq<T>, f: T -> real): real
  {
    if s == [] then 0.0 else f(s[0]) + Sum(s[1..], f)
  }

  /** Integer version of `Sum`, for quantities. */
  function SumInt<T>(s: seq<T>, f: T -> int): int
  {
    if s == [] then 0 else f(s[0]) + SumInt(s[1..], f)
  }

  /** Number of elements of `s` satisfying `p` (`where(...)->count()`). */
  function Count<T>(s: seq<T>, p: T -> bool): (n: nat)
    ensures n <= |s|
  {
    if s == [] then 0 else (if p(s[0]) then 1 else 0) + Count(s[1..], p)
  }

  /** The elements of `s` satisfying `p`, in their original order. */
  function Filter<T(!new)>(s: seq<T>, p: T -> bool): (r: seq<T>)
    ensures |r| == Count(s, p)
    ensures forall x :: x in r <==> x in s && p(x)
  {
    if s == [] then []
    else if p(s[0]) then [s[0]] + Filter(s[1..], p)
    else Filter(s[1..], p)
  }

  /** Applies `f` to every element, keeping order and length. */
  function Map<T, U>(s: seq<T>, f: T -> U): (r: seq<U>)
    ensures |r| == |s|
    ensures forall i :: 0 <= i < |s| ==> r[i] == f(s[i])
  {
    if s == [] then [] else [f(s[0])] + Map(s[1..], f)
  }

  lemma {:induction false} SumAppend<T>(s: seq<T>, x: T, f: T -> real)
    ensures Sum(s + [x], f) == Sum(s, f) + f(x)
  {
    if s != [] {
      assert (s + [x])[1..] == s[1..] + [x];
      SumAppend(s[1..], x, f);
    }
  }

  lemma {:induction false} SumIntAppend<T>(s: seq<T>, x: T, f: T -> int)
    ensures SumInt(s + [x], f) == SumInt(s, f) + f(x)
  {
    if s != [] {
      assert (s + [x])[1..] == s[1..] + [x];
      SumIntAppend(s[1..], x, f);
    }
  }

  lemma {:induction false} SumNonNegative<T>(s: seq<T>, f: T -> real)
    requires forall i :: 0 <= i < |s| ==> f(s[i]) >= 0.0
    ensures Sum(s, f) >= 0.0
  {
    if s != [] {
      SumNonNegative(s[1..], f);
    }
  }

  /** Summing over a filtered sequence never exceeds the full sum when `f` is non-negative. */
  lemma {:induction false} SumFilterLe<T(!new)>(s: seq<T>, p: T -> bool, f: T -> real)
    requires forall i :: 0 <= i < |s| ==> f(s[i]) >= 0.0
    ensures 0.0 <= Sum(Filter(s, p), f) <= Sum(s, f)
  {
    if s != [] {
      SumFilterLe(s[1..], p, f);
    }
  }

  /** A weaker predicate counts at least as many elements. */
  lemma {:induction false} CountMonotone<T>(s: seq<T>, p: T -> bool, q: T -> bool)
    requires forall i :: 0 <= i < |s| ==> p(s[i]) ==> q(s[i])
    ensures Count(s, p) <= Count(s, q)
  {
    if s != [] {
      CountMonotone(s[1..], p, q);
    }
  }

  lemma {:induction false} SumConcat<T>(a: seq<T>, b: seq<T>, f: T -> real)
    ensures Sum(a + b, f) == Sum(a, f) + Sum(b, f)
  {
    if a != [] {
      assert (a + b)[1..] == a[1..] + b;
      SumConcat(a[1..], b, f);
    } else {
      assert a + b == b;
    }
  }

  lemma {:induction false} FilterConcat<T(!new)>(a: seq<T>, b: seq<T>, p: T -> bool)
    ensures Filter(a + b, p) == Filter(a, p) + Filter(b, p)
  {
    if a != [] {
      assert (a + b)[1..] == a[1..] + b;
      FilterConcat(a[1..], b, p);
    } else {
      assert a + b == b;
    }
  }

  /** Summing a non-negative `f` over the elements a weaker predicate keeps gives at least as much. */
  lemma {:induction false} SumFilterMonotone<T(!new)>(s: seq<T>, p: T -> bool, q: T -> bool, f: T -> real)
    requires forall i :: 0 <= i < |s| ==> f(s[i]) >= 0.0
    requires forall i :: 0 <= i < |s| ==> p(s[i]) ==> q(s[i])
    ensures Sum(Filter(s, p), f) <= Sum(Filter(s, q), f)
  {
    if s != [] {
      SumFilterMonotone(s[1..], p, q, f);
    }
  }

  /** Filtering splits around one element, which stays exactly when `p` keeps it. */
  lemma FilterAround<T(!new)>(before: seq<T>, x: T, after: seq<T>, p: T -> bool)
    ensures Filter(before + [x] + after, p) == Filter(before, p) + (if p(x) then [x] else []) + Filter(after, p)
  {
    assert before + [x] + after == before + ([x] + after);
    FilterConcat(before, [x] + after, p);
    assert ([x] + after)[1..] == after;
  }

  /** Summing over a filtered sequence splits around one element: it adds `f(x)` exactly when `p` keeps `x`. */
  lemma SumFilterAround<T(!new)>(before: seq<T>, x: T, after: seq<T>, p: T -> bool, f: T -> real)
    ensures Sum(Filter(before + [x] + after, p), f)
            == Sum(Filter(before, p), f) + (if p(x) then f(x) else 0.0) + Sum(Filter(after, p), f)
  {
    FilterAround(before, x, after, p);
    assert before + [x] + after == before + ([x] + after);
    FilterConcat(before, [x] + after, p);
    assert ([x] + after)[1..] == after;
    SumConcat(Filter(before, p), Filter([x] + after, p), f);
    if p(x) {
      assert ([x] + Filter(after, p))[1..] == Filter(after, p);
    }
  }
}
