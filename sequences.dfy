/** Order-preserving search and filtering over sequences: the `Array.prototype.find`
    and `Array.prototype.filter` calls the catalogue is built from. */
module Sequences {
  import opened Wrappers

  /** Index of the first element of `xs` whose key is `key`, if any. */
  function FirstIndex<T>(xs: seq<T>, key: int, keyOf: T -> int): (r: Option<nat>)
    ensures r.Some? ==> r.value < |xs| && keyOf(xs[r.value]) == key
    ensures r.Some? ==> forall j :: 0 <= j < r.value ==> keyOf(xs[j]) != key
    ensures r.None? <==> forall j :: 0 <= j < |xs| ==> keyOf(xs[j]) != key
  {
    if |xs| == 0 then None
    else if keyOf(xs[0]) == key then Some(0)
    else match FirstIndex(xs[1..], key, keyOf)
      case None => None
      case Some(i) => Some(i + 1)
  }

  /** `xs.find(x => keyOf(x) === key) || null`: the first element with that key. */
  function Find<T>(xs: seq<T>, key: int, keyOf: T -> int): (r: Option<T>)
    ensures r.None? <==> forall j :: 0 <= j < |xs| ==> keyOf(xs[j]) != key
    ensures r.Some? ==> keyOf(r.value) == key
    ensures r.Some? ==> exists i :: 0 <= i < |xs| && xs[i] == r.value &&
                                    forall j :: 0 <= j < i ==> keyOf(xs[j]) != key
  {
    match FirstIndex(xs, key, keyOf)
    case None => None
    case Some(i) => Some(xs[i])
  }

  /** `xs.filter(keep)`: the elements satisfying `keep`, in their original order. */
  function Filter<T(==)>(xs: seq<T>, keep: T -> bool): (r: seq<T>)
    ensures |r| <= |xs|
    ensures forall j :: 0 <= j < |r| ==> r[j] in xs && keep(r[j])
    ensures forall j :: 0 <= j < |xs| && keep(xs[j]) ==> xs[j] in r
  {
    if |xs| == 0 then []
    else if keep(xs[0]) then [xs[0]] + Filter(xs[1..], keep)
    else Filter(xs[1..], keep)
  }

  /** `a` is `b` with some elements removed and the rest kept in order. */
  predicate IsSubsequence<T(==)>(a: seq<T>, b: seq<T>)
  {
    if |a| == 0 then true
    else if |b| == 0 then false
    else (a[0] == b[0] && IsSubsequence(a[1..], b[1..])) || IsSubsequence(a, b[1..])
  }

  /** A filter result is an order-preserving subsequence of its input. */
  lemma {:induction false} FilterIsSubsequence<T>(xs: seq<T>, keep: T -> bool)
    ensures IsSubsequence(Filter(xs, keep), xs)
  {
    if |xs| > 0 {
      FilterIsSubsequence(xs[1..], keep);
      var rest := Filter(xs[1..], keep);
      if keep(xs[0]) {
        assert Filter(xs, keep) == [xs[0]] + rest;
        assert ([xs[0]] + rest)[1..] == rest;
      }
    }
  }

  /** A filter keeps every copy of a kept element and no copy of a dropped one. */
  lemma {:induction false} FilterMultiplicity<T>(xs: seq<T>, keep: T -> bool, x: T)
    ensures multiset(Filter(xs, keep))[x] == if keep(x) then multiset(xs)[x] else 0
  {
    if |xs| > 0 {
      FilterMultiplicity(xs[1..], keep, x);
      assert xs == [xs[0]] + xs[1..];
      assert multiset(xs) == multiset([xs[0]]) + multiset(xs[1..]);
      if keep(xs[0]) {
        assert multiset(Filter(xs, keep)) == multiset([xs[0]]) + multiset(Filter(xs[1..], keep));
      }
    }
  }

  /** A filter whose predicate holds of every element returns its input unchanged. */
  lemma {:induction false} FilterKeepsAll<T>(xs: seq<T>, keep: T -> bool)
    requires forall j :: 0 <= j < |xs| ==> keep(xs[j])
    ensures Filter(xs, keep) == xs
  {
    if |xs| > 0 {
      FilterKeepsAll(xs[1..], keep);
      assert xs == [xs[0]] + xs[1..];
    }
  }

  /** The conjunction of two predicates. */
  function Both<T>(f: T -> bool, g: T -> bool): T -> bool
  {
    x => f(x) && g(x)
  }

  /** Two successive filters are one filter by the conjunction of their predicates. */
  lemma {:induction false} FilterFilter<T>(xs: seq<T>, f: T -> bool, g: T -> bool)
    ensures Filter(Filter(xs, f), g) == Filter(xs, Both(f, g))
  {
    if |xs| > 0 {
      FilterFilter(xs[1..], f, g);
      if f(xs[0]) {
        var rest := Filter(xs[1..], f);
        assert Filter(xs, f) == [xs[0]] + rest;
        assert ([xs[0]] + rest)[1..] == rest;
      }
    }
  }

  /** Filtering a filter result again by the same predicate changes nothing. */
  lemma FilterIdempotent<T>(xs: seq<T>, keep: T -> bool)
    ensures Filter(Filter(xs, keep), keep) == Filter(xs, keep)
  {
  }

  /** A filter depends only on the values of its predicate. */
  lemma {:induction false} FilterExtensional<T>(xs: seq<T>, f: T -> bool, g: T -> bool)
    requires forall x :: f(x) == g(x)
    ensures Filter(xs, f) == Filter(xs, g)
  {
    if |xs| > 0 {
      FilterExtensional(xs[1..], f, g);
    }
  }
}
