/** The three JavaScript array methods the dashboard is built from —
    `xs.map(f)`, `xs.filter(p)` and `xs.slice(0, n)` — and the facts about
    them that the components rely on, proved once here. */
module Seqs {

  /** `xs.map(f)`: one result per element, in order. `f` need only be
      defined on the elements of `xs`. */
  function Map<A, B>(f: A --> B, xs: seq<A>): (r: seq<B>)
    requires forall i :: 0 <= i < |xs| ==> f.requires(xs[i])
    ensures |r| == |xs|
    ensures forall i :: 0 <= i < |xs| ==> r[i] == f(xs[i])
    decreases |xs|
  {
    if xs == [] then [] else [f(xs[0])] + Map(f, xs[1..])
  }

  /** `xs.filter(p)`: the elements satisfying `p`, in order. */
  function Filter<T>(p: T -> bool, xs: seq<T>): (r: seq<T>)
    ensures |r| <= |xs|
    ensures forall x :: x in r ==> x in xs && p(x)
    decreases |xs|
  {
    if xs == [] then []
    else if p(xs[0]) then [xs[0]] + Filter(p, xs[1..])
    else Filter(p, xs[1..])
  }

  /** `xs.slice(0, n)` for a non-negative `n`: the first `n` elements, or all
      of them when there are fewer. */
  function Take<T>(xs: seq<T>, n: nat): (r: seq<T>)
    ensures |r| == if |xs| < n then |xs| else n
    ensures r == xs[..|r|]
  {
    if |xs| <= n then xs else xs[..n]
  }

  /** `xs` is `ys` with some elements deleted and the rest kept in order. */
  ghost predicate IsSubsequence<T>(xs: seq<T>, ys: seq<T>)
    decreases |ys|
  {
    || xs == []
    || (&& ys != []
        && ((xs[0] == ys[0] && IsSubsequence(xs[1..], ys[1..])) || IsSubsequence(xs, ys[1..])))
  }

  lemma {:induction false} FilterIsSubsequence<T>(p: T -> bool, xs: seq<T>)
    ensures IsSubsequence(Filter(p, xs), xs)
    decreases |xs|
  {
    if xs != [] {
      var rest := Filter(p, xs[1..]);
      FilterIsSubsequence(p, xs[1..]);
      if p(xs[0]) {
        assert ([xs[0]] + rest)[1..] == rest;
      }
    }
  }

  /** An element survives the filter exactly when it is in the input and
      satisfies the predicate. */
  lemma {:induction false} FilterKeepsExactly<T>(p: T -> bool, xs: seq<T>, x: T)
    ensures x in Filter(p, xs) <==> x in xs && p(x)
    decreases |xs|
  {
    if xs != [] {
      FilterKeepsExactly(p, xs[1..], x);
      assert xs == [xs[0]] + xs[1..];
    }
  }

  /** The filter keeps every occurrence of a passing element and none of a
      failing one, so together with FilterIsSubsequence it pins the result
      down, repeated elements included. */
  lemma {:induction false} FilterCount<T>(p: T -> bool, xs: seq<T>, x: T)
    ensures multiset(Filter(p, xs))[x] == if p(x) then multiset(xs)[x] else 0
    decreases |xs|
  {
    if xs != [] {
      FilterCount(p, xs[1..], x);
      assert xs == [xs[0]] + xs[1..];
    }
  }

  lemma {:induction false} FilterKeepsAll<T>(p: T -> bool, xs: seq<T>)
    requires forall i :: 0 <= i < |xs| ==> p(xs[i])
    ensures Filter(p, xs) == xs
    decreases |xs|
  {
    if xs != [] {
      FilterKeepsAll(p, xs[1..]);
      assert xs == [xs[0]] + xs[1..];
    }
  }

  lemma {:induction false} FilterEmptyIff<T>(p: T -> bool, xs: seq<T>)
    ensures Filter(p, xs) == [] <==> forall i :: 0 <= i < |xs| ==> !p(xs[i])
    decreases |xs|
  {
    if xs != [] {
      FilterEmptyIff(p, xs[1..]);
      if !p(xs[0]) {
        forall i | 1 <= i < |xs| ensures xs[i] == xs[1..][i - 1] { }
      }
    }
  }

  /** Filtering the mapped list is mapping the list filtered by the composed
      predicate `g` (`g(x) == q(f(x))`). */
  lemma {:induction false} FilterMap<A, B>(q: B -> bool, f: A -> B, g: A -> bool, xs: seq<A>)
    requires forall x :: g(x) == q(f(x))
    ensures Filter(q, Map(f, xs)) == Map(f, Filter(g, xs))
    decreases |xs|
  {
    if xs != [] {
      FilterMap(q, f, g, xs[1..]);
      assert Map(f, xs)[1..] == Map(f, xs[1..]);
    }
  }

  lemma {:induction false} MapContains<A, B>(f: A --> B, xs: seq<A>, y: B)
    requires forall i :: 0 <= i < |xs| ==> f.requires(xs[i])
    ensures y in Map(f, xs) <==> exists i :: 0 <= i < |xs| && f(xs[i]) == y
  {
    if y in Map(f, xs) {
      var i :| 0 <= i < |Map(f, xs)| && Map(f, xs)[i] == y;
      assert f(xs[i]) == y;
    }
  }
}
