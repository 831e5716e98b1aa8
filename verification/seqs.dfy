/** Generic sequence operations the dashboard is built from: JavaScript's
    `flatMap` and `filter`. */
module Seqs {

  /** The in-order concatenation of `f(x)` for every `x` of `xs`. */
  function FlatMap<A, B>(xs: seq<A>, f: A -> seq<B>): seq<B>
  {
    if |xs| == 0 then [] else f(xs[0]) + FlatMap(xs[1..], f)
  }

  /** The sum of the lengths of `f(x)` over `xs`. */
  function SumLengths<A, B>(xs: seq<A>, f: A -> seq<B>): nat
  {
    if |xs| == 0 then 0 else |f(xs[0])| + SumLengths(xs[1..], f)
  }

  /** Flattening distributes over concatenation of the input. */
  lemma {:induction false} LemmaFlatMapAppend<A, B>(xs: seq<A>, ys: seq<A>, f: A -> seq<B>)
    ensures FlatMap(xs + ys, f) == FlatMap(xs, f) + FlatMap(ys, f)
  {
    if |xs| == 0 {
      assert xs + ys == ys;
    } else {
      assert (xs + ys)[1..] == xs[1..] + ys;
      LemmaFlatMapAppend(xs[1..], ys, f);
    }
  }

  /** Nothing is dropped or added: the output is as long as all the
      children together. */
  lemma {:induction false} LemmaFlatMapLength<A, B>(xs: seq<A>, f: A -> seq<B>)
    ensures |FlatMap(xs, f)| == SumLengths(xs, f)
  {
    if |xs| > 0 {
      LemmaFlatMapLength(xs[1..], f);
    }
  }

  /** An element is in the output exactly when it is in the children of some
      input element. */
  lemma {:induction false} LemmaFlatMapMembership<A, B>(xs: seq<A>, f: A -> seq<B>)
    ensures forall y :: y in FlatMap(xs, f) <==> exists x :: x in xs && y in f(x)
  {
    if |xs| > 0 {
      LemmaFlatMapMembership(xs[1..], f);
      assert xs == [xs[0]] + xs[1..];
    }
  }

  /** The children of the i-th input element appear as one contiguous block,
      after those of every earlier element and before those of every later
      one. */
  lemma {:induction false} LemmaFlatMapSplit<A, B>(xs: seq<A>, f: A -> seq<B>, i: int)
    requires 0 <= i < |xs|
    ensures FlatMap(xs, f) == FlatMap(xs[..i], f) + f(xs[i]) + FlatMap(xs[i + 1..], f)
  {
    var pre, mid, post := xs[..i], [xs[i]], xs[i + 1..];
    assert xs == pre + mid + post;
    LemmaFlatMapAppend(pre + mid, post, f);
    LemmaFlatMapAppend(pre, mid, f);
    LemmaFlatMapSingleton(xs[i], f);
  }

  /** A one-element input flattens to that element's children. */
  lemma LemmaFlatMapSingleton<A, B>(x: A, f: A -> seq<B>)
    ensures FlatMap([x], f) == f(x)
  {
    assert [x][1..] == [];
  }

  /** The elements of `s` satisfying `p`, in order. */
  function Filter<T(!new)>(s: seq<T>, p: T -> bool): (r: seq<T>)
    ensures |r| <= |s|
    ensures forall x :: x in r <==> x in s && p(x)
    ensures |r| == |s| <==> forall i :: 0 <= i < |s| ==> p(s[i])
  {
    if |s| == 0 then []
    else
      var rest := Filter(s[1..], p);
      assert forall x :: x in s <==> x == s[0] || x in s[1..];
      assert (forall i :: 0 <= i < |s| ==> p(s[i])) <==>
             p(s[0]) && forall i :: 0 <= i < |s[1..]| ==> p(s[1..][i]);
      if p(s[0]) then [s[0]] + rest else rest
  }

  /** Filtering works piecewise over concatenation, so the kept elements
      stay in their original order. */
  lemma {:induction false} LemmaFilterAppend<T(!new)>(a: seq<T>, b: seq<T>, p: T -> bool)
    ensures Filter(a + b, p) == Filter(a, p) + Filter(b, p)
  {
    if |a| == 0 {
      assert a + b == b;
    } else {
      assert (a + b)[1..] == a[1..] + b;
      LemmaFilterAppend(a[1..], b, p);
    }
  }

  /** Every kept element is kept as often as it occurs in the input, and
      every other element not at all. */
  lemma {:induction false} LemmaFilterMultiset<T(!new)>(s: seq<T>, p: T -> bool)
    ensures forall x :: multiset(Filter(s, p))[x] == (if p(x) then multiset(s)[x] else 0)
  {
    if |s| > 0 {
      LemmaFilterMultiset(s[1..], p);
      assert s == [s[0]] + s[1..];
    }
  }
}
