/** Sums over sequences, and that they do not depend on the order. */
module Sums {
  function Sum<T>(xs: seq<T>, f: T -> int): int {
    if xs == [] then 0 else Sum(xs[..|xs| - 1], f) + f(xs[|xs| - 1])
  }

  lemma {:induction false} SumConcat<T>(a: seq<T>, b: seq<T>, f: T -> int)
    ensures Sum(a + b, f) == Sum(a, f) + Sum(b, f)
  {
    if b == [] {
      assert a + b == a;
    } else {
      assert (a + b)[..|a + b| - 1] == a + b[..|b| - 1];
      SumConcat(a, b[..|b| - 1], f);
    }
  }

  lemma {:induction false} SumPointwise<A, B>(xs: seq<A>, ys: seq<B>, f: A -> int, g: B -> int)
    requires |xs| == |ys| && forall i :: 0 <= i < |xs| ==> f(xs[i]) == g(ys[i])
    ensures Sum(xs, f) == Sum(ys, g)
  {
    if xs != [] {
      SumPointwise(xs[..|xs| - 1], ys[..|ys| - 1], f, g);
    }
  }

  lemma {:induction false} SumZero<T>(xs: seq<T>, f: T -> int)
    requires forall i :: 0 <= i < |xs| ==> f(xs[i]) == 0
    ensures Sum(xs, f) == 0
  {
    if xs != [] {
      SumZero(xs[..|xs| - 1], f);
    }
  }

  lemma SumSplit<T>(a: seq<T>, x: T, b: seq<T>, f: T -> int)
    ensures Sum(a + [x] + b, f) == Sum(a + b, f) + f(x)
  {
    assert Sum([x], f) == Sum([], f) + f(x);
    hide Sum;
    SumConcat(a + [x], b, f);
    SumConcat(a, [x], f);
    SumConcat(a, b, f);
  }

  /** One element taken out of a sum. */
  lemma SumWithout<T>(xs: seq<T>, f: T -> int, k: nat)
    requires k < |xs|
    ensures Sum(xs, f) == Sum(xs[..k] + xs[k + 1..], f) + f(xs[k])
  {
    hide Sum;
    assert xs == xs[..k] + [xs[k]] + xs[k + 1..];
    SumSplit(xs[..k], xs[k], xs[k + 1..], f);
  }

  lemma {:induction false} SumPlus<T>(xs: seq<T>, f: T -> int, g: T -> int, h: T -> int)
    requires forall i :: 0 <= i < |xs| ==> f(xs[i]) == g(xs[i]) + h(xs[i])
    ensures Sum(xs, f) == Sum(xs, g) + Sum(xs, h)
  {
    if xs != [] {
      SumPlus(xs[..|xs| - 1], f, g, h);
    }
  }

  lemma {:induction false} SumAtLeast<T>(xs: seq<T>, f: T -> int)
    requires forall i :: 0 <= i < |xs| ==> f(xs[i]) >= 0
    ensures Sum(xs, f) >= 0
    ensures Sum(xs, f) == 0 <==> forall i :: 0 <= i < |xs| ==> f(xs[i]) == 0
  {
    if xs != [] {
      SumAtLeast(xs[..|xs| - 1], f);
    }
  }

  /** Only one element contributes. */
  lemma SumOnly<T>(xs: seq<T>, f: T -> int, k: nat)
    requires k < |xs| && forall i :: 0 <= i < |xs| && i != k ==> f(xs[i]) == 0
    ensures Sum(xs, f) == f(xs[k])
  {
    SumWithout(xs, f, k);
    SumZero(xs[..k] + xs[k + 1..], f);
  }

  lemma Without<T>(init: seq<T>, x: T, l: seq<T>, r: seq<T>)
    requires multiset(init + [x]) == multiset(l + [x] + r)
    ensures multiset(init) == multiset(l + r)
  {
    assert multiset(init) + multiset{x} == multiset(init + [x]);
    assert multiset(l + r) + multiset{x} == multiset(l + [x] + r);
    assert multiset(init) == multiset(init) + multiset{x} - multiset{x};
    assert multiset(l + r) == multiset(l + r) + multiset{x} - multiset{x};
  }

  lemma {:induction false} SumPermutation<T>(a: seq<T>, b: seq<T>, f: T -> int)
    requires multiset(a) == multiset(b)
    ensures Sum(a, f) == Sum(b, f)
  {
    if a == [] {
      assert |multiset(b)| == |multiset(a)| == 0;
    } else {
      var init, x := a[..|a| - 1], a[|a| - 1];
      assert a == init + [x];
      assert x in multiset(b);
      var j :| 0 <= j < |b| && b[j] == x;
      var l, r := b[..j], b[j + 1..];
      assert b == l + [x] + r;
      Without(init, x, l, r);
      SumPermutation(init, l + r, f);
      SumSplit(l, x, r, f);
    }
  }

  function Map<A, B>(xs: seq<A>, f: A -> B): (ys: seq<B>)
    ensures |ys| == |xs| && forall i :: 0 <= i < |xs| ==> ys[i] == f(xs[i])
  {
    if xs == [] then [] else Map(xs[..|xs| - 1], f) + [f(xs[|xs| - 1])]
  }

  /** The concatenation of what f makes of every element. */
  function FlatMap<A, B>(xs: seq<A>, f: A -> seq<B>): seq<B> {
    if xs == [] then [] else FlatMap(xs[..|xs| - 1], f) + f(xs[|xs| - 1])
  }

  lemma FlatMapOne<A, B>(x: A, f: A -> seq<B>)
    ensures FlatMap([x], f) == f(x)
  {
    assert FlatMap([x], f) == FlatMap([], f) + f(x);
  }

  lemma FlatMapNext<A, B>(xs: seq<A>, f: A -> seq<B>, i: nat)
    requires i < |xs|
    ensures FlatMap(xs[..i + 1], f) == FlatMap(xs[..i], f) + f(xs[i])
  {
    assert xs[..i + 1][..i] == xs[..i];
  }

  /** The sum over a flattening is the sum of the sums. */
  lemma {:induction false} SumFlatMap<A, B>(xs: seq<A>, f: A -> seq<B>, g: B -> int, s: A -> int)
    requires forall i :: 0 <= i < |xs| ==> Sum(f(xs[i]), g) == s(xs[i])
    ensures Sum(FlatMap(xs, f), g) == Sum(xs, s)
  {
    if xs != [] {
      SumFlatMap(xs[..|xs| - 1], f, g, s);
      SumConcat(FlatMap(xs[..|xs| - 1], f), f(xs[|xs| - 1]), g);
    }
  }
}
