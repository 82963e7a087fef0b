/** Picking the elements that pass a test, and flattening where each element yields
    at most one thing. */
module Selections {
  import opened Sums

  lemma {:induction false} FlatMapSingles<A, B>(xs: seq<A>, f: A -> seq<B>)
    requires forall i :: 0 <= i < |xs| ==> |f(xs[i])| == 1
    ensures |FlatMap(xs, f)| == |xs| && forall i :: 0 <= i < |xs| ==> FlatMap(xs, f)[i] == f(xs[i])[0]
  {
    if xs != [] {
      FlatMapSingles(xs[..|xs| - 1], f);
    }
  }

  /** The elements that pass a test, in order. */
  function Selected<T>(xs: seq<T>, test: T -> bool): (r: seq<T>)
    ensures forall i :: 0 <= i < |r| ==> test(r[i])
  {
    if xs == [] then []
    else Selected(xs[..|xs| - 1], test) + if test(xs[|xs| - 1]) then [xs[|xs| - 1]] else []
  }

  lemma {:induction false} SelectedAre<T>(xs: seq<T>, test: T -> bool)
    ensures forall x :: x in Selected(xs, test) <==> x in xs && test(x)
  {
    if xs != [] {
      assert xs == xs[..|xs| - 1] + [xs[|xs| - 1]];
      SelectedAre(xs[..|xs| - 1], test);
    }
  }

  lemma {:induction false} FlatMapSelected<A, B>(xs: seq<A>, f: A -> seq<B>, test: A -> bool)
    requires forall i :: 0 <= i < |xs| ==> |f(xs[i])| == if test(xs[i]) then 1 else 0
    ensures var s := Selected(xs, test);
            |FlatMap(xs, f)| == |s| && forall i :: 0 <= i < |s| ==> |f(s[i])| == 1 && FlatMap(xs, f)[i] == f(s[i])[0]
  {
    if xs != [] {
      FlatMapSelected(xs[..|xs| - 1], f, test);
    }
  }
}
