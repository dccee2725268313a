/** Element-wise maps over sequences, and how they distribute over concatenation. */
module Seqs {

  /** Applies `f` to every element, keeping the order. */
  function Map<A, B>(f: A -> B, xs: seq<A>): (ys: seq<B>)
    ensures |ys| == |xs|
    ensures forall i :: 0 <= i < |xs| ==> ys[i] == f(xs[i])
  {
    seq(|xs|, i requires 0 <= i < |xs| => f(xs[i]))
  }

  lemma MapAppend<A, B>(f: A -> B, xs: seq<A>, ys: seq<A>)
    ensures Map(f, xs + ys) == Map(f, xs) + Map(f, ys)
  {
    assert forall i :: 0 <= i < |xs + ys| ==> Map(f, xs + ys)[i] == (Map(f, xs) + Map(f, ys))[i];
  }

  /** Concatenates the sequences `f` gives for each element, in order. */
  function FlatMap<A, B>(f: A -> seq<B>, xs: seq<A>): seq<B>
    decreases |xs|
  {
    if xs == [] then [] else f(xs[0]) + FlatMap(f, xs[1..])
  }

  lemma FlatMapCons<A, B>(f: A -> seq<B>, x: A, xs: seq<A>)
    ensures FlatMap(f, [x] + xs) == f(x) + FlatMap(f, xs)
  {
    assert ([x] + xs)[0] == x;
    assert ([x] + xs)[1..] == xs;
  }

  /** A function that gives nothing for any element gives nothing for the whole sequence. */
  lemma {:induction false} FlatMapEmpty<A, B>(f: A -> seq<B>, xs: seq<A>)
    requires forall i :: 0 <= i < |xs| ==> f(xs[i]) == []
    ensures FlatMap(f, xs) == []
    decreases |xs|
  {
    if xs != [] {
      assert forall i :: 0 <= i < |xs[1..]| ==> xs[1..][i] == xs[i + 1];
      FlatMapEmpty(f, xs[1..]);
    }
  }

  /** Taking `1 + n` elements is the head followed by `n` elements of the tail. */
  lemma SliceCons<T>(xs: seq<T>, n: nat)
    requires n < |xs|
    ensures xs[..1 + n] == [xs[0]] + xs[1..][..n]
  {
    assert forall i :: 0 <= i <= n ==> xs[..1 + n][i] == ([xs[0]] + xs[1..][..n])[i];
  }
}
