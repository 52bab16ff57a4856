/** Element-wise maps over sequences, built up from the front the way the
    programs' loops append one entry per pass. */
module Sequences {

  /** The first position holding `x`, or -1 when there is none
      (`indexOf`, `index` and `find` in the programs). */
  function IndexOf<T(==)>(s: seq<T>, x: T): (k: int)
    ensures -1 <= k < |s|
    ensures k == -1 <==> x !in s
    ensures k >= 0 ==> s[k] == x && forall j :: 0 <= j < k ==> s[j] != x
  {
    if s == [] then -1
    else if s[0] == x then 0
    else
      var j := IndexOf(s[1..], x);
      if j == -1 then -1 else j + 1
  }

  /** A prefix one longer is the shorter prefix with the next element. */
  lemma PrefixSnoc<T>(s: seq<T>, i: nat)
    requires i < |s|
    ensures s[..i + 1] == s[..i] + [s[i]]
  {
  }

  /** Concatenation regroups freely; stated on its own so that proofs
      about functions of sequences use it without unfolding them. */
  lemma ConcatAssociates<T>(x: seq<T>, y: seq<T>, z: seq<T>)
    ensures x + (y + z) == (x + y) + z
  {
  }

  /** `f(c, x)` for every element `x` of `xs`, with a shared first argument. */
  function MapWith<C, A, B>(c: C, xs: seq<A>, f: (C, A) -> B): (ys: seq<B>)
    ensures |ys| == |xs|
  {
    if xs == [] then []
    else MapWith(c, xs[..|xs| - 1], f) + [f(c, xs[|xs| - 1])]
  }

  lemma {:induction false} MapWithAt<C, A, B>(c: C, xs: seq<A>, f: (C, A) -> B, j: int)
    requires 0 <= j < |xs|
    ensures MapWith(c, xs, f)[j] == f(c, xs[j])
  {
    var n := |xs| - 1;
    if j < n {
      MapWithAt(c, xs[..n], f, j);
    }
  }

  lemma MapWithSnoc<C, A, B>(c: C, xs: seq<A>, x: A, f: (C, A) -> B)
    ensures MapWith(c, xs + [x], f) == MapWith(c, xs, f) + [f(c, x)]
  {
    assert (xs + [x])[..|xs|] == xs;
  }

  /** `f(x, y)` for the elements `x` and `y` at each position of two
      sequences of the same length. */
  function Map2<A, B, C>(xs: seq<A>, ys: seq<B>, f: (A, B) -> C): (zs: seq<C>)
    requires |xs| == |ys|
    ensures |zs| == |xs|
  {
    if xs == [] then []
    else
      var n := |xs| - 1;
      Map2(xs[..n], ys[..n], f) + [f(xs[n], ys[n])]
  }

  lemma {:induction false} Map2At<A, B, C>(xs: seq<A>, ys: seq<B>, f: (A, B) -> C, j: int)
    requires |xs| == |ys| && 0 <= j < |xs|
    ensures Map2(xs, ys, f)[j] == f(xs[j], ys[j])
  {
    var n := |xs| - 1;
    if j < n {
      Map2At(xs[..n], ys[..n], f, j);
    }
  }

  lemma Map2Snoc<A, B, C>(xs: seq<A>, ys: seq<B>, x: A, y: B, f: (A, B) -> C)
    requires |xs| == |ys|
    ensures Map2(xs + [x], ys + [y], f) == Map2(xs, ys, f) + [f(x, y)]
  {
    assert (xs + [x])[..|xs|] == xs;
    assert (ys + [y])[..|ys|] == ys;
  }
}
