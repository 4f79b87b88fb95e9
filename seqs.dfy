/** Sequence helpers shared by the whole pipeline: Python slicing `xs[:n]`,
    first occurrence of an element, and the first-occurrence list of
    distinct elements (the key order of a `dict` or `Counter`). */
module Seqs {

  function Min(a: int, b: int): int {
    if a <= b then a else b
  }

  /** Python's `xs[:n]`: the first `n` elements, or all of them when there are fewer. */
  function Take<T>(xs: seq<T>, n: nat): (r: seq<T>)
    ensures |r| == Min(n, |xs|)
    ensures r == xs[..|r|]
  {
    if n <= |xs| then xs[..n] else xs
  }

  /** Index of the first occurrence of `x` in `xs`. */
  function FirstIndex<T(==)>(xs: seq<T>, x: T): (i: nat)
    requires x in xs
    ensures i < |xs| && xs[i] == x
    ensures forall j :: 0 <= j < i ==> xs[j] != x
  {
    if xs[0] == x then 0 else 1 + FirstIndex(xs[1..], x)
  }

  /** A first occurrence inside a prefix is the first occurrence in the whole sequence. */
  lemma {:induction false} FirstIndexPrefix<T>(xs: seq<T>, n: nat, x: T)
    requires n <= |xs| && x in xs[..n]
    ensures x in xs && FirstIndex(xs, x) == FirstIndex(xs[..n], x)
  {
    var b := FirstIndex(xs[..n], x);
    assert xs[b] == x;
    var a := FirstIndex(xs, x);
    assert a <= b;
  }

  /** The distinct elements of `xs`, each once, in the order of their first
      occurrence: what a loop with a `seen` set appends. */
  function Distinct<T(==)>(xs: seq<T>): (d: seq<T>)
    ensures forall k :: 0 <= k < |d| ==> d[k] in xs
    ensures forall k :: 0 <= k < |xs| ==> xs[k] in d
    ensures forall i, j :: 0 <= i < j < |d| ==> d[i] != d[j]
    ensures |d| <= |xs|
  {
    if xs == [] then []
    else
      var init := xs[..|xs| - 1];
      assert xs == init + [xs[|xs| - 1]];
      var d := Distinct(init);
      if xs[|xs| - 1] in d then d else d + [xs[|xs| - 1]]
  }

  /** `Distinct` lists elements in increasing order of first occurrence. */
  lemma {:induction false} DistinctInFirstOccurrenceOrder<T>(xs: seq<T>)
    ensures forall i, j :: 0 <= i < j < |Distinct(xs)| ==>
      FirstIndex(xs, Distinct(xs)[i]) < FirstIndex(xs, Distinct(xs)[j])
  {
    if xs != [] {
      var n := |xs| - 1;
      var init := xs[..n];
      var d0 := Distinct(init);
      var d := Distinct(xs);
      DistinctInFirstOccurrenceOrder(init);
      forall y | y in d0 ensures FirstIndex(xs, y) == FirstIndex(init, y) < n {
        FirstIndexPrefix(xs, n, y);
      }
      if xs[n] in d0 {
        assert d == d0;
      } else {
        assert xs[n] !in init;
        assert FirstIndex(xs, xs[n]) == n;
        assert d == d0 + [xs[n]];
        forall i, j | 0 <= i < j < |d| ensures FirstIndex(xs, d[i]) < FirstIndex(xs, d[j]) {
          assert d[i] == d0[i];
          if j < |d0| {
            assert d[j] == d0[j];
          } else {
            assert d[j] == xs[n];
          }
        }
      }
    }
  }

  /** `a` is obtained from `b` by deleting elements (order kept). */
  ghost predicate IsSubsequence<T>(a: seq<T>, b: seq<T>)
    decreases |b|
  {
    if a == [] then true
    else if b == [] then false
    else if a[0] == b[0] then IsSubsequence(a[1..], b[1..])
    else IsSubsequence(a, b[1..])
  }

  /** `[y for x in xs for y in f(x)]` */
  function FlatMap<A, B>(xs: seq<A>, f: A -> seq<B>): seq<B> {
    if xs == [] then [] else FlatMap(xs[..|xs| - 1], f) + f(xs[|xs| - 1])
  }

  lemma FlatMapStep<A, B>(xs: seq<A>, i: nat, f: A -> seq<B>)
    requires i < |xs|
    ensures FlatMap(xs[..i + 1], f) == FlatMap(xs[..i], f) + f(xs[i])
  {
    assert xs[..i + 1][..i] == xs[..i];
  }

  /** Flattening distributes over concatenation. */
  lemma {:induction false} FlatMapAppend<A, B>(a: seq<A>, b: seq<A>, f: A -> seq<B>)
    ensures FlatMap(a + b, f) == FlatMap(a, f) + FlatMap(b, f)
  {
    if b == [] {
      assert a + b == a;
    } else {
      var n := |b| - 1;
      assert (a + b)[..|a + b| - 1] == a + b[..n];
      assert (a + b)[|a + b| - 1] == b[n];
      FlatMapAppend(a, b[..n], f);
    }
  }

  /** Flattening around one element: the parts before it, its own part, and
      the parts after it. */
  lemma FlatMapAround<A, B>(xs: seq<A>, k: nat, f: A -> seq<B>)
    requires k < |xs|
    ensures FlatMap(xs, f) == FlatMap(xs[..k], f) + f(xs[k]) + FlatMap(xs[k + 1..], f)
  {
    var before, after := xs[..k], xs[k + 1..];
    assert xs == (before + [xs[k]]) + after;
    FlatMapAppend(before + [xs[k]], after, f);
    assert (before + [xs[k]])[..k] == before;
  }

  /** Flattening gives nothing exactly when every part is empty. */
  lemma {:induction false} FlatMapEmpty<A, B>(xs: seq<A>, f: A -> seq<B>)
    ensures FlatMap(xs, f) == [] <==> forall k :: 0 <= k < |xs| ==> f(xs[k]) == []
  {
    if xs != [] {
      var n := |xs| - 1;
      FlatMapEmpty(xs[..n], f);
      assert forall k :: 0 <= k < n ==> xs[..n][k] == xs[k];
    }
  }
}
