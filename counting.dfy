/** `collections.Counter` over a list and its `most_common(n)`: the distinct
    elements in first-occurrence order with their counts, sorted by count,
    highest first, by a stable sort (so that equal counts keep first-occurrence
    order), then cut to `n`. */
module Counting {
  import opened Seqs

  /** `Counter(xs).items()`: each distinct element once, in first-occurrence
      order, with its number of occurrences. */
  function Tally<T(==)>(xs: seq<T>): (items: seq<(T, nat)>)
    ensures |items| == |Distinct(xs)|
    ensures forall k :: 0 <= k < |items| ==> items[k].0 == Distinct(xs)[k] && items[k].1 == multiset(xs)[items[k].0]
  {
    var d := Distinct(xs);
    seq(|d|, k requires 0 <= k < |d| => (d[k], multiset(xs)[d[k]]))
  }

  /** Insert `x` before the first entry whose count is not larger. */
  function InsertByCount<K>(x: (K, nat), r: seq<(K, nat)>): (r': seq<(K, nat)>)
    ensures multiset(r') == multiset(r) + multiset{x}
  {
    if r == [] || x.1 >= r[0].1 then [x] + r
    else
      assert r == [r[0]] + r[1..];
      [r[0]] + InsertByCount(x, r[1..])
  }

  /** Stable sort by count, highest first. */
  function SortByCount<K>(s: seq<(K, nat)>): (r: seq<(K, nat)>)
    ensures multiset(r) == multiset(s)
  {
    if s == [] then []
    else
      assert s == [s[0]] + s[1..];
      InsertByCount(s[0], SortByCount(s[1..]))
  }

  /** `Counter(xs).most_common(n)`. */
  function MostCommon<T(==)>(xs: seq<T>, n: nat): seq<(T, nat)> {
    Take(SortByCount(Tally(xs)), n)
  }

  /** The elements of a list of (element, count) pairs. */
  function Keys<K>(ps: seq<(K, nat)>): (ks: seq<K>)
    ensures |ks| == |ps|
  {
    seq(|ps|, k requires 0 <= k < |ps| => ps[k].0)
  }

  /** `p` comes before `q` in a most-common listing of `xs`: a higher count,
      or the same count and an earlier first occurrence. */
  ghost predicate Outranks<T>(xs: seq<T>, p: (T, nat), q: (T, nat)) {
    && p.0 in xs && q.0 in xs
    && (p.1 > q.1 || (p.1 == q.1 && FirstIndex(xs, p.0) < FirstIndex(xs, q.0)))
  }

  ghost predicate RankedBy<T>(r: seq<(T, nat)>, xs: seq<T>) {
    forall i, j :: 0 <= i < j < |r| ==> Outranks(xs, r[i], r[j])
  }

  ghost predicate Listed<T>(r: seq<(T, nat)>, x: T) {
    exists k :: 0 <= k < |r| && r[k].0 == x
  }

  /** Putting in front an entry that outranks everything in a ranked list
      keeps the list ranked. */
  lemma PrependRanked<T>(x: (T, nat), r: seq<(T, nat)>, xs: seq<T>)
    requires RankedBy(r, xs)
    requires forall k :: 0 <= k < |r| ==> Outranks(xs, x, r[k])
    ensures RankedBy([x] + r, xs)
  {
    var out := [x] + r;
    forall i, j | 0 <= i < j < |out| ensures Outranks(xs, out[i], out[j]) {
      if i == 0 {
        assert out[j] == r[j - 1];
      } else {
        assert out[i] == r[i - 1] && out[j] == r[j - 1];
      }
    }
  }

  /** Inserting an element that occurs earlier than everything in a ranked
      list keeps the list ranked. */
  lemma {:induction false} InsertRanked<T>(x: (T, nat), r: seq<(T, nat)>, xs: seq<T>)
    requires RankedBy(r, xs)
    requires x.0 in xs
    requires forall k :: 0 <= k < |r| ==> r[k].0 in xs && FirstIndex(xs, x.0) < FirstIndex(xs, r[k].0)
    ensures RankedBy(InsertByCount(x, r), xs)
  {
    if r == [] || x.1 >= r[0].1 {
      forall k | 0 <= k < |r| ensures Outranks(xs, x, r[k]) {
        if k > 0 {
          assert Outranks(xs, r[0], r[k]);
        }
      }
      PrependRanked(x, r, xs);
    } else {
      var tail := r[1..];
      assert RankedBy(tail, xs) by {
        forall i, j | 0 <= i < j < |tail| ensures Outranks(xs, tail[i], tail[j]) {
          assert tail[i] == r[i + 1] && tail[j] == r[j + 1];
        }
      }
      InsertRanked(x, tail, xs);
      var rest := InsertByCount(x, tail);
      forall k | 0 <= k < |rest| ensures Outranks(xs, r[0], rest[k]) {
        var e := rest[k];
        assert e in multiset(rest);
        if e != x {
          assert e in multiset(tail);
          var m :| 0 <= m < |tail| && tail[m] == e;
          assert Outranks(xs, r[0], r[m + 1]);
        }
      }
      PrependRanked(r[0], rest, xs);
    }
  }

  /** Sorting a list whose elements appear in first-occurrence order yields a
      list ranked by count, ties in first-occurrence order. */
  lemma {:induction false} SortRanked<T>(s: seq<(T, nat)>, xs: seq<T>)
    requires forall k :: 0 <= k < |s| ==> s[k].0 in xs
    requires forall i, j :: 0 <= i < j < |s| ==> FirstIndex(xs, s[i].0) < FirstIndex(xs, s[j].0)
    ensures RankedBy(SortByCount(s), xs)
  {
    if s != [] {
      var tail := s[1..];
      SortRanked(tail, xs);
      var sorted := SortByCount(tail);
      forall k | 0 <= k < |sorted| ensures sorted[k].0 in xs && FirstIndex(xs, s[0].0) < FirstIndex(xs, sorted[k].0) {
        assert sorted[k] in multiset(tail);
        var m :| 0 <= m < |tail| && tail[m] == sorted[k];
        assert tail[m] == s[m + 1];
      }
      InsertRanked(s[0], sorted, xs);
    }
  }

  /** The counter's items appear in first-occurrence order. */
  lemma TallyInOrder<T>(xs: seq<T>)
    ensures forall k :: 0 <= k < |Tally(xs)| ==> Tally(xs)[k].0 in xs
    ensures forall i, j :: 0 <= i < j < |Tally(xs)| ==> FirstIndex(xs, Tally(xs)[i].0) < FirstIndex(xs, Tally(xs)[j].0)
  {
    DistinctInFirstOccurrenceOrder(xs);
  }

  /** Sorting keeps the number of entries and each entry's facts. */
  lemma SortedEntries<T>(s: seq<(T, nat)>, xs: seq<T>)
    requires forall k :: 0 <= k < |s| ==> s[k].0 in xs && s[k].1 == multiset(xs)[s[k].0]
    ensures |SortByCount(s)| == |s|
    ensures forall k :: 0 <= k < |SortByCount(s)| ==>
      SortByCount(s)[k].0 in xs && SortByCount(s)[k].1 == multiset(xs)[SortByCount(s)[k].0]
  {
    var sorted := SortByCount(s);
    assert |sorted| == |multiset(sorted)| == |multiset(s)| == |s|;
    forall k | 0 <= k < |sorted| ensures sorted[k].0 in xs && sorted[k].1 == multiset(xs)[sorted[k].0] {
      assert sorted[k] in multiset(s);
    }
  }

  /** Every element of `xs` is listed in its sorted tally. */
  lemma SortedTallyListed<T>(xs: seq<T>)
    ensures forall x :: x in xs ==> Listed(SortByCount(Tally(xs)), x)
  {
    var items := Tally(xs);
    var d := Distinct(xs);
    var sorted := SortByCount(items);
    forall x | x in xs ensures Listed(sorted, x) {
      var p :| 0 <= p < |d| && d[p] == x;
      assert items[p] in multiset(sorted);
      var q :| 0 <= q < |sorted| && sorted[q] == items[p];
      assert sorted[q].0 == x;
    }
  }

  /** The sorted tally of `xs`: every distinct element of `xs` once, with its
      count, ranked. */
  lemma SortedTally<T>(xs: seq<T>)
    ensures var sorted := SortByCount(Tally(xs));
      && |sorted| == |Distinct(xs)|
      && (forall k :: 0 <= k < |sorted| ==> sorted[k].0 in xs && sorted[k].1 == multiset(xs)[sorted[k].0])
      && RankedBy(sorted, xs)
      && (forall x :: x in xs ==> Listed(sorted, x))
  {
    TallyInOrder(xs);
    SortRanked(Tally(xs), xs);
    SortedEntries(Tally(xs), xs);
    SortedTallyListed(xs);
  }

  /** A prefix of a ranked tally keeps its facts, and everything it leaves
      out ranks below everything it keeps. */
  lemma {:induction false} RankedPrefix<T>(sorted: seq<(T, nat)>, m: nat, xs: seq<T>)
    requires m <= |sorted|
    requires forall k :: 0 <= k < |sorted| ==> sorted[k].0 in xs && sorted[k].1 == multiset(xs)[sorted[k].0]
    requires RankedBy(sorted, xs)
    requires forall x :: x in xs ==> Listed(sorted, x)
    ensures var r := sorted[..m];
      && (forall i, j :: 0 <= i < j < |r| ==> r[i].0 != r[j].0)
      && RankedBy(r, xs)
      && (forall x, k :: x in xs && !Listed(r, x) && 0 <= k < |r| ==> Outranks(xs, r[k], (x, multiset(xs)[x])))
  {
    var r := sorted[..m];
    forall i, j | 0 <= i < j < |r| ensures r[i].0 != r[j].0 && Outranks(xs, r[i], r[j]) {
      assert Outranks(xs, sorted[i], sorted[j]);
    }
    forall x, k | x in xs && !Listed(r, x) && 0 <= k < |r| ensures Outranks(xs, r[k], (x, multiset(xs)[x])) {
      assert Listed(sorted, x);
      var q :| 0 <= q < |sorted| && sorted[q].0 == x;
      assert q >= m by {
        assert forall i :: 0 <= i < m ==> r[i].0 != x;
      }
      assert Outranks(xs, sorted[k], sorted[q]);
    }
  }

  /** What `most_common(n)` returns: at most `n` entries (all distinct elements
      when there are no more than `n`), each a distinct element of `xs` with
      its exact count, highest count first with ties in first-occurrence
      order, and every element left out ranks below every element listed. */
  lemma {:induction false} MostCommonSpec<T>(xs: seq<T>, n: nat)
    ensures var r := MostCommon(xs, n);
      && |r| == Min(n, |Distinct(xs)|)
      && (forall k :: 0 <= k < |r| ==> r[k].0 in xs && r[k].1 == multiset(xs)[r[k].0] && r[k].1 > 0)
      && (forall i, j :: 0 <= i < j < |r| ==> r[i].0 != r[j].0)
      && RankedBy(r, xs)
      && (forall x, k :: x in xs && !Listed(r, x) && 0 <= k < |r| ==> Outranks(xs, r[k], (x, multiset(xs)[x])))
  {
    var sorted := SortByCount(Tally(xs));
    var r := MostCommon(xs, n);
    SortedTally(xs);
    assert r == sorted[..|r|];
    RankedPrefix(sorted, |r|, xs);
  }
}
