/**
 * Merging half-open ranges of nights into their canonical form.
 */
module Ranges {

  datatype Range = Range(from: int, to: int)

  predicate Has(r: Range, n: int) {
    r.from <= n < r.to
  }

  /** Night n is in one of the ranges. */
  predicate Covers(rs: seq<Range>, n: int) {
    exists i | 0 <= i < |rs| :: Has(rs[i], n)
  }

  ghost predicate NonEmpty(rs: seq<Range>) {
    forall i | 0 <= i < |rs| :: rs[i].from < rs[i].to
  }

  ghost predicate SameNights(a: seq<Range>, b: seq<Range>) {
    forall n :: Covers(a, n) <==> Covers(b, n)
  }

  /** In order, with at least one free night between neighbours. */
  ghost predicate Gapped(rs: seq<Range>) {
    forall i | 0 <= i < |rs| - 1 :: rs[i].to < rs[i + 1].from
  }

  ghost predicate Canonical(rs: seq<Range>) {
    NonEmpty(rs) && Gapped(rs)
  }

  // ---- `[...ranges].sort(by from)` ------------------------------------------------------------------

  ghost predicate Sorted(rs: seq<Range>) {
    forall i, j | 0 <= i < j < |rs| :: rs[i].from <= rs[j].from
  }

  /** r after every element that starts no later: insertion keeps the sort stable. */
  function Insert(rs: seq<Range>, r: Range): seq<Range> {
    if rs == [] then [r]
    else if rs[|rs| - 1].from <= r.from then rs + [r]
    else Insert(rs[..|rs| - 1], r) + [rs[|rs| - 1]]
  }

  function SortByFrom(rs: seq<Range>): seq<Range> {
    if rs == [] then [] else Insert(SortByFrom(rs[..|rs| - 1]), rs[|rs| - 1])
  }

  lemma {:induction false} InsertHolds(rs: seq<Range>, r: Range)
    ensures multiset(Insert(rs, r)) == multiset(rs) + multiset{r}
  {
    if rs != [] && rs[|rs| - 1].from > r.from {
      InsertHolds(rs[..|rs| - 1], r);
      assert rs == rs[..|rs| - 1] + [rs[|rs| - 1]];
    }
  }

  lemma {:induction false} InsertSorts(rs: seq<Range>, r: Range)
    requires Sorted(rs)
    ensures Sorted(Insert(rs, r))
  {
    if rs != [] && rs[|rs| - 1].from > r.from {
      var init, last := rs[..|rs| - 1], rs[|rs| - 1];
      InsertSorts(init, r);
      var more := Insert(init, r);
      forall i | 0 <= i < |more|
        ensures more[i].from <= last.from
      {
        InsertHolds(init, r);
        assert more[i] in multiset(more);
        assert more[i] in init || more[i] == r;
      }
    }
  }

  lemma {:induction false} SortSorts(rs: seq<Range>)
    ensures Sorted(SortByFrom(rs)) && multiset(SortByFrom(rs)) == multiset(rs)
  {
    hide Insert;
    if rs != [] {
      SortSorts(rs[..|rs| - 1]);
      InsertSorts(SortByFrom(rs[..|rs| - 1]), rs[|rs| - 1]);
      InsertHolds(SortByFrom(rs[..|rs| - 1]), rs[|rs| - 1]);
      assert rs == rs[..|rs| - 1] + [rs[|rs| - 1]];
    }
  }

  // ---- Merging --------------------------------------------------------------------------------------

  /** Extend the last merged range, or open a new one. */
  function MergeNext(merged: seq<Range>, next: Range): (r: seq<Range>)
    requires merged != []
    ensures r != []
  {
    var n := |merged| - 1;
    if next.from <= merged[n].to then
      if next.to > merged[n].to then merged[n := merged[n].(to := next.to)] else merged
    else merged + [next]
  }

  function MergeAll(sorted: seq<Range>): (r: seq<Range>)
    requires sorted != []
    ensures r != []
  {
    if |sorted| == 1 then sorted else MergeNext(MergeAll(sorted[..|sorted| - 1]), sorted[|sorted| - 1])
  }

  function Coalesce(ranges: seq<Range>): seq<Range> {
    if |ranges| <= 1 then ranges
    else
      SortSorts(ranges);
      assert |multiset(SortByFrom(ranges))| == |multiset(ranges)|;
      MergeAll(SortByFrom(ranges))
  }

  method CoalesceRanges(ranges: seq<Range>) returns (merged: seq<Range>)
    ensures merged == Coalesce(ranges)
  {
    if |ranges| <= 1 {
      return ranges;
    }
    var sorted := SortByFrom(ranges);
    assert |sorted| == |ranges| by {
      SortSorts(ranges);
      assert |multiset(sorted)| == |multiset(ranges)|;
    }
    merged := [sorted[0]];
    assert sorted[..1] == [sorted[0]];
    for i := 1 to |sorted|
      invariant merged == MergeAll(sorted[..i])
    {
      var n := |merged| - 1;
      var next := sorted[i];
      assert sorted[..i + 1][..i] == sorted[..i] && sorted[..i + 1][i] == next;
      if next.from <= merged[n].to {
        if next.to > merged[n].to {
          merged := merged[n := merged[n].(to := next.to)];
        }
      } else {
        merged := merged + [next];
      }
    }
    assert sorted[..|sorted|] == sorted;
  }

  lemma MergeNextCovers(merged: seq<Range>, next: Range)
    requires merged != [] && merged[|merged| - 1].from <= next.from
    ensures forall n :: Covers(MergeNext(merged, next), n) <==> Covers(merged, n) || Has(next, n)
  {
    var m := |merged| - 1;
    var r := MergeNext(merged, next);
    forall n
      ensures Covers(r, n) <==> Covers(merged, n) || Has(next, n)
    {
      if Covers(merged, n) {
        var i :| 0 <= i < |merged| && Has(merged[i], n);
        assert Has(r[i], n);
      }
      if Has(next, n) {
        var last := merged[m];
        assert Has(last, n) || Has(r[|r| - 1], n);
      }
      if Covers(r, n) {
        var i :| 0 <= i < |r| && Has(r[i], n);
        assert i < m ==> Has(merged[i], n);
      }
    }
  }

  /** Merging one more range that starts no earlier keeps the list canonical. */
  lemma MergeNextCanonical(merged: seq<Range>, next: Range)
    requires merged != [] && Canonical(merged) && merged[|merged| - 1].from <= next.from && next.from < next.to
    ensures var r := MergeNext(merged, next); Canonical(r) && r[|r| - 1].from <= next.from
  {
  }

  lemma {:induction false} MergeAllCanonical(sorted: seq<Range>)
    requires sorted != [] && Sorted(sorted) && NonEmpty(sorted)
    ensures var m := MergeAll(sorted); Canonical(m) && m[|m| - 1].from <= sorted[|sorted| - 1].from
  {
    if |sorted| > 1 {
      var init, next := sorted[..|sorted| - 1], sorted[|sorted| - 1];
      assert Sorted(init) && NonEmpty(init);
      assert init[|init| - 1].from <= next.from && next.from < next.to;
      hide Sorted, NonEmpty, Canonical, MergeNext;
      MergeAllCanonical(init);
      MergeNextCanonical(MergeAll(init), next);
    }
  }

  lemma {:induction false} MergeAllCovers(sorted: seq<Range>, n: int)
    requires sorted != [] && Sorted(sorted) && NonEmpty(sorted)
    ensures Covers(MergeAll(sorted), n) <==> Covers(sorted, n)
  {
    if |sorted| > 1 {
      var init, next := sorted[..|sorted| - 1], sorted[|sorted| - 1];
      assert Sorted(init) && NonEmpty(init);
      assert init[|init| - 1].from <= next.from;
      assert sorted == init + [next];
      hide Sorted, NonEmpty, Covers, MergeNext, Canonical;
      MergeAllCovers(init, n);
      MergeAllCanonical(init);
      MergeNextCovers(MergeAll(init), next);
      CoversConcat(init, next);
    }
  }

  lemma CoversConcat(rs: seq<Range>, r: Range)
    ensures forall n :: Covers(rs + [r], n) <==> Covers(rs, n) || Has(r, n)
  {
    forall n
      ensures Covers(rs + [r], n) <==> Covers(rs, n) || Has(r, n)
    {
      if Covers(rs, n) {
        var i :| 0 <= i < |rs| && Has(rs[i], n);
        assert Has((rs + [r])[i], n);
      }
      if Has(r, n) {
        assert Has((rs + [r])[|rs|], n);
      }
    }
  }

  lemma SameElementsSameNights(a: seq<Range>, b: seq<Range>)
    requires multiset(a) == multiset(b)
    ensures SameNights(a, b)
    ensures NonEmpty(a) ==> NonEmpty(b)
  {
    assert forall r :: r in a <==> r in multiset(a);
    assert forall r :: r in b <==> r in multiset(b);
    forall n
      ensures Covers(a, n) <==> Covers(b, n)
    {
      if Covers(a, n) {
        var i :| 0 <= i < |a| && Has(a[i], n);
        assert a[i] in multiset(a);
        assert a[i] in b;
        var j :| 0 <= j < |b| && b[j] == a[i];
        assert Has(b[j], n);
      }
      if Covers(b, n) {
        var i :| 0 <= i < |b| && Has(b[i], n);
        assert b[i] in multiset(b);
        assert b[i] in a;
        var j :| 0 <= j < |a| && a[j] == b[i];
        assert Has(a[j], n);
      }
    }
    if NonEmpty(a) {
      forall i | 0 <= i < |b|
        ensures b[i].from < b[i].to
      {
        assert b[i] in a;
      }
    }
  }

  /** The merged list is in order with a gap between neighbours, and covers exactly the input's nights. */
  lemma CoalesceCanonical(ranges: seq<Range>)
    requires NonEmpty(ranges)
    ensures Canonical(Coalesce(ranges)) && SameNights(Coalesce(ranges), ranges)
  {
    if |ranges| > 1 {
      var sorted := SortByFrom(ranges);
      SortSorts(ranges);
      assert |sorted| == |ranges| by {
        assert |multiset(sorted)| == |multiset(ranges)|;
      }
      SameElementsSameNights(ranges, sorted);
      MergeAllCanonical(sorted);
      forall n
        ensures Covers(MergeAll(sorted), n) <==> Covers(sorted, n)
      {
        MergeAllCovers(sorted, n);
      }
    }
  }

  // ---- Canonical lists ------------------------------------------------------------------------------

  lemma {:induction false} GappedOrder(rs: seq<Range>, i: nat, j: nat)
    requires Canonical(rs) && i < j < |rs|
    ensures rs[i].to < rs[j].from
    decreases j - i
  {
    if i + 1 < j {
      GappedOrder(rs, i, j - 1);
    }
  }

  lemma TailCovers(rs: seq<Range>, n: int)
    requires Canonical(rs) && rs != []
    ensures Covers(rs, n) <==> Has(rs[0], n) || Covers(rs[1..], n)
    ensures Covers(rs[1..], n) ==> n > rs[0].to
    ensures Canonical(rs[1..])
  {
    if Covers(rs, n) {
      var i :| 0 <= i < |rs| && Has(rs[i], n);
      if i > 0 {
        assert Has(rs[1..][i - 1], n);
      }
    }
    if Covers(rs[1..], n) {
      var i :| 0 <= i < |rs[1..]| && Has(rs[1..][i], n);
      assert Has(rs[i + 1], n);
      GappedOrder(rs, 0, i + 1);
    }
    assert forall i | 0 <= i < |rs[1..]| :: rs[1..][i] == rs[i + 1];
  }

  /** The first range of a canonical list is determined by the nights it covers. */
  lemma SameHead(a: seq<Range>, b: seq<Range>)
    requires Canonical(a) && Canonical(b) && a != [] && b != [] && SameNights(a, b)
    ensures a[0] == b[0]
  {
    TailCovers(a, a[0].from);
    TailCovers(b, b[0].from);
    TailCovers(b, a[0].from);
    TailCovers(a, b[0].from);
    assert Has(a[0], a[0].from) && Has(b[0], b[0].from);
    assert a[0].from == b[0].from;
    TailCovers(a, a[0].to);
    TailCovers(b, b[0].to);
    TailCovers(a, b[0].to);
    TailCovers(b, a[0].to);
    assert !Covers(a, a[0].to) && !Covers(b, b[0].to);
  }

  lemma SameNone(a: seq<Range>, b: seq<Range>)
    requires NonEmpty(a) && SameNights(a, b)
    ensures a != [] ==> b != []
  {
    if a != [] {
      assert Has(a[0], a[0].from);
      assert Covers(a, a[0].from);
    }
  }

  /** Two canonical lists that cover the same nights are the same list. */
  lemma {:induction false} CanonicalUnique(a: seq<Range>, b: seq<Range>)
    requires Canonical(a) && Canonical(b) && SameNights(a, b)
    ensures a == b
  {
    if a == [] || b == [] {
      SameNone(a, b);
      SameNone(b, a);
    } else {
      SameHead(a, b);
      TailCovers(a, 0);
      TailCovers(b, 0);
      forall n
        ensures Covers(a[1..], n) <==> Covers(b[1..], n)
      {
        TailCovers(a, n);
        TailCovers(b, n);
        assert Covers(a, n) <==> Covers(b, n);
      }
      CanonicalUnique(a[1..], b[1..]);
      assert a == [a[0]] + a[1..] && b == [b[0]] + b[1..];
    }
  }

  /** The order the ranges come in does not matter. */
  lemma CoalesceIgnoresOrder(a: seq<Range>, b: seq<Range>)
    requires NonEmpty(a) && multiset(a) == multiset(b)
    ensures Coalesce(a) == Coalesce(b)
  {
    hide Coalesce, Canonical;
    SameElementsSameNights(a, b);
    CoalesceCanonical(a);
    CoalesceCanonical(b);
    assert forall n :: Covers(Coalesce(a), n) <==> Covers(a, n);
    assert forall n :: Covers(Coalesce(b), n) <==> Covers(b, n);
    CanonicalUnique(Coalesce(a), Coalesce(b));
  }

  /** The ranges that start at or after the cut. */
  function From(rs: seq<Range>, cut: int): (r: seq<Range>)
    ensures |r| <= |rs|
    ensures (exists i | 0 <= i < |rs| :: rs[i].from < cut) ==> |r| < |rs|
    ensures forall x :: x in r <==> x in rs && x.from >= cut
  {
    if rs == [] then []
    else if rs[0].from >= cut then [rs[0]] + From(rs[1..], cut)
    else From(rs[1..], cut)
  }

  lemma FromCovers(a: seq<Range>, b: seq<Range>)
    requires Canonical(a) && a != [] && SameNights(a, b)
    ensures SameNights(a[1..], From(b, a[0].to))
  {
    var cut := a[0].to;
    var rest := From(b, cut);
    TailCovers(a, cut);
    assert !Covers(b, cut);
    forall n
      ensures Covers(a[1..], n) <==> Covers(rest, n)
    {
      TailCovers(a, n);
      if Covers(a[1..], n) {
        assert Covers(b, n);
        var i :| 0 <= i < |b| && Has(b[i], n);
        var x := b[i];
        assert Has(x, cut) || x.from >= cut;
        assert b[i] in rest;
        var j :| 0 <= j < |rest| && rest[j] == b[i];
      }
      if Covers(rest, n) {
        var j :| 0 <= j < |rest| && Has(rest[j], n);
        assert rest[j] in b;
        var i :| 0 <= i < |b| && b[i] == rest[j];
        assert Covers(b, n);
      }
    }
  }

  /** A canonical list is the shortest list of ranges that covers its nights. */
  lemma {:induction false} CanonicalSmallest(a: seq<Range>, b: seq<Range>)
    requires Canonical(a) && SameNights(a, b)
    ensures |a| <= |b|
  {
    if a != [] {
      FromCovers(a, b);
      TailCovers(a, a[0].from);
      assert Has(a[0], a[0].from);
      assert Covers(b, a[0].from);
      var i :| 0 <= i < |b| && Has(b[i], a[0].from);
      CanonicalSmallest(a[1..], From(b, a[0].to));
    }
  }
}
