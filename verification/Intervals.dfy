/** Sorting and merging inclusive ranges: address sets and port lists. */
module Intervals {
  datatype Range = Range(first: nat, last: nat)

  predicate In(r: Range, x: nat) { r.first <= x <= r.last }

  predicate Covers(ranges: seq<Range>, x: nat) {
    exists i :: 0 <= i < |ranges| && In(ranges[i], x)
  }

  predicate Valid(ranges: seq<Range>) {
    forall i :: 0 <= i < |ranges| ==> ranges[i].first <= ranges[i].last
  }

  /** The comparison of the sort: by start, then by end. */
  predicate Before(l: Range, r: Range) {
    l.first < r.first || (l.first == r.first && l.last <= r.last)
  }

  predicate Sorted(ranges: seq<Range>) {
    forall i, j :: 0 <= i < j < |ranges| ==> Before(ranges[i], ranges[j])
  }

  function Insert(ranges: seq<Range>, r: Range): seq<Range> {
    if ranges == [] || Before(r, ranges[0]) then [r] + ranges else [ranges[0]] + Insert(ranges[1..], r)
  }

  function Sort(ranges: seq<Range>): seq<Range> {
    if ranges == [] then [] else Insert(Sort(ranges[1..]), ranges[0])
  }

  lemma {:induction false} InsertKeeps(ranges: seq<Range>, r: Range)
    ensures multiset(Insert(ranges, r)) == multiset(ranges) + multiset{r}
    ensures Sorted(ranges) ==> Sorted(Insert(ranges, r))
  {
    if ranges != [] && !Before(r, ranges[0]) {
      assert ranges == [ranges[0]] + ranges[1..];
      InsertKeeps(ranges[1..], r);
      if Sorted(ranges) {
        var rest := Insert(ranges[1..], r);
        forall i | 0 <= i < |rest|
          ensures Before(ranges[0], rest[i])
        {
          assert rest[i] in multiset(rest);
          assert rest[i] == r || rest[i] in ranges[1..];
        }
      }
    }
  }

  lemma {:induction false} SortKeeps(ranges: seq<Range>)
    ensures multiset(Sort(ranges)) == multiset(ranges) && Sorted(Sort(ranges))
  {
    if ranges != [] {
      SortKeeps(ranges[1..]);
      InsertKeeps(Sort(ranges[1..]), ranges[0]);
      assert ranges == [ranges[0]] + ranges[1..];
    }
  }

  lemma SortCovers(ranges: seq<Range>, x: nat)
    ensures Covers(Sort(ranges), x) <==> Covers(ranges, x)
    ensures Valid(ranges) ==> Valid(Sort(ranges))
  {
    SortKeeps(ranges);
    var sorted := Sort(ranges);
    forall i | 0 <= i < |sorted|
      ensures sorted[i] in ranges
    {
      assert sorted[i] in multiset(sorted);
    }
    forall i | 0 <= i < |ranges|
      ensures ranges[i] in sorted
    {
      assert ranges[i] in multiset(ranges);
    }
    if Valid(ranges) {
      forall i | 0 <= i < |sorted|
        ensures sorted[i].first <= sorted[i].last
      {
        assert sorted[i] in ranges;
      }
    }
  }

  /** One turn of the merging loop: extend the last range if the next one overlaps or touches it. */
  function MergeNext(merged: seq<Range>, r: Range): seq<Range> {
    if merged != [] && r.first <= merged[|merged| - 1].last + 1 then
      var last := merged[|merged| - 1];
      merged[..|merged| - 1] + [Range(last.first, if r.last > last.last then r.last else last.last)]
    else merged + [r]
  }

  function Merge(sorted: seq<Range>): seq<Range> {
    if sorted == [] then [] else MergeNext(Merge(sorted[..|sorted| - 1]), sorted[|sorted| - 1])
  }

  function Merged(ranges: seq<Range>): seq<Range> {
    Merge(Sort(ranges))
  }

  /** Disjoint, in order, and with at least one number between any two. */
  predicate Apart(merged: seq<Range>) {
    forall i, j :: 0 <= i < j < |merged| ==> merged[i].last + 1 < merged[j].first
  }

  lemma MergeNextCovers(merged: seq<Range>, r: Range, x: nat)
    requires merged != [] ==> merged[|merged| - 1].first <= r.first
    ensures Covers(MergeNext(merged, r), x) <==> Covers(merged, x) || In(r, x)
  {
    var next := MergeNext(merged, r);
    if Covers(merged, x) {
      var i :| 0 <= i < |merged| && In(merged[i], x);
      assert In(next[i], x);
    }
    if In(r, x) {
      assert In(next[|next| - 1], x);
    }
    if Covers(next, x) {
      var i :| 0 <= i < |next| && In(next[i], x);
      assert (i < |merged| && In(merged[i], x)) || In(r, x);
    }
  }

  lemma MergeNextShape(merged: seq<Range>, r: Range)
    requires Apart(merged) && Valid(merged) && r.first <= r.last
    requires merged != [] ==> merged[|merged| - 1].first <= r.first
    ensures
      var next := MergeNext(merged, r);
      Apart(next) && Valid(next) && next != [] && next[|next| - 1].first <= r.first
  {
  }

  lemma {:induction false} MergeShape(sorted: seq<Range>)
    requires Sorted(sorted) && Valid(sorted)
    ensures Apart(Merge(sorted)) && Valid(Merge(sorted))
    ensures sorted != [] ==> Merge(sorted) != [] && Merge(sorted)[|Merge(sorted)| - 1].first <= sorted[|sorted| - 1].first
  {
    if sorted != [] {
      var before, r := sorted[..|sorted| - 1], sorted[|sorted| - 1];
      MergeShape(before);
      assert before != [] ==> Before(before[|before| - 1], r);
      assert before == [] ==> Merge(before) == [];
      MergeNextShape(Merge(before), r);
    }
  }

  lemma CoversOneMore(sorted: seq<Range>, x: nat)
    requires sorted != []
    ensures Covers(sorted, x) <==> Covers(sorted[..|sorted| - 1], x) || In(sorted[|sorted| - 1], x)
  {
    var before := sorted[..|sorted| - 1];
    assert forall i :: 0 <= i < |before| ==> sorted[i] == before[i];
  }

  lemma {:induction false} MergeCovers(sorted: seq<Range>, x: nat)
    requires Sorted(sorted) && Valid(sorted)
    ensures Covers(Merge(sorted), x) <==> Covers(sorted, x)
  {
    if sorted != [] {
      var before, r := sorted[..|sorted| - 1], sorted[|sorted| - 1];
      MergeCovers(before, x);
      MergeShape(before);
      assert before != [] ==> Before(before[|before| - 1], r);
      assert before == [] ==> Merge(before) == [];
      hide Covers, Apart, MergeNext;
      MergeNextCovers(Merge(before), r, x);
      CoversOneMore(sorted, x);
    }
  }

  /** The merged ranges are valid, apart, and contain exactly the numbers of the given ones. */
  lemma MergedExact(ranges: seq<Range>, x: nat)
    requires Valid(ranges)
    ensures Covers(Merged(ranges), x) <==> Covers(ranges, x)
    ensures Apart(Merged(ranges)) && Valid(Merged(ranges))
  {
    SortKeeps(ranges);
    SortCovers(ranges, x);
    MergeShape(Sort(ranges));
    MergeCovers(Sort(ranges), x);
  }

  method MergeRanges(ranges: seq<Range>) returns (merged: seq<Range>)
    requires Valid(ranges)
    ensures merged == Merged(ranges)
    ensures Apart(merged) && Valid(merged) && forall x: nat :: Covers(merged, x) <==> Covers(ranges, x)
  {
    var sorted := Sort(ranges);
    merged := [];
    for k := 0 to |sorted|
      invariant merged == Merge(sorted[..k])
    {
      assert sorted[..k + 1][..k] == sorted[..k];
      assert Merge(sorted[..k + 1]) == MergeNext(merged, sorted[k]);
      var r := sorted[k];
      if merged != [] && r.first <= merged[|merged| - 1].last + 1 {
        var last := merged[|merged| - 1];
        if r.last > last.last {
          last := Range(last.first, r.last);
        }
        merged := merged[|merged| - 1 := last];
      } else {
        merged := merged + [r];
      }
    }
    assert sorted[..|sorted|] == sorted;
    MergedAlways(ranges);
  }

  lemma MergedAlways(ranges: seq<Range>)
    requires Valid(ranges)
    ensures Apart(Merged(ranges)) && Valid(Merged(ranges))
    ensures forall x: nat :: Covers(Merged(ranges), x) <==> Covers(ranges, x)
  {
    hide Covers, Merged;
    MergedExact(ranges, 0);
    forall x: nat
      ensures Covers(Merged(ranges), x) <==> Covers(ranges, x)
    {
      MergedExact(ranges, x);
    }
  }

  // ---- The merged form is canonical ----

  ghost predicate SameNumbers(a: seq<Range>, b: seq<Range>) {
    forall x: nat :: Covers(a, x) <==> Covers(b, x)
  }

  /** The first of a list that is apart begins at its least number and ends before a number it lacks. */
  lemma FirstRange(a: seq<Range>, x: nat)
    requires a != [] && Apart(a) && Valid(a)
    ensures Covers(a, a[0].first) && (Covers(a, x) ==> a[0].first <= x)
    ensures !Covers(a, a[0].last + 1)
    ensures Covers(a[1..], x) <==> Covers(a, x) && x > a[0].last
    ensures a[0].first <= x <= a[0].last ==> Covers(a, x)
  {
    assert In(a[0], a[0].first);
    forall i | 1 <= i < |a|
      ensures a[i] == a[1..][i - 1] && a[0].last + 1 < a[i].first
    {
    }
  }

  lemma EmptyHoldsNothing(a: seq<Range>)
    requires Valid(a)
    ensures a == [] <==> forall x: nat :: !Covers(a, x)
  {
    if a != [] {
      assert In(a[0], a[0].first);
      assert Covers(a, a[0].first);
    }
  }

  lemma SameFirst(a: seq<Range>, b: seq<Range>)
    requires a != [] && b != [] && Apart(a) && Valid(a) && Apart(b) && Valid(b) && SameNumbers(a, b)
    ensures a[0] == b[0]
  {
    FirstRange(a, b[0].first);
    FirstRange(b, a[0].first);
    FirstRange(a, b[0].last + 1);
    FirstRange(b, a[0].last + 1);
    hide Covers, Apart, Valid;
    assert a[0].first == b[0].first;
    assert !Covers(b, a[0].last + 1) && !Covers(a, b[0].last + 1);
  }

  lemma {:induction false} SameNumbersSameRanges(a: seq<Range>, b: seq<Range>)
    requires Apart(a) && Valid(a) && Apart(b) && Valid(b) && SameNumbers(a, b)
    ensures a == b
  {
    EmptyHoldsNothing(a);
    EmptyHoldsNothing(b);
    assert a == [] <==> b == [];
    if a != [] {
      SameFirst(a, b);
      forall x: nat
        ensures Covers(a[1..], x) <==> Covers(b[1..], x)
      {
        FirstRange(a, x);
        FirstRange(b, x);
      }
      SameNumbersSameRanges(a[1..], b[1..]);
    }
  }

  /** Two lists of ranges merge to the same list exactly when they contain the same numbers. */
  lemma MergedIsCanonical(a: seq<Range>, b: seq<Range>)
    requires Valid(a) && Valid(b)
    ensures Merged(a) == Merged(b) <==> SameNumbers(a, b)
  {
    hide Covers, Merged, Apart, Valid;
    MergedAlways(a);
    MergedAlways(b);
    if SameNumbers(a, b) {
      SameNumbersSameRanges(Merged(a), Merged(b));
    }
  }
}
