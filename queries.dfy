/** The derived views the forms and the report share: the month filter (an
    ISO `YYYY-MM` prefix test on `createdAt`) and the newest-first ordering by
    creation time. `timeOf` stands for `new Date(createdAt).getTime()`. */
module Queries {
  import opened Types
  import opened Lists
  import opened Text

  /** The month condition as the callback handed to `filter`. */
  function InMonth(month: string): Screen -> bool {
    (s: Screen) => StartsWith(s.createdAt, month)
  }

  /** `screens.filter(s => s.createdAt.startsWith(month))`: exactly the
      screens created in `month`, in their original order. */
  function MonthFilter(screens: seq<Screen>, month: string): (r: seq<Screen>)
    ensures IsSubsequence(r, screens)
    ensures forall i :: 0 <= i < |r| ==> r[i] in screens && StartsWith(r[i].createdAt, month)
    ensures forall i :: 0 <= i < |screens| && StartsWith(screens[i].createdAt, month) ==> screens[i] in r
  {
    Filter(screens, InMonth(month))
  }

  /** Filtering twice by the same month is filtering once. */
  lemma MonthFilterIdempotent(screens: seq<Screen>, month: string)
    ensures MonthFilter(MonthFilter(screens, month), month) == MonthFilter(screens, month)
  {
    FilterIdempotent(screens, InMonth(month));
  }

  /** Two different month keys of the same length select disjoint lists. */
  lemma MonthFiltersDisjoint(screens: seq<Screen>, m1: string, m2: string)
    requires |m1| == |m2| && m1 != m2
    ensures forall s :: s in MonthFilter(screens, m1) ==> s !in MonthFilter(screens, m2)
  {
  }

  /** Creation times never increase along the list: newest first. */
  predicate NewestFirst(screens: seq<Screen>, timeOf: string -> int) {
    forall i, j :: 0 <= i < j < |screens| ==> timeOf(screens[j].createdAt) <= timeOf(screens[i].createdAt)
  }

  /** Places `x` before the first screen that is not newer than it. */
  function Insert(x: Screen, sorted: seq<Screen>, timeOf: string -> int): (r: seq<Screen>)
    ensures multiset(r) == multiset(sorted) + multiset{x}
    ensures NewestFirst(sorted, timeOf) ==> NewestFirst(r, timeOf)
  {
    if sorted == [] || timeOf(sorted[0].createdAt) <= timeOf(x.createdAt) then
      [x] + sorted
    else
      var rest := Insert(x, sorted[1..], timeOf);
      assert sorted == [sorted[0]] + sorted[1..];
      InsertStep(sorted[0], sorted[1..], x, rest, timeOf);
      [sorted[0]] + rest
  }

  /** The step of `Insert` that keeps an older head in front: the count and
      the order carry over from the insertion into the tail. */
  lemma InsertStep(y: Screen, tail: seq<Screen>, x: Screen, rest: seq<Screen>, timeOf: string -> int)
    requires timeOf(x.createdAt) < timeOf(y.createdAt)
    requires multiset(rest) == multiset(tail) + multiset{x}
    requires NewestFirst(tail, timeOf) ==> NewestFirst(rest, timeOf)
    ensures multiset([y] + rest) == multiset([y] + tail) + multiset{x}
    ensures NewestFirst([y] + tail, timeOf) ==> NewestFirst([y] + rest, timeOf)
  {
    if NewestFirst([y] + tail, timeOf) {
      assert NewestFirst(tail, timeOf) by {
        forall i, j | 0 <= i < j < |tail| ensures timeOf(tail[j].createdAt) <= timeOf(tail[i].createdAt) {
          assert ([y] + tail)[i + 1] == tail[i] && ([y] + tail)[j + 1] == tail[j];
        }
      }
      ConsNewestFirst(y, tail, x, rest, timeOf);
    }
  }

  /** A newest-first list keeps that order under a head that is newer than
      every screen it holds: the old tail's screens and the inserted one. */
  lemma ConsNewestFirst(y: Screen, tail: seq<Screen>, x: Screen, rest: seq<Screen>, timeOf: string -> int)
    requires NewestFirst([y] + tail, timeOf)
    requires timeOf(x.createdAt) < timeOf(y.createdAt)
    requires multiset(rest) == multiset(tail) + multiset{x}
    requires NewestFirst(rest, timeOf)
    ensures NewestFirst([y] + rest, timeOf)
  {
    forall j | 0 <= j < |rest| ensures timeOf(rest[j].createdAt) <= timeOf(y.createdAt) {
      assert rest[j] in multiset(rest);
      if rest[j] != x {
        assert rest[j] in multiset(tail);
        var k :| 0 <= k < |tail| && tail[k] == rest[j];
        assert ([y] + tail)[k + 1] == tail[k] && ([y] + tail)[0] == y;
        assert timeOf(([y] + tail)[k + 1].createdAt) <= timeOf(([y] + tail)[0].createdAt);
      }
    }
    var r := [y] + rest;
    forall i, j | 0 <= i < j < |r| ensures timeOf(r[j].createdAt) <= timeOf(r[i].createdAt) {
      assert r[j] == rest[j - 1];
      if i > 0 {
        assert r[i] == rest[i - 1];
      }
    }
  }

  /** `[...screens].sort((a, b) => time(b) - time(a))`: the same screens,
      newest first; screens with equal times keep their relative order. */
  function SortNewestFirst(screens: seq<Screen>, timeOf: string -> int): (r: seq<Screen>)
    ensures multiset(r) == multiset(screens)
    ensures NewestFirst(r, timeOf)
  {
    if screens == [] then []
    else
      assert screens == [screens[0]] + screens[1..];
      Insert(screens[0], SortNewestFirst(screens[1..], timeOf), timeOf)
  }

  /** Filtering commutes with inserting into a newest-first list. */
  lemma {:induction false} FilterInsert(x: Screen, sorted: seq<Screen>, p: Screen -> bool, timeOf: string -> int)
    requires NewestFirst(sorted, timeOf)
    ensures Filter(Insert(x, sorted, timeOf), p)
         == if p(x) then Insert(x, Filter(sorted, p), timeOf) else Filter(sorted, p)
  {
    if sorted == [] || timeOf(sorted[0].createdAt) <= timeOf(x.createdAt) {
      FilterInsertFront(x, sorted, p, timeOf);
    } else {
      NewestFirstTail(sorted, timeOf);
      FilterInsert(x, sorted[1..], p, timeOf);
      FilterInsertStep(x, sorted, p, timeOf);
    }
  }

  /** The tail of a newest-first list is newest first. */
  lemma NewestFirstTail(sorted: seq<Screen>, timeOf: string -> int)
    requires sorted != [] && NewestFirst(sorted, timeOf)
    ensures NewestFirst(sorted[1..], timeOf)
  {
    forall i, j | 0 <= i < j < |sorted| - 1
      ensures timeOf(sorted[1..][j].createdAt) <= timeOf(sorted[1..][i].createdAt)
    {
      assert sorted[1..][i] == sorted[i + 1] && sorted[1..][j] == sorted[j + 1];
    }
  }

  /** `FilterInsert` when `x` goes in front: it is newer than everything the
      filter keeps, so inserting it into the filter puts it in front too. */
  lemma FilterInsertFront(x: Screen, sorted: seq<Screen>, p: Screen -> bool, timeOf: string -> int)
    requires NewestFirst(sorted, timeOf)
    requires sorted == [] || timeOf(sorted[0].createdAt) <= timeOf(x.createdAt)
    ensures Filter(Insert(x, sorted, timeOf), p)
         == if p(x) then Insert(x, Filter(sorted, p), timeOf) else Filter(sorted, p)
  {
    assert Insert(x, sorted, timeOf) == [x] + sorted;
    assert ([x] + sorted)[1..] == sorted;
    var kept := Filter(sorted, p);
    if kept != [] {
      assert kept[0] in sorted;
      var k :| 0 <= k < |sorted| && sorted[k] == kept[0];
      assert timeOf(sorted[k].createdAt) <= timeOf(sorted[0].createdAt);
    }
  }

  /** The step of `FilterInsert` when `x` goes behind the head: the claim for
      the tail gives the claim for the whole list. */
  lemma FilterInsertStep(x: Screen, sorted: seq<Screen>, p: Screen -> bool, timeOf: string -> int)
    requires sorted != [] && timeOf(x.createdAt) < timeOf(sorted[0].createdAt)
    requires Filter(Insert(x, sorted[1..], timeOf), p)
          == if p(x) then Insert(x, Filter(sorted[1..], p), timeOf) else Filter(sorted[1..], p)
    ensures Filter(Insert(x, sorted, timeOf), p)
         == if p(x) then Insert(x, Filter(sorted, p), timeOf) else Filter(sorted, p)
  {
    InsertBehind(x, sorted, timeOf);
    FilterInsertBehind(x, sorted, Insert(x, sorted[1..], timeOf), p, timeOf);
  }

  /** `Insert` keeps a head that is older than `x` in front. */
  lemma InsertBehind(x: Screen, sorted: seq<Screen>, timeOf: string -> int)
    requires sorted != [] && timeOf(x.createdAt) < timeOf(sorted[0].createdAt)
    ensures Insert(x, sorted, timeOf) == [sorted[0]] + Insert(x, sorted[1..], timeOf)
  {
  }

  /** `FilterInsert` when `x` goes behind an older head: the head is kept or
      dropped by the filter whatever `x` is. */
  lemma FilterInsertBehind(x: Screen, sorted: seq<Screen>, inserted: seq<Screen>, p: Screen -> bool, timeOf: string -> int)
    requires sorted != [] && timeOf(x.createdAt) < timeOf(sorted[0].createdAt)
    requires Filter(inserted, p) == if p(x) then Insert(x, Filter(sorted[1..], p), timeOf) else Filter(sorted[1..], p)
    ensures Filter([sorted[0]] + inserted, p)
         == if p(x) then Insert(x, Filter(sorted, p), timeOf) else Filter(sorted, p)
  {
    assert ([sorted[0]] + inserted)[1..] == inserted;
    if p(sorted[0]) && p(x) {
      var kept := Filter(sorted[1..], p);
      assert Filter(sorted, p) == [sorted[0]] + kept;
      assert ([sorted[0]] + kept)[1..] == kept;
    }
  }

  /** Filtering a sorted list equals sorting the filtered list: the order in
      which a view filters and sorts does not change what it shows. */
  lemma {:induction false} FilterSortCommute(screens: seq<Screen>, p: Screen -> bool, timeOf: string -> int)
    ensures Filter(SortNewestFirst(screens, timeOf), p) == SortNewestFirst(Filter(screens, p), timeOf)
  {
    if screens != [] {
      var rest := SortNewestFirst(screens[1..], timeOf);
      FilterSortCommute(screens[1..], p, timeOf);
      FilterInsert(screens[0], rest, p, timeOf);
    }
  }

  /** Filtering the sorted list keeps it newest first and selects exactly the
      input elements that satisfy the predicate. */
  lemma FilterOfSorted(screens: seq<Screen>, p: Screen -> bool, timeOf: string -> int)
    ensures var r := Filter(SortNewestFirst(screens, timeOf), p);
      && NewestFirst(r, timeOf)
      && (forall i :: 0 <= i < |r| ==> r[i] in screens && p(r[i]))
      && (forall i :: 0 <= i < |screens| && p(screens[i]) ==> screens[i] in r)
  {
    var sorted := SortNewestFirst(screens, timeOf);
    var r := Filter(sorted, p);
    FilterSortCommute(screens, p, timeOf);
    assert NewestFirst(r, timeOf);
    forall i | 0 <= i < |r| ensures r[i] in screens {
      assert r[i] in sorted;
      assert r[i] in multiset(screens);
    }
    forall i | 0 <= i < |screens| && p(screens[i]) ensures screens[i] in r {
      var x := screens[i];
      assert x in multiset(screens);
      assert x in sorted;
      var j :| 0 <= j < |sorted| && sorted[j] == x;
      assert p(sorted[j]);
    }
  }

  /** A newest-first list is its own sort: sorting is idempotent. */
  lemma {:induction false} SortSorted(screens: seq<Screen>, timeOf: string -> int)
    requires NewestFirst(screens, timeOf)
    ensures SortNewestFirst(screens, timeOf) == screens
  {
    if screens != [] {
      assert NewestFirst(screens[1..], timeOf);
      SortSorted(screens[1..], timeOf);
      assert screens == [screens[0]] + screens[1..];
    }
  }
}
