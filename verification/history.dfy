/**
 What of a symbol's history is already cached: coverage as lists of day intervals, the gaps in them, and
 a backfill that can stop at any point and go on later. Days are consecutive whole numbers.
 */
module History {
  import opened Common

  /** Both ends included. */
  datatype Span = Span(first: int, last: int)

  predicate Holds(s: Span, d: int) { s.first <= d <= s.last }

  ghost predicate In(list: seq<Span>, d: int) { exists i :: 0 <= i < |list| && Holds(list[i], d) }

  predicate Proper(list: seq<Span>) { forall i :: 0 <= i < |list| ==> list[i].first <= list[i].last }

  /** Sorted, disjoint and not even adjacent: the shortest way to write a set of days. */
  predicate Canonical(list: seq<Span>) {
    Proper(list) && forall i, j :: 0 <= i < j < |list| ==> list[i].last + 1 < list[j].first
  }

  /** Two canonical lists of the same days are the same list. */
  lemma {:induction false} CanonicalIsUnique(a: seq<Span>, b: seq<Span>)
    requires Canonical(a) && Canonical(b) && forall d :: In(a, d) <==> In(b, d)
    ensures a == b
    decreases |a|
  {
    if a == [] {
      if b != [] {
        assert Holds(b[0], b[0].first);
        assert In(b, b[0].first);
      }
    } else {
      assert b != [] by { assert Holds(a[0], a[0].first) && In(a, a[0].first); }
      SameHead(a, b);
      forall d ensures In(a[1..], d) <==> In(b[1..], d) {
        TailDays(a, d);
        TailDays(b, d);
      }
      CanonicalIsUnique(a[1..], b[1..]);
      assert a == [a[0]] + a[1..] && b == [b[0]] + b[1..];
    }
  }

  lemma FirstDay(a: seq<Span>, b: seq<Span>)
    requires a != [] && b != [] && Canonical(a) && Canonical(b) && forall d :: In(a, d) ==> In(b, d)
    ensures b[0].first <= a[0].first
  {
    assert Holds(a[0], a[0].first);
    assert In(a, a[0].first);
    var i :| 0 <= i < |b| && Holds(b[i], a[0].first);
  }

  lemma LastDay(a: seq<Span>, b: seq<Span>)
    requires a != [] && b != [] && Canonical(a) && Canonical(b) && a[0].first == b[0].first
    requires forall d :: In(b, d) ==> In(a, d)
    ensures b[0].last <= a[0].last
  {
    assert !In(a, a[0].last + 1);
    assert !In(b, a[0].last + 1);
    assert !Holds(b[0], a[0].last + 1);
  }

  lemma SameHead(a: seq<Span>, b: seq<Span>)
    requires a != [] && b != [] && Canonical(a) && Canonical(b) && forall d :: In(a, d) <==> In(b, d)
    ensures a[0] == b[0]
  {
    FirstDay(a, b);
    FirstDay(b, a);
    LastDay(a, b);
    LastDay(b, a);
  }

  lemma TailDays(a: seq<Span>, d: int)
    requires a != [] && Canonical(a)
    ensures In(a[1..], d) <==> In(a, d) && !Holds(a[0], d)
  {
    if In(a[1..], d) {
      var i :| 0 <= i < |a[1..]| && Holds(a[1..][i], d);
      assert Holds(a[i + 1], d);
    }
    if In(a, d) && !Holds(a[0], d) {
      var i :| 0 <= i < |a| && Holds(a[i], d);
      assert Holds(a[1..][i - 1], d);
    }
  }

  lemma InConcat(a: seq<Span>, b: seq<Span>, d: int)
    ensures In(a + b, d) <==> In(a, d) || In(b, d)
  {
    if In(a, d) {
      var i :| 0 <= i < |a| && Holds(a[i], d);
      assert Holds((a + b)[i], d);
    }
    if In(b, d) {
      var i :| 0 <= i < |b| && Holds(b[i], d);
      assert Holds((a + b)[|a| + i], d);
    }
  }

  lemma InOne(s: Span, d: int)
    ensures In([s], d) <==> Holds(s, d)
  {
    if Holds(s, d) { assert Holds([s][0], d); }
  }

  lemma InSnoc(a: seq<Span>, s: Span)
    ensures forall d :: In(a + [s], d) <==> In(a, d) || Holds(s, d)
  {
    forall d ensures In(a + [s], d) <==> In(a, d) || Holds(s, d) {
      InConcat(a, [s], d);
      InOne(s, d);
    }
  }

  // ------------------------------------------------------------------ merging

  predicate Before(a: Span, b: Span) { a.first < b.first || (a.first == b.first && a.last <= b.last) }

  function Inserted(sorted: seq<Span>, x: Span): seq<Span> {
    if sorted == [] || Before(sorted[|sorted| - 1], x) then sorted + [x]
    else Inserted(sorted[..|sorted| - 1], x) + [sorted[|sorted| - 1]]
  }

  /** The order Python's `sorted` gives pairs. */
  function Sorted(list: seq<Span>): seq<Span> {
    if list == [] then [] else Inserted(Sorted(list[..|list| - 1]), list[|list| - 1])
  }

  predicate Rising(list: seq<Span>) { forall i, j :: 0 <= i < j < |list| ==> Before(list[i], list[j]) }

  lemma RisingSnoc(list: seq<Span>, y: Span)
    requires Rising(list) && forall z :: z in list ==> Before(z, y)
    ensures Rising(list + [y])
  {
    var all := list + [y];
    forall i, j | 0 <= i < j < |all| ensures Before(all[i], all[j]) {
      assert all[i] in list;
    }
  }

  lemma LastIsHighest(list: seq<Span>)
    requires Rising(list) && list != []
    ensures var some, y := list[..|list| - 1], list[|list| - 1];
            list == some + [y] && Rising(some) && forall z :: z in some ==> Before(z, y)
  {}

  lemma {:induction false} InsertedMembers(sorted: seq<Span>, x: Span)
    ensures multiset(Inserted(sorted, x)) == multiset(sorted) + multiset{x}
    ensures forall z :: z in Inserted(sorted, x) ==> z == x || z in sorted
  {
    if sorted != [] && !Before(sorted[|sorted| - 1], x) {
      InsertedMembers(sorted[..|sorted| - 1], x);
      LastSplits([], sorted);
    }
  }

  lemma {:induction false} InsertedIs(sorted: seq<Span>, x: Span)
    requires Rising(sorted)
    ensures Rising(Inserted(sorted, x)) && multiset(Inserted(sorted, x)) == multiset(sorted) + multiset{x}
  {
    InsertedMembers(sorted, x);
    InsertedRises(sorted, x);
  }

  lemma {:induction false} InsertedRises(sorted: seq<Span>, x: Span)
    requires Rising(sorted)
    ensures Rising(Inserted(sorted, x))
  {
    if sorted != [] {
      var some, y := sorted[..|sorted| - 1], sorted[|sorted| - 1];
      LastIsHighest(sorted);
      if Before(y, x) {
        RisingSnoc(sorted, x);
      } else {
        InsertedRises(some, x);
        InsertedMembers(some, x);
        RisingSnoc(Inserted(some, x), y);
      }
    }
  }

  lemma {:induction false} SortedIs(list: seq<Span>)
    ensures Rising(Sorted(list)) && multiset(Sorted(list)) == multiset(list)
  {
    if list != [] {
      SortedIs(list[..|list| - 1]);
      InsertedIs(Sorted(list[..|list| - 1]), list[|list| - 1]);
      assert list == list[..|list| - 1] + [list[|list| - 1]];
    }
  }

  lemma SameMembersSameDays(a: seq<Span>, b: seq<Span>)
    requires multiset(a) == multiset(b)
    ensures forall d :: In(a, d) <==> In(b, d)
    ensures Proper(a) <==> Proper(b)
  {
    assert forall s :: s in a <==> s in b by {
      assert forall s :: (s in a <==> s in multiset(a)) && (s in b <==> s in multiset(b));
    }
    forall d ensures In(a, d) <==> In(b, d) {
      if In(a, d) {
        var i :| 0 <= i < |a| && Holds(a[i], d);
        assert a[i] in b;
      }
      if In(b, d) {
        var i :| 0 <= i < |b| && Holds(b[i], d);
        assert b[i] in a;
      }
    }
    assert Proper(a) <==> forall s :: s in a ==> s.first <= s.last;
    assert Proper(b) <==> forall s :: s in b ==> s.first <= s.last;
  }

  function Joined(out: seq<Span>, x: Span): seq<Span> {
    if out != [] && x.first <= out[|out| - 1].last + 1
    then out[..|out| - 1] + [Span(out[|out| - 1].first, Max(out[|out| - 1].last, x.last))]
    else out + [x]
  }

  function JoinedAll(sorted: seq<Span>): seq<Span> {
    if sorted == [] then [] else Joined(JoinedAll(sorted[..|sorted| - 1]), sorted[|sorted| - 1])
  }

  function Merged(list: seq<Span>): seq<Span> { JoinedAll(Sorted(list)) }

  lemma NextJoined(sorted: seq<Span>, i: nat)
    requires i < |sorted|
    ensures JoinedAll(sorted[..i + 1]) == Joined(JoinedAll(sorted[..i]), sorted[i])
  {
    CutAt(sorted, i);
  }

  lemma LastReplaced(out: seq<Span>, z: Span)
    requires out != []
    ensures out[|out| - 1 := z] == out[..|out| - 1] + [z]
  {}

  method MergeIntervals(list: seq<Span>) returns (out: seq<Span>)
    ensures out == Merged(list)
  {
    var sorted := Sorted(list);
    out := [];
    for i := 0 to |sorted|
      invariant out == JoinedAll(sorted[..i])
    {
      NextJoined(sorted, i);
      var x := sorted[i];
      if out != [] && x.first <= out[|out| - 1].last + 1 {
        LastReplaced(out, Span(out[|out| - 1].first, Max(out[|out| - 1].last, x.last)));
        out := out[|out| - 1 := Span(out[|out| - 1].first, Max(out[|out| - 1].last, x.last))];
      } else {
        out := out + [x];
      }
    }
    assert sorted[..|sorted|] == sorted;
  }

  lemma JoinedIs(out: seq<Span>, x: Span)
    requires Canonical(out) && x.first <= x.last && Reaches(out, x)
    ensures Canonical(Joined(out, x)) && Reaches(Joined(out, x), x)
    ensures forall d :: In(Joined(out, x), d) <==> In(out, d) || Holds(x, d)
  {
    var r := Joined(out, x);
    if out != [] && x.first <= out[|out| - 1].last + 1 {
      var some, y := out[..|out| - 1], out[|out| - 1];
      var z := Span(y.first, Max(y.last, x.last));
      assert out == some + [y];
      forall d ensures In(r, d) <==> In(out, d) || Holds(x, d) {
        InConcat(some, [z], d);
        InConcat(some, [y], d);
        InOne(y, d);
        InOne(z, d);
      }
    } else {
      forall d ensures In(r, d) <==> In(out, d) || Holds(x, d) {
        InConcat(out, [x], d);
        InOne(x, d);
      }
    }
  }

  /** The last interval so far starts no later than `x` does. */
  predicate Reaches(out: seq<Span>, x: Span) { out != [] ==> out[|out| - 1].first <= x.first }

  lemma {:induction false} JoinedAllIs(sorted: seq<Span>)
    requires Rising(sorted) && Proper(sorted)
    ensures Canonical(JoinedAll(sorted))
    ensures sorted != [] ==> Reaches(JoinedAll(sorted), sorted[|sorted| - 1])
    ensures forall d :: In(JoinedAll(sorted), d) <==> In(sorted, d)
  {
    if sorted != [] {
      var some, x := sorted[..|sorted| - 1], sorted[|sorted| - 1];
      JoinedAllIs(some);
      if some != [] { assert Before(sorted[|some| - 1], sorted[|some|]); }
      JoinedIs(JoinedAll(some), x);
      LastSplits([], sorted);
      InSnoc(some, x);
    }
  }

  /** Merging writes exactly the same days canonically. */
  lemma MergedIs(list: seq<Span>)
    requires Proper(list)
    ensures Canonical(Merged(list)) && forall d :: In(Merged(list), d) <==> In(list, d)
  {
    SortedIs(list);
    SameMembersSameDays(Sorted(list), list);
    JoinedAllIs(Sorted(list));
  }

  // ------------------------------------------------------------------ gaps

  function Tail(cur: int, end: int): seq<Span> { if cur <= end then [Span(cur, end)] else [] }

  function GapsFrom(merged: seq<Span>, cur: int, end: int): seq<Span> {
    if merged == [] then Tail(cur, end)
    else if merged[0].last < cur then GapsFrom(merged[1..], cur, end)
    else if merged[0].first > end then Tail(cur, end)
    else
      var next := Max(cur, merged[0].last + 1);
      (if merged[0].first > cur then [Span(cur, merged[0].first - 1)] else [])
      + if next > end then [] else GapsFrom(merged[1..], next, end)
  }

  function Missing(start: int, end: int, known: seq<Span>): seq<Span> { GapsFrom(Merged(known), start, end) }

  method MissingRanges(start: int, end: int, known: seq<Span>) returns (gaps: seq<Span>)
    ensures gaps == Missing(start, end, known)
  {
    gaps := [];
    var cur := start;
    var merged := MergeIntervals(known);
    var i := 0;
    while i < |merged|
      invariant 0 <= i <= |merged|
      invariant gaps + GapsFrom(merged[i..], cur, end) == Missing(start, end, known)
    {
      var s, e := merged[i].first, merged[i].last;
      assert merged[i..][0] == merged[i] && merged[i..][1..] == merged[i + 1..];
      i := i + 1;
      if e < cur { continue; }
      if s > end {
        i := |merged|;
        break;
      }
      if s > cur { gaps := gaps + [Span(cur, s - 1)]; }
      cur := Max(cur, e + 1);
      if cur > end {
        i := |merged|;
        break;
      }
    }
    if cur <= end { gaps := gaps + [Span(cur, end)]; }
  }

  /** The days of the gaps are the days from `cur` to `end` that no interval holds, written canonically. */
  lemma {:induction false} GapsFromIs(merged: seq<Span>, cur: int, end: int)
    requires Canonical(merged)
    ensures GapsOf(GapsFrom(merged, cur, end), merged, cur, end)
    decreases |merged|
  {
    if merged == [] {
      forall d ensures In(Tail(cur, end), d) <==> cur <= d <= end { InOne(Span(cur, end), d); }
    } else {
      var x, rest := merged[0], merged[1..];
      assert Canonical(rest);
      if x.last < cur {
        GapsFromIs(rest, cur, end);
        forall d ensures In(rest, d) <==> In(merged, d) && !Holds(x, d) { TailDays(merged, d); }
      } else if x.first > end {
        LateStart(merged, cur, end);
      } else {
        var next := Max(cur, x.last + 1);
        GapsFromIs(rest, next, end);
        EmptyPastEnd(rest, next, end);
        GapStep(merged, cur, end, if next > end then [] else GapsFrom(rest, next, end));
      }
    }
  }

  lemma EmptyPastEnd(merged: seq<Span>, cur: int, end: int)
    requires GapsOf(GapsFrom(merged, cur, end), merged, cur, end)
    ensures cur > end ==> GapsOf([], merged, cur, end)
  {}

  lemma LateStart(merged: seq<Span>, cur: int, end: int)
    requires merged != [] && Canonical(merged) && merged[0].first > end
    ensures GapsOf(Tail(cur, end), merged, cur, end)
  {
    forall d ensures In(Tail(cur, end), d) <==> cur <= d <= end && !In(merged, d) {
      InOne(Span(cur, end), d);
      NothingBefore(merged, d);
    }
  }

  /** The gaps `g` of an interval, whose days are those nothing of `merged` holds. */
  ghost predicate GapsOf(g: seq<Span>, merged: seq<Span>, cur: int, end: int) {
    Canonical(g) && forall d :: In(g, d) <==> cur <= d <= end && !In(merged, d)
  }

  function FirstGap(merged: seq<Span>, cur: int): seq<Span>
    requires merged != []
  {
    if merged[0].first > cur then [Span(cur, merged[0].first - 1)] else []
  }

  lemma GapStep(merged: seq<Span>, cur: int, end: int, more: seq<Span>)
    requires merged != [] && Canonical(merged) && cur <= merged[0].last && merged[0].first <= end
    requires GapsOf(more, merged[1..], Max(cur, merged[0].last + 1), end)
    ensures GapsOf(FirstGap(merged, cur) + more, merged, cur, end)
  {
    var next := Max(cur, merged[0].last + 1);
    forall i | 0 <= i < |more| ensures next <= more[i].first {
      assert Holds(more[i], more[i].first) && In(more, more[i].first);
    }
    forall d ensures In(FirstGap(merged, cur) + more, d) <==> cur <= d <= end && !In(merged, d) {
      GapDay(merged, cur, end, more, d);
    }
  }

  lemma GapDay(merged: seq<Span>, cur: int, end: int, more: seq<Span>, d: int)
    requires merged != [] && Canonical(merged) && cur <= merged[0].last && merged[0].first <= end
    requires In(more, d) <==> Max(cur, merged[0].last + 1) <= d <= end && !In(merged[1..], d)
    ensures In(FirstGap(merged, cur) + more, d) <==> cur <= d <= end && !In(merged, d)
  {
    InConcat(FirstGap(merged, cur), more, d);
    InOne(Span(cur, merged[0].first - 1), d);
    NothingBefore(merged, d);
    TailDays(merged, d);
  }

  lemma NothingBefore(merged: seq<Span>, d: int)
    requires merged != [] && Canonical(merged)
    ensures d < merged[0].first ==> !In(merged, d)
    ensures Holds(merged[0], d) ==> In(merged, d)
  {
    if In(merged, d) {
      var i :| 0 <= i < |merged| && Holds(merged[i], d);
      assert merged[0].first <= merged[i].first;
    }
  }

  /** The gaps are exactly the days of [start, end] that nothing covers, as maximal intervals in order. */
  lemma MissingIs(start: int, end: int, known: seq<Span>)
    requires Proper(known)
    ensures Canonical(Missing(start, end, known))
    ensures forall d :: In(Missing(start, end, known), d) <==> start <= d <= end && !In(known, d)
  {
    MergedIs(known);
    GapsFromIs(Merged(known), start, end);
  }

  // ------------------------------------------------------------------ the backfill

  datatype Row = Row(ms: int, open: real, high: real, low: real, close: real, volume: real)

  /** One symbol's cache: the ledger of what the vendor was asked for, and the stored days. */
  datatype Cache = Cache(coverage: seq<Span>, bars: map<int, seq<Row>>)

  /** The vendor: the days it has inside an interval, with their rows, in the order they arrive. */
  type Vendor = Span -> seq<(int, seq<Row>)>

  /** Days with fewer than two rows are not stored. */
  function Stored(bars: map<int, seq<Row>>, days: seq<(int, seq<Row>)>): map<int, seq<Row>> {
    if days == [] then bars
    else
      var some, x := Stored(bars, days[..|days| - 1]), days[|days| - 1];
      if |x.1| < 2 then some else some[x.0 := x.1]
  }

  function Written(days: seq<(int, seq<Row>)>): nat {
    if days == [] then 0 else Written(days[..|days| - 1]) + if |days[|days| - 1].1| < 2 then 0 else 1
  }

  function WrittenIn(gaps: seq<Span>, vendor: Vendor): nat {
    if gaps == [] then 0 else WrittenIn(gaps[..|gaps| - 1], vendor) + Written(vendor(gaps[|gaps| - 1]))
  }

  /** What is reported written of one gap is the number of its days with at least two rows. */
  lemma {:induction false} WrittenExactly(days: seq<(int, seq<Row>)>)
    ensures Written(days) == |set k: nat | k < |days| && |days[k].1| >= 2|
  {
    if days != [] {
      var n := |days| - 1;
      var some, all := set k: nat | k < n && |days[..n][k].1| >= 2, set k: nat | k < |days| && |days[k].1| >= 2;
      WrittenExactly(days[..n]);
      assert all == some + if |days[n].1| >= 2 then {n} else {};
    }
  }

  function Days(gaps: seq<Span>, vendor: Vendor): seq<(int, seq<Row>)> {
    if gaps == [] then [] else Days(gaps[..|gaps| - 1], vendor) + vendor(gaps[|gaps| - 1])
  }

  lemma {:induction false} WrittenConcat(a: seq<(int, seq<Row>)>, b: seq<(int, seq<Row>)>)
    ensures Written(a + b) == Written(a) + Written(b)
  {
    if b == [] {
      assert a + b == a;
    } else {
      WrittenConcat(a, b[..|b| - 1]);
      TakeConcat(a, b, |a| + |b| - 1);
      assert (a + b)[|a + b| - 1] == b[|b| - 1];
    }
  }

  /** And of several gaps, of all their days together. */
  lemma {:induction false} WrittenInAll(gaps: seq<Span>, vendor: Vendor)
    ensures WrittenIn(gaps, vendor) == Written(Days(gaps, vendor))
  {
    if gaps != [] {
      WrittenInAll(gaps[..|gaps| - 1], vendor);
      WrittenConcat(Days(gaps[..|gaps| - 1], vendor), vendor(gaps[|gaps| - 1]));
    }
  }

  /** One more gap of a list. */
  lemma NextGap(c: Cache, gaps: seq<Span>, i: nat, vendor: Vendor)
    requires i < |gaps|
    ensures AfterGaps(c, gaps[..i + 1], vendor) == AfterGap(AfterGaps(c, gaps[..i], vendor), gaps[i], vendor)
    ensures WrittenIn(gaps[..i + 1], vendor) == WrittenIn(gaps[..i], vendor) + Written(vendor(gaps[i]))
  {
    CutAt(gaps, i);
    AfterGapsSnoc(c, gaps[..i], gaps[i], vendor);
    WrittenInSnoc(gaps[..i], gaps[i], vendor);
  }

  lemma WrittenInSnoc(gaps: seq<Span>, g: Span, vendor: Vendor)
    ensures WrittenIn(gaps + [g], vendor) == WrittenIn(gaps, vendor) + Written(vendor(g))
  {
    assert (gaps + [g])[..|gaps|] == gaps;
  }

  function WithZip(coverage: seq<Span>, zip: Option<Span>): seq<Span> {
    coverage + if zip.Some? then [zip.value] else []
  }

  function Checkpointed(c: Cache, g: Span): Cache { c.(coverage := Merged(c.coverage + [g])) }

  function AfterGap(c: Cache, g: Span, vendor: Vendor): Cache {
    Checkpointed(c.(bars := Stored(c.bars, vendor(g))), g)
  }

  function AfterGaps(c: Cache, gaps: seq<Span>, vendor: Vendor): Cache {
    if gaps == [] then c else AfterGap(AfterGaps(c, gaps[..|gaps| - 1], vendor), gaps[|gaps| - 1], vendor)
  }

  /** What a backfill has to fetch; `zip` is the first-to-last span of the curated sessions. */
  function ToFetch(c: Cache, start: int, end: int, today: int, zip: Option<Span>): seq<Span> {
    if Min(end, today - 1) < start then [] else Missing(start, Min(end, today - 1), WithZip(c.coverage, zip))
  }

  /** Where a backfill dies: after `gaps` checkpoints, perhaps with the next gap's rows already stored. */
  datatype Death = Death(gaps: nat, stored: bool)

  function Interrupted(c: Cache, gaps: seq<Span>, vendor: Vendor, death: Death): Cache
    requires death.gaps <= |gaps|
  {
    var done := AfterGaps(c, gaps[..death.gaps], vendor);
    if death.stored && death.gaps < |gaps| then done.(bars := Stored(done.bars, vendor(gaps[death.gaps]))) else done
  }

  /** Past the last gap there is nothing left to die in. */
  function Outcome(c: Cache, gaps: seq<Span>, vendor: Vendor, death: Option<Death>): Cache {
    if death.Some? && death.value.gaps < |gaps| then Interrupted(c, gaps, vendor, death.value)
    else AfterGaps(c, gaps, vendor)
  }

  /** Where a dying process leaves the cache: the checkpoints of the gaps it finished, and their rows, those of
      the gap it died in too if they were stored before. One that does not die leaves all of both. */
  lemma DiesBetweenRowsAndCheckpoint(c: Cache, gaps: seq<Span>, vendor: Vendor, death: Option<Death>)
    ensures var left := Outcome(c, gaps, vendor, death);
            if death.Some? && death.value.gaps < |gaps| then
              var k := death.value.gaps;
              && left.coverage == AfterGaps(c, gaps[..k], vendor).coverage
              && left.bars == AfterGaps(c, gaps[..if death.value.stored then k + 1 else k], vendor).bars
            else left == AfterGaps(c, gaps, vendor)
  {
    if death.Some? && death.value.gaps < |gaps| { NextGap(c, gaps, death.value.gaps, vendor); }
  }

  class HistoryCache {
    var coverage: seq<Span>
    var bars: map<int, seq<Row>>

    ghost function State(): Cache
      reads this
    {
      Cache(coverage, bars)
    }

    method SaveGap(g: Span, days: seq<(int, seq<Row>)>) returns (wrote: nat)
      modifies this`bars
      ensures bars == Stored(old(bars), days) && wrote == Written(days)
    {
      wrote := 0;
      for i := 0 to |days|
        invariant bars == Stored(old(bars), days[..i]) && wrote == Written(days[..i])
      {
        assert days[..i + 1][..i] == days[..i];
        if |days[i].1| < 2 { continue; }
        bars := bars[days[i].0 := days[i].1];
        wrote := wrote + 1;
      }
      assert days[..|days|] == days;
    }

    /** One gap: its rows are stored first and its checkpoint is written last. */
    method FetchGap(g: Span, vendor: Vendor, dies: bool) returns (wrote: nat)
      modifies this
      ensures State() ==
              if dies then old(State()).(bars := Stored(old(bars), vendor(g))) else AfterGap(old(State()), g, vendor)
      ensures wrote == Written(vendor(g))
    {
      wrote := SaveGap(g, vendor(g));
      if !dies { coverage := MergeIntervals(coverage + [g]); }
    }

    /** `death` is where the process stops, past the last gap when it does not. */
    method EnsureHistory(start: int, end: int, today: int, zip: Option<Span>, vendor: Vendor, death: Option<Death>)
      returns (wrote: nat)
      modifies this
      ensures State() == Outcome(old(State()), ToFetch(old(State()), start, end, today, zip), vendor, death)
      ensures death.None? ==> wrote == WrittenIn(ToFetch(old(State()), start, end, today, zip), vendor)
    {
      wrote := 0;
      var last := Min(end, today - 1);
      if last < start { return; }
      var gaps := MissingRanges(start, last, WithZip(coverage, zip));
      wrote := FetchGaps(gaps, vendor, death);
    }

    /** Gap after gap, until the process dies. */
    method FetchGaps(gaps: seq<Span>, vendor: Vendor, death: Option<Death>) returns (wrote: nat)
      modifies this
      ensures State() == Outcome(old(State()), gaps, vendor, death)
      ensures death.None? ==> wrote == WrittenIn(gaps, vendor)
    {
      wrote := 0;
      for i := 0 to |gaps|
        invariant State() == AfterGaps(old(State()), gaps[..i], vendor)
        invariant wrote == WrittenIn(gaps[..i], vendor)
        invariant death.Some? ==> i <= death.value.gaps || death.value.gaps >= |gaps|
      {
        if death == Some(Death(i, false)) { return; }
        var n := FetchGap(gaps[i], vendor, death == Some(Death(i, true)));
        if death == Some(Death(i, true)) { return; }
        wrote := wrote + n;
        NextGap(old(State()), gaps, i, vendor);
      }
      CutAt(gaps, |gaps|);
    }
  }

  // ------------------------------------------------------------------ stopping and going on

  lemma CheckpointIs(c: Cache, g: Span)
    requires Proper(c.coverage) && g.first <= g.last
    ensures Canonical(Checkpointed(c, g).coverage)
    ensures forall d :: In(Checkpointed(c, g).coverage, d) <==> In(c.coverage, d) || Holds(g, d)
  {
    MergedIs(c.coverage + [g]);
    InSnoc(c.coverage, g);
  }

  /** After some gaps the ledger holds exactly what it held and those gaps. */
  lemma {:induction false} AfterGapsCovers(c: Cache, gaps: seq<Span>, vendor: Vendor)
    requires Proper(c.coverage) && Proper(gaps)
    ensures Proper(AfterGaps(c, gaps, vendor).coverage)
    ensures gaps != [] ==> Canonical(AfterGaps(c, gaps, vendor).coverage)
    ensures forall d :: In(AfterGaps(c, gaps, vendor).coverage, d) <==> In(c.coverage, d) || In(gaps, d)
  {
    if gaps != [] {
      var some, g := gaps[..|gaps| - 1], gaps[|gaps| - 1];
      AfterGapsCovers(c, some, vendor);
      var before := AfterGaps(c, some, vendor);
      CheckpointIs(before.(bars := Stored(before.bars, vendor(g))), g);
      AfterGapsSnoc(c, some, g, vendor);
      InSnoc(some, g);
      LastSplits([], gaps);
    }
  }

  lemma AfterGapsSnoc(c: Cache, gaps: seq<Span>, g: Span, vendor: Vendor)
    ensures AfterGaps(c, gaps + [g], vendor) == AfterGap(AfterGaps(c, gaps, vendor), g, vendor)
  {
    assert (gaps + [g])[..|gaps|] == gaps;
  }

  lemma {:induction false} AfterGapsConcat(c: Cache, a: seq<Span>, b: seq<Span>, vendor: Vendor)
    ensures AfterGaps(c, a + b, vendor) == AfterGaps(AfterGaps(c, a, vendor), b, vendor)
  {
    if b == [] {
      assert a + b == a;
    } else {
      var some, g := b[..|b| - 1], b[|b| - 1];
      AfterGapsConcat(c, a, some, vendor);
      AfterGapsSnoc(c, a + some, g, vendor);
      AfterGapsSnoc(AfterGaps(c, a, vendor), some, g, vendor);
      LastSplits(a, b);
    }
  }

  /** A completed backfill leaves nothing missing, and the ledger gained exactly the fetched gaps: days only
      the curated store has are never written into it. */
  lemma BackfillCompletes(c: Cache, start: int, end: int, today: int, zip: Option<Span>, vendor: Vendor)
    requires Proper(c.coverage) && (zip.Some? ==> zip.value.first <= zip.value.last)
    ensures var gaps := ToFetch(c, start, end, today, zip);
            var c' := AfterGaps(c, gaps, vendor);
            && ToFetch(c', start, end, today, zip) == []
            && forall d :: In(c'.coverage, d) <==>
                           In(c.coverage, d) || (start <= d <= Min(end, today - 1) && !In(WithZip(c.coverage, zip), d))
  {
    var gaps := ToFetch(c, start, end, today, zip);
    ResumeFetchesTheRest(c, start, end, today, zip, vendor, Death(|gaps|, false));
    assert gaps[..|gaps|] == gaps && gaps[|gaps|..] == [];
    WithZipProper(c, zip);
    if Min(end, today - 1) >= start { MissingIs(start, Min(end, today - 1), WithZip(c.coverage, zip)); }
    AfterGapsCovers(c, gaps, vendor);
  }

  lemma WithZipProper(c: Cache, zip: Option<Span>)
    requires Proper(c.coverage) && (zip.Some? ==> zip.value.first <= zip.value.last)
    ensures Proper(WithZip(c.coverage, zip))
    ensures forall d :: In(WithZip(c.coverage, zip), d) <==> In(c.coverage, d) || (zip.Some? && Holds(zip.value, d))
  {
    forall d ensures In(WithZip(c.coverage, zip), d) <==> In(c.coverage, d) || (zip.Some? && Holds(zip.value, d)) {
      if zip.Some? {
        InConcat(c.coverage, [zip.value], d);
        InOne(zip.value, d);
      } else {
        assert WithZip(c.coverage, zip) == c.coverage;
      }
    }
  }

  lemma CanonicalSuffix(list: seq<Span>, k: nat, d: int)
    requires Canonical(list) && k <= |list|
    ensures Canonical(list[k..])
    ensures In(list[k..], d) <==> In(list, d) && !In(list[..k], d)
  {
    assert list == list[..k] + list[k..];
    InConcat(list[..k], list[k..], d);
    forall i, j | 0 <= i < |list[k..]| && 0 <= j < k ensures !(Holds(list[k..][i], d) && Holds(list[..k][j], d)) {
      assert list[j].last + 1 < list[k + i].first;
    }
  }

  /** Wherever the backfill died, the next one fetches exactly the gaps that were not checkpointed, as the
      same intervals in the same order. */
  lemma ResumeFetchesTheRest(c: Cache, start: int, end: int, today: int, zip: Option<Span>, vendor: Vendor,
                             death: Death)
    requires Proper(c.coverage) && (zip.Some? ==> zip.value.first <= zip.value.last)
    requires death.gaps <= |ToFetch(c, start, end, today, zip)|
    ensures var gaps := ToFetch(c, start, end, today, zip);
            ToFetch(Interrupted(c, gaps, vendor, death), start, end, today, zip) == gaps[death.gaps..]
  {
    var gaps, last := ToFetch(c, start, end, today, zip), Min(end, today - 1);
    if last >= start {
      var died := Interrupted(c, gaps, vendor, death);
      WithZipProper(c, zip);
      MissingIs(start, last, WithZip(c.coverage, zip));
      DiedCovers(c, gaps, vendor, death);
      StillMissing(c, died.coverage, gaps, death.gaps, start, last, zip);
    }
  }

  lemma DiedCovers(c: Cache, gaps: seq<Span>, vendor: Vendor, death: Death)
    requires Proper(c.coverage) && Proper(gaps) && death.gaps <= |gaps|
    ensures var covered := Interrupted(c, gaps, vendor, death).coverage;
            Proper(covered) && forall d :: In(covered, d) <==> In(c.coverage, d) || In(gaps[..death.gaps], d)
  {
    AfterGapsCovers(c, gaps[..death.gaps], vendor);
  }

  /** With the first `k` gaps covered as well, what is missing is the rest of the gaps. */
  lemma StillMissing(c: Cache, covered: seq<Span>, gaps: seq<Span>, k: nat, start: int, last: int, zip: Option<Span>)
    requires Proper(c.coverage) && Proper(covered) && (zip.Some? ==> zip.value.first <= zip.value.last)
    requires gaps == Missing(start, last, WithZip(c.coverage, zip)) && k <= |gaps|
    requires forall d :: In(covered, d) <==> In(c.coverage, d) || In(gaps[..k], d)
    ensures Missing(start, last, WithZip(covered, zip)) == gaps[k..]
  {
    WithZipProper(c, zip);
    WithZipProper(c.(coverage := covered), zip);
    MissingIs(start, last, WithZip(c.coverage, zip));
    MissingIs(start, last, WithZip(covered, zip));
    RestIs(gaps, k, Missing(start, last, WithZip(covered, zip)));
  }

  /** A canonical list of the days of `gaps` that the first `k` do not have is the rest of the list. */
  lemma RestIs(gaps: seq<Span>, k: nat, again: seq<Span>)
    requires Canonical(gaps) && k <= |gaps| && Canonical(again)
    requires forall d :: In(again, d) <==> In(gaps, d) && !In(gaps[..k], d)
    ensures again == gaps[k..]
  {
    CanonicalSuffix(gaps, k, 0);
    forall d ensures In(again, d) <==> In(gaps[k..], d) { CanonicalSuffix(gaps, k, d); }
    CanonicalIsUnique(again, gaps[k..]);
  }

  /** An interrupted backfill that is run again ends in the very cache an uninterrupted one would have left. */
  lemma InterruptedThenResumed(c: Cache, start: int, end: int, today: int, zip: Option<Span>, vendor: Vendor,
                               death: Death)
    requires Proper(c.coverage) && (zip.Some? ==> zip.value.first <= zip.value.last)
    requires death.gaps <= |ToFetch(c, start, end, today, zip)|
    ensures var gaps := ToFetch(c, start, end, today, zip);
            var died := Interrupted(c, gaps, vendor, death);
            AfterGaps(died, ToFetch(died, start, end, today, zip), vendor) == AfterGaps(c, gaps, vendor)
  {
    var gaps, k := ToFetch(c, start, end, today, zip), death.gaps;
    ResumeFetchesTheRest(c, start, end, today, zip, vendor, death);
    CutAt(gaps, k);
    AfterGapsConcat(c, gaps[..k], gaps[k..], vendor);
    if death.stored && k < |gaps| {
      var done := AfterGaps(c, gaps[..k], vendor);
      RestAgain(done, gaps[k], gaps[k + 1..], vendor);
    }
  }

  /** Rows stored before the crash are simply stored again. */
  lemma RestAgain(done: Cache, g: Span, rest: seq<Span>, vendor: Vendor)
    ensures AfterGaps(done.(bars := Stored(done.bars, vendor(g))), [g] + rest, vendor)
            == AfterGaps(done, [g] + rest, vendor)
  {
    var died := done.(bars := Stored(done.bars, vendor(g)));
    StoringAgain(done.bars, vendor(g));
    assert AfterGap(died, g, vendor) == AfterGap(done, g, vendor);
    AfterGapsConcat(died, [g], rest, vendor);
    AfterGapsConcat(done, [g], rest, vendor);
    OneGap(died, g, vendor);
    OneGap(done, g, vendor);
  }

  lemma OneGap(c: Cache, g: Span, vendor: Vendor)
    ensures AfterGaps(c, [g], vendor) == AfterGap(c, g, vendor)
  {
    assert [g][..0] == [];
  }

  /** The last rows stored for a day among some days, if any. */
  function LastRows(days: seq<(int, seq<Row>)>, d: int): Option<seq<Row>> {
    if days == [] then None
    else if days[|days| - 1].0 == d && |days[|days| - 1].1| >= 2 then Some(days[|days| - 1].1)
    else LastRows(days[..|days| - 1], d)
  }

  /** A day is stored as its last full rows, and days the vendor did not send keep what they had. */
  lemma {:induction false} StoredIs(bars: map<int, seq<Row>>, days: seq<(int, seq<Row>)>, d: int)
    ensures d in Stored(bars, days) <==> LastRows(days, d).Some? || d in bars
    ensures d in Stored(bars, days) ==>
              Stored(bars, days)[d] == if LastRows(days, d).Some? then LastRows(days, d).value else bars[d]
  {
    if days != [] { StoredIs(bars, days[..|days| - 1], d); }
  }

  lemma StoringAgain(bars: map<int, seq<Row>>, days: seq<(int, seq<Row>)>)
    ensures Stored(Stored(bars, days), days) == Stored(bars, days)
  {
    forall d ensures d in Stored(Stored(bars, days), days) <==> d in Stored(bars, days)
      ensures d in Stored(bars, days) ==> Stored(Stored(bars, days), days)[d] == Stored(bars, days)[d]
    {
      StoredIs(bars, days, d);
      StoredIs(Stored(bars, days), days, d);
    }
  }

  /** The curated span counts from its first to its last session: a session missing inside it is never
      asked for, whatever the ledger says. */
  lemma HolesInTheCuratedSpanStay(c: Cache, start: int, end: int, today: int, zip: Span, d: int)
    requires Proper(c.coverage) && Holds(zip, d)
    ensures !In(ToFetch(c, start, end, today, Some(zip)), d)
  {
    WithZipProper(c, Some(zip));
    if Min(end, today - 1) >= start { MissingIs(start, Min(end, today - 1), WithZip(c.coverage, Some(zip))); }
  }
}
