/**
 The daily file derived from a tree of minute days: the incremental pass that re-reads only the last ten
 days, the full rebuild it must equal, and the extension of a curated file.
 */
module DailyFile {
  import opened Common

  const RECOMPUTE_DAYS := 10
  const VERSION := 1

  /** One row of the file; `day` is what its first eight characters say, if they say a day. */
  datatype Line = Line(day: Option<int>, text: string)

  /** The minute tree at one moment: its days in order, which of them are over, and the row each derives,
      none for a day without minutes. */
  datatype Tree = Tree(days: seq<int>, complete: int -> bool, derive: int -> Option<Line>)

  ghost predicate ValidTree(t: Tree) {
    && (forall i, j :: 0 <= i < j < |t.days| ==> t.days[i] < t.days[j])
    && forall d :: t.derive(d).Some? ==> t.derive(d).value.day == Some(d)
  }

  /** Rows by day; of two rows for one day the later counts, and rows without a day are left out. */
  function ByDay(lines: seq<Line>): (m: map<int, Line>)
    ensures forall d :: d in m ==> m[d].day == Some(d) && m[d] in lines
  {
    if lines == [] then map[]
    else
      var m, x := ByDay(lines[..|lines| - 1]), lines[|lines| - 1];
      if x.day.Some? then m[x.day.value := x] else m
  }

  function Eligible(t: Tree, days: seq<int>, after: Option<int>): seq<int> {
    if days == [] then []
    else
      var d := days[|days| - 1];
      Eligible(t, days[..|days| - 1], after) + if (after.None? || d > after.value) && t.complete(d) then [d] else []
  }

  function LineAt(t: Tree, keep: map<int, Line>, anew: bool, d: int): Option<Line> {
    if !anew && d in keep then Some(keep[d]) else t.derive(d)
  }

  /** The rows of some days, those from index `cut` on derived anew. */
  function Gathered(t: Tree, days: seq<int>, keep: map<int, Line>, cut: int): seq<Line> {
    if days == [] then []
    else
      var n := |days| - 1;
      var x := LineAt(t, keep, n >= cut, days[n]);
      Gathered(t, days[..n], keep, cut) + if x.Some? then [x.value] else []
  }

  function Derived(t: Tree, after: Option<int>, keep: map<int, Line>, full: bool): seq<Line> {
    var days := Eligible(t, t.days, after);
    Gathered(t, days, keep, if full then 0 else |days| - RECOMPUTE_DAYS)
  }

  method EligibleDays(t: Tree, after: Option<int>) returns (days: seq<int>)
    ensures days == Eligible(t, t.days, after)
  {
    days := [];
    for i := 0 to |t.days|
      invariant days == Eligible(t, t.days[..i], after)
    {
      CutAt(t.days, i);
      if (after.None? || t.days[i] > after.value) && t.complete(t.days[i]) { days := days + [t.days[i]]; }
    }
    CutAt(t.days, |t.days|);
  }

  method Gather(t: Tree, days: seq<int>, keep: map<int, Line>, cut: int, anew: set<int>) returns (lines: seq<Line>)
    requires Increasing(days) && anew == set k | Max(cut, 0) <= k < |days| :: days[k]
    ensures lines == Gathered(t, days, keep, cut)
  {
    lines := [];
    for i := 0 to |days|
      invariant lines == Gathered(t, days[..i], keep, cut)
    {
      CutAt(days, i);
      InTail(days, cut, anew, i);
      if days[i] !in anew && days[i] in keep {
        lines := lines + [keep[days[i]]];
        continue;
      }
      var row := t.derive(days[i]);
      if row.None? { continue; }
      lines := lines + [row.value];
    }
    CutAt(days, |days|);
  }

  /** The days to derive anew are a set of days, taken off the end of the list. */
  method DerivedLines(t: Tree, after: Option<int>, keep: map<int, Line>, full: bool) returns (lines: seq<Line>)
    requires ValidTree(t)
    ensures lines == Derived(t, after, keep, full)
  {
    var days := EligibleDays(t, after);
    EligibleAre(t, t.days, after);
    var cut := if full then 0 else |days| - RECOMPUTE_DAYS;
    var anew := set k | Max(cut, 0) <= k < |days| :: days[k];
    lines := Gather(t, days, keep, cut, anew);
  }

  lemma InTail(days: seq<int>, cut: int, anew: set<int>, i: nat)
    requires Increasing(days) && i < |days| && anew == set k | Max(cut, 0) <= k < |days| :: days[k]
    ensures days[i] in anew <==> i >= cut
  {
    forall k | 0 <= k < |days| ensures days[k] == days[i] <==> k == i {}
  }

  ghost predicate Increasing(days: seq<int>) { forall i, j :: 0 <= i < j < |days| ==> days[i] < days[j] }

  lemma {:induction false} EligibleAre(t: Tree, days: seq<int>, after: Option<int>)
    requires Increasing(days)
    ensures Increasing(Eligible(t, days, after))
    ensures forall d :: d in Eligible(t, days, after) <==>
                          d in days && (after.None? || d > after.value) && t.complete(d)
  {
    if days != [] {
      var some, d := days[..|days| - 1], days[|days| - 1];
      EligibleAre(t, some, after);
      assert forall x :: x in days <==> x in some || x == d;
      var e := Eligible(t, some, after);
      forall k | 0 <= k < |e| ensures e[k] < d {
        assert e[k] in some;
        var i :| 0 <= i < |some| && some[i] == e[k];
        assert days[i] < days[|days| - 1];
      }
    }
  }

  lemma LastIsLatest(days: seq<int>)
    requires Increasing(days) && days != []
    ensures Increasing(days[..|days| - 1])
    ensures var some, last := days[..|days| - 1], days[|days| - 1]; forall x :: x in some ==> x < last
  {
    var some := days[..|days| - 1];
    forall x | x in some ensures x < days[|days| - 1] {
      var i :| 0 <= i < |some| && some[i] == x;
      assert days[i] < days[|days| - 1];
    }
  }

  // ------------------------------------------------------------------ what a pass lists

  ghost predicate Dated(t: Tree, keep: map<int, Line>) {
    && (forall d :: t.derive(d).Some? ==> t.derive(d).value.day == Some(d))
    && forall d :: d in keep ==> keep[d].day == Some(d)
  }

  ghost predicate DatesOf(lines: seq<Line>, days: seq<int>) {
    && (forall i :: 0 <= i < |lines| ==> lines[i].day.Some? && lines[i].day.value in days)
    && forall i, j :: 0 <= i < j < |lines| ==> lines[i].day.value < lines[j].day.value
  }

  /** The rows come in strictly increasing days, one at most for each, all of them listed days. */
  lemma {:induction false} GatheredDates(t: Tree, days: seq<int>, keep: map<int, Line>, cut: int)
    requires Increasing(days) && Dated(t, keep)
    ensures DatesOf(Gathered(t, days, keep, cut), days)
  {
    if days != [] {
      var some, d := days[..|days| - 1], days[|days| - 1];
      GatheredDates(t, some, keep, cut);
      assert forall x :: x in days <==> x in some || x == d;
      LastIsLatest(days);
    }
  }

  /** A derived file holds complete days only, after the given one, in strictly increasing order. */
  lemma DerivedInOrder(t: Tree, after: Option<int>, keep: map<int, Line>, full: bool)
    requires ValidTree(t) && Dated(t, keep)
    ensures var lines := Derived(t, after, keep, full);
            && (forall i :: 0 <= i < |lines| ==> lines[i].day.Some? && lines[i].day.value in t.days
                                                  && t.complete(lines[i].day.value)
                                                  && (after.None? || lines[i].day.value > after.value))
            && forall i, j :: 0 <= i < j < |lines| ==> lines[i].day.value < lines[j].day.value
  {
    var days := Eligible(t, t.days, after);
    EligibleAre(t, t.days, after);
    GatheredDates(t, days, keep, if full then 0 else |days| - RECOMPUTE_DAYS);
  }

  /** Two passes list the same rows exactly when they agree day by day. */
  lemma {:induction false} SameRowsExactly(t: Tree, days: seq<int>, a: map<int, Line>, cutA: int, b: map<int, Line>,
                                           cutB: int)
    requires Increasing(days) && Dated(t, a) && Dated(t, b)
    ensures Gathered(t, days, a, cutA) == Gathered(t, days, b, cutB) <==> SameRows(t, days, a, cutA, b, cutB)
  {
    if days != [] {
      var n := |days| - 1;
      var some, d := days[..n], days[n];
      SameRowsExactly(t, some, a, cutA, b, cutB);
      GatheredDates(t, some, a, cutA);
      GatheredDates(t, some, b, cutB);
      LastIsLatest(days);
      var x, y := LineAt(t, a, n >= cutA, d), LineAt(t, b, n >= cutB, d);
      LastApart(Gathered(t, some, a, cutA), x, Gathered(t, some, b, cutB), y, d);
      RowsSplit(t, days, a, cutA, b, cutB);
    }
  }

  ghost predicate SameRows(t: Tree, days: seq<int>, a: map<int, Line>, cutA: int, b: map<int, Line>, cutB: int) {
    forall i :: 0 <= i < |days| ==> LineAt(t, a, i >= cutA, days[i]) == LineAt(t, b, i >= cutB, days[i])
  }

  lemma RowsSplit(t: Tree, days: seq<int>, a: map<int, Line>, cutA: int, b: map<int, Line>, cutB: int)
    requires days != []
    ensures var n := |days| - 1;
            SameRows(t, days, a, cutA, b, cutB) <==>
            SameRows(t, days[..n], a, cutA, b, cutB)
            && LineAt(t, a, n >= cutA, days[n]) == LineAt(t, b, n >= cutB, days[n])
  {
    assert forall i :: 0 <= i < |days| - 1 ==> days[..|days| - 1][i] == days[i];
  }

  function Added(lines: seq<Line>, x: Option<Line>): seq<Line> { lines + if x.Some? then [x.value] else [] }

  lemma LastApart(a: seq<Line>, x: Option<Line>, b: seq<Line>, y: Option<Line>, d: int)
    requires forall i :: 0 <= i < |a| ==> a[i].day != Some(d)
    requires forall i :: 0 <= i < |b| ==> b[i].day != Some(d)
    requires (x.Some? ==> x.value.day == Some(d)) && (y.Some? ==> y.value.day == Some(d))
    ensures Added(a, x) == Added(b, y) <==> a == b && x == y
  {
    assert Added(a, None) == a && Added(b, None) == b;
    if x.Some? { assert Added(a, x)[|a|] == x.value && Added(a, x)[..|a|] == a; }
    if y.Some? { assert Added(b, y)[|b|] == y.value && Added(b, y)[..|b|] == b; }
  }

  // ------------------------------------------------------------------ incremental against full

  /** A row carried over, for a day older than the window, that the minutes no longer give. */
  ghost predicate Stale(t: Tree, after: Option<int>, keep: map<int, Line>, d: int) {
    var days := Eligible(t, t.days, after);
    d in keep && t.derive(d) != Some(keep[d]) && exists i :: 0 <= i < |days| - 10 && days[i] == d
  }

  ghost predicate NoneStale(t: Tree, after: Option<int>, keep: map<int, Line>) { forall d :: !Stale(t, after, keep, d) }

  /** The incremental pass lists exactly what a full rebuild lists if and only if no row it carries over is
      stale. */
  lemma IncrementalIsFullExactly(t: Tree, after: Option<int>, keep: map<int, Line>)
    requires ValidTree(t) && Dated(t, keep)
    ensures Derived(t, after, keep, false) == Derived(t, after, keep, true) <==> NoneStale(t, after, keep)
  {
    SameGathered(t, after, keep, Eligible(t, t.days, after));
    DerivedIs(t, after, keep, false);
    DerivedIs(t, after, keep, true);
  }

  lemma SameGathered(t: Tree, after: Option<int>, keep: map<int, Line>, days: seq<int>)
    requires ValidTree(t) && Dated(t, keep) && days == Eligible(t, t.days, after)
    ensures Gathered(t, days, keep, |days| - RECOMPUTE_DAYS) == Gathered(t, days, keep, 0)
            <==> NoneStale(t, after, keep)
  {
    assert Increasing(days) by { EligibleAre(t, t.days, after); }
    assert SameRows(t, days, keep, |days| - RECOMPUTE_DAYS, keep, 0) <==> NoneStale(t, after, keep) by {
      SameUnlessStale(t, after, keep);
    }
    SameRowsExactly(t, days, keep, |days| - RECOMPUTE_DAYS, keep, 0);
  }

  lemma DerivedIs(t: Tree, after: Option<int>, keep: map<int, Line>, full: bool)
    ensures var days := Eligible(t, t.days, after);
            Derived(t, after, keep, full) == Gathered(t, days, keep, if full then 0 else |days| - RECOMPUTE_DAYS)
  {}

  lemma SameUnlessStale(t: Tree, after: Option<int>, keep: map<int, Line>)
    ensures var days := Eligible(t, t.days, after);
            SameRows(t, days, keep, |days| - RECOMPUTE_DAYS, keep, 0) <==> NoneStale(t, after, keep)
  {
    var days := Eligible(t, t.days, after);
    var cut := |days| - RECOMPUTE_DAYS;
    if NoneStale(t, after, keep) {
      forall i | 0 <= i < |days| ensures LineAt(t, keep, i >= cut, days[i]) == LineAt(t, keep, i >= 0, days[i]) {
        assert !Stale(t, after, keep, days[i]);
      }
    } else {
      var d :| Stale(t, after, keep, d);
      var i :| 0 <= i < cut && days[i] == d;
      assert LineAt(t, keep, i >= cut, days[i]) != LineAt(t, keep, i >= 0, days[i]);
    }
  }

  // ------------------------------------------------------------------ the file

  datatype File = File(lines: seq<Line>, version: int)

  function DerivePass(f: File, t: Tree): File {
    var lines := Derived(t, None, ByDay(f.lines), f.version != VERSION);
    if lines == [] then f else File(lines, VERSION)
  }

  function MaxDay(lines: seq<Line>): Option<int> {
    if lines == [] then None
    else
      var m, d := MaxDay(lines[..|lines| - 1]), lines[|lines| - 1].day;
      if d.None? || (m.Some? && m.value >= d.value) then m else d
  }

  function Later(m: map<int, Line>, last: int): map<int, Line> { map d | d in m && d > last :: m[d] }

  function ExtendPass(f: File, curated: seq<Line>, t: Tree): File {
    var last := MaxDay(curated);
    if last.None? then f
    else File(curated + Derived(t, last, Later(ByDay(f.lines), last.value), f.version != VERSION), VERSION)
  }

  class DailyZip {
    var lines: seq<Line>
    var version: int
    var writes: nat

    ghost function State(): File
      reads this
    {
      File(lines, version)
    }

    /** The contents are written only when they change; the version is stamped either way. */
    method WriteDailyLines(want: seq<Line>) returns (wrote: bool)
      modifies this
      ensures State() == File(want, VERSION)
      ensures wrote == (old(lines) != want) && writes == old(writes) + if wrote then 1 else 0
    {
      wrote := lines != want;
      if wrote {
        lines := want;
        writes := writes + 1;
      }
      version := VERSION;
    }

    method DeriveDailyZip(t: Tree) returns (wrote: bool)
      requires ValidTree(t)
      modifies this
      ensures State() == DerivePass(old(State()), t)
      ensures wrote == (lines != old(lines)) && writes == old(writes) + if wrote then 1 else 0
    {
      var want := DerivedLines(t, None, ByDay(lines), version != VERSION);
      if want == [] { return false; }
      wrote := WriteDailyLines(want);
    }

    method ExtendDailyZip(curated: seq<Line>, t: Tree) returns (wrote: bool)
      requires ValidTree(t)
      modifies this
      ensures State() == ExtendPass(old(State()), curated, t)
      ensures wrote == (lines != old(lines)) && writes == old(writes) + if wrote then 1 else 0
    {
      var last := MaxDay(curated);
      if last.None? { return false; }
      var derived := DerivedLines(t, last, Later(ByDay(lines), last.value), version != VERSION);
      wrote := WriteDailyLines(curated + derived);
    }
  }

  /** The curated rows go through unchanged, in front, and every row after them is of a later complete day. */
  lemma CuratedRowsStay(f: File, curated: seq<Line>, t: Tree)
    requires ValidTree(t) && MaxDay(curated).Some?
    ensures var lines := ExtendPass(f, curated, t).lines;
            && |lines| >= |curated| && lines[..|curated|] == curated
            && forall i, j :: 0 <= i < |curated| <= j < |lines| ==>
                                lines[j].day.Some? && t.complete(lines[j].day.value)
                                && (curated[i].day.Some? ==> curated[i].day.value < lines[j].day.value)
  {
    var last := MaxDay(curated);
    var keep := Later(ByDay(f.lines), last.value);
    var derived := Derived(t, last, keep, f.version != VERSION);
    DerivedInOrder(t, last, keep, f.version != VERSION);
    MaxDayIs(curated);
    var lines := ExtendPass(f, curated, t).lines;
    forall j | |curated| <= j < |lines| ensures lines[j] == derived[j - |curated|] {}
  }

  lemma {:induction false} MaxDayIs(lines: seq<Line>)
    ensures forall i :: 0 <= i < |lines| && lines[i].day.Some? ==>
                          MaxDay(lines).Some? && lines[i].day.value <= MaxDay(lines).value
  {
    if lines != [] { MaxDayIs(lines[..|lines| - 1]); }
  }

  // ------------------------------------------------------------------ passes over time

  /** What a full rebuild of the moment lists. */
  function Full(t: Tree): seq<Line> { Derived(t, None, map[], true) }

  lemma FullIgnoresKept(t: Tree, keep: map<int, Line>)
    requires ValidTree(t) && Dated(t, keep)
    ensures Derived(t, None, keep, true) == Full(t)
  {
    var days := Eligible(t, t.days, None);
    EligibleAre(t, t.days, None);
    SameRowsExactly(t, days, keep, 0, map[], 0);
  }

  /** A row of a full rebuild is found again under its day, and no day without a row is. */
  lemma {:induction false} FullByDay(t: Tree, days: seq<int>, d: int)
    requires Increasing(days) && Dated(t, map[])
    ensures var m := ByDay(Gathered(t, days, map[], 0));
            && (d in m <==> d in days && t.derive(d).Some?)
            && (d in m ==> Some(m[d]) == t.derive(d))
  {
    if days != [] {
      var some, x := days[..|days| - 1], days[|days| - 1];
      FullByDay(t, some, d);
      InLast(days, d);
      ByDaySnoc(Gathered(t, some, map[], 0), t.derive(x));
    }
  }

  lemma InLast(days: seq<int>, d: int)
    requires days != []
    ensures d in days <==> d in days[..|days| - 1] || d == days[|days| - 1]
  {}

  lemma ByDaySnoc(lines: seq<Line>, x: Option<Line>)
    ensures ByDay(Added(lines, x)) ==
            if x.Some? && x.value.day.Some? then ByDay(lines)[x.value.day.value := x.value] else ByDay(lines)
  {
    if x.Some? { assert Added(lines, x)[..|lines|] == lines; } else { assert Added(lines, x) == lines; }
  }

  /** Between two passes nothing changed for a day that was listed before and is older than the new window. */
  ghost predicate OldDaysSettled(before: Tree, t: Tree) {
    var days := Eligible(t, t.days, None);
    forall i :: 0 <= i < |days| - 10 && days[i] in Eligible(before, before.days, None) ==>
                  t.derive(days[i]) == before.derive(days[i])
  }

  /** One pass over an exact file leaves an exact file. */
  lemma PassStaysExact(before: Tree, t: Tree, f: File)
    requires ValidTree(before) && ValidTree(t) && OldDaysSettled(before, t)
    requires f == File(Full(before), VERSION) && Full(t) != []
    ensures DerivePass(f, t) == File(Full(t), VERSION)
  {
    var keep, days, old_ := ByDay(f.lines), Eligible(t, t.days, None), Eligible(before, before.days, None);
    EligibleAre(t, t.days, None);
    EligibleAre(before, before.days, None);
    forall d ensures !Stale(t, None, keep, d) {
      FullByDay(before, old_, d);
      if d in keep && exists i :: 0 <= i < |days| - RECOMPUTE_DAYS && days[i] == d {
        var i :| 0 <= i < |days| - RECOMPUTE_DAYS && days[i] == d;
        assert days[i] in old_;
      }
    }
    IncrementalIsFullExactly(t, None, keep);
    FullIgnoresKept(t, keep);
  }

  function Passes(f: File, trees: seq<Tree>): File {
    if trees == [] then f else DerivePass(Passes(f, trees[..|trees| - 1]), trees[|trees| - 1])
  }

  /** Over any number of passes, from a file of an older version, the incremental file is what a full
      rebuild of the last tree would write, as long as late minutes only reach the window. */
  lemma {:induction false} PassesStayExact(f: File, trees: seq<Tree>)
    requires trees != [] && f.version != 1
    requires forall i :: 0 <= i < |trees| ==> ValidTree(trees[i]) && Full(trees[i]) != []
    requires forall i :: 0 < i < |trees| ==> OldDaysSettled(trees[i - 1], trees[i])
    ensures Passes(f, trees) == File(Full(trees[|trees| - 1]), 1)
  {
    var n := |trees| - 1;
    if n == 0 {
      FullIgnoresKept(trees[0], ByDay(f.lines));
      assert Passes(f, trees[..0]) == f;
    } else {
      PassesStayExact(f, trees[..n]);
      PassStaysExact(trees[n - 1], trees[n], Passes(f, trees[..n]));
    }
  }

  // ------------------------------------------------------------------ a second pass

  lemma LastRowByDay(t: Tree, days: seq<int>, keep: map<int, Line>, cut: int)
    requires Increasing(days) && Dated(t, keep) && days != []
    ensures var n := |days| - 1;
            var m, x := ByDay(Gathered(t, days, keep, cut)), LineAt(t, keep, n >= cut, days[n]);
            (days[n] in m <==> x.Some?) && (days[n] in m ==> Some(m[days[n]]) == x)
  {
    var n := |days| - 1;
    ByDaySnoc(Gathered(t, days[..n], keep, cut), LineAt(t, keep, n >= cut, days[n]));
    LastIsLatest(days);
    GatheredDates(t, days[..n], keep, cut);
    assert days[n] !in days[..n];
  }

  lemma EarlierRowByDay(t: Tree, days: seq<int>, keep: map<int, Line>, cut: int, d: int)
    requires Dated(t, keep) && days != [] && d != days[|days| - 1]
    ensures var m, m0 := ByDay(Gathered(t, days, keep, cut)), ByDay(Gathered(t, days[..|days| - 1], keep, cut));
            (d in m <==> d in m0) && (d in m ==> m[d] == m0[d])
  {
    var n := |days| - 1;
    ByDaySnoc(Gathered(t, days[..n], keep, cut), LineAt(t, keep, n >= cut, days[n]));
  }

  /** The row of each listed day is found again under its day. */
  lemma {:induction false} GatheredByDay(t: Tree, days: seq<int>, keep: map<int, Line>, cut: int, i: nat)
    requires Increasing(days) && Dated(t, keep) && i < |days|
    ensures var m, x := ByDay(Gathered(t, days, keep, cut)), LineAt(t, keep, i >= cut, days[i]);
            (days[i] in m <==> x.Some?) && (days[i] in m ==> Some(m[days[i]]) == x)
  {
    var n := |days| - 1;
    if i < n {
      GatheredByDay(t, days[..n], keep, cut, i);
      EarlierRowByDay(t, days, keep, cut, days[i]);
    } else {
      LastRowByDay(t, days, keep, cut);
    }
  }

  /** Rows read back from what a pass listed, and derived anew from a later index on, are listed again. */
  lemma ListedAgain(t: Tree, days: seq<int>, keep: map<int, Line>, cut: int, again: map<int, Line>, cutAgain: int)
    requires Increasing(days) && Dated(t, keep) && Dated(t, again) && (cut <= 0 || cut == cutAgain)
    requires forall i :: 0 <= i < |days| ==>
               var m := ByDay(Gathered(t, days, keep, cut));
               (days[i] in again <==> days[i] in m) && (days[i] in m ==> again[days[i]] == m[days[i]])
    ensures Gathered(t, days, again, cutAgain) == Gathered(t, days, keep, cut)
  {
    forall i | 0 <= i < |days|
      ensures LineAt(t, again, i >= cutAgain, days[i]) == LineAt(t, keep, i >= cut, days[i])
    {
      GatheredByDay(t, days, keep, cut, i);
    }
    SameRowsExactly(t, days, again, cutAgain, keep, cut);
  }

  /** A second pass over an unchanged tree finds nothing to write, whatever the file held before the first. */
  lemma SamePassWritesNothing(f: File, t: Tree)
    requires ValidTree(t)
    ensures var once := DerivePass(f, t); DerivePass(once, t) == once
  {
    var days, keep := Eligible(t, t.days, None), ByDay(f.lines);
    var cut := |days| - RECOMPUTE_DAYS;
    EligibleAre(t, t.days, None);
    if Derived(t, None, keep, f.version != VERSION) != [] {
      ListedAgain(t, days, keep, if f.version != VERSION then 0 else cut, ByDay(DerivePass(f, t).lines), cut);
    }
  }

  lemma {:induction false} LaterRows(curated: seq<Line>, lines: seq<Line>, d: int)
    requires MaxDay(curated).Some? && d > MaxDay(curated).value
    ensures d in ByDay(curated + lines) <==> d in ByDay(lines)
    ensures d in ByDay(lines) ==> ByDay(curated + lines)[d] == ByDay(lines)[d]
  {
    if lines == [] {
      MaxDayIs(curated);
      assert curated + lines == curated;
    } else {
      LaterRows(curated, lines[..|lines| - 1], d);
      LastSplits(curated, lines);
      assert (curated + lines)[..|curated| + |lines| - 1] == curated + lines[..|lines| - 1];
    }
  }

  /** The same of a second extension of the same curated rows. */
  lemma SameExtensionWritesNothing(f: File, curated: seq<Line>, t: Tree)
    requires ValidTree(t)
    ensures var once := ExtendPass(f, curated, t); ExtendPass(once, curated, t) == once
  {
    var last := MaxDay(curated);
    if last.Some? {
      var days, keep := Eligible(t, t.days, last), Later(ByDay(f.lines), last.value);
      var cut := |days| - RECOMPUTE_DAYS;
      var lines := Derived(t, last, keep, f.version != VERSION);
      EligibleAre(t, t.days, last);
      forall i | 0 <= i < |days| ensures days[i] > last.value { assert days[i] in days; }
      forall i | 0 <= i < |days| { LaterRows(curated, lines, days[i]); }
      ListedAgain(t, days, keep, if f.version != VERSION then 0 else cut,
                  Later(ByDay(curated + lines), last.value), cut);
    }
  }
}
