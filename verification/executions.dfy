/**
 The execution ledger: overlapping polls of what the broker did, each execution stored once and folded
 onto the journal row of its order in the same transaction.
 */
module Executions {
  import opened Common
  import opened Journal

  const OVERLAP_S := 300

  /** The stored executions, the journal's rows, and for each stored execution the rows as they were when it
      was folded, if that did not fail. */
  datatype Books = Books(stored: seq<Execution>, rows: seq<Row>, before: seq<Option<seq<Row>>>)

  predicate Has(stored: seq<Execution>, id: string) { exists i :: 0 <= i < |stored| && stored[i].execId == id }

  /** One fetched execution: skipped when known, otherwise stored and folded. The fold may fail without
      undoing the insert; `broken` are the ids it fails for. */
  function AfterOne(b: Books, x: Execution, broken: set<string>): Books {
    if Has(b.stored, x.execId) then b
    else if x.execId in broken then Books(b.stored + [x], b.rows, b.before + [None])
    else Books(b.stored + [x], AfterFold(b.rows, x), b.before + [Some(b.rows)])
  }

  function AfterStore(b: Books, xs: seq<Execution>, broken: set<string>): Books {
    if xs == [] then b else AfterOne(AfterStore(b, xs[..|xs| - 1], broken), xs[|xs| - 1], broken)
  }

  function Newest(stored: seq<Execution>): Option<int> {
    if stored == [] then None
    else
      var earlier, t := Newest(stored[..|stored| - 1]), stored[|stored| - 1].filledAt;
      if earlier.Some? && earlier.value >= t then earlier else Some(t)
  }

  /** Where the next poll starts: a little before the newest stored fill. */
  function Since(stored: seq<Execution>): Option<int> {
    if Newest(stored).None? then None else Some(Newest(stored).value - OVERLAP_S)
  }

  predicate Asked(since: Option<int>, x: Execution) { since.Some? ==> x.filledAt >= since.value }

  class ExecutionLedger {
    var stored: seq<Execution>
    const journal: OrderJournal
    ghost var before: seq<Option<seq<Row>>>

    ghost function State(): Books
      reads this, journal
    {
      Books(stored, journal.rows, before)
    }

    ghost predicate Valid()
      reads this, journal
    {
      journal.Valid()
    }

    constructor (journal: OrderJournal)
      requires journal.Valid()
      ensures Valid() && this.journal == journal && State() == Books([], journal.rows, [])
    {
      this.journal, stored, before := journal, [], [];
    }

    method Cursor() returns (since: Option<int>)
      ensures since == Since(stored)
    {
      var newest: Option<int> := None;
      for i := 0 to |stored|
        invariant newest == Newest(stored[..i])
      {
        assert stored[..i + 1][..i] == stored[..i];
        if newest.None? || newest.value < stored[i].filledAt { newest := Some(stored[i].filledAt); }
      }
      assert stored[..|stored|] == stored;
      since := if newest.None? then None else Some(newest.value - OVERLAP_S);
    }

    method Store(xs: seq<Execution>, broken: set<string>) returns (inserted: nat)
      requires Valid()
      modifies this, journal
      ensures Valid()
      ensures State() == AfterStore(old(State()), xs, broken)
      ensures inserted == |stored| - |old(stored)|
    {
      var asked := set i | 0 <= i < |xs| :: xs[i].execId;
      var seen := set i | 0 <= i < |stored| && stored[i].execId in asked :: stored[i].execId;
      inserted := 0;
      for i := 0 to |xs|
        invariant Valid() && State() == AfterStore(old(State()), xs[..i], broken)
        invariant inserted + |old(stored)| == |stored|
        invariant forall id :: id in asked ==> (id in seen <==> Has(stored, id))
      {
        assert xs[..i + 1][..i] == xs[..i];
        var x := xs[i];
        assert x.execId in asked;
        if x.execId in seen { continue; }
        seen := seen + {x.execId};
        HasSnoc(stored, x);
        if x.execId !in broken {
          before := before + [Some(journal.rows)];
          journal.FoldExecution(x);
        } else {
          before := before + [None];
        }
        stored := stored + [x];
        inserted := inserted + 1;
      }
      assert xs[..|xs|] == xs;
    }
  }

  lemma HasSnoc(stored: seq<Execution>, x: Execution)
    ensures forall id :: Has(stored + [x], id) <==> Has(stored, id) || id == x.execId
  {
    forall id ensures Has(stored + [x], id) <==> Has(stored, id) || id == x.execId {
      assert (stored + [x])[|stored|] == x;
      if Has(stored, id) {
        var i :| 0 <= i < |stored| && stored[i].execId == id;
        assert (stored + [x])[i].execId == id;
      }
    }
  }

  lemma {:induction false} NewestIs(stored: seq<Execution>)
    ensures Newest(stored).None? <==> stored == []
    ensures forall x :: x in stored ==> Newest(stored).Some? && x.filledAt <= Newest(stored).value
    ensures Newest(stored).Some? ==> exists x :: x in stored && x.filledAt == Newest(stored).value
  {
    if stored != [] {
      var some, last := stored[..|stored| - 1], stored[|stored| - 1];
      NewestIs(some);
      assert forall x :: x in stored <==> x in some || x == last;
    }
  }

  // ------------------------------------------------------------------ each row's fills

  /** The execution was folded, and its ids named row `i` in the ledger of that moment. */
  ghost predicate LandedOn(x: Execution, before: Option<seq<Row>>, i: nat) {
    before.Some? && Names(before.value, x.cid, x.boid, i)
  }

  /** What the executions whose ids named row `i` come to. */
  ghost function Landed(stored: seq<Execution>, before: seq<Option<seq<Row>>>, i: nat): nat
    requires |before| == |stored|
  {
    if stored == [] then 0
    else Landed(stored[..|stored| - 1], before[..|stored| - 1], i)
         + if LandedOn(stored[|stored| - 1], before[|stored| - 1], i) then Abs(stored[|stored| - 1].signedQty) else 0
  }

  /** Nothing is stored twice, and every row's filled quantity is what was added to it. */
  ghost predicate Balanced(b: Books) {
    && |b.before| == |b.stored|
    && (forall i, j :: 0 <= i < j < |b.stored| ==> b.stored[i].execId != b.stored[j].execId)
    && (forall k :: 0 <= k < |b.before| && b.before[k].Some? ==> |b.before[k].value| <= |b.rows|)
    && forall i :: 0 <= i < |b.rows| ==> b.rows[i].filled == Landed(b.stored, b.before, i)
  }

  lemma LandedSnoc(stored: seq<Execution>, before: seq<Option<seq<Row>>>, x: Execution, at: Option<seq<Row>>, i: nat)
    requires |before| == |stored|
    ensures Landed(stored + [x], before + [at], i) ==
            Landed(stored, before, i) + if LandedOn(x, at, i) then Abs(x.signedQty) else 0
  {
    assert (stored + [x])[..|stored|] == stored && (before + [at])[..|stored|] == before;
  }

  lemma OneKeepsBalance(b: Books, x: Execution, broken: set<string>)
    requires Balanced(b)
    ensures Balanced(AfterOne(b, x, broken))
  {
    if !Has(b.stored, x.execId) {
      var at := if x.execId in broken then None else Some(b.rows);
      var b' := AfterOne(b, x, broken);
      forall i | 0 <= i < |b'.rows| ensures b'.rows[i].filled == Landed(b'.stored, b'.before, i) {
        LandedSnoc(b.stored, b.before, x, at, i);
        FoldExactly(b.rows, x, i);
      }
      assert forall i :: 0 <= i < |b.stored| ==> b.stored[i].execId != x.execId;
    }
  }

  /** Every newly stored execution is folded, unless the fold breaks for it. */
  lemma {:induction false} FoldedUnlessBroken(b: Books, xs: seq<Execution>, broken: set<string>)
    requires |b.before| == |b.stored|
    ensures var b' := AfterStore(b, xs, broken);
            && |b'.before| == |b'.stored| >= |b.stored| && b'.before[..|b.stored|] == b.before
            && forall k :: |b.stored| <= k < |b'.stored| ==> (b'.before[k].Some? <==> b'.stored[k].execId !in broken)
  {
    if xs != [] { FoldedUnlessBroken(b, xs[..|xs| - 1], broken); }
  }

  lemma {:induction false} StoreKeepsBalance(b: Books, xs: seq<Execution>, broken: set<string>)
    requires Balanced(b)
    ensures Balanced(AfterStore(b, xs, broken))
  {
    if xs != [] {
      StoreKeepsBalance(b, xs[..|xs| - 1], broken);
      OneKeepsBalance(AfterStore(b, xs[..|xs| - 1], broken), xs[|xs| - 1], broken);
    }
  }

  /** Everything else that moves the journal: rows are added empty, and no filled quantity is touched. */
  ghost predicate LeavesFills(rows: seq<Row>, rows': seq<Row>) {
    && |rows'| >= |rows|
    && (forall i :: 0 <= i < |rows| ==> rows'[i].filled == rows[i].filled)
    && forall i :: |rows| <= i < |rows'| ==> rows'[i].filled == 0
  }

  /** Recording, acknowledging, rejecting, canceling, marking folded and recovery are all of that kind. */
  lemma JournalMovesLeaveFills(rows: seq<Row>, e: Entry, now: int, i: nat, boid: string, status: string, symbol: string,
                               note: string, listing: Option<seq<Listed>>, pollOk: bool)
    ensures LeavesFills(rows, rows + [FreshRow(e, now)])
    ensures i < |rows| ==> LeavesFills(rows, rows[i := AckRow(rows[i], boid, status)])
    ensures i < |rows| ==> LeavesFills(rows, rows[i := rows[i].(state := Rejected, note := TextNote(note))])
    ensures i < |rows| ==> LeavesFills(rows, rows[i := CancelRow(rows[i])])
    ensures LeavesFills(rows, AfterMarkFolded(rows, symbol))
    ensures LeavesFills(rows, AfterResolve(rows, now, listing, pollOk))
  {}

  lemma {:induction false} NothingLanded(stored: seq<Execution>, before: seq<Option<seq<Row>>>, i: nat)
    requires |before| == |stored|
    requires forall k :: 0 <= k < |before| && before[k].Some? ==> |before[k].value| <= i
    ensures Landed(stored, before, i) == 0
  {
    if stored != [] { NothingLanded(stored[..|stored| - 1], before[..|stored| - 1], i); }
  }

  lemma JournalKeepsBalance(b: Books, rows': seq<Row>)
    requires Balanced(b) && LeavesFills(b.rows, rows')
    ensures Balanced(b.(rows := rows'))
  {
    forall i | 0 <= i < |rows'| ensures rows'[i].filled == Landed(b.stored, b.before, i) {
      if i >= |b.rows| { NothingLanded(b.stored, b.before, i); }
    }
  }

  // ------------------------------------------------------------------ runs

  /** What the venue would report so far, what is stored, and which executions came too late to be asked
      for again. */
  datatype World = World(visible: seq<Execution>, books: Books, late: set<Execution>)

  datatype Event =
    | Appear(x: Execution)
    | Poll(fetched: seq<Execution>, broken: set<string>)
    | JournalMove(rows: seq<Row>)

  /** No stored fill is more than five minutes newer. */
  predicate InTime(stored: seq<Execution>, x: Execution) {
    forall i :: 0 <= i < |stored| ==> stored[i].filledAt - 300 <= x.filledAt
  }

  ghost predicate Possible(w: World, e: Event) {
    match e
    case Appear(x) => !Has(w.visible, x.execId)
    // the adapter reports what it was asked for, in any order and perhaps repeating itself
    case Poll(fetched, _) => forall x :: x in fetched <==> x in w.visible && Asked(Since(w.books.stored), x)
    case JournalMove(rows) => LeavesFills(w.books.rows, rows)
  }

  function Step(w: World, e: Event): World {
    match e
    case Appear(x) =>
      w.(visible := w.visible + [x], late := if InTime(w.books.stored, x) then w.late else w.late + {x})
    case Poll(fetched, broken) => w.(books := AfterStore(w.books, fetched, broken))
    case JournalMove(rows) => w.(books := w.books.(rows := rows))
  }

  ghost predicate IsRun(es: seq<Event>) {
    es == [] || (IsRun(es[..|es| - 1]) && Possible(After(es[..|es| - 1]), es[|es| - 1]))
  }

  function After(es: seq<Event>): World {
    if es == [] then World([], Books([], [], []), {}) else Step(After(es[..|es| - 1]), es[|es| - 1])
  }

  ghost predicate Inv(w: World) {
    && Balanced(w.books)
    && (forall x, y :: x in w.visible && y in w.visible && x.execId == y.execId ==> x == y)
    && (forall x :: x in w.books.stored ==> x in w.visible && x !in w.late)
    && (forall x :: x in w.visible && x !in w.late && x !in w.books.stored ==> InTime(w.books.stored, x))
    && (forall x :: x in w.late ==> x in w.visible && !InTime(w.books.stored, x))
  }

  /** The cursor asks for exactly what is in time. */
  lemma AskedIsInTime(stored: seq<Execution>, x: Execution)
    ensures Asked(Since(stored), x) <==> InTime(stored, x)
  {
    NewestIs(stored);
    if Newest(stored).Some? {
      var y :| y in stored && y.filledAt == Newest(stored).value;
      var k :| 0 <= k < |stored| && stored[k] == y;
      assert forall i :: 0 <= i < |stored| ==> stored[i] in stored;
    }
  }

  /** Storing keeps what was there, and adds exactly the fetched executions with a new id. */
  lemma {:induction false} StoredAre(b: Books, xs: seq<Execution>, broken: set<string>, pool: seq<Execution>)
    requires forall x :: x in b.stored || x in xs ==> x in pool
    requires forall x, y :: x in pool && y in pool && x.execId == y.execId ==> x == y
    ensures var b' := AfterStore(b, xs, broken);
            && |b'.stored| >= |b.stored| && b'.stored[..|b.stored|] == b.stored
            && forall x :: x in b'.stored <==> x in b.stored || x in xs
  {
    if xs != [] {
      var some, x := xs[..|xs| - 1], xs[|xs| - 1];
      assert forall y :: y in xs <==> y in some || y == x;
      StoredAre(b, some, broken, pool);
      var b1 := AfterStore(b, some, broken);
      if Has(b1.stored, x.execId) {
        var i :| 0 <= i < |b1.stored| && b1.stored[i].execId == x.execId;
        assert b1.stored[i] in b1.stored;
        assert b1.stored[i] == x;
      } else {
        assert AfterStore(b, xs, broken).stored == b1.stored + [x];
      }
    }
  }

  lemma PollKeeps(w: World, e: Event)
    requires Inv(w) && Possible(w, e) && e.Poll?
    ensures Inv(Step(w, e))
    ensures forall x :: x in w.visible ==> (x in Step(w, e).books.stored <==> x !in w.late)
  {
    var w' := Step(w, e);
    StoreKeepsBalance(w.books, e.fetched, e.broken);
    StoredAre(w.books, e.fetched, e.broken, w.visible);
    forall x | x in w.visible ensures x in w'.books.stored <==> x !in w.late {
      AskedIsInTime(w.books.stored, x);
    }
    forall x | x in w.late ensures !InTime(w'.books.stored, x) {
      var i :| 0 <= i < |w.books.stored| && w.books.stored[i].filledAt - 300 > x.filledAt;
      assert w'.books.stored[i] == w'.books.stored[..|w.books.stored|][i];
    }
  }

  lemma AppearKeeps(w: World, x: Execution)
    requires Inv(w) && Possible(w, Appear(x))
    ensures Inv(Step(w, Appear(x)))
  {
    forall y | y in w.visible ensures y.execId != x.execId {
      var i :| 0 <= i < |w.visible| && w.visible[i] == y;
    }
  }

  lemma {:induction false} RunKeeps(es: seq<Event>)
    requires IsRun(es)
    ensures Inv(After(es))
  {
    if es != [] {
      var w, e := After(es[..|es| - 1]), es[|es| - 1];
      RunKeeps(es[..|es| - 1]);
      match e
      case Appear(x) => AppearKeeps(w, x);
      case Poll(_, _) => PollKeeps(w, e);
      case JournalMove(rows) => JournalKeepsBalance(w.books, rows);
    }
  }

  /** After every poll the ledger holds, exactly once each, the executions that became visible while no
      stored fill was more than the overlap newer; one that came later than that is never stored. */
  lemma PollIsCompleteExactlyInTime(es: seq<Event>)
    requires IsRun(es) && es != [] && es[|es| - 1].Poll?
    ensures var w := After(es);
            && (forall x :: x in w.visible ==> (x in w.books.stored <==> x !in w.late))
            && (forall x :: x in w.books.stored ==> x in w.visible)
            && forall i, j :: 0 <= i < j < |w.books.stored| ==> w.books.stored[i].execId != w.books.stored[j].execId
  {
    RunKeeps(es[..|es| - 1]);
    PollKeeps(After(es[..|es| - 1]), es[|es| - 1]);
  }

  /** In every run each journal row's filled quantity is the sum of the stored executions whose ids named it
      when they were folded: its client id, or, where no row had that, its broker id. */
  lemma FillsAreConserved(es: seq<Event>, i: nat)
    requires IsRun(es) && i < |After(es).books.rows|
    ensures var b := After(es).books; |b.before| == |b.stored| && b.rows[i].filled == Landed(b.stored, b.before, i)
  {
    RunKeeps(es);
  }
}
