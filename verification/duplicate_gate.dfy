/**
 The duplicate gate without any lock: any number of passes, in any number of processes, interleaved in
 any order and reading any epoch, write their intent to the ledger before they go to the wire. The
 ledger's unique client id is all that stands between two of them.
 */
module DuplicateGate {
  import opened Common
  import opened Journal

  /** A pass carries at most one market order of one symbol from its decision to the wire. */
  datatype Pass = Deciding | Decided(entry: Entry) | Cleared(entry: Entry) | Finished

  /** `wire` is every submit call made so far; `failed` counts, per client id, the ledger writes that
      failed and let their order through; `dropped` the orders whose pass died between write and wire. */
  datatype World = World(rows: seq<Row>, passes: seq<Pass>, wire: seq<Entry>, failed: multiset<Cid>,
                         dropped: multiset<Cid>)

  datatype Event =
    | Spawn
    | Decide(p: nat, symbol: string, side: Side, qty: nat, epoch: nat)
    | Write(p: nat, now: int, error: bool)
    | Wire(p: nat)
    | Die(p: nat)
    | Touch(rows: seq<Row>)

  function Init(rows: seq<Row>): World { World(rows, [], [], multiset{}, multiset{}) }

  predicate Possible(w: World, e: Event) {
    match e
    case Spawn => true
    case Decide(p, _, _, _, _) => p < |w.passes| && w.passes[p].Deciding?
    case Write(p, _, _) => p < |w.passes| && w.passes[p].Decided?
    case Wire(p) => p < |w.passes| && w.passes[p].Cleared?
    case Die(p) => p < |w.passes|
    // acknowledgements, folds and recovery rewrite rows in place and never change a client id
    case Touch(rows) => |rows| == |w.rows| && forall i :: 0 <= i < |rows| ==> rows[i].cid == w.rows[i].cid
  }

  function Step(w: World, e: Event): World
    requires Possible(w, e)
  {
    match e
    case Spawn => w.(passes := w.passes + [Deciding])
    case Decide(p, symbol, side, qty, epoch) =>
      w.(passes := w.passes[p := Decided(Entry(MarketCid(symbol, side, qty, epoch), symbol, side, qty))])
    case Write(p, now, error) =>
      var entry := w.passes[p].entry;
      if error then w.(passes := w.passes[p := Cleared(entry)], failed := w.failed + multiset{entry.cid})
      else if Known(w.rows, entry.cid) then w.(passes := w.passes[p := Finished])
      else w.(passes := w.passes[p := Cleared(entry)], rows := w.rows + [FreshRow(entry, now)])
    case Wire(p) =>
      var entry := w.passes[p].entry;
      w.(passes := w.passes[p := Finished], wire := w.wire + [entry])
    case Die(p) =>
      w.(passes := w.passes[p := Finished],
         dropped := if w.passes[p].Cleared? then w.dropped + multiset{w.passes[p].entry.cid} else w.dropped)
    case Touch(rows) => w.(rows := rows)
  }

  ghost predicate IsRun(w: World, es: seq<Event>)
    decreases |es|
  {
    es == [] || (Possible(w, es[0]) && IsRun(Step(w, es[0]), es[1..]))
  }

  ghost function After(w: World, es: seq<Event>): World
    requires IsRun(w, es)
    decreases |es|
  {
    if es == [] then w else After(Step(w, es[0]), es[1..])
  }

  // ------------------------------------------------------------------ counting

  /** How often a client id went to the wire. */
  function Sent(wire: seq<Entry>, c: Cid): nat {
    if wire == [] then 0 else Sent(wire[..|wire| - 1], c) + if wire[|wire| - 1].cid == c then 1 else 0
  }

  function Holds(p: Pass, c: Cid): nat { if p.Cleared? && p.entry.cid == c then 1 else 0 }

  /** How many passes have been cleared to send it and have not done so. */
  function Waiting(passes: seq<Pass>, c: Cid): nat {
    if passes == [] then 0 else Waiting(passes[..|passes| - 1], c) + Holds(passes[|passes| - 1], c)
  }

  lemma {:induction false} WaitingUpdate(passes: seq<Pass>, p: nat, q: Pass, c: Cid)
    requires p < |passes|
    ensures Waiting(passes[p := q], c) + Holds(passes[p], c) == Waiting(passes, c) + Holds(q, c)
  {
    var n := |passes| - 1;
    if p == n {
      assert passes[p := q][..n] == passes[..n];
    } else {
      WaitingUpdate(passes[..n], p, q, c);
      assert passes[p := q][..n] == passes[..n][p := q];
    }
  }

  /** The book-keeping identity of one client id: every clearance came from its one row or from a failed
      write, and every clearance has been sent, is about to be, or died with its pass. A row that was
      there before the run clears nobody. */
  ghost predicate Balanced(w: World, before: seq<Row>, c: Cid) {
    Sent(w.wire, c) + Waiting(w.passes, c) + w.dropped[c]
    == (if Known(w.rows, c) && !Known(before, c) then 1 else 0) + w.failed[c]
  }

  ghost predicate Accounts(w: World, before: seq<Row>) {
    && Keyed(w.rows)
    && (forall c :: Known(before, c) ==> Known(w.rows, c))
    && (forall c :: Balanced(w, before, c))
    && (forall p :: 0 <= p < |w.passes| && w.passes[p].Decided? ==> !Blank(w.passes[p].entry.cid))
    && (forall i :: 0 <= i < |w.wire| ==> Known(w.rows, w.wire[i].cid) || w.failed[w.wire[i].cid] > 0)
    && (forall p :: 0 <= p < |w.passes| && w.passes[p].Cleared? ==>
                      Known(w.rows, w.passes[p].entry.cid) || w.failed[w.passes[p].entry.cid] > 0)
  }

  lemma WriteBalances(w: World, e: Event, before: seq<Row>, c: Cid)
    requires Keyed(w.rows) && Balanced(w, before, c) && Possible(w, e) && e.Write?
    requires !Blank(w.passes[e.p].entry.cid)
    requires forall x :: Known(before, x) ==> Known(w.rows, x)
    ensures Balanced(Step(w, e), before, c)
  {
    var w', entry := Step(w, e), w.passes[e.p].entry;
    WaitingUpdate(w.passes, e.p, w'.passes[e.p], c);
    if !e.error && !Known(w.rows, entry.cid) {
      AppendKeeps(w.rows, FreshRow(entry, e.now));
      if c != entry.cid && !Known(w.rows, c) { StillUnknown(w.rows, FreshRow(entry, e.now), c); }
    }
  }

  lemma WriteAccounts(w: World, e: Event, before: seq<Row>)
    requires Accounts(w, before) && Possible(w, e) && e.Write?
    ensures Accounts(Step(w, e), before)
  {
    var entry := w.passes[e.p].entry;
    assert forall c :: Balanced(Step(w, e), before, c) by {
      forall c ensures Balanced(Step(w, e), before, c) {
        assert Balanced(w, before, c);
        WriteBalances(w, e, before, c);
      }
    }
    if !e.error && !Known(w.rows, entry.cid) { AppendKeeps(w.rows, FreshRow(entry, e.now)); }
  }

  lemma StillUnknown(rows: seq<Row>, r: Row, c: Cid)
    requires !Known(rows, c) && r.cid != c
    ensures !Known(rows + [r], c)
  {
    assert (rows + [r])[..|rows|] == rows;
  }

  lemma MoveBalances(w: World, e: Event, before: seq<Row>, c: Cid)
    requires Balanced(w, before, c) && Possible(w, e) && (e.Wire? || e.Die? || e.Decide?)
    ensures Balanced(Step(w, e), before, c)
  {
    var w' := Step(w, e);
    assert w'.rows == w.rows && w'.failed == w.failed;
    WaitingUpdate(w.passes, e.p, w'.passes[e.p], c);
    if e.Wire? {
      SentMore(w.wire, w.passes[e.p].entry, c);
      assert w'.dropped == w.dropped;
    } else {
      assert w'.wire == w.wire;
      assert w'.dropped[c] == w.dropped[c] + if e.Die? then Holds(w.passes[e.p], c) else 0;
    }
  }

  lemma SentMore(wire: seq<Entry>, x: Entry, c: Cid)
    ensures Sent(wire + [x], c) == Sent(wire, c) + if x.cid == c then 1 else 0
  {
    assert (wire + [x])[..|wire|] == wire;
  }

  /** A pass that moves on without touching the ledger. */
  lemma MoveAccounts(w: World, e: Event, before: seq<Row>)
    requires Accounts(w, before) && Possible(w, e) && (e.Wire? || e.Die? || e.Decide?)
    ensures Accounts(Step(w, e), before)
  {
    forall c ensures Balanced(Step(w, e), before, c) {
      assert Balanced(w, before, c);
      MoveBalances(w, e, before, c);
    }
  }

  lemma StepAccounts(w: World, e: Event, before: seq<Row>)
    requires Accounts(w, before) && Possible(w, e)
    ensures Accounts(Step(w, e), before)
  {
    match e
    case Write(_, _, _) => WriteAccounts(w, e, before);
    case Touch(rows) =>
      RewriteKeeps(w.rows, rows);
      forall c ensures Balanced(Step(w, e), before, c) { assert Balanced(w, before, c); }
    case Spawn =>
      assert Step(w, e).passes[..|w.passes|] == w.passes;
      forall c ensures Balanced(Step(w, e), before, c) { assert Balanced(w, before, c); }
    case _ => MoveAccounts(w, e, before);
  }

  lemma {:induction false} RunAccounts(w: World, es: seq<Event>, before: seq<Row>)
    requires Accounts(w, before) && IsRun(w, es)
    ensures Accounts(After(w, es), before)
    decreases |es|
  {
    if es != [] {
      StepAccounts(w, es[0], before);
      RunAccounts(Step(w, es[0]), es[1..], before);
    }
  }

  // ------------------------------------------------------------------ the gate

  /** Over every interleaving: a client id reaches the wire at most once, plus once for each ledger write
      of it that failed; an id whose row was already there is never sent unless a write failed; and no
      order is on the wire without its row unless a write of that very id failed. */
  lemma AtMostOnePerClientId(rows: seq<Row>, es: seq<Event>, c: Cid)
    requires Keyed(rows) && IsRun(Init(rows), es)
    ensures var w := After(Init(rows), es);
            && Sent(w.wire, c) <= (if Known(rows, c) then 0 else 1) + w.failed[c]
            && (Sent(w.wire, c) > 0 && w.failed[c] == 0 ==> Known(w.rows, c) && Sent(w.wire, c) == 1)
  {
    RunAccounts(Init(rows), es, rows);
    var w := After(Init(rows), es);
    assert Balanced(w, rows, c);
    if Sent(w.wire, c) > 0 { SomeSubmit(w.wire, c); }
  }

  lemma {:induction false} SomeSubmit(wire: seq<Entry>, c: Cid)
    requires Sent(wire, c) > 0
    ensures exists i :: 0 <= i < |wire| && wire[i].cid == c
  {
    var n := |wire| - 1;
    if wire[n].cid != c {
      SomeSubmit(wire[..n], c);
      var i :| 0 <= i < n && wire[..n][i].cid == c;
      assert wire[i].cid == c;
    }
  }

  /** Passes that read the same epoch and computed the same order send it once between them: once all of
      them are through, no write having failed and none having died with its clearance, the order went
      out exactly once if any of them wrote it, and not at all otherwise. */
  lemma SameIntentGoesOutOnce(rows: seq<Row>, es: seq<Event>, symbol: string, side: Side, qty: nat, epoch: nat)
    requires Keyed(rows) && IsRun(Init(rows), es)
    requires var c, w := MarketCid(symbol, side, qty, epoch), After(Init(rows), es);
             w.failed[c] == 0 && w.dropped[c] == 0 && Waiting(w.passes, c) == 0
    ensures var c, w := MarketCid(symbol, side, qty, epoch), After(Init(rows), es);
            Sent(w.wire, c) == if Known(w.rows, c) && !Known(rows, c) then 1 else 0
  {
    RunAccounts(Init(rows), es, rows);
    assert Balanced(After(Init(rows), es), rows, MarketCid(symbol, side, qty, epoch));
  }

  // Two passes with one intent, the second of which fails to write it ahead.

  /** The ledger, the phases and the wire, with nothing dropped. */
  function Stage(rows: seq<Row>, passes: seq<Pass>, wire: seq<Entry>, failed: multiset<Cid>): World {
    World(rows, passes, wire, failed, multiset{})
  }

  lemma BothDecide(x: Entry, epoch: nat)
    requires x.cid == MarketCid(x.symbol, x.side, x.qty, epoch) && x.qty >= 0
    ensures var es := [Spawn, Spawn, Decide(0, x.symbol, x.side, x.qty, epoch),
                       Decide(1, x.symbol, x.side, x.qty, epoch)];
            IsRun(Init([]), es) && After(Init([]), es) == Stage([], [Decided(x), Decided(x)], [], multiset{})
  {
    var a, b := Decide(0, x.symbol, x.side, x.qty, epoch), Decide(1, x.symbol, x.side, x.qty, epoch);
    var end := Stage([], [Decided(x), Decided(x)], [], multiset{});
    var w1 := Stage([], [Deciding], [], multiset{});
    var w2 := Stage([], [Deciding, Deciding], [], multiset{});
    Chain(Stage([], [Decided(x), Deciding], [], multiset{}), b, [], end, end);
    Chain(w2, a, [b], Stage([], [Decided(x), Deciding], [], multiset{}), end);
    assert [Deciding] + [Deciding] == [Deciding, Deciding] && [] + [Deciding] == [Deciding];
    Chain(w1, Spawn, [a, b], w2, end);
    Chain(Init([]), Spawn, [Spawn, a, b], w1, end);
    assert [Spawn] + [Spawn, a, b] == [Spawn, Spawn, a, b];
  }

  lemma BothWrite(x: Entry)
    requires !Blank(x.cid)
    ensures var w := Stage([], [Decided(x), Decided(x)], [], multiset{});
            var es := [Write(0, 0, false), Write(1, 0, true)];
            IsRun(w, es)
            && After(w, es) == Stage([FreshRow(x, 0)], [Cleared(x), Cleared(x)], [], multiset{x.cid})
  {
    var w := Stage([], [Decided(x), Decided(x)], [], multiset{});
    var r := [FreshRow(x, 0)];
    var w1 := Stage(r, [Cleared(x), Decided(x)], [], multiset{});
    var end := Stage(r, [Cleared(x), Cleared(x)], [], multiset{x.cid});
    assert [] + r == r;
    Chain(w1, Write(1, 0, true), [], end, end);
    Chain(w, Write(0, 0, false), [Write(1, 0, true)], w1, end);
  }

  lemma BothSend(x: Entry, r: seq<Row>, failed: multiset<Cid>)
    ensures var w := Stage(r, [Cleared(x), Cleared(x)], [], failed);
            IsRun(w, [Wire(0), Wire(1)])
            && After(w, [Wire(0), Wire(1)]) == Stage(r, [Finished, Finished], [x, x], failed)
  {
    var w := Stage(r, [Cleared(x), Cleared(x)], [], failed);
    var w1, end := Stage(r, [Finished, Cleared(x)], [x], failed), Stage(r, [Finished, Finished], [x, x], failed);
    assert [x] + [x] == [x, x] && [] + [x] == [x];
    Chain(w1, Wire(1), [], end, end);
    Chain(w, Wire(0), [Wire(1)], w1, end);
  }

  lemma {:induction false} Joined(w: World, a: seq<Event>, b: seq<Event>)
    requires IsRun(w, a) && IsRun(After(w, a), b)
    ensures IsRun(w, a + b) && After(w, a + b) == After(After(w, a), b)
    decreases |a|
  {
    if a == [] {
      assert a + b == b;
    } else {
      Joined(Step(w, a[0]), a[1..], b);
      assert (a + b)[1..] == a[1..] + b;
    }
  }

  /** A failed write is let through by design, and then two passes with one intent both send. */
  lemma FailedWriteSendsTwice(symbol: string, side: Side, qty: nat, epoch: nat)
    ensures var c := MarketCid(symbol, side, qty, epoch);
            var es := [Spawn, Spawn, Decide(0, symbol, side, qty, epoch), Decide(1, symbol, side, qty, epoch),
                       Write(0, 0, false), Write(1, 0, true), Wire(0), Wire(1)];
            IsRun(Init([]), es) && Sent(After(Init([]), es).wire, c) == 2
  {
    var x := Entry(MarketCid(symbol, side, qty, epoch), symbol, side, qty);
    var deciding := [Spawn, Spawn, Decide(0, symbol, side, qty, epoch), Decide(1, symbol, side, qty, epoch)];
    var writing := [Write(0, 0, false), Write(1, 0, true)];
    BothDecide(x, epoch);
    BothWrite(x);
    BothSend(x, [FreshRow(x, 0)], multiset{x.cid});
    Joined(Init([]), deciding, writing);
    Joined(Init([]), deciding + writing, [Wire(0), Wire(1)]);
    assert deciding + writing + [Wire(0), Wire(1)]
           == [Spawn, Spawn, Decide(0, symbol, side, qty, epoch), Decide(1, symbol, side, qty, epoch),
               Write(0, 0, false), Write(1, 0, true), Wire(0), Wire(1)];
    SentTwice(x);
  }

  lemma SentTwice(x: Entry)
    ensures Sent([x, x], x.cid) == 2
  {
    assert [x, x][..1] == [x] && [x][..0] == [];
    assert Sent([x], x.cid) == 1;
  }

  lemma Chain(w: World, e: Event, es: seq<Event>, next: World, end: World)
    requires Possible(w, e) && Step(w, e) == next && IsRun(next, es) && After(next, es) == end
    ensures IsRun(w, [e] + es) && After(w, [e] + es) == end
  {
    assert ([e] + es)[1..] == es;
  }
}
