/**
 No assumption of the double-buy theorem can be dropped: for each of them a complete run that meets all
 the others and buys twice, or sells what the target still wants. One run that meets them all trades.
 */
module DoubleBuyWitnesses {
  import opened Common
  import opened Journal
  import opened MarketDelta
  import opened MarketSection
  import opened NoDoubleBuy
  import opened DoubleBuyRuns

  const DAY := Day("SPY", 0, 1, 0)

  const FREE := Rails(None, None, 20, false, false, true, 50.0, 1.0, 50.0)

  // ------------------------------------------------------------------ runs that may break one assumption

  /** Every step of the run meets the assumptions, except that `bad` may happen without them. */
  ghost predicate LegalBut(bad: Event, d: Day, w: World, es: seq<Event>)
    decreases |es|
  {
    es == [] || (Allowed(d, w, es[0]) && (Assumed(d, w, es[0]) || es[0] == bad)
                 && LegalBut(bad, d, Apply(d, w, es[0]), es[1..]))
  }

  /** Such a run leads from `w` to `w'`. */
  ghost predicate Leads(bad: Event, d: Day, w: World, es: seq<Event>, w': World) {
    LegalBut(bad, d, w, es) && Possible(d, w, es) && After(d, w, es) == w'
  }

  /** Such a run leads from the start of the day to `w`. */
  ghost predicate Reaches(bad: Event, es: seq<Event>, w: World) { Leads(bad, DAY, Init(DAY), es, w) }

  /** A run that meets every assumption but one and ends with the account committed beyond `want`, the
      largest target any of its passes had. */
  ghost predicate DoubleBuys(bad: Event, es: seq<Event>, want: int) {
    && LegalBut(bad, DAY, Init(DAY), es) && Possible(DAY, Init(DAY), es)
    && WantsUpTo(es, want)
    && Committed(DAY, After(DAY, Init(DAY), es)) > want
  }

  predicate WantsUpTo(es: seq<Event>, want: int) {
    forall i :: 0 <= i < |es| && es[i].ReadOrders? ==> 0 < es[i].view.want <= want
  }

  /** A run that meets every assumption but one and is about to send an order that moves the commitments
      away from the target it was decided for. */
  ghost predicate TradesAway(bad: Event, es: seq<Event>) {
    && LegalBut(bad, DAY, Init(DAY), es) && Possible(DAY, Init(DAY), es)
    && var w := After(DAY, Init(DAY), es);
       && w.phase.Written? && w.phase.lost == 0
       && !Between(Committed(DAY, w), Committed(DAY, Apply(DAY, w, SendPlaced)), w.phase.want)
  }

  /** A run with one more step. */
  lemma {:induction false} Snoc(bad: Event, d: Day, w: World, es: seq<Event>, w1: World, e: Event)
    requires Leads(bad, d, w, es, w1) && Allowed(d, w1, e) && (Assumed(d, w1, e) || e == bad)
    ensures Leads(bad, d, w, es + [e], Apply(d, w1, e))
    decreases |es|
  {
    var all := es + [e];
    if es == [] {
      assert all[1..] == [] && all[0] == e;
    } else {
      Snoc(bad, d, Apply(d, w, es[0]), es[1..], w1, e);
      assert all[1..] == es[1..] + [e];
    }
  }

  lemma {:induction false} LegalWithout(bad: Event, d: Day, w: World, es: seq<Event>)
    requires LegalBut(bad, d, w, es) && bad !in es
    ensures Legal(d, w, es)
    decreases |es|
  {
    if es != [] {
      assert es[0] in es && forall e :: e in es[1..] ==> e in es;
      LegalWithout(bad, d, Apply(d, w, es[0]), es[1..]);
    }
  }

  // ------------------------------------------------------------------ one more step of each kind

  lemma Gathers(bad: Event, es: seq<Event>, w: World, model: set<Cid>)
    requires Reaches(bad, es, w) && model <= w.folded
    ensures Reaches(bad, es + [Gather(model)], w.(gathers := w.gathers + [Gathering(w.rows, model)]))
  {
    Snoc(bad, DAY, Init(DAY), es, w, Gather(model));
  }

  lemma Locks(bad: Event, es: seq<Event>, w: World, i: nat)
    requires Reaches(bad, es, w) && w.phase.Idle? && i < |w.gathers|
    ensures Reaches(bad, es + [Lock(i)], w.(phase := Gathered(w.gathers[i].rows, w.gathers[i].model)))
  {
    Snoc(bad, DAY, Init(DAY), es, w, Lock(i));
  }

  lemma ReadsGates(bad: Event, es: seq<Event>, w: World, early: seq<Row>, model: set<Cid>, how: Reading)
    requires Reaches(bad, es, w) && w.phase == Gathered(early, model)
    requires ShowsAll(GatesOf(DAY, w.rows, model, w.now), how) || bad == ReadGates(how)
    ensures Reaches(bad, es + [ReadGates(how)],
                    w.(phase := GatesRead(Shown(GatesOf(DAY, w.rows, model, w.now), how)),
                       rows := if how.Enforce? then AfterLift(DAY, w.rows, model) else w.rows))
  {
    Snoc(bad, DAY, Init(DAY), es, w, ReadGates(how));
  }

  lemma ReadsPositions(bad: Event, es: seq<Event>, w: World, g: SymbolGates, seen: set<Cid>)
    requires Reaches(bad, es, w) && w.phase == GatesRead(g) && seen <= w.filled
    requires w.folded <= seen || bad == ReadPositions(seen)
    ensures Reaches(bad, es + [ReadPositions(seen)], w.(phase := HaveRead(g, SumIn(w.orders, seen), seen)))
  {
    Snoc(bad, DAY, Init(DAY), es, w, ReadPositions(seen));
  }

  /** What a pass sees of the symbol: open prices and rails, no kept shares, and no refusal today. */
  function View(want: int, have: int, pending: int, g: SymbolGates, listed: set<Cid>, ids: bool, fold: FoldPending)
    : SymbolView
  {
    SymbolView(want, have, pending, 0, 1, 1.0, false, g.unresolved, g.unfolded, g.openRows, listed, ids, fold,
               0, 0, map[])
  }

  /** Nothing in such a view holds a trade back. */
  predicate LooksOpen(v: SymbolView) {
    !v.unresolved && v.unfolded == 0 && !Hidden(v) && !FoldingShrinks(v.foldPending, v.want - v.have - v.pending)
  }

  lemma TradesTheGap(want: int, have: int, pending: int, g: SymbolGates, listed: set<Cid>, ids: bool, fold: FoldPending)
    requires LooksOpen(View(want, have, pending, g, listed, ids, fold))
    requires 0 <= want && 0 <= have + pending && want != have + pending
    ensures MarketVerdict(View(want, have, pending, g, listed, ids, fold), FREE)
            == Send(Order(want - have - pending, false))
  {
    var gap := want - have - pending;
    RoundStepIsFloor(gap, 1);
  }

  lemma Decides(bad: Event, es: seq<Event>, w: World, g: SymbolGates, have: int, seen: set<Cid>, listed: set<Cid>,
                v: SymbolView, delta: int)
    requires Reaches(bad, es, w) && w.phase == HaveRead(g, have, seen) && listed <= w.live + w.filled + w.dead
    requires v == View(v.want, have, SumIn(w.orders, listed), g, listed, v.clientIds, v.foldPending)
    requires MarketVerdict(v, FREE) == Send(Order(delta, false))
    requires (v.clientIds && listed !! seen && listed !! w.dead) || bad == ReadOrders(listed, v, FREE)
    ensures Reaches(bad, es + [ReadOrders(listed, v, FREE)],
                    w.(phase := Ready(IntentCid(DAY, delta, g.epoch), delta, Effective(v), v.want, 0)))
  {
    Snoc(bad, DAY, Init(DAY), es, w, ReadOrders(listed, v, FREE));
  }

  function SideOf(delta: int): Side { if delta > 0 then Buy else Sell }

  /** The ledger with the row that is written ahead of an order. */
  function Noted(w: World, c: Cid, delta: int): seq<Row> {
    w.rows + [FreshRow(Entry(c, "SPY", SideOf(delta), Abs(delta)), w.now)]
  }

  lemma Inserts(bad: Event, es: seq<Event>, w: World, c: Cid, delta: int, eff: int, want: int)
    requires Reaches(bad, es, w) && w.phase == Ready(c, delta, eff, want, 0) && !Known(w.rows, c)
    ensures Reaches(bad, es + [Insert], w.(phase := Written(c, delta, eff, want, 0), rows := Noted(w, c, delta)))
  {
    Snoc(bad, DAY, Init(DAY), es, w, Insert);
  }

  lemma Places(bad: Event, es: seq<Event>, w: World, c: Cid, delta: int, eff: int, want: int)
    requires Reaches(bad, es, w) && w.phase == Written(c, delta, eff, want, 0)
    ensures Reaches(bad, es + [SendPlaced], Place(w, c, delta).(phase := Awaiting(c)))
  {
    Snoc(bad, DAY, Init(DAY), es, w, SendPlaced);
  }

  lemma Acks(bad: Event, es: seq<Event>, w: World, i: nat, status: string)
    requires Reaches(bad, es, w) && Keyed(w.rows) && i < |w.rows| && w.phase == Awaiting(w.rows[i].cid)
    requires AckState(status) == Submitted || bad == Ack("", status)
    ensures Reaches(bad, es + [Ack("", status)],
                    w.(phase := Idle, rows := w.rows[i := AckRow(w.rows[i], "", status)]))
  {
    FindIs(w.rows, i);
    Snoc(bad, DAY, Init(DAY), es, w, Ack("", status));
  }

  lemma Fills(bad: Event, es: seq<Event>, w: World, c: Cid)
    requires Reaches(bad, es, w) && c in w.live
    ensures Reaches(bad, es + [Fill(c)], w.(live := w.live - {c}, filled := w.filled + {c}))
  {
    Snoc(bad, DAY, Init(DAY), es, w, Fill(c));
  }

  lemma KillsIdle(bad: Event, es: seq<Event>, w: World, c: Cid)
    requires Reaches(bad, es, w) && c in w.live && w.phase.Idle?
    ensures Reaches(bad, es + [Kill(c)], w.(live := w.live - {c}, dead := w.dead + {c}))
  {
    Snoc(bad, DAY, Init(DAY), es, w, Kill(c));
  }

  lemma Polls(bad: Event, es: seq<Event>, w: World, i: nat, qty: int)
    requires Reaches(bad, es, w) && w.phase.Idle? && Keyed(w.rows) && i < |w.rows|
    requires w.rows[i].cid in w.filled && w.rows[i].cid !in w.stored && QtyOf(w.orders, w.rows[i].cid) == qty
    ensures Reaches(bad, es + [Poll(w.rows[i].cid)],
                    w.(stored := w.stored + {w.rows[i].cid}, rows := w.rows[i := FoldRow(w.rows[i], qty)]))
  {
    FindIs(w.rows, i);
    Snoc(bad, DAY, Init(DAY), es, w, Poll(w.rows[i].cid));
  }

  lemma SleeveFolds(bad: Event, es: seq<Event>, w: World, c: Cid)
    requires Reaches(bad, es, w) && c in w.stored
    ensures Reaches(bad, es + [SleeveFold(c)], w.(folded := w.folded + {c}))
  {
    Snoc(bad, DAY, Init(DAY), es, w, SleeveFold(c));
  }

  lemma Aborts(bad: Event, es: seq<Event>, w: World)
    requires Reaches(bad, es, w)
    ensures Reaches(bad, es + [Abort], w.(phase := Idle))
  {
    Snoc(bad, DAY, Init(DAY), es, w, Abort);
  }

  lemma Ticks(bad: Event, es: seq<Event>, w: World, t: int)
    requires Reaches(bad, es, w) && t >= w.now
    ensures Reaches(bad, es + [Tick(t)], w.(now := t))
  {
    Snoc(bad, DAY, Init(DAY), es, w, Tick(t));
  }

  lemma Recovers(es: seq<Event>, w: World, listing: Option<seq<Listed>>)
    requires Reaches(Resolve(listing, true), es, w) && w.phase.Idle?
    ensures Reaches(Resolve(listing, true), es + [Resolve(listing, true)],
                    w.(rows := AfterResolve(w.rows, w.now, listing, true)))
  {
    Snoc(Resolve(listing, true), DAY, Init(DAY), es, w, Resolve(listing, true));
  }

  lemma LiftsLate(es: seq<Event>, w: World, i: nat)
    requires Reaches(Lift(i), es, w) && i < |w.gathers| && Lifts(DAY, w.gathers[i].rows, w.gathers[i].model)
    ensures Reaches(Lift(i), es + [Lift(i)], w.(rows := AfterMarkFolded(w.rows, "SPY")))
  {
    Snoc(Lift(i), DAY, Init(DAY), es, w, Lift(i));
  }

  // ------------------------------------------------------------------ a pass, from its gates to the wire

  /** A pass that saw `seen` and `listed` sends the gap to its target. */
  function Trades(seen: set<Cid>, listed: set<Cid>, v: SymbolView): seq<Event> {
    [ReadPositions(seen), ReadOrders(listed, v, FREE), Insert, SendPlaced]
  }

  /** The conditions under which it does: the view is what it read, nothing in it looks closed, and the
      assumptions hold but for `bad`. */
  ghost predicate CanTrade(bad: Event, w: World, g: SymbolGates, seen: set<Cid>, listed: set<Cid>, v: SymbolView) {
    && w.phase == GatesRead(g) && seen <= w.filled && listed <= w.live + w.filled + w.dead
    && v == View(v.want, SumIn(w.orders, seen), SumIn(w.orders, listed), g, listed, v.clientIds, v.foldPending)
    && LooksOpen(v) && 0 <= v.want && 0 <= v.have + v.pending && v.want != v.have + v.pending
    && (w.folded <= seen || bad == ReadPositions(seen))
    && ((v.clientIds && listed !! seen && listed !! w.dead) || bad == ReadOrders(listed, v, FREE))
    && !Known(w.rows, TradeCid(g, v))
  }

  function TradeCid(g: SymbolGates, v: SymbolView): Cid { IntentCid(DAY, v.want - v.have - v.pending, g.epoch) }

  /** The world with the row written and the order about to go out. */
  function AboutToTrade(w: World, g: SymbolGates, v: SymbolView): World {
    var delta := v.want - v.have - v.pending;
    w.(phase := Written(TradeCid(g, v), delta, v.have + v.pending, v.want, 0), rows := Noted(w, TradeCid(g, v), delta))
  }

  lemma PassDecides(bad: Event, es: seq<Event>, w: World, g: SymbolGates, seen: set<Cid>, listed: set<Cid>,
                    v: SymbolView)
    requires Reaches(bad, es, w) && CanTrade(bad, w, g, seen, listed, v)
    ensures Reaches(bad, es + [ReadPositions(seen)] + [ReadOrders(listed, v, FREE)],
                    w.(phase := Ready(TradeCid(g, v), v.want - v.have - v.pending, v.have + v.pending, v.want, 0)))
  {
    TradesTheGap(v.want, v.have, v.pending, g, listed, v.clientIds, v.foldPending);
    ReadsPositions(bad, es, w, g, seen);
    Decides(bad, es + [ReadPositions(seen)], w.(phase := HaveRead(g, v.have, seen)), g, v.have, seen, listed, v,
            v.want - v.have - v.pending);
  }

  lemma PassWrites(bad: Event, es: seq<Event>, w: World, g: SymbolGates, seen: set<Cid>, listed: set<Cid>,
                   v: SymbolView)
    requires Reaches(bad, es, w) && CanTrade(bad, w, g, seen, listed, v)
    ensures Reaches(bad, es + [ReadPositions(seen), ReadOrders(listed, v, FREE), Insert], AboutToTrade(w, g, v))
  {
    var c, delta, eff := TradeCid(g, v), v.want - v.have - v.pending, v.have + v.pending;
    PassDecides(bad, es, w, g, seen, listed, v);
    Inserts(bad, es + [ReadPositions(seen)] + [ReadOrders(listed, v, FREE)],
            w.(phase := Ready(c, delta, eff, v.want, 0)), c, delta, eff, v.want);
    assert es + [ReadPositions(seen), ReadOrders(listed, v, FREE), Insert]
           == es + [ReadPositions(seen)] + [ReadOrders(listed, v, FREE)] + [Insert];
  }

  /** The world after it. */
  function Traded(w: World, c: Cid, delta: int): World {
    Place(w, c, delta).(phase := Awaiting(c), rows := Noted(w, c, delta))
  }

  lemma PassTrades(bad: Event, es: seq<Event>, w: World, g: SymbolGates, seen: set<Cid>, listed: set<Cid>,
                   v: SymbolView)
    requires Reaches(bad, es, w) && CanTrade(bad, w, g, seen, listed, v)
    ensures Reaches(bad, es + Trades(seen, listed, v), Traded(w, TradeCid(g, v), v.want - v.have - v.pending))
  {
    var start := [ReadPositions(seen), ReadOrders(listed, v, FREE), Insert];
    PassWrites(bad, es, w, g, seen, listed, v);
    Places(bad, es + start, AboutToTrade(w, g, v), TradeCid(g, v), v.want - v.have - v.pending,
           v.have + v.pending, v.want);
    assert es + Trades(seen, listed, v) == es + start + [SendPlaced];
  }

  /** The gates of a pass that finds the ledger in order. */
  const OPEN_GATES := SymbolGates(false, 0, [], 0)

  function OpenGates(epoch: int): SymbolGates { OPEN_GATES.(epoch := epoch) }

  /** A target, an empty position and an empty listing. */
  function BlindView(want: int): SymbolView { View(want, 0, 0, OPEN_GATES, {}, true, Nothing) }

  /** A pass that reads an empty position and an empty listing. */
  function BlindPass(want: int): seq<Event> { Trades({}, {}, BlindView(want)) }

  /** Gates that look open and an empty account to look at: it buys the whole target, whatever there is. */
  lemma BlindPassBuys(bad: Event, es: seq<Event>, w: World, epoch: int, want: int)
    requires want > 0 && Reaches(bad, es, w) && w.phase == GatesRead(OpenGates(epoch))
    requires w.folded == {} || bad == ReadPositions({})
    requires !Known(w.rows, IntentCid(DAY, want, epoch))
    ensures Reaches(bad, es + BlindPass(want), Traded(w, IntentCid(DAY, want, epoch), want))
  {
    SumInNone(w.orders);
    PassTrades(bad, es, w, OpenGates(epoch), {}, {}, BlindView(want));
  }

  // ------------------------------------------------------------------ the first order of every run

  const C0 := IntentCid(DAY, 100, 0)

  const FIRST_ROW := FreshRow(Entry(C0, "SPY", Buy, 100), 0)

  /** After the first pass, with a second pass already waiting for the lock on what it read before it. */
  const FIRST_BOUGHT := World(0, [FIRST_ROW], [Placed(C0, 100)], {C0}, {}, {}, {}, {}, Awaiting(C0),
                              [Gathering([], {}), Gathering([], {})], None)

  const FIRST_PASS := [Gather({}), Lock(0), Gather({}), ReadGates(Enforce)] + BlindPass(100)

  lemma FirstGates(bad: Event)
    ensures Reaches(bad, [Gather({}), Lock(0), Gather({}), ReadGates(Enforce)],
                    FIRST_BOUGHT.(rows := [], orders := [], live := {}, phase := GatesRead(OPEN_GATES)))
  {
    FirstLock(bad);
    var start, e := [] + [Gather({})] + [Lock(0)], Gathering([], {});
    var w := Init(DAY).(gathers := [e], phase := Gathered([], {}));
    Gathers(bad, start, w, {});
    assert [e] + [e] == [e, e];
    assert GatesOf(DAY, [], {}, 0) == OPEN_GATES && AfterLift(DAY, [], {}) == [];
    ReadsGates(bad, start + [Gather({})], w.(gathers := [e, e]), [], {}, Enforce);
    assert [Gather({}), Lock(0), Gather({}), ReadGates(Enforce)] == start + [Gather({})] + [ReadGates(Enforce)];
  }

  lemma FirstLock(bad: Event)
    ensures Reaches(bad, [] + [Gather({})] + [Lock(0)],
                    Init(DAY).(gathers := [Gathering([], {})], phase := Gathered([], {})))
  {
    assert Reaches(bad, [], Init(DAY));
    Gathers(bad, [], Init(DAY), {});
    assert [] + [Gathering([], {})] == [Gathering([], {})];
    Locks(bad, [] + [Gather({})], Init(DAY).(gathers := [Gathering([], {})]), 0);
  }

  lemma FirstPass(bad: Event)
    ensures Reaches(bad, FIRST_PASS, FIRST_BOUGHT)
  {
    FirstGates(bad);
    var w := FIRST_BOUGHT.(rows := [], orders := [], live := {}, phase := GatesRead(OPEN_GATES));
    BlindPassBuys(bad, [Gather({}), Lock(0), Gather({}), ReadGates(Enforce)], w, 0, 100);
    assert {} + {C0} == {C0} && [] + [FIRST_ROW] == [FIRST_ROW] && [] + [Placed(C0, 100)] == [Placed(C0, 100)];
    assert Traded(w, C0, 100) == FIRST_BOUGHT;
  }

  /** The row of the first order after the venue's answer. */
  function Answered(status: string): Row { AckRow(FIRST_ROW, "", status) }

  const ANSWERED := FIRST_BOUGHT.(phase := Idle, rows := [Answered("")])

  lemma FirstAnswered(bad: Event, status: string)
    requires AckState(status) == Submitted || bad == Ack("", status)
    ensures Reaches(bad, FIRST_PASS + [Ack("", status)], ANSWERED.(rows := [Answered(status)]))
  {
    FirstPass(bad);
    Acks(bad, FIRST_PASS, FIRST_BOUGHT, 0, status);
    assert [FIRST_ROW][0 := Answered(status)] == [Answered(status)];
  }

  const FILLED := ANSWERED.(live := {}, filled := {C0})

  const FILLED_RUN := FIRST_PASS + [Ack("", "")] + [Fill(C0)]

  /** The first order is answered and then fills. */
  lemma FirstFilled(bad: Event, status: string)
    requires AckState(status) == Submitted || bad == Ack("", status)
    ensures Reaches(bad, FIRST_PASS + [Ack("", status)] + [Fill(C0)], FILLED.(rows := [Answered(status)]))
  {
    FirstAnswered(bad, status);
    Fills(bad, FIRST_PASS + [Ack("", status)], ANSWERED.(rows := [Answered(status)]), C0);
    assert {C0} - {C0} == {} && {} + {C0} == {C0};
  }

  const STORED_ROW := FoldRow(Answered(""), 100)

  const STORED := FILLED.(stored := {C0}, rows := [STORED_ROW])

  /** A poll stores the fill. */
  lemma FirstStored(bad: Event)
    ensures Reaches(bad, FILLED_RUN + [Poll(C0)], STORED)
  {
    FirstFilled(bad, "");
    QtyOfOrder(FILLED.orders, 0);
    Polls(bad, FILLED_RUN, FILLED, 0, 100);
    assert {} + {C0} == {C0} && [Answered("")][0 := STORED_ROW] == [STORED_ROW];
  }

  const FOLDED := STORED.(folded := {C0})

  const FOLDED_RUN := FILLED_RUN + [Poll(C0)] + [SleeveFold(C0)]

  /** The sleeve folds it. */
  lemma FirstFolded(bad: Event)
    ensures Reaches(bad, FOLDED_RUN, FOLDED)
  {
    FirstStored(bad);
    SleeveFolds(bad, FILLED_RUN + [Poll(C0)], STORED, C0);
    assert {} + {C0} == {C0};
  }

  /** The assumptions leave room to trade: a run that meets all of them buys the target and holds it. */
  lemma ALegalRunReachesTheTarget()
    ensures Legal(DAY, Init(DAY), FILLED_RUN) && Possible(DAY, Init(DAY), FILLED_RUN)
    ensures Holding(DAY, After(DAY, Init(DAY), FILLED_RUN)) == 100
  {
    FirstFilled(Tick(1), "");
    assert Tick(1) !in FILLED_RUN;
    LegalWithout(Tick(1), DAY, Init(DAY), FILLED_RUN);
    SumOfOne(Placed(C0, 100), {C0});
  }

  lemma SumOfOne(a: Placed, s: set<Cid>)
    ensures SumIn([a], s) == if a.cid in s then a.qty else 0
  {
    SumInPlace([], a, s);
    assert [] + [a] == [a];
  }

  lemma SumOfTwo(a: Placed, b: Placed, s: set<Cid>)
    ensures SumIn([a, b], s) == (if a.cid in s then a.qty else 0) + (if b.cid in s then b.qty else 0)
  {
    SumOfOne(a, s);
    SumInPlace([a], b, s);
    assert [a] + [b] == [a, b];
  }

  // ------------------------------------------------------------------ gates of a small ledger

  /** What the gates say about a ledger of one row. */
  lemma OneRowGates(r: Row, model: set<Cid>, now: int)
    requires r.symbol == "SPY" && r.created == 0
    ensures Sum([r], UnfoldedOf("SPY", 0)) == UnfoldedOf("SPY", 0)(r)
    ensures Sum([r], FilledSideOf("SPY", 0, Buy)) == FilledSideOf("SPY", 0, Buy)(r)
    ensures Sum([r], FilledSideOf("SPY", 0, Sell)) == FilledSideOf("SPY", 0, Sell)(r)
    ensures Sum([r], ModelOf(model, Buy)) == ModelOf(model, Buy)(r)
            && Sum([r], ModelOf(model, Sell)) == ModelOf(model, Sell)(r)
    ensures var g := GatesOf(DAY, [r], model, now);
            && g.epoch == 1
            && (!Outstanding(r.state) ==> g.openRows == [] && !g.unresolved)
            && (UnfoldedOf("SPY", 0)(r) == 0 || Lifts(DAY, [r], model) ==> g.unfolded == 0)
  {
    assert [r][..0] == [];
    assert Sum([r], EpochOf("SPY", 0)) == Sum([], EpochOf("SPY", 0)) + 1;
    assert OpenRows([], "SPY", 0) == [];
  }

  /** An answered row with all of it left is one open row. */
  lemma AnsweredGates(now: int)
    ensures GatesOf(DAY, [Answered("")], {}, now) == SymbolGates(false, 0, [(C0, 100)], 1)
    ensures !Lifts(DAY, [Answered("")], {})
  {
    OneRowGates(Answered(""), {}, now);
    assert [Answered("")][..0] == [];
    assert OpenRows([], "SPY", 0) == [];
    assert [] + [(C0, 100)] == [(C0, 100)];
  }

  const MARKED_ROW := STORED_ROW.(note := FoldedNote)

  lemma FoldedRowLifts(now: int)
    ensures Lifts(DAY, [STORED_ROW], {C0}) && AfterMarkFolded([STORED_ROW], "SPY") == [MARKED_ROW]
    ensures GatesOf(DAY, [STORED_ROW], {C0}, now) == OpenGates(1)
  {
    OneRowGates(STORED_ROW, {C0}, now);
  }

  /** A new pass up to its gates. */
  function FreshPass(w: World, model: set<Cid>): seq<Event> { [Gather(model), Lock(|w.gathers|), ReadGates(Enforce)] }

  function AtGates(w: World, model: set<Cid>, g: SymbolGates): World {
    w.(phase := GatesRead(g), gathers := w.gathers + [Gathering(w.rows, model)], rows := AfterLift(DAY, w.rows, model))
  }

  lemma ReachGates(bad: Event, es: seq<Event>, w: World, model: set<Cid>, g: SymbolGates)
    requires Reaches(bad, es, w) && w.phase.Idle? && model <= w.folded
    requires g == GatesOf(DAY, w.rows, model, w.now)
    ensures Reaches(bad, es + FreshPass(w, model), AtGates(w, model, g))
  {
    var n, w1 := |w.gathers|, w.(gathers := w.gathers + [Gathering(w.rows, model)]);
    Gathers(bad, es, w, model);
    Locks(bad, es + [Gather(model)], w1, n);
    ReadsGates(bad, es + [Gather(model)] + [Lock(n)], w1.(phase := Gathered(w.rows, model)), w.rows, model, Enforce);
    assert es + FreshPass(w, model) == es + [Gather(model)] + [Lock(n)] + [ReadGates(Enforce)];
  }

  // ------------------------------------------------------------------ buying the same shares again

  /** From gates that look open, a blind pass buys beside the first order. */
  lemma BuysTwice(bad: Event, es: seq<Event>, w: World, epoch: int, want: int)
    requires 100 <= want < 200 && C0 != IntentCid(DAY, want, epoch) && WantsUpTo(es, want)
    requires Reaches(bad, es, w) && w.phase == GatesRead(OpenGates(epoch))
    requires w.folded == {} || bad == ReadPositions({})
    requires w.orders == [Placed(C0, 100)] && w.live + w.filled == {C0} && |w.rows| == 1 && w.rows[0].cid == C0
    ensures DoubleBuys(bad, es + BlindPass(want), want)
  {
    var c := IntentCid(DAY, want, epoch);
    BlindPassBuys(bad, es, w, epoch, want);
    CommitsBoth(w, c, want);
  }

  lemma CommitsBoth(w: World, c: Cid, qty: int)
    requires w.orders == [Placed(C0, 100)] && w.live + w.filled == {C0}
    ensures Committed(DAY, Traded(w, c, qty)) == 100 + qty
  {
    var s := Traded(w, c, qty).live + Traded(w, c, qty).filled;
    assert C0 in s && c in s;
    SumOfTwo(Placed(C0, 100), Placed(c, qty), s);
    assert [Placed(C0, 100)] + [Placed(c, qty)] == [Placed(C0, 100), Placed(c, qty)];
  }

  /** The same after a fresh pass over a ledger whose one row stops nothing. */
  lemma FreshPassBuysTwice(bad: Event, es: seq<Event>, w: World, model: set<Cid>)
    requires Reaches(bad, es, w) && WantsUpTo(es, 100) && w.phase.Idle? && model <= w.folded
    requires w.folded == {} || bad == ReadPositions({})
    requires w.orders == [Placed(C0, 100)] && w.live + w.filled == {C0} && |w.rows| == 1 && w.rows[0].cid == C0
    requires GatesOf(DAY, w.rows, model, w.now) == OpenGates(1)
    ensures DoubleBuys(bad, es + FreshPass(w, model) + BlindPass(100), 100)
  {
    ReachGates(bad, es, w, model, OpenGates(1));
    BuysTwice(bad, es + FreshPass(w, model), AtGates(w, model, OpenGates(1)), 1, 100);
  }

  /** Gates read before the lock (the order of a sweep in the close window, when the poll is deferred and
      nothing is read again): a pass that waited for the lock while another one bought sees an empty ledger. */
  lemma StaleGatesDoubleBuy()
    ensures DoubleBuys(UseGathered(Enforce), FILLED_RUN + [Lock(1)] + [UseGathered(Enforce)] + BlindPass(150), 150)
  {
    var bad := UseGathered(Enforce);
    FirstFilled(bad, "");
    Locks(bad, FILLED_RUN, FILLED, 1);
    UsesEmptyGather(FILLED_RUN + [Lock(1)], FILLED.(phase := Gathered([], {})));
    BuysTwice(bad, FILLED_RUN + [Lock(1)] + [bad], FILLED.(phase := GatesRead(OPEN_GATES)), 0, 150);
  }

  lemma UsesEmptyGather(es: seq<Event>, w: World)
    requires Reaches(UseGathered(Enforce), es, w) && w.phase == Gathered([], {}) && w.now == 0
    ensures Reaches(UseGathered(Enforce), es + [UseGathered(Enforce)], w.(phase := GatesRead(OPEN_GATES)))
  {
    assert GatesOf(DAY, [], {}, 0) == OPEN_GATES;
    Snoc(UseGathered(Enforce), DAY, Init(DAY), es, w, UseGathered(Enforce));
  }

  /** A pass that holds the lock reads its gates in a way that shows none of them closed. */
  lemma ShownOpenBuysTwice(es: seq<Event>, w: World, how: Reading, want: int)
    requires Reaches(ReadGates(how), es, w) && WantsUpTo(es, want) && !how.Enforce?
    requires w.phase.Idle? && |w.gathers| == 2 && w.gathers[1] == Gathering([], {}) && w.folded == {}
    requires w.orders == [Placed(C0, 100)] && w.live + w.filled == {C0} && |w.rows| == 1 && w.rows[0].cid == C0
    requires var g := Shown(GatesOf(DAY, w.rows, {}, w.now), how);
             g == OpenGates(g.epoch) && 100 <= want < 200 && C0 != IntentCid(DAY, want, g.epoch)
    ensures DoubleBuys(ReadGates(how), es + [Lock(1)] + [ReadGates(how)] + BlindPass(want), want)
  {
    var g := Shown(GatesOf(DAY, w.rows, {}, w.now), how);
    Locks(ReadGates(how), es, w, 1);
    ReadsGates(ReadGates(how), es + [Lock(1)], w.(phase := Gathered([], {})), [], {}, how);
    BuysTwice(ReadGates(how), es + [Lock(1)] + [ReadGates(how)], w.(phase := GatesRead(g)), g.epoch, want);
  }

  /** A gates read that fails is swallowed and the pass goes on with empty gates: the fill of the first order,
      which is still an open row, holds nothing back. */
  lemma FailedGatesDoubleBuy()
    ensures DoubleBuys(ReadGates(Failed), FILLED_RUN + [Lock(1)] + [ReadGates(Failed)] + BlindPass(150), 150)
  {
    FirstFilled(ReadGates(Failed), "");
    ShownOpenBuysTwice(FILLED_RUN, FILLED, Failed, 150);
  }

  /** In truth mode `off` the open row of the first order closes no gate. */
  lemma OffModeDoubleBuys()
    ensures DoubleBuys(ReadGates(Off), FILLED_RUN + [Lock(1)] + [ReadGates(Off)] + BlindPass(100), 100)
  {
    FirstFilled(ReadGates(Off), "");
    AnsweredGates(0);
    ShownOpenBuysTwice(FILLED_RUN, FILLED, Off, 100);
  }

  lemma ObservedGates()
    ensures Shown(GatesOf(DAY, STORED.rows, {}, 0), Observe) == OpenGates(1)
  {
    OneRowGates(STORED_ROW, {}, 0);
  }

  /** In truth mode `observe` a stored fill the sleeve lacks does not freeze its symbol. */
  lemma ObserveModeDoubleBuys()
    ensures DoubleBuys(ReadGates(Observe),
                       FILLED_RUN + [Poll(C0)] + [Lock(1)] + [ReadGates(Observe)] + BlindPass(100), 100)
  {
    FirstStored(ReadGates(Observe));
    ObservedGates();
    ShownOpenBuysTwice(FILLED_RUN + [Poll(C0)], STORED, Observe, 100);
  }

  /** A submit acknowledged as `filled` closes its row with nothing filled on it: no gate sees the fill. */
  lemma TerminalAckDoubleBuys()
    ensures DoubleBuys(Ack("", "filled"),
                       FIRST_PASS + [Ack("", "filled")] + [Fill(C0)] + [Gather({}), Lock(2), ReadGates(Enforce)]
                         + BlindPass(100), 100)
  {
    FirstFilled(Ack("", "filled"), "filled");
    OneRowGates(Answered("filled"), {}, 0);
    FreshPassBuysTwice(Ack("", "filled"), FIRST_PASS + [Ack("", "filled")] + [Fill(C0)],
                       FILLED.(rows := [Answered("filled")]), {});
  }

  const GIVEN_UP := FILLED.(now := 61, rows := AfterResolve([FIRST_ROW], 61, Some([]), true))

  const GIVEN_UP_RUN := FIRST_PASS + [Abort] + [Fill(C0)] + [Tick(61)] + [Resolve(Some([]), true)]

  /** The run up to the point where recovery has given the row up. */
  lemma RowGivenUp()
    ensures Reaches(Resolve(Some([]), true), GIVEN_UP_RUN, GIVEN_UP)
  {
    var bad := Resolve(Some([]), true);
    var w := FIRST_BOUGHT.(phase := Idle);
    FirstPass(bad);
    Aborts(bad, FIRST_PASS, FIRST_BOUGHT);
    Fills(bad, FIRST_PASS + [Abort], w, C0);
    assert {C0} - {C0} == {} && {} + {C0} == {C0};
    Ticks(bad, FIRST_PASS + [Abort] + [Fill(C0)], w.(live := {}, filled := {C0}), 61);
    Recovers(FIRST_PASS + [Abort] + [Fill(C0)] + [Tick(61)], w.(live := {}, filled := {C0}, now := 61), Some([]));
  }

  lemma GivenUpGates()
    ensures |GIVEN_UP.rows| == 1 && GIVEN_UP.rows[0].cid == C0 && GatesOf(DAY, GIVEN_UP.rows, {}, 61) == OpenGates(1)
  {
    var r := ResolveRow(FIRST_ROW, 61, Some([]), true);
    assert GIVEN_UP.rows == [r] && r.state == Abandoned;
    OneRowGates(r, {}, 61);
  }

  /** An acknowledgement is lost, the order fills, and recovery gives the row up before any poll has seen
      the fill: the next pass finds nothing outstanding. */
  lemma UnsoundAbandonDoubleBuys()
    ensures DoubleBuys(Resolve(Some([]), true),
                       GIVEN_UP_RUN + [Gather({}), Lock(2), ReadGates(Enforce)] + BlindPass(100), 100)
  {
    RowGivenUp();
    GivenUpGates();
    FreshPassBuysTwice(Resolve(Some([]), true), GIVEN_UP_RUN, GIVEN_UP, {});
  }

  /** The sleeve has folded the fill, so the ledger no longer freezes the symbol, while the position read
      still lags behind it. */
  lemma LaggingPositionDoubleBuys()
    ensures DoubleBuys(ReadPositions({}),
                       FOLDED_RUN + [Gather({C0}), Lock(2), ReadGates(Enforce)] + BlindPass(100), 100)
  {
    FirstFolded(ReadPositions({}));
    FoldedRowLifts(0);
    FreshPassBuysTwice(ReadPositions({}), FOLDED_RUN, FOLDED, {C0});
  }

  const OPEN_ROW_GATES := SymbolGates(false, 0, [(C0, 100)], 1)

  /** A target and an empty account at a venue that keeps no client ids. */
  const NO_IDS_VIEW := View(100, 0, 0, OPEN_ROW_GATES, {}, false, Nothing)

  const ANSWERED_AT_GATES := ANSWERED.(
    phase := GatesRead(OPEN_ROW_GATES), gathers := ANSWERED.gathers + [Gathering([Answered("")], {})])

  const ANSWERED_RUN := FIRST_PASS + [Ack("", "")] + [Gather({}), Lock(2), ReadGates(Enforce)]

  /** The order rests, and a second pass has read that its row is open. */
  lemma OpenRowAtGates(bad: Event)
    ensures Reaches(bad, ANSWERED_RUN, ANSWERED_AT_GATES)
  {
    FirstAnswered(bad, "");
    AnsweredGates(0);
    ReachGates(bad, FIRST_PASS + [Ack("", "")], ANSWERED, {}, OPEN_ROW_GATES);
  }

  lemma NoIdsCanTrade()
    ensures CanTrade(ReadOrders({}, NO_IDS_VIEW, FREE), ANSWERED_AT_GATES, OPEN_ROW_GATES, {}, {}, NO_IDS_VIEW)
  {
    SumInNone(ANSWERED_AT_GATES.orders);
  }

  /** At a venue without client ids an open row that the listing does not show yet holds nothing back. */
  lemma NoClientIdsDoubleBuys()
    ensures DoubleBuys(ReadOrders({}, NO_IDS_VIEW, FREE), ANSWERED_RUN + Trades({}, {}, NO_IDS_VIEW), 100)
  {
    var bad := ReadOrders({}, NO_IDS_VIEW, FREE);
    OpenRowAtGates(bad);
    NoIdsCanTrade();
    PassTrades(bad, ANSWERED_RUN, ANSWERED_AT_GATES, OPEN_ROW_GATES, {}, {}, NO_IDS_VIEW);
    CommitsBoth(ANSWERED_AT_GATES, TradeCid(OPEN_ROW_GATES, NO_IDS_VIEW), 100);
  }

  // ------------------------------------------------------------------ a listing that lags

  /** 100 wanted and held, and the order that bought them still listed. */
  const LAGGING_VIEW := View(100, 100, 100, OpenGates(1), {C0}, true, Nothing)

  /** A listing that still shows an order whose fill the position read already shows counts it twice: at its
      target the account sells everything. */
  lemma LaggingListingSellsTheTarget()
    ensures TradesAway(ReadOrders({C0}, LAGGING_VIEW, FREE),
                       FOLDED_RUN + [Gather({C0}), Lock(2), ReadGates(Enforce)]
                         + [ReadPositions({C0}), ReadOrders({C0}, LAGGING_VIEW, FREE), Insert])
  {
    var bad, g := ReadOrders({C0}, LAGGING_VIEW, FREE), OpenGates(1);
    FirstFolded(bad);
    FoldedRowLifts(0);
    ReachGates(bad, FOLDED_RUN, FOLDED, {C0}, g);
    var w := AtGates(FOLDED, {C0}, g);
    assert CanTrade(bad, w, g, {C0}, {C0}, LAGGING_VIEW) by { SumOfOne(Placed(C0, 100), {C0}); }
    PassWrites(bad, FOLDED_RUN + FreshPass(FOLDED, {C0}), w, g, {C0}, {C0}, LAGGING_VIEW);
    SendsAway(w, g, LAGGING_VIEW);
  }

  /** An order that is about to go out against the commitments there are. */
  lemma SendsAway(w: World, g: SymbolGates, v: SymbolView)
    requires w.orders == [Placed(C0, 100)] && TradeCid(g, v) != C0 && w.live + w.filled <= {C0}
    requires var held := if C0 in w.live + w.filled then 100 else 0;
             !Between(held, held + v.want - v.have - v.pending, v.want)
    ensures var w1 := AboutToTrade(w, g, v);
            !Between(Committed(DAY, w1), Committed(DAY, Apply(DAY, w1, SendPlaced)), w1.phase.want)
  {
    var w1 := AboutToTrade(w, g, v);
    var delta := v.want - v.have - v.pending;
    var w2 := Apply(DAY, w1, SendPlaced);
    assert w2.orders == [Placed(C0, 100), Placed(TradeCid(g, v), delta)];
    SumOfOne(Placed(C0, 100), w.live + w.filled);
    SumOfTwo(Placed(C0, 100), Placed(TradeCid(g, v), delta), w2.live + w2.filled);
  }

  /** Nothing wanted or held any more, and the order the venue killed still listed. */
  const KILLED_VIEW := View(0, 0, 100, OPEN_ROW_GATES, {C0}, true, Nothing)

  /** A listing that still shows an order the venue has killed: a flat account that wants nothing sells short. */
  lemma KilledListingSellsShort()
    ensures TradesAway(ReadOrders({C0}, KILLED_VIEW, FREE),
                       FIRST_PASS + [Ack("", "")] + [Kill(C0)] + [Gather({}), Lock(2), ReadGates(Enforce)]
                         + [ReadPositions({}), ReadOrders({C0}, KILLED_VIEW, FREE), Insert])
  {
    var bad, es := ReadOrders({C0}, KILLED_VIEW, FREE), FIRST_PASS + [Ack("", "")] + [Kill(C0)];
    var killed := ANSWERED.(live := {}, dead := {C0});
    FirstAnswered(bad, "");
    KillsIdle(bad, FIRST_PASS + [Ack("", "")], ANSWERED, C0);
    assert {C0} - {C0} == {} && {} + {C0} == {C0};
    AnsweredGates(0);
    ReachGates(bad, es, killed, {}, OPEN_ROW_GATES);
    var w := AtGates(killed, {}, OPEN_ROW_GATES);
    assert CanTrade(bad, w, OPEN_ROW_GATES, {}, {C0}, KILLED_VIEW) by {
      SumInNone(w.orders);
      SumOfOne(Placed(C0, 100), {C0});
    }
    PassWrites(bad, es + FreshPass(killed, {}), w, OPEN_ROW_GATES, {}, {C0}, KILLED_VIEW);
    SendsAway(w, OPEN_ROW_GATES, KILLED_VIEW);
  }

  // ------------------------------------------------------------------ the fold lift outside the lock

  const C1 := IntentCid(DAY, 50, 1)

  const C2 := IntentCid(DAY, 50, 2)

  const TOP_UP_ROW := FreshRow(Entry(C1, "SPY", Buy, 50), 0)

  const TOP_UP_STORED_ROW := FoldRow(AckRow(TOP_UP_ROW, "", ""), 50)

  /** A target of 150 seen with 100 held, and fills the sleeve lacks that would not shrink the trade. */
  function TopUpView(fold: FoldPending): SymbolView { View(150, 100, 0, OPEN_GATES, {}, true, fold) }

  /** A pass that is shown the first order's shares only, and gates that look open, buys fifty. */
  lemma TopUpBuys(bad: Event, es: seq<Event>, w: World, epoch: int, fold: FoldPending)
    requires fold == Nothing || fold == Size(50)
    requires Reaches(bad, es, w) && w.phase == GatesRead(OpenGates(epoch))
    requires w.folded == {C0} && C0 in w.filled && SumIn(w.orders, {C0}) == 100
    requires !Known(w.rows, IntentCid(DAY, 50, epoch))
    ensures Reaches(bad, es + Trades({C0}, {}, TopUpView(fold)), Traded(w, IntentCid(DAY, 50, epoch), 50))
  {
    SumInNone(w.orders);
    PassTrades(bad, es, w, OpenGates(epoch), {C0}, {}, TopUpView(fold));
  }

  const LIFTING := Gathering([STORED_ROW], {C0})

  /** One gather reads the folded fill and decides on the lift; before it writes, a second pass holds the
      lock, lifts, and tops the account up to 150. */
  const TOP_UP := [Gather({C0})] + [Gather({C0}), Lock(3), ReadGates(Enforce)] + Trades({C0}, {}, TopUpView(Nothing))

  const TOPPED_UP := FOLDED.(
    rows := [MARKED_ROW, TOP_UP_ROW], orders := [Placed(C0, 100), Placed(C1, 50)], live := {C1},
    phase := Awaiting(C1), gathers := FOLDED.gathers + [LIFTING] + [LIFTING])

  /** The second pass at its gates. */
  const LIFTED := FOLDED.(
    rows := [MARKED_ROW], phase := GatesRead(OpenGates(1)), gathers := FOLDED.gathers + [LIFTING] + [LIFTING])

  lemma SecondPassLifts(bad: Event)
    ensures Reaches(bad, FOLDED_RUN + [Gather({C0})] + [Gather({C0}), Lock(3), ReadGates(Enforce)], LIFTED)
  {
    var w := FOLDED.(gathers := FOLDED.gathers + [LIFTING]);
    FirstFolded(bad);
    Gathers(bad, FOLDED_RUN, FOLDED, {C0});
    FoldedRowLifts(0);
    ReachGates(bad, FOLDED_RUN + [Gather({C0})], w, {C0}, OpenGates(1));
  }

  lemma TopsUp(bad: Event)
    ensures Reaches(bad, FOLDED_RUN + TOP_UP, TOPPED_UP)
  {
    var es := FOLDED_RUN + [Gather({C0})] + [Gather({C0}), Lock(3), ReadGates(Enforce)];
    SecondPassLifts(bad);
    SumOfOne(Placed(C0, 100), {C0});
    TopUpBuys(bad, es, LIFTED, 1, Nothing);
    assert {} + {C1} == {C1} && [MARKED_ROW] + [TOP_UP_ROW] == [MARKED_ROW, TOP_UP_ROW];
    assert [Placed(C0, 100)] + [Placed(C1, 50)] == [Placed(C0, 100), Placed(C1, 50)];
    assert Traded(LIFTED, C1, 50) == TOPPED_UP;
    assert FOLDED_RUN + TOP_UP == es + Trades({C0}, {}, TopUpView(Nothing));
  }

  const TOP_UP_STORED := TOPPED_UP.(
    rows := [MARKED_ROW, TOP_UP_STORED_ROW], live := {}, filled := {C0, C1}, stored := {C0, C1}, phase := Idle)

  const STORED_RUN := FOLDED_RUN + TOP_UP + [Ack("", "")] + [Fill(C1)] + [Poll(C1)]

  lemma TopUpFills(bad: Event)
    ensures Reaches(bad, FOLDED_RUN + TOP_UP + [Ack("", "")] + [Fill(C1)],
                    TOP_UP_STORED.(rows := [MARKED_ROW, AckRow(TOP_UP_ROW, "", "")], stored := {C0}))
  {
    var rows := [MARKED_ROW, AckRow(TOP_UP_ROW, "", "")];
    TopsUp(bad);
    Acks(bad, FOLDED_RUN + TOP_UP, TOPPED_UP, 1, "");
    assert [MARKED_ROW, TOP_UP_ROW][1 := AckRow(TOP_UP_ROW, "", "")] == rows;
    Fills(bad, FOLDED_RUN + TOP_UP + [Ack("", "")], TOPPED_UP.(rows := rows, phase := Idle), C1);
    assert {C1} - {C1} == {} && {C0} + {C1} == {C0, C1};
  }

  /** The top-up is answered, fills and is stored. */
  lemma TopUpIsStored(bad: Event)
    ensures Reaches(bad, STORED_RUN, TOP_UP_STORED)
  {
    var w := TOP_UP_STORED.(rows := [MARKED_ROW, AckRow(TOP_UP_ROW, "", "")], stored := {C0});
    TopUpFills(bad);
    QtyOfOrder(TOPPED_UP.orders, 1);
    Polls(bad, FOLDED_RUN + TOP_UP + [Ack("", "")] + [Fill(C1)], w, 1, 50);
    assert w.rows[1 := TOP_UP_STORED_ROW] == [MARKED_ROW, TOP_UP_STORED_ROW] && {C0} + {C1} == {C0, C1};
  }

  const LATE_ROWS := [MARKED_ROW, TOP_UP_STORED_ROW.(note := FoldedNote)]

  /** Now the first gather writes its lift, over a fill the sleeve has not folded. */
  lemma LiftComesLate()
    ensures Reaches(Lift(2), STORED_RUN + [Lift(2)], TOP_UP_STORED.(rows := LATE_ROWS))
  {
    TopUpIsStored(Lift(2));
    FoldedRowLifts(0);
    LiftsLate(STORED_RUN, TOP_UP_STORED, 2);
    assert AfterMarkFolded(TOP_UP_STORED.rows, "SPY") == LATE_ROWS;
  }

  /** With both rows marked nothing stops the next pass. */
  lemma MarkedGatesLookOpen()
    ensures GatesOf(DAY, LATE_ROWS, {C0}, 0) == OpenGates(2)
    ensures AfterLift(DAY, LATE_ROWS, {C0}) == LATE_ROWS
  {
    var a, b := MARKED_ROW, TOP_UP_STORED_ROW.(note := FoldedNote);
    LastSplits([a], [b]);
    LastSplits([], [a]);
    assert [a] + [b] == [a, b] && [] + [a] == [a];
    assert b.state == Filled && b.note == FoldedNote && a.state == Filled && a.note == FoldedNote;
    assert OpenRows([a, b], "SPY", 0) == [] by {
      assert OpenRows([], "SPY", 0) == [];
      assert OpenRows([a], "SPY", 0) == [];
    }
    assert Sum([a, b], EpochOf("SPY", 0)) == 2 by { assert Sum([a], EpochOf("SPY", 0)) == 1; }
    assert Sum([a, b], UnfoldedOf("SPY", 0)) == 0 by { assert Sum([a], UnfoldedOf("SPY", 0)) == 0; }
    assert !Unresolved([a, b], "SPY", 0, 0);
  }

  const LATE_RUN := STORED_RUN + [Lift(2)] + [Gather({C0}), Lock(4), ReadGates(Enforce)]

  lemma NextPassAtGates()
    ensures Reaches(Lift(2), LATE_RUN, AtGates(TOP_UP_STORED.(rows := LATE_ROWS), {C0}, OpenGates(2)))
  {
    LiftComesLate();
    MarkedGatesLookOpen();
    ReachGates(Lift(2), STORED_RUN + [Lift(2)], TOP_UP_STORED.(rows := LATE_ROWS), {C0}, OpenGates(2));
  }

  /** The next pass at its gates. */
  const LATE := AtGates(TOP_UP_STORED.(rows := LATE_ROWS), {C0}, OpenGates(2))

  lemma LateIs()
    ensures LATE.rows == LATE_ROWS && LATE.orders == [Placed(C0, 100), Placed(C1, 50)]
    ensures LATE.live == {} && LATE.filled == {C0, C1} && LATE.folded == {C0} && LATE.phase == GatesRead(OpenGates(2))
  {
    MarkedGatesLookOpen();
  }

  lemma BuysAgain()
    ensures Reaches(Lift(2), LATE_RUN + Trades({C0}, {}, TopUpView(Size(50))), Traded(LATE, C2, 50))
  {
    NextPassAtGates();
    LateIs();
    SumOfTwo(Placed(C0, 100), Placed(C1, 50), {C0});
    TopUpBuys(Lift(2), LATE_RUN, LATE, 2, Size(50));
  }

  /** A fold lift decided before the lock and written after another pass's poll marks a fill the sleeve has
      not folded: the next pass, whose position read lags that fill, buys it again. */
  lemma LateLiftDoubleBuys()
    ensures DoubleBuys(Lift(2), LATE_RUN + Trades({C0}, {}, TopUpView(Size(50))), 150)
  {
    BuysAgain();
    LateIs();
    CommitsTwoHundred(LATE);
    LateRunWants();
  }

  lemma LateRunWants()
    ensures WantsUpTo(LATE_RUN, 150)
  {
    assert WantsUpTo(FIRST_PASS, 150) && WantsUpTo(TOP_UP, 150);
  }

  lemma CommitsTwoHundred(w: World)
    requires w.orders == [Placed(C0, 100), Placed(C1, 50)] && w.live == {} && w.filled == {C0, C1}
    ensures Committed(DAY, Traded(w, C2, 50)) == 200
  {
    var w1 := Traded(w, C2, 50);
    SumOfTwo(Placed(C0, 100), Placed(C1, 50), w1.live + w1.filled);
    SumInPlace([Placed(C0, 100), Placed(C1, 50)], Placed(C2, 50), w1.live + w1.filled);
  }
}
