/**
 The market-order protocol of one symbol on one account, over a whole trading day: audit passes that
 hold the connection lock, a venue that fills, kills and acknowledges whenever it likes, a sleeve that
 folds fills later, and a process that may die between any two steps.

 `Allowed` is what the code and the venue can do. `Assumed` is what the guarantee rests on; every
 clause of it is needed, and the runs that show it are in `double_buy_witnesses.dfy`.
 */
module NoDoubleBuy {
  import opened Common
  import opened Journal
  import opened MarketDelta
  import opened MarketSection

  // ------------------------------------------------------------------ state

  datatype Placed = Placed(cid: Cid, qty: int)

  /** What one pass keeps of the gates for this symbol. */
  datatype SymbolGates = SymbolGates(unresolved: bool, unfolded: int, openRows: seq<(Cid, int)>, epoch: int)

  /** Where the pass that holds the lock stands. `seen` is the set of fills the position read showed;
      `lost` is the signed quantity of live orders the venue killed since the listing was read. */
  datatype Phase =
    | Idle
    | Gathered(early: seq<Row>, model: set<Cid>)
    | GatesRead(g: SymbolGates)
    | HaveRead(g: SymbolGates, have: int, seen: set<Cid>)
    | Ready(cid: Cid, delta: int, eff: int, want: int, lost: int)
    | Written(cid: Cid, delta: int, eff: int, want: int, lost: int)
    | Awaiting(cid: Cid)

  /** What a pass read before it had the lock, and may still write the fold lift for. */
  datatype Gathering = Gathering(rows: seq<Row>, model: set<Cid>)

  /** `orders` is everything the venue ever accepted today; `live`, `filled` and `dead` split it.
      `stored` are the fills in the execution ledger, `folded` those the sleeve has folded, `gathers` what
      any pass ever read before the lock, and `flying` an order whose submit was given up on the wire. */
  datatype World = World(now: int, rows: seq<Row>, orders: seq<Placed>, live: set<Cid>, filled: set<Cid>,
                         dead: set<Cid>, stored: set<Cid>, folded: set<Cid>, phase: Phase,
                         gathers: seq<Gathering>, flying: Option<Placed>)

  /** How a pass came by its gates: in the account's truth mode, or not at all because the read failed. */
  datatype Reading = Enforce | Observe | Off | Failed

  /** What became of a submit whose answer never came: refused or lost, taken, or still on its way. */
  datatype Fate = Dropped | Taken | Delayed

  /** The symbol, the holding at the start of the day, the order step and the time the day starts. */
  datatype Day = Day(symbol: string, base: int, step: int, start: int)

  datatype Event =
    | Tick(t: int)
    | Gather(model: set<Cid>)
    | Lift(i: nat)
    | Lock(i: nat)
    | Poll(cid: Cid)
    | UseGathered(how: Reading)
    | ReadGates(how: Reading)
    | ReadPositions(seen: set<Cid>)
    | ReadOrders(listed: set<Cid>, view: SymbolView, rails: Rails)
    | Insert
    | SendPlaced
    | SendRejected(note: string)
    | SendLost(fate: Fate)
    | Arrive
    | Ack(boid: string, status: string)
    | Abort
    | Resolve(listing: Option<seq<Listed>>, pollOk: bool)
    | Fill(cid: Cid)
    | Kill(cid: Cid)
    | SleeveFold(cid: Cid)

  function Cids(orders: seq<Placed>): set<Cid> { set o | o in orders :: o.cid }

  function SumIn(orders: seq<Placed>, s: set<Cid>): int {
    if orders == [] then 0
    else SumIn(orders[..|orders| - 1], s) + if orders[|orders| - 1].cid in s then orders[|orders| - 1].qty else 0
  }

  /** Shares the account really holds. */
  function Holding(d: Day, w: World): int { d.base + SumIn(w.orders, w.filled) }

  /** Shares it will hold once every live order has filled. */
  function Committed(d: Day, w: World): int { d.base + SumIn(w.orders, w.live + w.filled) }

  function SignedQty(r: Row): int { Sign(r.side) * r.qty }

  function Init(d: Day): World { World(d.start, [], [], {}, {}, {}, {}, {}, Idle, [], None) }

  // ------------------------------------------------------------------ steps

  function ModelOf(model: set<Cid>, side: Side): Row -> int {
    (r: Row) => if r.cid in model && r.side == side then r.qty else 0
  }

  /** The fold lift: something is unfolded, and side by side the sleeve has folded what is filled. */
  predicate Lifts(d: Day, rows: seq<Row>, model: set<Cid>) {
    && Sum(rows, UnfoldedOf(d.symbol, d.start)) != 0
    && Sum(rows, ModelOf(model, Buy)) == Sum(rows, FilledSideOf(d.symbol, d.start, Buy))
    && Sum(rows, ModelOf(model, Sell)) == Sum(rows, FilledSideOf(d.symbol, d.start, Sell))
  }

  function GatesOf(d: Day, rows: seq<Row>, model: set<Cid>, now: int): SymbolGates {
    SymbolGates(Unresolved(rows, d.symbol, d.start, now),
                if Lifts(d, rows, model) then 0 else Sum(rows, UnfoldedOf(d.symbol, d.start)),
                OpenRows(rows, d.symbol, d.start),
                Sum(rows, EpochOf(d.symbol, d.start)))
  }

  /** What the pass is shown of the gates: only `enforce` freezes on fills the sleeve has not folded, `off`
      lets no gate close, and a read that fails shows an empty ledger. */
  function Shown(g: SymbolGates, how: Reading): SymbolGates {
    match how
    case Enforce => g
    case Observe => g.(unfolded := 0)
    case Off => SymbolGates(false, 0, [], g.epoch)
    case Failed => SymbolGates(false, 0, [], 0)
  }

  /** In `enforce` a pass is shown every gate, in `observe` all but the freeze on unfolded fills, in `off` the
      epoch alone, and after a failed read an empty ledger. */
  lemma ShownExactly(g: SymbolGates, how: Reading)
    ensures Shown(g, how).openRows == if how in {Enforce, Observe} then g.openRows else []
    ensures Shown(g, how).unresolved <==> how in {Enforce, Observe} && g.unresolved
    ensures Shown(g, how).unfolded == if how == Enforce then g.unfolded else 0
    ensures Shown(g, how).epoch == if how == Failed then 0 else g.epoch
  {}

  /** No open row and no freeze is kept from the pass. */
  predicate ShowsAll(g: SymbolGates, how: Reading) {
    Shown(g, how).openRows == g.openRows && (Shown(g, how).unfolded == 0 ==> g.unfolded == 0)
  }

  function AfterLift(d: Day, rows: seq<Row>, model: set<Cid>): seq<Row> {
    if Lifts(d, rows, model) then AfterMarkFolded(rows, d.symbol) else rows
  }

  function IntentCid(d: Day, delta: int, epoch: int): Cid {
    MarketCid(d.symbol, if delta > 0 then Buy else Sell, Abs(delta), Abs(epoch))
  }

  /** The id of a market order is deterministic: a buy's when the delta is positive, a sell's otherwise, and
      one with another intent's id exactly when the signed quantity and the epoch are the same. */
  lemma IntentCidExactly(d: Day, delta: int, epoch: nat, delta': int, epoch': nat)
    requires delta != 0 && delta' != 0
    ensures IntentCid(d, delta, epoch) == IntentCid(d, delta', epoch') <==> delta == delta' && epoch == epoch'
    ensures var c := IntentCid(d, delta, epoch);
            && c.symbol == d.symbol && c.epoch == epoch
            && (if c.side == Buy then c.qty else -c.qty) == delta
            && (c.side == Buy <==> delta > 0)
  {}

  function QtyOf(orders: seq<Placed>, c: Cid): int { SumIn(orders, {c}) }

  /** The order a placed submit adds to the venue. */
  function Place(w: World, c: Cid, delta: int): World {
    w.(orders := w.orders + [Placed(c, delta)], live := w.live + {c})
  }

  function AfterKill(p: Phase, q: int): Phase {
    match p
    case Ready(c, delta, eff, want, lost) => Ready(c, delta, eff, want, lost + q)
    case Written(c, delta, eff, want, lost) => Written(c, delta, eff, want, lost + q)
    case _ => p
  }

  function UpdateRow(rows: seq<Row>, c: Cid, f: Row -> Row): seq<Row> {
    var i := Find(rows, c);
    if i.None? then rows else rows[i.value := f(rows[i.value])]
  }

  /** Nothing became filled in the ledger since `early` was read. */
  predicate NothingClosedSince(early: seq<Row>, rows: seq<Row>) {
    forall i :: 0 <= i < |rows| && rows[i].state == Filled ==> i < |early| && early[i].state == Filled
  }

  /** Nothing was written since `early` was read but, at most, fold marks. */
  predicate OnlyMarked(d: Day, early: seq<Row>, rows: seq<Row>) {
    rows == early || rows == AfterMarkFolded(early, d.symbol)
  }

  predicate Allowed(d: Day, w: World, e: Event) {
    match e
    case Tick(t) => t >= w.now
    case Gather(model) => model <= w.folded
    // the lift is written by the gather that read the rows, with or without the lock
    case Lift(i) => i < |w.gathers| && Lifts(d, w.gathers[i].rows, w.gathers[i].model)
    case Lock(i) => w.phase.Idle? && i < |w.gathers|
    case Poll(c) => (w.phase.Idle? || w.phase.Gathered?) && c in w.filled && c !in w.stored
    case UseGathered(_) => w.phase.Gathered?
    case ReadGates(_) => w.phase.Gathered?
    case ReadPositions(seen) => w.phase.GatesRead? && seen <= w.filled
    case ReadOrders(listed, v, _) =>
      // the listing may lag a fill or a kill
      && w.phase.HaveRead? && listed <= w.live + w.filled + w.dead
      && v.have == w.phase.have && v.pending == SumIn(w.orders, listed) && v.moc == 0 && v.step == d.step
      && v.unresolved == w.phase.g.unresolved && v.unfolded == w.phase.g.unfolded
      && v.openRows == w.phase.g.openRows && v.visible == listed
    case Insert => w.phase.Ready?
    case SendPlaced => w.phase.Written?
    case SendRejected(_) => w.phase.Written?
    case SendLost(_) => w.phase.Written?
    case Arrive => w.flying.Some?
    case Ack(_, _) => w.phase.Awaiting?
    case Abort => true
    case Resolve(_, _) => w.phase.Idle?
    case Fill(c) => c in w.live
    case Kill(c) => c in w.live
    case SleeveFold(c) => c in w.stored
  }

  /** What the guarantee rests on beyond the code. */
  predicate Assumed(d: Day, w: World, e: Event) {
    match e
    // a lift decided before the lock marks no row that was filled since it was decided
    case Lift(i) => i < |w.gathers| && NothingClosedSince(w.gathers[i].rows, w.rows)
    // gates read before the lock are used only when nobody wrote the journal since, but for fold marks
    case UseGathered(how) =>
      && w.phase.Gathered? && OnlyMarked(d, w.phase.early, w.rows)
      && ShowsAll(GatesOf(d, w.phase.early, w.phase.model, w.now), how)
    // the read does not fail or leave a closed gate out
    case ReadGates(how) => w.phase.Gathered? && ShowsAll(GatesOf(d, w.rows, w.phase.model, w.now), how)
    // the position read shows every fill the sleeve has already folded
    case ReadPositions(seen) => w.folded <= seen
    // the venue keeps client ids, and the listing shows neither an order whose fill the position read
    // already showed nor one it has killed
    case ReadOrders(listed, v, _) => v.clientIds && w.phase.HaveRead? && listed !! w.phase.seen && listed !! w.dead
    // a submit is not acknowledged as already terminal
    case Ack(_, status) => AckState(status) == Submitted
    // an order given up as never observed is neither live nor filled nor on its way
    case Resolve(listing, pollOk) =>
      forall i :: 0 <= i < |w.rows| && w.rows[i].state == Sending
                  && ResolveRow(w.rows[i], w.now, listing, pollOk).state == Abandoned ==>
                    w.rows[i].cid !in w.live + w.filled
                    && (w.flying.Some? ==> w.flying.value.cid != w.rows[i].cid)
    case _ => true
  }

  function Apply(d: Day, w: World, e: Event): World
    requires Allowed(d, w, e)
  {
    match e
    case Tick(t) => w.(now := t)
    case Gather(model) => w.(gathers := w.gathers + [Gathering(w.rows, model)])
    case Lift(_) => w.(rows := AfterMarkFolded(w.rows, d.symbol))
    case Lock(i) => w.(phase := Gathered(w.gathers[i].rows, w.gathers[i].model))
    case Poll(c) =>
      w.(stored := w.stored + {c},
         rows := AfterFold(w.rows, Execution("", c, "", d.symbol, QtyOf(w.orders, c), w.now)))
    case UseGathered(how) =>
      w.(phase := GatesRead(Shown(GatesOf(d, w.phase.early, w.phase.model, w.now), how)))
    case ReadGates(how) =>
      w.(phase := GatesRead(Shown(GatesOf(d, w.rows, w.phase.model, w.now), how)),
         rows := if how.Enforce? then AfterLift(d, w.rows, w.phase.model) else w.rows)
    case ReadPositions(seen) =>
      w.(phase := HaveRead(w.phase.g, d.base + SumIn(w.orders, seen), seen))
    case ReadOrders(listed, v, rails) =>
      var verdict := MarketVerdict(v, rails);
      if verdict.Hold? then w.(phase := Idle)
      else
        var delta := verdict.order.delta;
        w.(phase := Ready(IntentCid(d, delta, w.phase.g.epoch), delta, Effective(v), v.want, 0))
    case Insert =>
      var p := w.phase;
      if Known(w.rows, p.cid) then w.(phase := Idle)
      else w.(phase := Written(p.cid, p.delta, p.eff, p.want, p.lost),
              rows := w.rows + [FreshRow(Entry(p.cid, d.symbol, if p.delta > 0 then Buy else Sell, Abs(p.delta)),
                                         w.now)])
    case SendPlaced => Place(w, w.phase.cid, w.phase.delta).(phase := Awaiting(w.phase.cid))
    case SendRejected(note) =>
      w.(phase := Idle, rows := UpdateRow(w.rows, w.phase.cid,
                                          (r: Row) => r.(state := Rejected, note := TextNote(note))))
    case SendLost(fate) =>
      (match fate
       case Dropped => w
       case Taken => Place(w, w.phase.cid, w.phase.delta)
       case Delayed => w.(flying := Some(Placed(w.phase.cid, w.phase.delta)))).(phase := Idle)
    case Arrive => Place(w, w.flying.value.cid, w.flying.value.qty).(flying := None)
    case Ack(boid, status) =>
      w.(phase := Idle, rows := UpdateRow(w.rows, w.phase.cid, (r: Row) => AckRow(r, boid, status)))
    case Abort => w.(phase := Idle)
    case Resolve(listing, pollOk) => w.(rows := AfterResolve(w.rows, w.now, listing, pollOk))
    case Fill(c) => w.(live := w.live - {c}, filled := w.filled + {c})
    case Kill(c) => w.(live := w.live - {c}, dead := w.dead + {c}, phase := AfterKill(w.phase, QtyOf(w.orders, c)))
    case SleeveFold(c) => w.(folded := w.folded + {c})
  }

  // ------------------------------------------------------------------ the invariant

  ghost predicate VenueOk(w: World) {
    && (forall i, j :: 0 <= i < j < |w.orders| ==> w.orders[i].cid != w.orders[j].cid)
    && Cids(w.orders) == w.live + w.filled + w.dead
    && w.live !! w.filled && w.live !! w.dead && w.filled !! w.dead
    && w.folded <= w.stored <= w.filled
  }

  /** Every accepted order has its row, written before it, with its side and size. */
  ghost predicate Backed(w: World) {
    && Keyed(w.rows)
    && (forall o :: o in w.orders ==> Known(w.rows, o.cid) && SignedQty(RowOf(w.rows, o.cid)) == o.qty)
  }

  ghost predicate RowShape(d: Day, w: World, r: Row) {
    && r.symbol == d.symbol && d.start <= r.created && r.qty > 0
    && (r.state == Filled <==> r.cid in w.stored)
    && (r.state == Filled ==> r.filled == r.qty)
    && (r.note.TextNote? ==> r.state == Rejected || r.state == Abandoned)
    && (r.state != Filled ==> r.filled == 0)
    && (r.note == FoldedNote ==> r.cid in w.folded)
    && (r.cid in w.live + (w.filled - w.stored) ==> Outstanding(r.state))
  }

  ghost predicate RowsOk(d: Day, w: World) { forall i :: 0 <= i < |w.rows| ==> RowShape(d, w, w.rows[i]) }

  /** The gates a pass holds still describe the ledger. */
  ghost predicate GatesOk(d: Day, w: World, g: SymbolGates) {
    && g.openRows == OpenRows(w.rows, d.symbol, d.start)
    && (g.unfolded == 0 ==> w.stored <= w.folded)
  }

  ghost predicate PhaseOk(d: Day, w: World) {
    match w.phase
    case Idle => true
    case Gathered(_, model) => model <= w.folded
    case GatesRead(g) => GatesOk(d, w, g)
    case HaveRead(g, have, seen) =>
      && g.openRows == OpenRows(w.rows, d.symbol, d.start)
      && (g.unfolded == 0 ==> w.stored <= seen)
      && seen <= w.filled && have == d.base + SumIn(w.orders, seen)
    case Ready(c, delta, eff, want, lost) =>
      && eff == Committed(d, w) + lost && delta != 0 && Between(eff, eff + delta, want) && c.MarketCid?
    case Written(c, delta, eff, want, lost) =>
      && eff == Committed(d, w) + lost && delta != 0 && Between(eff, eff + delta, want)
      && Known(w.rows, c) && RowOf(w.rows, c).state == Sending && SignedQty(RowOf(w.rows, c)) == delta
      && c !in Cids(w.orders)
    case Awaiting(c) => Known(w.rows, c) && RowOf(w.rows, c).state == Sending
  }

  /** A gather read a beginning of the ledger; if it decided on the lift, all it saw filled is folded. */
  ghost predicate GatherOk(d: Day, w: World, g: Gathering) {
    && g.model <= w.folded && |g.rows| <= |w.rows|
    && (forall j :: 0 <= j < |g.rows| ==> w.rows[j].cid == g.rows[j].cid)
    && (Lifts(d, g.rows, g.model) ==>
          forall j :: 0 <= j < |g.rows| && g.rows[j].state == Filled ==> g.rows[j].cid in w.folded)
  }

  ghost predicate GathersOk(d: Day, w: World) {
    forall i :: 0 <= i < |w.gathers| ==> GatherOk(d, w, w.gathers[i])
  }

  /** An order on its way has its outstanding row, and no pass has got past its listing since. */
  ghost predicate FlyingOk(w: World) {
    w.flying.Some? ==>
      && !w.phase.Ready? && !w.phase.Written? && !w.phase.Awaiting?
      && w.flying.value.cid !in Cids(w.orders) && Known(w.rows, w.flying.value.cid)
      && Outstanding(RowOf(w.rows, w.flying.value.cid).state)
      && SignedQty(RowOf(w.rows, w.flying.value.cid)) == w.flying.value.qty
  }

  ghost predicate Inv(d: Day, w: World) {
    && d.start <= w.now
    && VenueOk(w) && Backed(w) && RowsOk(d, w) && PhaseOk(d, w)
    && GathersOk(d, w) && FlyingOk(w)
  }

  // ------------------------------------------------------------------ sums

  lemma {:induction false} SumInSame(orders: seq<Placed>, s: set<Cid>, t: set<Cid>)
    requires forall o :: o in orders ==> (o.cid in s <==> o.cid in t)
    ensures SumIn(orders, s) == SumIn(orders, t)
  {
    if orders != [] { SumInSame(orders[..|orders| - 1], s, t); }
  }

  lemma {:induction false} SumInSplit(orders: seq<Placed>, s: set<Cid>, t: set<Cid>)
    requires s !! t
    ensures SumIn(orders, s + t) == SumIn(orders, s) + SumIn(orders, t)
  {
    if orders != [] { SumInSplit(orders[..|orders| - 1], s, t); }
  }

  lemma SumInPlace(orders: seq<Placed>, o: Placed, s: set<Cid>)
    ensures SumIn(orders + [o], s) == SumIn(orders, s) + if o.cid in s then o.qty else 0
  {
    assert (orders + [o])[..|orders|] == orders;
  }

  lemma {:induction false} QtyOfOrder(orders: seq<Placed>, i: nat)
    requires i < |orders| && forall j, k :: 0 <= j < k < |orders| ==> orders[j].cid != orders[k].cid
    ensures QtyOf(orders, orders[i].cid) == orders[i].qty
  {
    var n := |orders| - 1;
    if i == n {
      SumInSame(orders[..n], {orders[i].cid}, {});
      SumInNone(orders[..n]);
    } else {
      QtyOfOrder(orders[..n], i);
    }
  }

  lemma {:induction false} SumInNone(orders: seq<Placed>)
    ensures SumIn(orders, {}) == 0
  {
    if orders != [] { SumInNone(orders[..|orders| - 1]); }
  }

  // ------------------------------------------------------------------ the fold lift is evidence

  /** Per side, the sleeve's total is part of the ledger's; when the two are equal nothing is missing. */
  lemma {:induction false} EqualSidesMeanAllFolded(d: Day, rows: seq<Row>, model: set<Cid>, side: Side)
    requires forall i :: 0 <= i < |rows| ==>
               rows[i].qty > 0 && Counts(rows[i], d.symbol, d.start)
               && (rows[i].state == Filled ==> rows[i].filled == rows[i].qty)
               && (rows[i].cid in model ==> rows[i].state == Filled)
    ensures Sum(rows, ModelOf(model, side)) <= Sum(rows, FilledSideOf(d.symbol, d.start, side))
    ensures Sum(rows, ModelOf(model, side)) == Sum(rows, FilledSideOf(d.symbol, d.start, side)) ==>
              forall i :: 0 <= i < |rows| && rows[i].state == Filled && rows[i].side == side ==> rows[i].cid in model
  {
    if rows != [] {
      var n := |rows| - 1;
      var init := rows[..n];
      EqualSidesMeanAllFolded(d, init, model, side);
      if Sum(rows, ModelOf(model, side)) == Sum(rows, FilledSideOf(d.symbol, d.start, side)) {
        forall i | 0 <= i < |rows| && rows[i].state == Filled && rows[i].side == side ensures rows[i].cid in model {
          if i < n { assert init[i] == rows[i]; }
        }
      }
    }
  }

  /** An unfrozen symbol: every stored fill has been folded by the sleeve. */
  lemma UnfrozenMeansFolded(d: Day, w: World, model: set<Cid>)
    requires VenueOk(w) && Backed(w) && RowsOk(d, w) && model <= w.folded
    requires GatesOf(d, w.rows, model, w.now).unfolded == 0
    ensures w.stored <= w.folded
  {
    forall c | c in w.stored ensures c in w.folded {
      assert c in Cids(w.orders);
      var r := RowOf(w.rows, c);
      var i := Find(w.rows, c).value;
      assert RowShape(d, w, w.rows[i]);
      if Lifts(d, w.rows, model) {
        EqualSidesMeanAllFolded(d, w.rows, model, Buy);
        EqualSidesMeanAllFolded(d, w.rows, model, Sell);
        assert w.rows[i].side == Buy || w.rows[i].side == Sell;
      } else {
        UnfoldedExact(w.rows, d.symbol, d.start);
        assert w.rows[i].note == FoldedNote;
      }
    }
  }

  // ------------------------------------------------------------------ each step keeps the invariant

  /** Rows keep their places, and the sleeve forgets nothing. */
  lemma GathersStay(d: Day, w: World, w': World)
    requires GathersOk(d, w) && w'.gathers == w.gathers && w.folded <= w'.folded && |w.rows| <= |w'.rows|
    requires forall j :: 0 <= j < |w.rows| ==> w'.rows[j].cid == w.rows[j].cid
    ensures GathersOk(d, w')
  {
    forall i | 0 <= i < |w'.gathers| ensures GatherOk(d, w', w'.gathers[i]) {
      assert GatherOk(d, w, w.gathers[i]);
    }
  }

  lemma GatherKeeps(d: Day, w: World, model: set<Cid>)
    requires Inv(d, w) && Allowed(d, w, Gather(model))
    ensures Inv(d, Apply(d, w, Gather(model)))
  {
    var w' := Apply(d, w, Gather(model));
    var g := Gathering(w.rows, model);
    assert GatherOk(d, w', g) by {
      if Lifts(d, w.rows, model) { LiftingRowsFolded(d, w, model); }
    }
    assert GathersOk(d, w') by {
      forall i | 0 <= i < |w'.gathers| ensures GatherOk(d, w', w'.gathers[i]) {
        if i < |w.gathers| { assert GatherOk(d, w, w.gathers[i]); }
      }
    }
    assert RowsOk(d, w') by { RowsOnlyLookAtSets(d, w, w'); }
    assert PhaseOk(d, w') by { assert Committed(d, w') == Committed(d, w); }
  }

  /** A lift that marks only rows its gather already saw filled marks only what the sleeve has folded. */
  lemma LiftMarksFolded(d: Day, w: World, i: nat)
    requires Inv(d, w) && Allowed(d, w, Lift(i)) && Assumed(d, w, Lift(i))
    ensures forall j :: 0 <= j < |w.rows| && w.rows[j].state == Filled ==> w.rows[j].cid in w.folded
  {
    assert GatherOk(d, w, w.gathers[i]);
  }

  lemma LateLiftKeeps(d: Day, w: World, i: nat)
    requires Inv(d, w) && Allowed(d, w, Lift(i)) && Assumed(d, w, Lift(i))
    ensures Inv(d, Apply(d, w, Lift(i)))
  {
    var w' := Apply(d, w, Lift(i));
    assert Backed(w') && RowsOk(d, w') by {
      LiftMarksFolded(d, w, i);
      LiftKeepsRows(d, w, w');
    }
    assert FlyingOk(w') by { MarkingKeepsFlying(d, w, w'); }
    assert GathersOk(d, w') by { GathersStay(d, w, w'); }
    assert PhaseOk(d, w') by { MarkingKeepsPhase(d, w, w'); }
  }

  /** Marks reach filled rows only. */
  lemma MarkingKeepsPhase(d: Day, w: World, w': World)
    requires Keyed(w.rows) && PhaseOk(d, w) && w' == w.(rows := AfterMarkFolded(w.rows, d.symbol))
    ensures PhaseOk(d, w')
  {
    RewriteKeeps(w.rows, w'.rows);
    MarkingKeepsOpenRows(d, w.rows);
    assert Committed(d, w') == Committed(d, w);
  }

  lemma MarkingKeepsFlying(d: Day, w: World, w': World)
    requires Keyed(w.rows) && FlyingOk(w) && w'.flying == w.flying && w'.orders == w.orders
    requires w'.rows == AfterMarkFolded(w.rows, d.symbol)
    requires (!w'.phase.Ready? && !w'.phase.Written? && !w'.phase.Awaiting?) || w'.phase == w.phase
    ensures FlyingOk(w')
  {
    RewriteKeeps(w.rows, w'.rows);
  }

  lemma StoredFillsRow(d: Day, w: World, c: Cid)
    requires Inv(d, w) && Allowed(d, w, Poll(c))
    ensures Inv(d, Apply(d, w, Poll(c)))
  {
    var w' := Apply(d, w, Poll(c));
    var i := FillClosesItsRow(d, w, c);
    StoredFillKeepsRows(d, w, w', i, c);
    assert Backed(w') by { BackedAfterRewrite(w, w'); }
    assert GathersOk(d, w') by { GathersStay(d, w, w'); }
    assert FlyingOk(w') by { FoldingKeepsFlying(w, w', i); }
  }

  /** The row that a stored fill closes is not that of an order on its way. */
  lemma FoldingKeepsFlying(w: World, w': World, i: nat)
    requires VenueOk(w) && Keyed(w.rows) && FlyingOk(w) && i < |w.rows| && w.rows[i].cid in w.filled
    requires exists qty :: w'.rows == w.rows[i := FoldRow(w.rows[i], qty)]
    requires w'.orders == w.orders && w'.flying == w.flying && w'.phase == w.phase
    ensures FlyingOk(w')
  {
    RewriteKeeps(w.rows, w'.rows);
    if w.flying.Some? { assert w.rows[i].cid in Cids(w.orders) && w.rows[i].cid != w.flying.value.cid; }
  }

  lemma StoredFillKeepsRows(d: Day, w: World, w': World, i: nat, c: Cid)
    requires VenueOk(w) && Keyed(w.rows) && RowsOk(d, w) && c in w.filled && c !in w.stored
    requires i < |w.rows| && w.rows[i].cid == c && Abs(QtyOf(w.orders, c)) == w.rows[i].qty
    requires w' == w.(stored := w.stored + {c}, rows := w.rows[i := FoldRow(w.rows[i], QtyOf(w.orders, c))])
    ensures VenueOk(w') && RowsOk(d, w')
  {
    assert RowShape(d, w, w.rows[i]);
    forall j | 0 <= j < |w'.rows| ensures RowShape(d, w', w'.rows[j]) {
      assert RowShape(d, w, w.rows[j]);
      if j != i { assert w.rows[j].cid != c; }
    }
  }

  /** A stored fill finds the row written before its order, and fills it whole. */
  lemma FillClosesItsRow(d: Day, w: World, c: Cid) returns (i: nat)
    requires Inv(d, w) && c in w.filled
    ensures i < |w.rows| && w.rows[i].cid == c && Abs(QtyOf(w.orders, c)) == w.rows[i].qty
    ensures AfterFold(w.rows, Execution("", c, "", d.symbol, QtyOf(w.orders, c), w.now)) ==
            w.rows[i := FoldRow(w.rows[i], QtyOf(w.orders, c))]
  {
    assert c in Cids(w.orders);
    var k :| 0 <= k < |w.orders| && w.orders[k].cid == c;
    QtyOfOrder(w.orders, k);
    assert w.orders[k] in w.orders;
    i := Find(w.rows, c).value;
  }

  lemma BackedAfterRewrite(w: World, w': World)
    requires Backed(w) && w'.orders == w.orders && |w'.rows| == |w.rows|
    requires forall i :: 0 <= i < |w.rows| ==>
               w'.rows[i].cid == w.rows[i].cid && w'.rows[i].side == w.rows[i].side && w'.rows[i].qty == w.rows[i].qty
    ensures Backed(w')
  {
    RewriteKeeps(w.rows, w'.rows);
    forall o | o in w'.orders ensures Known(w'.rows, o.cid) && SignedQty(RowOf(w'.rows, o.cid)) == o.qty {
      assert Known(w.rows, o.cid);
      assert Find(w'.rows, o.cid) == Find(w.rows, o.cid);
    }
  }

  /** Nothing but the phase, the clock and what the sleeve has folded changed. */
  lemma SameLedgerKeeps(d: Day, w: World, w': World)
    requires Inv(d, w) && w.now <= w'.now && w.folded <= w'.folded <= w.stored
    requires w' == w.(now := w'.now, folded := w'.folded, phase := w'.phase)
    requires PhaseOk(d, w') && FlyingOk(w')
    ensures Inv(d, w')
  {
    assert RowsOk(d, w') by { RowsOnlyLookAtSets(d, w, w'); }
    assert GathersOk(d, w') by { GathersStay(d, w, w'); }
  }

  lemma ShownGatesOk(d: Day, w: World, model: set<Cid>, how: Reading)
    requires VenueOk(w) && Backed(w) && RowsOk(d, w) && model <= w.folded
    requires ShowsAll(GatesOf(d, w.rows, model, w.now), how)
    ensures GatesOk(d, w, Shown(GatesOf(d, w.rows, model, w.now), how))
  {
    if GatesOf(d, w.rows, model, w.now).unfolded == 0 { UnfrozenMeansFolded(d, w, model); }
  }

  lemma MarkingKeepsGates(d: Day, w: World, w': World, g: SymbolGates)
    requires GatesOk(d, w, g) && w'.rows == AfterMarkFolded(w.rows, d.symbol)
    requires w'.stored == w.stored && w'.folded == w.folded
    ensures GatesOk(d, w', g)
  {
    MarkingKeepsOpenRows(d, w.rows);
  }

  /** A lift with evidence marks only what the sleeve has folded. */
  lemma LiftingRowsFolded(d: Day, w: World, model: set<Cid>)
    requires VenueOk(w) && Backed(w) && RowsOk(d, w) && model <= w.folded && Lifts(d, w.rows, model)
    ensures forall j :: 0 <= j < |w.rows| && w.rows[j].state == Filled ==> w.rows[j].cid in w.folded
  {
    UnfrozenMeansFolded(d, w, model);
    forall j | 0 <= j < |w.rows| && w.rows[j].state == Filled ensures w.rows[j].cid in w.folded {
      assert RowShape(d, w, w.rows[j]);
    }
  }

  lemma ReadGatesKeeps(d: Day, w: World, how: Reading)
    requires Inv(d, w) && Allowed(d, w, ReadGates(how)) && Assumed(d, w, ReadGates(how))
    ensures Inv(d, Apply(d, w, ReadGates(how)))
  {
    var g := Shown(GatesOf(d, w.rows, w.phase.model, w.now), how);
    ShownGatesOk(d, w, w.phase.model, how);
    if how.Enforce? && Lifts(d, w.rows, w.phase.model) {
      ReadingLiftKeeps(d, w, g);
    } else {
      SameLedgerKeeps(d, w, w.(phase := GatesRead(g)));
    }
  }

  lemma ReadingLiftKeeps(d: Day, w: World, g: SymbolGates)
    requires Inv(d, w) && w.phase.Gathered? && Lifts(d, w.rows, w.phase.model) && GatesOk(d, w, g)
    ensures Inv(d, w.(phase := GatesRead(g), rows := AfterMarkFolded(w.rows, d.symbol)))
  {
    var w1 := w.(rows := AfterMarkFolded(w.rows, d.symbol));
    var w' := w1.(phase := GatesRead(g));
    assert Backed(w') && RowsOk(d, w1) by {
      LiftingRowsFolded(d, w, w.phase.model);
      LiftKeepsRows(d, w, w1);
    }
    assert RowsOk(d, w') by { RowsOnlyLookAtSets(d, w1, w'); }
    assert PhaseOk(d, w') by { MarkingKeepsGates(d, w, w', g); }
    assert GathersOk(d, w') by { GathersStay(d, w, w'); }
    assert FlyingOk(w') by { MarkingKeepsFlying(d, w, w'); }
  }

  lemma LiftKeepsRows(d: Day, w: World, w': World)
    requires Backed(w) && RowsOk(d, w)
    requires forall j :: 0 <= j < |w.rows| && w.rows[j].state == Filled ==> w.rows[j].cid in w.folded
    requires w' == w.(rows := AfterMarkFolded(w.rows, d.symbol))
    ensures Backed(w') && RowsOk(d, w')
  {
    BackedAfterRewrite(w, w');
    forall j | 0 <= j < |w'.rows| ensures RowShape(d, w', w'.rows[j]) {
      assert RowShape(d, w, w.rows[j]);
    }
  }

  /** The phase and the clock are no business of the rows. */
  lemma RowsOnlyLookAtSets(d: Day, w: World, w': World)
    requires RowsOk(d, w) && w'.rows == w.rows
    requires w'.live == w.live && w'.filled == w.filled && w'.stored == w.stored && w.folded <= w'.folded
    ensures RowsOk(d, w')
  {
    forall j | 0 <= j < |w'.rows| ensures RowShape(d, w', w'.rows[j]) {
      assert RowShape(d, w, w.rows[j]);
    }
  }

  lemma {:induction false} MarkingKeepsOpenRows(d: Day, rows: seq<Row>)
    ensures OpenRows(AfterMarkFolded(rows, d.symbol), d.symbol, d.start) == OpenRows(rows, d.symbol, d.start)
  {
    if rows != [] {
      var n := |rows| - 1;
      MarkingKeepsOpenRows(d, rows[..n]);
      assert AfterMarkFolded(rows, d.symbol)[..n] == AfterMarkFolded(rows[..n], d.symbol);
    }
  }

  /** The heart of the protocol: a decision that survives the gates was made on the true commitments.
      Every live order is listed, every fill was in the position that was read or is still listed, and
      nothing is on its way. */
  lemma DecisionSeesCommitted(d: Day, w: World, listed: set<Cid>, v: SymbolView, rails: Rails)
    requires Inv(d, w) && Allowed(d, w, ReadOrders(listed, v, rails)) && MarketVerdict(v, rails).Send?
    requires Assumed(d, w, ReadOrders(listed, v, rails))
    ensures listed + w.phase.seen == w.live + w.filled && listed !! w.phase.seen && w.flying.None?
    ensures listed <= w.live ==> listed == w.live && w.phase.seen == w.filled
    ensures Effective(v) == Committed(d, w)
  {
    SentOrderIsSound(v, rails);
    var p := w.phase;
    if w.flying.Some? { FlyingIsHidden(d, w, listed, v); }
    EveryOrderIsSeen(d, w, listed, v, rails);
    assert listed + p.seen == w.live + w.filled;
    SumInSplit(w.orders, listed, p.seen);
  }

  /** A row that nothing has filled as the gates list it. */
  function OpenRow(r: Row): (Cid, int) { (r.cid, Sign(r.side) * r.qty) }

  lemma OutstandingIsOpen(d: Day, w: World, i: nat)
    requires i < |w.rows| && RowShape(d, w, w.rows[i]) && Outstanding(w.rows[i].state)
    ensures OpenRow(w.rows[i]) in OpenRows(w.rows, d.symbol, d.start)
  {
    OpenRowsExact(w.rows, d.symbol, d.start, OpenRow(w.rows[i]));
  }

  lemma EveryOrderIsSeen(d: Day, w: World, listed: set<Cid>, v: SymbolView, rails: Rails)
    requires Inv(d, w) && Allowed(d, w, ReadOrders(listed, v, rails)) && MarketVerdict(v, rails).Send? && v.clientIds
    ensures w.live + w.filled <= listed + w.phase.seen
  {
    SentOrderIsSound(v, rails);
    var p := w.phase;
    forall c | c in w.live + w.filled ensures c in listed || c in p.seen {
      if c !in w.stored {
        assert c in Cids(w.orders);
        var i := Find(w.rows, c).value;
        assert RowShape(d, w, w.rows[i]);
        assert OpenRow(w.rows[i]) in p.g.openRows by { OutstandingIsOpen(d, w, i); }
        assert c in listed;
      }
    }
  }

  /** An order on its way has an open row that no listing shows. */
  lemma FlyingIsHidden(d: Day, w: World, listed: set<Cid>, v: SymbolView)
    requires Inv(d, w) && w.flying.Some? && w.phase.HaveRead? && listed <= w.live + w.filled + w.dead
    requires v.openRows == w.phase.g.openRows && v.visible == listed && v.clientIds
    ensures Hidden(v)
  {
    var c := w.flying.value.cid;
    var i := Find(w.rows, c).value;
    var x := OpenRow(w.rows[i]);
    assert RowShape(d, w, w.rows[i]);
    assert x in v.openRows by { OutstandingIsOpen(d, w, i); }
    var k :| 0 <= k < |v.openRows| && v.openRows[k] == x;
    assert c !in Cids(w.orders);
    assert v.openRows[k].0 !in v.visible;
  }

  lemma InsertKeeps(d: Day, w: World, r: Row)
    requires Inv(d, w) && w.phase.Ready? && !Known(w.rows, w.phase.cid)
    requires var p := w.phase;
             r == FreshRow(Entry(p.cid, d.symbol, if p.delta > 0 then Buy else Sell, Abs(p.delta)), w.now)
    ensures var p := w.phase;
            Inv(d, w.(phase := Written(p.cid, p.delta, p.eff, p.want, p.lost), rows := w.rows + [r]))
  {
    var p := w.phase;
    assert SignedQty(r) == p.delta;
    NewRowKeeps(d, w, r);
    AppendKeeps(w.rows, r);
    var w' := w.(phase := Written(p.cid, p.delta, p.eff, p.want, p.lost), rows := w.rows + [r]);
    assert RowsOk(d, w') by {
      forall j | 0 <= j < |w'.rows| ensures RowShape(d, w', w'.rows[j]) {
        assert RowShape(d, w.(rows := w.rows + [r]), w'.rows[j]);
      }
    }
    GathersStay(d, w, w');
  }

  lemma NewRowKeeps(d: Day, w: World, r: Row)
    requires VenueOk(w) && Backed(w) && RowsOk(d, w) && !Blank(r.cid) && !Known(w.rows, r.cid)
    requires r.symbol == d.symbol && d.start <= r.created && r.qty > 0 && r.state == Sending && r.filled == 0
             && r.note == NoNote
    ensures r.cid !in Cids(w.orders)
    ensures var w1 := w.(rows := w.rows + [r]); VenueOk(w1) && Backed(w1) && RowsOk(d, w1)
  {
    var w1 := w.(rows := w.rows + [r]);
    AppendKeeps(w.rows, r);
    assert r.cid !in Cids(w.orders) by {
      forall o | o in w.orders ensures o.cid != r.cid { assert Known(w.rows, o.cid); }
    }
    forall j | 0 <= j < |w1.rows| ensures RowShape(d, w1, w1.rows[j]) {
      if j < |w.rows| { assert RowShape(d, w, w.rows[j]); }
    }
    forall o | o in w1.orders ensures Known(w1.rows, o.cid) && SignedQty(RowOf(w1.rows, o.cid)) == o.qty {
      assert Known(w.rows, o.cid);
    }
  }

  /** A placed order is backed by the outstanding row written before it. */
  lemma PlacedRowsFine(d: Day, w: World, c: Cid, delta: int)
    requires Backed(w) && RowsOk(d, w) && Known(w.rows, c)
    requires Outstanding(RowOf(w.rows, c).state) && SignedQty(RowOf(w.rows, c)) == delta
    ensures Backed(Place(w, c, delta)) && RowsOk(d, Place(w, c, delta))
  {
    var w' := Place(w, c, delta);
    forall j | 0 <= j < |w'.rows| ensures RowShape(d, w', w'.rows[j]) {
      assert RowShape(d, w, w.rows[j]);
      if w.rows[j].cid == c { FindIs(w.rows, j); }
    }
    forall o | o in w'.orders ensures Known(w'.rows, o.cid) && SignedQty(RowOf(w'.rows, o.cid)) == o.qty {
      assert o in w.orders || o == Placed(c, delta);
    }
  }

  /** The venue's side and the ledger's side after a placed order. */
  lemma PlaceKeepsAllButPhase(d: Day, w: World, c: Cid, delta: int, w': World)
    requires Inv(d, w) && c !in Cids(w.orders) && Known(w.rows, c)
    requires Outstanding(RowOf(w.rows, c).state) && SignedQty(RowOf(w.rows, c)) == delta
    requires w' == Place(w, c, delta).(phase := w'.phase, flying := w'.flying)
    ensures VenueOk(w') && Backed(w') && RowsOk(d, w') && GathersOk(d, w')
  {
    PlacingIsVenueOk(w, c, delta);
    PlacedRowsFine(d, w, c, delta);
    assert RowsOk(d, w') by { RowsOnlyLookAtSets(d, Place(w, c, delta), w'); }
    assert GathersOk(d, w') by { GathersStay(d, w, w'); }
  }

  /** An order the venue accepts adds exactly its own quantity to the commitments. */
  lemma PlacingKeeps(d: Day, w: World, p: Phase)
    requires Inv(d, w) && w.phase.Written? && (p == Idle || p == Awaiting(w.phase.cid))
    ensures var w' := Place(w, w.phase.cid, w.phase.delta).(phase := p);
            Inv(d, w') && Committed(d, w') == Committed(d, w) + w.phase.delta && Holding(d, w') == Holding(d, w)
  {
    PlacingAddsUp(d, w);
    PlaceKeepsAllButPhase(d, w, w.phase.cid, w.phase.delta, Place(w, w.phase.cid, w.phase.delta).(phase := p));
  }

  /** So does an order that arrives after its pass has given it up. */
  lemma ArrivalKeeps(d: Day, w: World)
    requires Inv(d, w) && w.flying.Some?
    ensures var w' := Apply(d, w, Arrive);
            Inv(d, w') && Committed(d, w') == Committed(d, w) + w.flying.value.qty && Holding(d, w') == Holding(d, w)
  {
    var o, w' := w.flying.value, Apply(d, w, Arrive);
    PlaceAddsUp(d, w, o.cid, o.qty);
    PlaceKeepsAllButPhase(d, w, o.cid, o.qty, w');
    assert PhaseOk(d, w') by { ArrivalKeepsPhase(d, w); }
  }

  lemma ArrivalKeepsPhase(d: Day, w: World)
    requires VenueOk(w) && PhaseOk(d, w) && FlyingOk(w) && w.flying.Some?
    ensures PhaseOk(d, Apply(d, w, Arrive))
  {
    if w.phase.HaveRead? { SumInPlace(w.orders, w.flying.value, w.phase.seen); }
  }

  /** A submit that is given up while still on the wire. */
  lemma DelayKeeps(d: Day, w: World)
    requires Inv(d, w) && w.phase.Written?
    ensures Inv(d, Apply(d, w, SendLost(Delayed)))
  {
    var w' := Apply(d, w, SendLost(Delayed));
    RowsOnlyLookAtSets(d, w, w');
    GathersStay(d, w, w');
    assert Committed(d, w') == Committed(d, w);
  }

  lemma PlaceAddsUp(d: Day, w: World, c: Cid, delta: int)
    requires c !in Cids(w.orders) && w.live + w.filled <= Cids(w.orders)
    ensures var w' := Place(w, c, delta);
            Committed(d, w') == Committed(d, w) + delta && Holding(d, w') == Holding(d, w)
  {
    var w' := Place(w, c, delta);
    var o := Placed(c, delta);
    forall x | x in w.orders ensures x.cid != c { assert x.cid in Cids(w.orders); }
    SumInPlace(w.orders, o, w'.live + w'.filled);
    SumInPlace(w.orders, o, w'.filled);
    SumInSame(w.orders, w'.live + w'.filled, w.live + w.filled);
  }

  lemma PlacingAddsUp(d: Day, w: World)
    requires w.phase.Written? && w.phase.cid !in Cids(w.orders) && w.live + w.filled <= Cids(w.orders)
    ensures var w' := Place(w, w.phase.cid, w.phase.delta);
            Committed(d, w') == Committed(d, w) + w.phase.delta && Holding(d, w') == Holding(d, w)
  {
    PlaceAddsUp(d, w, w.phase.cid, w.phase.delta);
  }

  lemma PlacingIsVenueOk(w: World, c: Cid, delta: int)
    requires VenueOk(w) && c !in Cids(w.orders)
    ensures VenueOk(Place(w, c, delta))
  {
    var w' := Place(w, c, delta);
    var o := Placed(c, delta);
    assert Cids(w'.orders) == Cids(w.orders) + {c} by {
      assert forall x :: x in w'.orders <==> x in w.orders || x == o;
    }
    forall i, j | 0 <= i < j < |w'.orders| ensures w'.orders[i].cid != w'.orders[j].cid {
      if j == |w.orders| { assert w.orders[i] in w.orders; assert w.orders[i].cid in Cids(w.orders); }
    }
  }

  lemma SettlingRowKeeps(d: Day, w: World, f: Row -> Row, c: Cid)
    requires Inv(d, w) && Known(w.rows, c) && RowOf(w.rows, c).state == Sending
    requires forall r: Row :: f(r).cid == r.cid && f(r).side == r.side && f(r).qty == r.qty && f(r).symbol == r.symbol
                         && f(r).filled == r.filled && f(r).created == r.created
    requires var r := f(RowOf(w.rows, c));
             r.state != Filled && r.note != FoldedNote && (r.note.TextNote? ==> r.state == Rejected)
             && (c in w.live + w.filled ==> Outstanding(r.state))
    requires w.flying.None?
    ensures Inv(d, w.(phase := Idle, rows := UpdateRow(w.rows, c, f)))
  {
    var i := Find(w.rows, c).value;
    var w' := w.(phase := Idle, rows := UpdateRow(w.rows, c, f));
    BackedAfterRewrite(w, w');
    GathersStay(d, w, w');
    forall j | 0 <= j < |w'.rows| ensures RowShape(d, w', w'.rows[j]) {
      assert RowShape(d, w, w.rows[j]);
    }
  }

  lemma ResolveKeeps(d: Day, w: World, listing: Option<seq<Listed>>, pollOk: bool)
    requires Inv(d, w) && Allowed(d, w, Resolve(listing, pollOk)) && Assumed(d, w, Resolve(listing, pollOk))
    ensures Inv(d, Apply(d, w, Resolve(listing, pollOk)))
  {
    var w' := Apply(d, w, Resolve(listing, pollOk));
    BackedAfterRewrite(w, w');
    assert RowsOk(d, w') by {
      forall j | 0 <= j < |w'.rows| ensures RowShape(d, w', w'.rows[j]) {
        assert RowShape(d, w, w.rows[j]);
      }
    }
    assert GathersOk(d, w') by { GathersStay(d, w, w'); }
    assert FlyingOk(w') by { ResolveKeepsFlying(d, w, listing, pollOk); }
  }

  /** Recovery may find the order on its way listed, but does not give it up. */
  lemma ResolveKeepsFlying(d: Day, w: World, listing: Option<seq<Listed>>, pollOk: bool)
    requires Keyed(w.rows) && FlyingOk(w)
    requires Allowed(d, w, Resolve(listing, pollOk)) && Assumed(d, w, Resolve(listing, pollOk))
    ensures FlyingOk(Apply(d, w, Resolve(listing, pollOk)))
  {
    RewriteKeeps(w.rows, AfterResolve(w.rows, w.now, listing, pollOk));
  }

  /** Fills change nothing about the commitments; a killed order leaves them and is remembered. */
  lemma VenueMovesKeep(d: Day, w: World, e: Event)
    requires Inv(d, w) && Allowed(d, w, e) && (e.Fill? || e.Kill?)
    ensures Inv(d, Apply(d, w, e))
    ensures e.Fill? ==> Committed(d, Apply(d, w, e)) == Committed(d, w)
    ensures e.Kill? ==> Committed(d, Apply(d, w, e)) == Committed(d, w) - QtyOf(w.orders, e.cid)
  {
    var w' := Apply(d, w, e);
    VenueMovesAddUp(d, w, e);
    VenueMovesKeepRows(d, w, w', e.cid);
    assert GathersOk(d, w') by { GathersStay(d, w, w'); }
    assert PhaseOk(d, w') by { VenueMovesKeepPhase(d, w, e); }
  }

  lemma VenueMovesKeepPhase(d: Day, w: World, e: Event)
    requires VenueOk(w) && PhaseOk(d, w) && Allowed(d, w, e) && (e.Fill? || e.Kill?)
    ensures PhaseOk(d, Apply(d, w, e))
  {
    VenueMovesAddUp(d, w, e);
  }

  lemma VenueMovesKeepRows(d: Day, w: World, w': World, c: Cid)
    requires VenueOk(w) && Backed(w) && RowsOk(d, w) && c in w.live
    requires w'.rows == w.rows && w'.orders == w.orders && w'.stored == w.stored && w'.folded == w.folded
    requires w'.live == w.live - {c}
    requires (w'.filled == w.filled + {c} && w'.dead == w.dead) || (w'.dead == w.dead + {c} && w'.filled == w.filled)
    ensures VenueOk(w') && Backed(w') && RowsOk(d, w')
  {
    forall j | 0 <= j < |w'.rows| ensures RowShape(d, w', w'.rows[j]) {
      assert RowShape(d, w, w.rows[j]);
    }
    assert Cids(w'.orders) == w'.live + w'.filled + w'.dead;
  }

  lemma ClockAndSleeveKeep(d: Day, w: World, e: Event)
    requires Inv(d, w) && Allowed(d, w, e) && (e.Tick? || e.SleeveFold?)
    ensures Inv(d, Apply(d, w, e))
  {
    var w' := Apply(d, w, e);
    assert PhaseOk(d, w') by { assert Committed(d, w') == Committed(d, w); }
    SameLedgerKeeps(d, w, w');
  }

  lemma LockKeeps(d: Day, w: World, i: nat)
    requires Inv(d, w) && Allowed(d, w, Lock(i))
    ensures Inv(d, Apply(d, w, Lock(i)))
  {
    assert GatherOk(d, w, w.gathers[i]);
    SameLedgerKeeps(d, w, Apply(d, w, Lock(i)));
  }

  lemma UseGatheredKeeps(d: Day, w: World, how: Reading)
    requires Inv(d, w) && Allowed(d, w, UseGathered(how)) && Assumed(d, w, UseGathered(how))
    ensures Inv(d, Apply(d, w, UseGathered(how)))
  {
    EarlyGatesHold(d, w, how);
    SameLedgerKeeps(d, w, Apply(d, w, UseGathered(how)));
  }

  lemma ReadPositionsKeeps(d: Day, w: World, seen: set<Cid>)
    requires Inv(d, w) && Allowed(d, w, ReadPositions(seen)) && Assumed(d, w, ReadPositions(seen))
    ensures Inv(d, Apply(d, w, ReadPositions(seen)))
  {
    SameLedgerKeeps(d, w, Apply(d, w, ReadPositions(seen)));
  }

  lemma AbortKeeps(d: Day, w: World)
    requires Inv(d, w)
    ensures Inv(d, w.(phase := Idle))
  {
    SameLedgerKeeps(d, w, w.(phase := Idle));
  }

  /** Gates of rows that only gained fold marks since are as good as gates of the rows there are. */
  lemma EarlyGatesHold(d: Day, w: World, how: Reading)
    requires Inv(d, w) && w.phase.Gathered? && OnlyMarked(d, w.phase.early, w.rows)
    requires ShowsAll(GatesOf(d, w.phase.early, w.phase.model, w.now), how)
    ensures GatesOk(d, w, Shown(GatesOf(d, w.phase.early, w.phase.model, w.now), how))
  {
    var w0 := w.(rows := w.phase.early);
    EarlyRowsFine(d, w);
    ShownGatesOk(d, w0, w.phase.model, how);
    MarkingKeepsOpenRows(d, w0.rows);
  }

  lemma EarlyRowsFine(d: Day, w: World)
    requires VenueOk(w) && Backed(w) && RowsOk(d, w) && w.phase.Gathered? && OnlyMarked(d, w.phase.early, w.rows)
    ensures var w0 := w.(rows := w.phase.early); VenueOk(w0) && Backed(w0) && RowsOk(d, w0)
  {
    var w0 := w.(rows := w.phase.early);
    forall j | 0 <= j < |w0.rows| ensures RowShape(d, w0, w0.rows[j]) && w0.rows[j].cid == w.rows[j].cid {
      assert RowShape(d, w, w.rows[j]);
    }
    RewriteKeeps(w.rows, w0.rows);
    BackedAfterRewrite(w, w0);
  }

  lemma DecisionKeeps(d: Day, w: World, listed: set<Cid>, v: SymbolView, rails: Rails)
    requires Inv(d, w) && Allowed(d, w, ReadOrders(listed, v, rails))
    requires Assumed(d, w, ReadOrders(listed, v, rails))
    ensures Inv(d, Apply(d, w, ReadOrders(listed, v, rails)))
  {
    var w' := Apply(d, w, ReadOrders(listed, v, rails));
    if MarketVerdict(v, rails).Send? {
      DecisionSeesCommitted(d, w, listed, v, rails);
      SentOrderIsSound(v, rails);
      OrderIsSound(v.want, v.have, v.pending + v.moc, v.step);
      assert Committed(d, w') == Committed(d, w);
    }
    SameLedgerKeeps(d, w, w');
  }

  lemma AnswerKeeps(d: Day, w: World, e: Event)
    requires Inv(d, w) && Allowed(d, w, e) && Assumed(d, w, e) && (e.SendRejected? || e.Ack?)
    ensures Inv(d, Apply(d, w, e))
  {
    var c := w.phase.cid;
    NotFolded(d, w, c);
    if e.Ack? {
      SettlingRowKeeps(d, w, (r: Row) => AckRow(r, e.boid, e.status), c);
    } else {
      SettlingRowKeeps(d, w, (r: Row) => r.(state := Rejected, note := TextNote(e.note)), c);
    }
  }

  lemma VenueMovesAddUp(d: Day, w: World, e: Event)
    requires VenueOk(w) && Allowed(d, w, e) && (e.Fill? || e.Kill?)
    ensures e.Fill? ==> Committed(d, Apply(d, w, e)) == Committed(d, w)
    ensures e.Kill? ==> Committed(d, Apply(d, w, e)) == Committed(d, w) - QtyOf(w.orders, e.cid)
  {
    var c, w' := e.cid, Apply(d, w, e);
    if e.Fill? {
      assert w'.live + w'.filled == w.live + w.filled;
    } else {
      assert (w'.live + w'.filled) + {c} == w.live + w.filled;
      SumInSplit(w.orders, w'.live + w'.filled, {c});
    }
  }

  predicate ReadingStep(e: Event) {
    e.Gather? || e.Lift? || e.Lock? || e.UseGathered? || e.ReadGates? || e.ReadPositions? || e.ReadOrders?
  }

  lemma ReadingStepKeeps(d: Day, w: World, e: Event)
    requires Inv(d, w) && Allowed(d, w, e) && Assumed(d, w, e) && ReadingStep(e)
    ensures Inv(d, Apply(d, w, e))
  {
    match e
    case Gather(model) => GatherKeeps(d, w, model);
    case Lift(i) => LateLiftKeeps(d, w, i);
    case Lock(i) => LockKeeps(d, w, i);
    case UseGathered(how) => UseGatheredKeeps(d, w, how);
    case ReadGates(how) => ReadGatesKeeps(d, w, how);
    case ReadPositions(seen) => ReadPositionsKeeps(d, w, seen);
    case ReadOrders(listed, v, rails) => DecisionKeeps(d, w, listed, v, rails);
  }

  predicate SubmitStep(e: Event) { e.Insert? || e.SendPlaced? || e.SendLost? || e.SendRejected? || e.Ack? }

  lemma SubmitStepKeeps(d: Day, w: World, e: Event)
    requires Inv(d, w) && Allowed(d, w, e) && Assumed(d, w, e) && SubmitStep(e)
    ensures Inv(d, Apply(d, w, e))
  {
    match e
    case Insert =>
      if Known(w.rows, w.phase.cid) { AbortKeeps(d, w); } else {
        var p := w.phase;
        InsertKeeps(d, w, FreshRow(Entry(p.cid, d.symbol, if p.delta > 0 then Buy else Sell, Abs(p.delta)), w.now));
      }
    case SendPlaced => PlacingKeeps(d, w, Awaiting(w.phase.cid));
    case SendLost(fate) =>
      match fate {
        case Dropped => AbortKeeps(d, w);
        case Taken => PlacingKeeps(d, w, Idle);
        case Delayed => DelayKeeps(d, w);
      }
    case SendRejected(_) => AnswerKeeps(d, w, e);
    case Ack(_, _) => AnswerKeeps(d, w, e);
  }

  /** Every step the code and the venue can take keeps the invariant, under the assumptions. */
  lemma StepKeepsInvariant(d: Day, w: World, e: Event)
    requires Inv(d, w) && Allowed(d, w, e) && Assumed(d, w, e)
    ensures Inv(d, Apply(d, w, e))
  {
    if ReadingStep(e) {
      ReadingStepKeeps(d, w, e);
    } else if SubmitStep(e) {
      SubmitStepKeeps(d, w, e);
    } else {
      match e
      case Poll(c) => StoredFillsRow(d, w, c);
      case Arrive => ArrivalKeeps(d, w);
      case Resolve(listing, pollOk) => ResolveKeeps(d, w, listing, pollOk);
      case Fill(c) => VenueMovesKeep(d, w, e);
      case Kill(c) => VenueMovesKeep(d, w, e);
      case Abort => AbortKeeps(d, w);
      case Tick(_) => ClockAndSleeveKeep(d, w, e);
      case SleeveFold(_) => ClockAndSleeveKeep(d, w, e);
    }
  }

  lemma NotFolded(d: Day, w: World, c: Cid)
    requires Inv(d, w) && Known(w.rows, c) && RowOf(w.rows, c).state == Sending
    ensures RowOf(w.rows, c).note != FoldedNote
  {
    var i := Find(w.rows, c).value;
    assert RowShape(d, w, w.rows[i]);
  }
}
