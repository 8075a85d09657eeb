/** The market-order protocol over whole runs: what holds in every run of the day. */
module DoubleBuyRuns {
  import opened Common
  import opened Journal
  import opened MarketDelta
  import opened MarketSection
  import opened NoDoubleBuy

  // ------------------------------------------------------------------ runs

  /** A run the code and the venue can take; `Legal` also asks for the assumptions at every step. */
  ghost predicate Possible(d: Day, w: World, es: seq<Event>)
    decreases |es|
  {
    es == [] || (Allowed(d, w, es[0]) && Possible(d, Apply(d, w, es[0]), es[1..]))
  }

  ghost predicate Legal(d: Day, w: World, es: seq<Event>)
    decreases |es|
  {
    es == [] || (Allowed(d, w, es[0]) && Assumed(d, w, es[0]) && Legal(d, Apply(d, w, es[0]), es[1..]))
  }

  ghost function After(d: Day, w: World, es: seq<Event>): World
    requires Possible(d, w, es)
    decreases |es|
  {
    if es == [] then w else After(d, Apply(d, w, es[0]), es[1..])
  }

  lemma {:induction false} LegalIsPossible(d: Day, w: World, es: seq<Event>)
    requires Legal(d, w, es)
    ensures Possible(d, w, es)
    decreases |es|
  {
    if es != [] { LegalIsPossible(d, Apply(d, w, es[0]), es[1..]); }
  }

  lemma StartIsFine(d: Day)
    ensures Inv(d, Init(d)) && Committed(d, Init(d)) == d.base == Holding(d, Init(d))
  {
    assert Cids([]) == {};
  }

  lemma {:induction false} InvariantOverRuns(d: Day, w: World, es: seq<Event>)
    requires Inv(d, w) && Legal(d, w, es)
    ensures Possible(d, w, es) && Inv(d, After(d, w, es))
    decreases |es|
  {
    if es != [] {
      StepKeepsInvariant(d, w, es[0]);
      InvariantOverRuns(d, Apply(d, w, es[0]), es[1..]);
    }
  }

  // ------------------------------------------------------------------ every submit of every run

  predicate WireSubmit(e: Event) { e.SendPlaced? || e.SendRejected? || e.SendLost? }

  predicate Accepted(e: Event) { e.SendPlaced? || (e.SendLost? && e.fate.Taken?) }

  /** At every market submit of every run: the row is in the ledger, written before the wire call and
      still `sending`; the venue never took this client id before; and what the pass computed as the
      effective holding is exactly the true holding plus the truly live orders, up to orders the venue
      itself killed since the listing was read. If none was killed, the order moves the commitments
      towards the target and not past it. */
  lemma EverySubmitSeesTheTruth(d: Day, es: seq<Event>, e: Event)
    requires Legal(d, Init(d), es) && Possible(d, Init(d), es)
    requires Allowed(d, After(d, Init(d), es), e) && WireSubmit(e)
    ensures var w := After(d, Init(d), es);
            var p := w.phase;
            && p.Written?
            && Known(w.rows, p.cid) && RowOf(w.rows, p.cid).state == Sending
            && SignedQty(RowOf(w.rows, p.cid)) == p.delta
            && p.cid !in Cids(w.orders)
            && p.eff == Committed(d, w) + p.lost
            && Committed(d, Apply(d, w, e)) == Committed(d, w) + (if Accepted(e) then p.delta else 0)
            && Holding(d, Apply(d, w, e)) == Holding(d, w)
            && (p.lost == 0 ==> Between(Committed(d, w), Committed(d, w) + p.delta, p.want))
  {
    StartIsFine(d);
    InvariantOverRuns(d, Init(d), es);
    SubmitSeesTheTruth(d, After(d, Init(d), es), e);
  }

  lemma SubmitSeesTheTruth(d: Day, w: World, e: Event)
    requires Inv(d, w) && Allowed(d, w, e) && WireSubmit(e)
    ensures var p := w.phase;
            && p.Written?
            && Known(w.rows, p.cid) && RowOf(w.rows, p.cid).state == Sending
            && SignedQty(RowOf(w.rows, p.cid)) == p.delta
            && p.cid !in Cids(w.orders)
            && p.eff == Committed(d, w) + p.lost
            && (p.lost == 0 ==> Between(Committed(d, w), Committed(d, w) + p.delta, p.want))
    ensures Committed(d, Apply(d, w, e)) == Committed(d, w) + (if Accepted(e) then w.phase.delta else 0)
    ensures Holding(d, Apply(d, w, e)) == Holding(d, w)
  {
    if Accepted(e) { PlacingAddsUp(d, w); }
    var w1 := Apply(d, w, e);
    assert w1.orders == if Accepted(e) then w.orders + [Placed(w.phase.cid, w.phase.delta)] else w.orders;
  }

  /** Nothing else moves the commitments: fills never do, a killed order takes out exactly itself, and an
      order that arrives late brings in exactly what its own submit decided. */
  lemma OnlySubmitsAndKillsMove(d: Day, es: seq<Event>, e: Event)
    requires Legal(d, Init(d), es) && Possible(d, Init(d), es)
    requires Allowed(d, After(d, Init(d), es), e) && !Accepted(e)
    ensures var w := After(d, Init(d), es);
            Committed(d, Apply(d, w, e)) ==
            Committed(d, w) - (if e.Kill? then QtyOf(w.orders, e.cid) else 0)
            + (if e.Arrive? then w.flying.value.qty else 0)
  {
    StartIsFine(d);
    InvariantOverRuns(d, Init(d), es);
    var w := After(d, Init(d), es);
    if e.Fill? || e.Kill? { VenueMovesKeep(d, w, e); }
    else if e.Arrive? { ArrivalKeeps(d, w); }
    else { OtherStepsLeaveOrders(d, w, e); }
  }

  lemma OtherStepsLeaveOrders(d: Day, w: World, e: Event)
    requires Allowed(d, w, e) && !Accepted(e) && !e.Fill? && !e.Kill? && !e.Arrive?
    ensures var w1 := Apply(d, w, e); w1.orders == w.orders && w1.live == w.live && w1.filled == w.filled
  {}

  // ------------------------------------------------------------------ a fixed target is never overshot

  predicate Towards(side: Side, a: int, b: int) { if side.Buy? then a <= b else b <= a }

  ghost predicate Wants(es: seq<Event>, want: int) {
    forall i :: 0 <= i < |es| && es[i].ReadOrders? ==> es[i].view.want == want
  }

  /** Every order of the day is on the side of the trade. */
  ghost predicate OnSide(orders: seq<Placed>, side: Side) {
    forall o :: o in orders ==> o.qty != 0 && Towards(side, 0, o.qty)
  }

  ghost predicate FlyingFits(d: Day, w: World, want: int, side: Side) {
    w.flying.Some? ==>
      && w.flying.value.qty != 0 && Towards(side, 0, w.flying.value.qty)
      && Towards(side, Committed(d, w) + w.flying.value.qty, want)
  }

  predicate DeltaFits(committed: int, delta: int, wanted: int, lost: int, want: int, side: Side) {
    && wanted == want && Towards(side, 0, lost) && delta != 0 && Towards(side, 0, delta)
    && Towards(side, committed + lost + delta, want)
  }

  ghost predicate PhaseFits(d: Day, w: World, want: int, side: Side) {
    match w.phase
    case Ready(_, delta, _, wanted, lost) => DeltaFits(Committed(d, w), delta, wanted, lost, want, side)
    case Written(_, delta, _, wanted, lost) => DeltaFits(Committed(d, w), delta, wanted, lost, want, side)
    case _ => true
  }

  ghost predicate Steady(d: Day, w: World, want: int, side: Side) {
    && OnSide(w.orders, side)
    && Towards(side, d.base, Committed(d, w)) && Towards(side, Committed(d, w), want)
    && FlyingFits(d, w, want, side) && PhaseFits(d, w, want, side)
  }

  lemma {:induction false} SumInHasSide(orders: seq<Placed>, s: set<Cid>, side: Side)
    requires OnSide(orders, side)
    ensures Towards(side, 0, SumIn(orders, s))
  {
    if orders != [] { SumInHasSide(orders[..|orders| - 1], s, side); }
  }

  lemma SteadyDecision(d: Day, w: World, e: Event, want: int, side: Side)
    requires Inv(d, w) && Steady(d, w, want, side) && Allowed(d, w, e) && e.ReadOrders? && e.view.want == want
    requires Assumed(d, w, e)
    ensures Steady(d, Apply(d, w, e), want, side)
  {
    var w' := Apply(d, w, e);
    assert Committed(d, w') == Committed(d, w);
    if MarketVerdict(e.view, e.rails).Send? {
      DecisionSeesCommitted(d, w, e.listed, e.view, e.rails);
      SoundDelta(e.view, e.rails);
    }
  }

  lemma SoundDelta(v: SymbolView, rails: Rails)
    requires MarketVerdict(v, rails).Send?
    ensures var delta := MarketVerdict(v, rails).order.delta;
            delta != 0 && (delta > 0 <==> v.want > Effective(v)) && Between(Effective(v), Effective(v) + delta, v.want)
  {
    SentOrderIsSound(v, rails);
    OrderIsSound(v.want, v.have, v.pending + v.moc, v.step);
  }

  lemma SteadyVenue(d: Day, w: World, e: Event, want: int, side: Side)
    requires Inv(d, w) && Steady(d, w, want, side) && Allowed(d, w, e) && (e.Fill? || e.Kill?)
    ensures Steady(d, Apply(d, w, e), want, side)
  {
    var w' := Apply(d, w, e);
    VenueMovesAddUp(d, w, e);
    assert Towards(side, 0, QtyOf(w.orders, e.cid)) by { SumInHasSide(w.orders, {e.cid}, side); }
    assert Towards(side, d.base, Committed(d, w')) by { SumInHasSide(w.orders, w'.live + w'.filled, side); }
    assert PhaseFits(d, w', want, side) by { VenueMoveFits(d, w, e, want, side); }
  }

  lemma VenueMoveFits(d: Day, w: World, e: Event, want: int, side: Side)
    requires VenueOk(w) && PhaseFits(d, w, want, side) && Allowed(d, w, e) && (e.Fill? || e.Kill?)
    requires Towards(side, 0, QtyOf(w.orders, e.cid))
    ensures PhaseFits(d, Apply(d, w, e), want, side)
  {
    VenueMovesAddUp(d, w, e);
  }

  lemma OneMoreOnSide(orders: seq<Placed>, o: Placed, side: Side)
    requires OnSide(orders, side) && o.qty != 0 && Towards(side, 0, o.qty)
    ensures OnSide(orders + [o], side)
  {}

  lemma SteadyPlace(d: Day, w: World, p: Phase, want: int, side: Side)
    requires Inv(d, w) && Steady(d, w, want, side) && w.phase.Written? && (p == Idle || p == Awaiting(w.phase.cid))
    ensures Steady(d, Place(w, w.phase.cid, w.phase.delta).(phase := p), want, side)
  {
    var w' := Place(w, w.phase.cid, w.phase.delta).(phase := p);
    assert DeltaFits(Committed(d, w), w.phase.delta, w.phase.want, w.phase.lost, want, side);
    assert Committed(d, w') == Committed(d, w) + w.phase.delta by { PlacingAddsUp(d, w); }
    assert OnSide(w'.orders, side) by { OneMoreOnSide(w.orders, Placed(w.phase.cid, w.phase.delta), side); }
  }

  lemma SteadySubmit(d: Day, w: World, e: Event, want: int, side: Side)
    requires Inv(d, w) && Steady(d, w, want, side) && Allowed(d, w, e) && Accepted(e)
    ensures Steady(d, Apply(d, w, e), want, side)
  {
    SteadyPlace(d, w, if e.SendPlaced? then Awaiting(w.phase.cid) else Idle, want, side);
  }

  lemma SteadyDelay(d: Day, w: World, want: int, side: Side)
    requires Inv(d, w) && Steady(d, w, want, side) && w.phase.Written?
    ensures Steady(d, Apply(d, w, SendLost(Delayed)), want, side)
  {
    var w' := Apply(d, w, SendLost(Delayed));
    assert Committed(d, w') == Committed(d, w);
  }

  lemma SteadyArrival(d: Day, w: World, want: int, side: Side)
    requires Inv(d, w) && Steady(d, w, want, side) && w.flying.Some?
    ensures Steady(d, Apply(d, w, Arrive), want, side)
  {
    var w' := Apply(d, w, Arrive);
    assert Committed(d, w') == Committed(d, w) + w.flying.value.qty by {
      PlaceAddsUp(d, w, w.flying.value.cid, w.flying.value.qty);
    }
    assert OnSide(w'.orders, side) by { OneMoreOnSide(w.orders, w.flying.value, side); }
  }

  lemma SteadyStep(d: Day, w: World, e: Event, want: int, side: Side)
    requires Inv(d, w) && Steady(d, w, want, side) && Allowed(d, w, e) && Assumed(d, w, e)
    requires e.ReadOrders? ==> e.view.want == want
    ensures Steady(d, Apply(d, w, e), want, side)
  {
    if e.Fill? || e.Kill? {
      SteadyVenue(d, w, e, want, side);
    } else if Accepted(e) {
      SteadySubmit(d, w, e, want, side);
    } else if e.Arrive? {
      SteadyArrival(d, w, want, side);
    } else if e == SendLost(Delayed) {
      SteadyDelay(d, w, want, side);
    } else if e.ReadOrders? {
      SteadyDecision(d, w, e, want, side);
    } else {
      SteadyQuiet(d, w, e, want, side);
    }
  }

  lemma SteadyQuiet(d: Day, w: World, e: Event, want: int, side: Side)
    requires Steady(d, w, want, side) && Allowed(d, w, e)
    requires !e.ReadOrders? && !Accepted(e) && !e.Fill? && !e.Kill? && !e.Arrive? && e != SendLost(Delayed)
    ensures Steady(d, Apply(d, w, e), want, side)
  {
    OtherStepsLeaveOrders(d, w, e);
    var w' := Apply(d, w, e);
    assert Committed(d, w') == Committed(d, w);
    assert FlyingFits(d, w', want, side);
  }

  lemma {:induction false} SteadyOverRuns(d: Day, w: World, es: seq<Event>, want: int, side: Side)
    requires Inv(d, w) && Steady(d, w, want, side) && Legal(d, w, es) && Wants(es, want)
    ensures Possible(d, w, es) && Inv(d, After(d, w, es)) && Steady(d, After(d, w, es), want, side)
    decreases |es|
  {
    if es != [] {
      StepKeepsInvariant(d, w, es[0]);
      SteadyStep(d, w, es[0], want, side);
      forall i | 0 <= i < |es[1..]| && es[1..][i].ReadOrders? ensures es[1..][i].view.want == want {
        assert es[1..][i] == es[i + 1];
      }
      SteadyOverRuns(d, Apply(d, w, es[0]), es[1..], want, side);
    }
  }

  /** While the target stands, no run of passes, fills, kills, lost acknowledgements, stale views and
      crashes ever commits the account beyond it, or moves it away from it: both what the account holds
      and what it would hold with every live order filled stay between the start and the target. */
  lemma NoRunDoubleBuys(d: Day, es: seq<Event>, want: int)
    requires Legal(d, Init(d), es) && Wants(es, want)
    ensures Possible(d, Init(d), es)
    ensures var w := After(d, Init(d), es);
            Between(d.base, Committed(d, w), want) && Between(d.base, Holding(d, w), want)
  {
    var side := if d.base <= want then Buy else Sell;
    StartIsFine(d);
    SteadyOverRuns(d, Init(d), es, want, side);
    var w := After(d, Init(d), es);
    SumInSplit(w.orders, w.live, w.filled);
    SumInHasSide(w.orders, w.live, side);
    SumInHasSide(w.orders, w.filled, side);
  }
}
