/**
 What one pass can do to the resting orders of an account, whatever the venue answers: the order budget,
 the suppression of submissions, whose orders it touches, and when a refresh leaves a want uncovered.
 */
module RestingRules {
  import opened Common
  import opened LevelTokens
  import opened MarketDelta
  import opened RestingOrders

  lemma {:induction false} FirstIs(ours: seq<Resting>, w: Want)
    ensures First(ours, w).Some? ==> First(ours, w).value in ours && Matches(First(ours, w).value, w)
    ensures First(ours, w).None? <==> forall o :: o in ours ==> !Matches(o, w)
  {
    if ours != [] {
      FirstIs(ours[..|ours| - 1], w);
      assert forall o :: o in ours <==> o in ours[..|ours| - 1] || o == ours[|ours| - 1];
    }
  }

  lemma {:induction false} WithoutIs(venue: seq<Resting>, id: nat)
    ensures forall o :: o in Without(venue, id) <==> o in venue && o.id != id
  {
    if venue != [] {
      WithoutIs(venue[..|venue| - 1], id);
      assert forall o :: o in venue <==> o in venue[..|venue| - 1] || o == venue[|venue| - 1];
    }
  }

  // ------------------------------------------------------------------ the budget

  /** What has been transmitted and what may still be. */
  function Load(r: Run): nat { |r.wires| + Max(r.budget, 0) }

  ghost predicate Within(c: Config, r: Run, r': Run) {
    Load(r') <= Load(r) && (c.rails.dryRun ==> r'.wires == r.wires)
  }

  lemma ActIsWithin(c: Config, r: Run, a: Action)
    ensures Within(c, r, ActOn(c, r, a))
  {}

  lemma {:induction false} OnCloseIsWithin(c: Config, r: Run, n: nat)
    ensures Within(c, r, OnClose(c, r, n))
  {
    if n > 0 {
      OnCloseIsWithin(c, r, n - 1);
      ActIsWithin(c, OnClose(c, r, n - 1), CloseOrder(n - 1));
    }
  }

  lemma {:induction false} ReleaseIsWithin(c: Config, r: Run, ours: seq<Resting>, wants: seq<Want>, entry: bool)
    ensures Within(c, r, Released(c, r, ours, wants, entry))
  {
    if ours != [] {
      ReleaseIsWithin(c, r, ours[..|ours| - 1], wants, entry);
      ActIsWithin(c, Released(c, r, ours[..|ours| - 1], wants, entry), Cancel(ours[|ours| - 1].id));
    }
  }

  lemma {:induction false} DeferredIsWithin(c: Config, r: Run, n: nat)
    ensures var (r', k) := Deferred(c, r, n);
            Load(r') + k <= Load(r) && r'.wires == r.wires && (c.rails.dryRun ==> k == 0)
  {
    if n > 0 { DeferredIsWithin(c, r, n - 1); }
  }

  lemma {:induction false} LaunchedIsWithin(c: Config, r: Run, k: nat)
    ensures Load(Launched(c, r, k)) <= Load(r) + k
  {
    if k > 0 { LaunchedIsWithin(c, r, k - 1); }
  }

  lemma BatchIsWithin(c: Config, r: Run, n: nat)
    ensures Within(c, r, Batch(c, r, n))
  {
    DeferredIsWithin(c, r, n);
    LaunchedIsWithin(c, Deferred(c, r, n).0, Deferred(c, r, n).1);
  }

  lemma SubmitIsWithin(c: Config, r: Run, w: Want, qty: int)
    ensures Within(c, r, SubmitFor(c, r, w, qty))
  {
    var m := Mint(PrefixOf(w), w.kind, c.draws(|r.wires|).uuid, w.v);
    if m.Cid? { ActIsWithin(c, r, Submit(w, qty, m.text)); }
  }

  lemma PlaceOneIsWithin(c: Config, r: Run, w: Want, exits: seq<Want>, ours: seq<Resting>)
    ensures Within(c, r, PlacedOne(c, r, w, exits, ours))
  {
    var gate := GateFor(c, w, exits);
    if gate.Go? {
      SubmitIsWithin(c, r, w, gate.qty);
      var o := First(ours, w);
      if o.Some? {
        ActIsWithin(c, r, Replace(o.value.id, WholeShares(c, gate.qty), w.v.price));
        ActIsWithin(c, r, Cancel(o.value.id));
        SubmitIsWithin(c, ActOn(c, r, Cancel(o.value.id)), w, gate.qty);
      }
    }
  }

  lemma {:induction false} PlacedIsWithin(c: Config, r: Run, wants: seq<Want>, exits: seq<Want>, ours: seq<Resting>)
    ensures Within(c, r, Placed(c, r, wants, exits, ours))
  {
    if wants != [] {
      PlacedIsWithin(c, r, wants[..|wants| - 1], exits, ours);
      PlaceOneIsWithin(c, Placed(c, r, wants[..|wants| - 1], exits, ours), wants[|wants| - 1], exits, ours);
    }
  }

  ghost predicate Fresh(c: Config, r: Run) { r.wires == [] && r.budget == c.rails.maxOrders && !r.aborted }

  /** Over all sections of one pass, the market batch included, no more mutations reach the venue than
      `max_orders_per_sync`; none at all while paused, without live confirmation, or in a dry run. */
  lemma PassStaysInBudget(c: Config, r: Run, exits: seq<Want>, entries: seq<Want>, n: Others)
    requires Fresh(c, r)
    ensures |Pass(c, r, exits, entries, n).wires| <= Max(c.rails.maxOrders, 0)
    ensures c.rails.paused || !c.rails.liveAllowed || c.rails.dryRun ==> Pass(c, r, exits, entries, n).wires == []
  {
    var ours, live := OursOf(r.venue), Placeable(exits, exits);
    var r1 := OnClose(c, r, n.closes);
    var r2 := Released(c, r1, ours, entries, true);
    var r3 := Released(c, r2, ours, live, false);
    var r4 := Batch(c, r3, n.deltas);
    OnCloseIsWithin(c, r, n.closes);
    ReleaseIsWithin(c, r1, ours, entries, true);
    ReleaseIsWithin(c, r2, ours, live, false);
    BatchIsWithin(c, r3, n.deltas);
    PlacedIsWithin(c, r4, exits, exits, ours);
    PlacedIsWithin(c, Placed(c, r4, exits, exits, ours), entries, exits, ours);
  }

  // ------------------------------------------------------------------ suppression

  /** The orders of the snapshot that a release may cancel. */
  ghost predicate Releasable(id: nat, ours: seq<Resting>, entries: seq<Want>, live: seq<Want>) {
    exists o :: o in ours && o.id == id && (Stale(o, entries, true) || Stale(o, live, false))
  }

  ghost predicate Listed(id: nat, ours: seq<Resting>) { exists o :: o in ours && o.id == id }

  /** One transmitted mutation in order: it names an order of ours, and while submissions are suppressed
      it is the cancel of an order nobody wants. */
  ghost predicate Proper(w: Wire, ours: seq<Resting>, entries: seq<Want>, live: seq<Want>) {
    && (w.action.Cancel? || w.action.Replace? ==> Listed(w.action.id, ours))
    && (w.suppressed ==> w.action.Cancel? && Releasable(w.action.id, ours, entries, live))
  }

  ghost predicate AllProper(wires: seq<Wire>, ours: seq<Resting>, entries: seq<Want>, live: seq<Want>) {
    forall i :: 0 <= i < |wires| ==> Proper(wires[i], ours, entries, live)
  }

  /** What an action needs before it is handed over. */
  ghost predicate Fit(a: Action, tripped: bool, ours: seq<Resting>, entries: seq<Want>, live: seq<Want>) {
    && (a.Cancel? || a.Replace? ==> Listed(a.id, ours))
    && (a.Cancel? && tripped ==> Releasable(a.id, ours, entries, live))
  }

  lemma ActKeepsProper(c: Config, r: Run, a: Action, ours: seq<Resting>, entries: seq<Want>, live: seq<Want>)
    requires AllProper(r.wires, ours, entries, live) && Fit(a, r.tripped, ours, entries, live)
    ensures AllProper(ActOn(c, r, a).wires, ours, entries, live)
  {
    var r' := ActOn(c, r, a);
    assert r'.wires == r.wires || r'.wires == r.wires + [Wire(a, r.tripped)];
  }

  lemma {:induction false} OnCloseKeepsProper(c: Config, r: Run, n: nat, ours: seq<Resting>, entries: seq<Want>,
                                              live: seq<Want>)
    requires AllProper(r.wires, ours, entries, live)
    ensures AllProper(OnClose(c, r, n).wires, ours, entries, live)
  {
    if n > 0 {
      OnCloseKeepsProper(c, r, n - 1, ours, entries, live);
      ActKeepsProper(c, OnClose(c, r, n - 1), CloseOrder(n - 1), ours, entries, live);
    }
  }

  lemma {:induction false} ReleaseKeepsProper(c: Config, r: Run, some: seq<Resting>, wants: seq<Want>, entry: bool,
                                             ours: seq<Resting>, entries: seq<Want>, live: seq<Want>)
    requires AllProper(r.wires, ours, entries, live)
    requires forall o :: o in some ==> o in ours
    requires wants == if entry then entries else live
    ensures AllProper(Released(c, r, some, wants, entry).wires, ours, entries, live)
  {
    if some != [] {
      ReleaseKeepsProper(c, r, some[..|some| - 1], wants, entry, ours, entries, live);
      var o := some[|some| - 1];
      assert o in ours;
      if Stale(o, wants, entry) {
        ActKeepsProper(c, Released(c, r, some[..|some| - 1], wants, entry), Cancel(o.id), ours, entries, live);
      }
    }
  }

  lemma {:induction false} LaunchedKeepsProper(c: Config, r: Run, k: nat, ours: seq<Resting>, entries: seq<Want>,
                                               live: seq<Want>)
    requires AllProper(r.wires, ours, entries, live)
    ensures AllProper(Launched(c, r, k).wires, ours, entries, live)
  {
    if k > 0 {
      LaunchedKeepsProper(c, r, k - 1, ours, entries, live);
      var before := Launched(c, r, k - 1);
      assert Launched(c, r, k).wires == before.wires
             || (!before.tripped && Launched(c, r, k).wires == before.wires + [Wire(MarketOrder(k - 1), false)]);
    }
  }

  lemma SubmitKeepsProper(c: Config, r: Run, w: Want, qty: int, ours: seq<Resting>, entries: seq<Want>, live: seq<Want>)
    requires AllProper(r.wires, ours, entries, live)
    ensures AllProper(SubmitFor(c, r, w, qty).wires, ours, entries, live)
  {
    var m := Mint(PrefixOf(w), w.kind, c.draws(|r.wires|).uuid, w.v);
    if m.Cid? { ActKeepsProper(c, r, Submit(w, qty, m.text), ours, entries, live); }
  }

  lemma PlaceOneKeepsProper(c: Config, r: Run, w: Want, exits: seq<Want>, ours: seq<Resting>, entries: seq<Want>,
                            live: seq<Want>)
    requires AllProper(r.wires, ours, entries, live)
    ensures AllProper(PlacedOne(c, r, w, exits, ours).wires, ours, entries, live)
  {
    var gate := GateFor(c, w, exits);
    if gate.Go? {
      SubmitKeepsProper(c, r, w, gate.qty, ours, entries, live);
      var o := First(ours, w);
      if o.Some? {
        FirstIs(ours, w);
        assert Listed(o.value.id, ours);
        ActKeepsProper(c, r, Replace(o.value.id, WholeShares(c, gate.qty), w.v.price), ours, entries, live);
        if !r.tripped {
          ActKeepsProper(c, r, Cancel(o.value.id), ours, entries, live);
          SubmitKeepsProper(c, ActOn(c, r, Cancel(o.value.id)), w, gate.qty, ours, entries, live);
        }
      }
    }
  }

  lemma {:induction false} PlacedKeepsProper(c: Config, r: Run, wants: seq<Want>, exits: seq<Want>, ours: seq<Resting>,
                                            entries: seq<Want>, live: seq<Want>)
    requires AllProper(r.wires, ours, entries, live)
    ensures AllProper(Placed(c, r, wants, exits, ours).wires, ours, entries, live)
  {
    if wants != [] {
      PlacedKeepsProper(c, r, wants[..|wants| - 1], exits, ours, entries, live);
      PlaceOneKeepsProper(c, Placed(c, r, wants[..|wants| - 1], exits, ours), wants[|wants| - 1], exits, ours,
                          entries, live);
    }
  }

  /** Whatever the venue answers, and wherever in the pass its gateway starts refusing: a cancel or
      replace names one of our own resting orders, and while submissions are suppressed nothing is
      submitted or replaced and only orders nobody wants any more are cancelled. */
  lemma SuppressionHolds(c: Config, r: Run, exits: seq<Want>, entries: seq<Want>, n: Others)
    requires Fresh(c, r)
    ensures AllProper(Pass(c, r, exits, entries, n).wires, OursOf(r.venue), entries, Placeable(exits, exits))
  {
    var ours, live := OursOf(r.venue), Placeable(exits, exits);
    var r1 := OnClose(c, r, n.closes);
    var r2 := Released(c, r1, ours, entries, true);
    var r3 := Released(c, r2, ours, live, false);
    var (r4, k) := Deferred(c, r3, n.deltas);
    var r5 := Launched(c, r4, k);
    OnCloseKeepsProper(c, r, n.closes, ours, entries, live);
    ReleaseKeepsProper(c, r1, ours, entries, true, ours, entries, live);
    ReleaseKeepsProper(c, r2, ours, live, false, ours, entries, live);
    DeferredIsWithin(c, r3, n.deltas);
    LaunchedKeepsProper(c, r4, k, ours, entries, live);
    PlacedKeepsProper(c, r5, exits, exits, ours, entries, live);
    PlacedKeepsProper(c, Placed(c, r5, exits, exits, ours), entries, exits, ours, entries, live);
  }

  // ------------------------------------------------------------------ what goes out, exactly

  /** The submit of this reply ends up resting. */
  predicate Lands(reply: Reply) { reply.Accepted? || (reply.Lost? && reply.done) }

  /** What one transmitted mutation does to the pass: it is on the wire with what the gateway switch said; only a
      refusal that says the market is not ready, of anything but a cancel, trips the switch; only a lost
      answer, or a throttled cancel or amendment, ends the pass; and the venue moves exactly when it
      accepted, or acted on what was lost. */
  lemma ReplyExactly(c: Config, r: Run, a: Action)
    ensures var r', reply := Wired(c, r, a), c.draws(|r.wires|).reply;
            && r'.wires == r.wires + [Wire(a, r.tripped)] && r'.budget == r.budget
            && (r'.tripped <==> r.tripped || (reply == Refused(true) && !a.Cancel?))
            && (r'.aborted <==> r.aborted || reply.Lost? || (reply.Throttled? && (a.Cancel? || a.Replace?)))
            && (!Lands(reply) ==> r'.venue == r.venue && r'.nextId == r.nextId)
            && (Lands(reply) ==> r'.venue == Effect(r, a, reply.silent).venue)
  {}

  /** A mutation is attempted in a pass that has not ended, with budget left, and, unless it is a cancel, an open
      gateway; it costs one of the budget, and in a dry run nothing goes out. */
  lemma ActExactly(c: Config, r: Run, a: Action)
    ensures var r', tries := ActOn(c, r, a), !r.aborted && r.budget > 0 && (a.Cancel? || !r.tripped);
            && r'.budget == r.budget - (if tries then 1 else 0)
            && r'.wires == (if tries && !c.rails.dryRun then r.wires + [Wire(a, r.tripped)] else r.wires)
            && (!tries || c.rails.dryRun ==> r' == r.(budget := r'.budget))
  {}

  /** The first `n` of a section's mutations on the wire. */
  function Sent(n: nat, closing: bool): seq<Wire> {
    seq(n, i requires 0 <= i < n => Wire(if closing then CloseOrder(i) else MarketOrder(i), false))
  }

  lemma SentNext(n: nat, closing: bool)
    ensures Sent(n + 1, closing) == Sent(n, closing) + [Wire(if closing then CloseOrder(n) else MarketOrder(n), false)]
  {}

  ghost predicate Stopped(r: Run) { r.aborted || r.tripped }

  /** The batch sends its orders in the order they were decided, until the gateway trips or the pass ends, and
      none after that. */
  lemma {:induction false} LaunchedExactly(c: Config, r: Run, k: nat) returns (m: nat)
    requires !Stopped(r)
    ensures m <= k && Launched(c, r, k).wires == r.wires + Sent(m, false)
    ensures m < k ==> Stopped(Launched(c, r, k))
  {
    if k == 0 {
      m := 0;
      assert r.wires + Sent(0, false) == r.wires;
    } else {
      m := LaunchedExactly(c, r, k - 1);
      var before := Launched(c, r, k - 1);
      if !Stopped(before) {
        SentNext(m, false);
        Regroup(r.wires, Sent(m, false), [Wire(MarketOrder(m), false)]);
        m := m + 1;
      }
    }
  }

  /** As many market orders are decided as there is budget for, none once the pass has stopped; each costs one,
      and a dry run sends none of them. */
  lemma {:induction false} DeferredExactly(c: Config, r: Run, n: nat)
    ensures var (r', k) := Deferred(c, r, n);
            var spent := if Stopped(r) || r.budget <= 0 then 0 else if n <= r.budget then n else r.budget;
            r' == r.(budget := r.budget - spent) && k == if c.rails.dryRun then 0 else spent
  {
    if n > 0 { DeferredExactly(c, r, n - 1); }
  }

  /** The tickets on close go out in turn while the budget lasts and until the gateway trips or the pass ends. */
  lemma {:induction false} OnCloseExactly(c: Config, r: Run, n: nat) returns (m: nat)
    requires !Stopped(r) && !c.rails.dryRun
    ensures m <= n && OnClose(c, r, n).wires == r.wires + Sent(m, true)
    ensures OnClose(c, r, n).budget == r.budget - m
    ensures m < n ==> Stopped(OnClose(c, r, n)) || OnClose(c, r, n).budget <= 0
  {
    if n == 0 {
      m := 0;
      assert r.wires + Sent(0, true) == r.wires;
    } else {
      m := OnCloseExactly(c, r, n - 1);
      var before := OnClose(c, r, n - 1);
      ActExactly(c, before, CloseOrder(n - 1));
      if !Stopped(before) && before.budget > 0 {
        SentNext(m, true);
        Regroup(r.wires, Sent(m, true), [Wire(CloseOrder(m), false)]);
        m := m + 1;
      }
    }
  }

  // ------------------------------------------------------------------ what one refresh can leave behind

  ghost predicate Covered(r: Run, w: Want) { exists o :: o in r.venue && Matches(o, w) }

  lemma MintedMatches(c: Config, w: Want, uuid: Uuid)
    ensures var m := Mint(PrefixOf(w), w.kind, uuid, w.v); m.Cid? && StartsWith(m.text, PrefixOf(w))
  {
    EveryIdFits(w.dep, w.kind, w.symbol, w.rule, uuid, w.v);
  }

  /** Two orders for one want. */
  ghost predicate Doubled(r: Run, w: Want) {
    exists x, y :: x in r.venue && y in r.venue && x.id != y.id && Matches(x, w) && Matches(y, w)
  }

  /** The submit goes out and ends up resting. */
  predicate SubmitLands(c: Config, r: Run) {
    !r.aborted && !r.tripped && r.budget > 0 && !c.rails.dryRun && Lands(c.draws(|r.wires|).reply)
  }

  lemma SubmitAdds(c: Config, r: Run, w: Want, qty: int)
    ensures var r' := SubmitFor(c, r, w, qty);
            if SubmitLands(c, r)
            then |r'.venue| == |r.venue| + 1 && r'.venue[..|r.venue|] == r.venue
                 && r'.venue[|r.venue|].id == r.nextId && Matches(r'.venue[|r.venue|], w)
            else r'.venue == r.venue
  {
    MintedMatches(c, w, c.draws(|r.wires|).uuid);
    var m := Mint(PrefixOf(w), w.kind, c.draws(|r.wires|).uuid, w.v);
    assert SubmitFor(c, r, w, qty) == ActOn(c, r, Submit(w, qty, m.text));
  }

  lemma SubmitCovers(c: Config, r: Run, w: Want, qty: int)
    ensures Covered(SubmitFor(c, r, w, qty), w) <==> Covered(r, w) || SubmitLands(c, r)
  {
    SubmitAdds(c, r, w, qty);
    var r' := SubmitFor(c, r, w, qty);
    if SubmitLands(c, r) {
      assert r'.venue[|r.venue|] in r'.venue;
    }
  }

  /** The cancel is carried out, whether or not the pass learns of it. */
  predicate CancelDone(c: Config, r: Run) {
    !r.aborted && r.budget > 0 && !c.rails.dryRun && Lands(c.draws(|r.wires|).reply)
  }

  lemma CancelActs(c: Config, r: Run, id: nat)
    ensures var r1 := ActOn(c, r, Cancel(id));
            && r1.nextId == r.nextId && r1.tripped == r.tripped
            && r1.venue == if CancelDone(c, r) then Without(r.venue, id) else r.venue
  {}

  lemma CancelMoves(c: Config, r: Run, w: Want, o: Resting)
    requires o in r.venue && Matches(o, w) && forall x :: x in r.venue && Matches(x, w) ==> x.id == o.id
    ensures var r1 := ActOn(c, r, Cancel(o.id));
            && r1.nextId == r.nextId && r1.tripped == r.tripped
            && (Covered(r1, w) <==> !CancelDone(c, r))
            && (!CancelDone(c, r) ==> r1.venue == r.venue)
  {
    CancelActs(c, r, o.id);
    if CancelDone(c, r) { WithoutIs(r.venue, o.id); }
  }

  /** The cover of a moved protective order is lost: the cancel was carried out and either its answer was
      lost, which ends the pass, or it was the last mutation of the budget, or the venue turns the
      resubmit away. */
  predicate LosesCover(c: Config, r: Run) {
    var answer := c.draws(|r.wires|).reply;
    && !r.aborted && !c.rails.dryRun && !r.tripped && r.budget > 0
    && ((answer.Lost? && answer.done)
        || (answer.Accepted? && (r.budget == 1 || !Lands(c.draws(|r.wires| + 1).reply))))
  }

  /** The old and the new order rest together: the cancel was refused, and the resubmit lands. */
  predicate RestsTwice(c: Config, r: Run) {
    && !r.aborted && !c.rails.dryRun && !r.tripped && r.budget > 1
    && c.draws(|r.wires|).reply.Refused? && Lands(c.draws(|r.wires| + 1).reply)
  }

  lemma CancelThenSubmit(c: Config, r: Run, w: Want, o: Resting)
    requires !r.tripped
    ensures var r1 := ActOn(c, r, Cancel(o.id));
            && (LosesCover(c, r) <==> CancelDone(c, r) && !SubmitLands(c, r1))
            && (RestsTwice(c, r) <==> !CancelDone(c, r) && SubmitLands(c, r1) && r.budget > 0)
  {}

  lemma SubmitDoubles(c: Config, r: Run, w: Want, qty: int, o: Resting)
    requires forall x :: x in r.venue && Matches(x, w) ==> x.id == o.id
    requires o.id < r.nextId
    ensures Doubled(SubmitFor(c, r, w, qty), w) <==> Covered(r, w) && SubmitLands(c, r)
  {
    SubmitAdds(c, r, w, qty);
    var r' := SubmitFor(c, r, w, qty);
    if SubmitLands(c, r) {
      var new_ := r'.venue[|r.venue|];
      assert r'.venue == r.venue + [new_] by { CutAt(r'.venue, |r.venue|); }
      assert forall x :: x in r'.venue <==> x in r.venue || x == new_;
      if Covered(r, w) {
        var x :| x in r.venue && Matches(x, w);
        assert x in r'.venue && new_ in r'.venue && x.id != new_.id;
      }
    }
  }

  /** What a refresh can leave behind, for every answer of the venue to its cancel and to its resubmit: when
      the want ends up without any order, and when it ends up with two. */
  lemma RefreshOutcomesExactly(c: Config, r: Run, w: Want, qty: int, o: Resting)
    requires o in r.venue && Matches(o, w) && o.id < r.nextId
    requires forall x :: x in r.venue && Matches(x, w) ==> x.id == o.id
    requires Changed(w.kind, ListingOf(o), qty, w.v, true) && !(w.kind.Limit? && c.supportsReplace)
    ensures !Covered(Refreshed(c, r, w, qty, o), w) <==> LosesCover(c, r)
    ensures Doubled(Refreshed(c, r, w, qty, o), w) <==> RestsTwice(c, r)
  {
    assert Covered(r, w);
    if !r.tripped {
      var r1 := ActOn(c, r, Cancel(o.id));
      CancelMoves(c, r, w, o);
      CancelThenSubmit(c, r, w, o);
      assert forall x :: x in r1.venue && Matches(x, w) ==> x.id == o.id by { WithoutIs(r.venue, o.id); }
      SubmitCovers(c, r1, w, qty);
      SubmitDoubles(c, r1, w, qty, o);
    }
  }

  /** Two orders for one want stay: both are still wanted, so no release touches either. */
  lemma BothStay(r: Run, w: Want, wants: seq<Want>)
    requires Doubled(r, w) && w in wants
    ensures exists x, y :: x in r.venue && y in r.venue && x.id != y.id
                           && (forall entry :: !Stale(x, wants, entry) && !Stale(y, wants, entry))
  {
    var x, y :| x in r.venue && y in r.venue && x.id != y.id && Matches(x, w) && Matches(y, w);
    var i :| 0 <= i < |wants| && wants[i] == w;
    assert Matches(x, wants[i]) && Matches(y, wants[i]);
  }

  /** An amended take-profit is in order afterwards exactly when its quantity is whole shares: a fractional
      one is truncated on its way to the venue and found changed again on every later pass. */
  lemma AmendSettlesExactlyWholeShares(c: Config, w: Want, qty: int, o: Resting, silent: bool)
    requires w.kind.Limit? && w.v.price.Some? && o.kind.Limit? && Remembers(o.cid, Limit, o.v)
    ensures var o' := o.(qty := WholeShares(c, qty), v := o.v.(price := w.v.price), silent := silent);
            && (Changed(Limit, ListingOf(o'), qty, w.v, true) <==> WholeShares(c, qty) != qty)
            && (c.unit > 0 && qty >= 0 ==> (WholeShares(c, qty) != qty <==> qty % c.unit != 0))
  {
    if c.unit > 0 && qty >= 0 { RoundStepIsFloor(qty, c.unit); WholePart(qty, c.unit); }
  }
}
