/**
 The resting orders of `reconcile` on a venue with client order ids: release what no strategy wants any
 more, place or replace what it does, every mutation behind one budget and one gateway switch.
 */
module RestingOrders {
  import opened Common
  import opened LevelTokens
  import opened MarketDelta
  import opened MarketSection

  // ------------------------------------------------------------------ wants and orders

  /** A protective exit or a resting entry a strategy asks for; quantities are in smallest units. */
  datatype Want = Want(entry: bool, dep: string, symbol: string, qty: int, kind: Kind, v: Levels,
                       rule: Option<nat>, side: Side)

  /** An order resting at the venue; `silent` when the venue does not report its levels. */
  datatype Resting = Resting(id: nat, symbol: string, cid: string, kind: Kind, qty: int, v: Levels, silent: bool)

  function PrefixOf(w: Want): string {
    if w.entry then EntryPrefix(w.dep, w.kind, w.symbol, w.rule) else ExitPrefix(w.dep, w.kind, w.symbol, w.rule)
  }

  predicate StartsWith(s: string, prefix: string) { |s| >= |prefix| && s[..|prefix|] == prefix }

  predicate IsOurs(o: Resting) { StartsWith(o.cid, "sl-") || StartsWith(o.cid, "en-") }

  predicate InFamily(o: Resting, entry: bool) {
    if entry then StartsWith(o.cid, "en-lmt-") || StartsWith(o.cid, "en-stp-") || StartsWith(o.cid, "en-stl-")
    else StartsWith(o.cid, "sl-tp-") || StartsWith(o.cid, "sl-stp-") || StartsWith(o.cid, "sl-stl-")
         || StartsWith(o.cid, "sl-trl-")
  }

  predicate Matches(o: Resting, w: Want) { o.symbol == w.symbol && StartsWith(o.cid, PrefixOf(w)) }

  predicate WantedBy(o: Resting, wants: seq<Want>) { exists i :: 0 <= i < |wants| && Matches(o, wants[i]) }

  predicate Stale(o: Resting, wants: seq<Want>, entry: bool) { InFamily(o, entry) && !WantedBy(o, wants) }

  /** The oldest listed order carrying the identity of a want. */
  function First(ours: seq<Resting>, w: Want): Option<Resting> {
    if ours == [] then None
    else
      var earlier := First(ours[..|ours| - 1], w);
      if earlier.Some? then earlier
      else if Matches(ours[|ours| - 1], w) then Some(ours[|ours| - 1])
      else None
  }

  function ListingOf(o: Resting): Listing {
    if o.silent then Listing(o.cid, o.qty, None, None, None)
    else Listing(o.cid, o.qty, if o.kind.Limit? then None else o.v.stop,
                 if o.kind.Limit? || o.kind.StopLimit? then o.v.price else None, Percent(o.v.trail))
  }

  // ------------------------------------------------------------------ what may be placed

  type Uuid = s: string | IsUuid(s) witness "0123456789abcdef0123456789abcdef"

  /** How the venue answers a mutation. A lost answer ends the pass, whether or not the venue acted. */
  datatype Reply = Accepted(silent: bool) | Refused(notReady: bool) | Throttled | Lost(done: bool, silent: bool)

  datatype Draw = Draw(uuid: Uuid, reply: Reply)

  /** What one pass is given; `unit` is the number of smallest units in a share and `draws` the venue's
      answer, and the random id part, for each mutation in turn. */
  datatype Config = Config(rails: Rails, supportsReplace: bool, native: set<Kind>, unit: nat, step: int,
                           lastPx: map<string, real>, positions: map<string, int>,
                           foldPending: map<string, FoldPending>, draws: nat -> Draw)

  datatype Why = SimulatedTarget | NotNative | Crossing | BadStop | AwaitingShares | OverNotional | FoldFreeze
               | NothingToBuy | PriceUnknown

  datatype Gate = Skip(why: Why) | Go(qty: int)

  function Px(c: Config, symbol: string): real { if symbol in c.lastPx then c.lastPx[symbol] else 0.0 }

  function AbsReal(x: real): real { if x < 0.0 then -x else x }

  /** A limit must not cross the market by more than a tolerance, nor be absurdly far from it. */
  predicate LimitRefused(side: Side, level: Option<real>, px: real, rails: Rails) {
    px > 0.0 && level.Some? &&
    (|| (side.Sell? && level.value < px * (1.0 - rails.crossTolPct / 100.0))
     || (side.Buy? && level.value > px * (1.0 + rails.crossTolPct / 100.0))
     || AbsReal(level.value / px - 1.0) * 100.0 > rails.priceBandPct)
  }

  /** A stop on the wrong side of the market would trigger at once. */
  predicate StopRefused(side: Side, stop: Option<real>, px: real, rails: Rails) {
    px > 0.0 && stop.Some? &&
    (|| (if side.Sell? then stop.value >= px else stop.value <= px)
     || AbsReal(stop.value / px - 1.0) * 100.0 > rails.stopBandPct)
  }

  predicate IsStop(kind: Kind) { kind.Stop? || kind.StopLimit? }

  function LevelOf(w: Want): Option<real> { if w.kind.Limit? || w.kind.StopLimit? then w.v.price else w.v.stop }

  predicate OverCap(c: Config, w: Want, qty: int) {
    var ref := if LevelOf(w).Some? then LevelOf(w).value else Px(c, w.symbol);
    c.rails.maxOrderNotional.Some? && ref != 0.0 && c.unit > 0
    && qty as real / c.unit as real * ref > c.rails.maxOrderNotional.value
  }

  /** The shares of a symbol that an order of one side can close. */
  function HoldingOn(c: Config, symbol: string, side: Side): nat {
    var have := if symbol in c.positions then c.positions[symbol] else 0;
    if (side.Sell? && have > 0) || (side.Buy? && have < 0) then Abs(have) else 0
  }

  /** The shares on the side an exit closes. */
  function Closable(c: Config, w: Want): nat { HoldingOn(c, w.symbol, w.side) }

  function Siblings(exits: seq<Want>, w: Want): nat {
    if exits == [] then 0
    else Siblings(exits[..|exits| - 1], w)
         + if exits[|exits| - 1].dep == w.dep && exits[|exits| - 1].symbol == w.symbol then 1 else 0
  }

  /** A take-profit with a sibling exit on the same shares is left to the replay. */
  predicate Simulated(w: Want, exits: seq<Want>) { !w.entry && w.kind.Limit? && Siblings(exits, w) > 1 }

  function ExitGate(c: Config, w: Want, exits: seq<Want>): Gate {
    var qty := RoundStep(w.qty, c.step);
    var px := Px(c, w.symbol);
    if Simulated(w, exits) then Skip(SimulatedTarget)
    else if w.kind !in c.native then Skip(NotNative)
    else if w.kind.Limit? && LimitRefused(w.side, w.v.price, px, c.rails) then Skip(Crossing)
    else if IsStop(w.kind) && StopRefused(w.side, w.v.stop, px, c.rails) then Skip(BadStop)
    else if Closable(c, w) < qty then Skip(AwaitingShares)
    else if OverCap(c, w, qty) then Skip(OverNotional)
    else Go(qty)
  }

  function EntryGate(c: Config, w: Want): Gate {
    var qty := RoundStep(w.qty, c.step);
    var px := Px(c, w.symbol);
    if w.kind !in c.native then Skip(NotNative)
    else if w.symbol in c.foldPending && FoldingShrinks(c.foldPending[w.symbol], qty) then Skip(FoldFreeze)
    else if qty <= 0 then Skip(NothingToBuy)
    else if IsStop(w.kind) && px <= 0.0 then Skip(PriceUnknown)
    else if w.kind.Limit? && LimitRefused(w.side, w.v.price, px, c.rails) then Skip(Crossing)
    else if IsStop(w.kind) && StopRefused(w.side, w.v.stop, px, c.rails) then Skip(BadStop)
    else if OverCap(c, w, qty) then Skip(OverNotional)
    else Go(qty)
  }

  function GateFor(c: Config, w: Want, exits: seq<Want>): Gate {
    if w.entry then EntryGate(c, w) else ExitGate(c, w, exits)
  }

  // ------------------------------------------------------------------ exactly what is accepted

  /** The last known price, none where there is none above zero. */
  function Market(c: Config, symbol: string): Option<real> {
    if symbol in c.lastPx && c.lastPx[symbol] > 0.0 then Some(c.lastPx[symbol]) else None
  }

  /** The limit does not cross the market beyond the tolerance and is within the sanity band, as far as both
      are known. */
  predicate LimitFits(c: Config, w: Want) {
    Market(c, w.symbol).Some? && w.v.price.Some? ==>
      var px, level := Market(c, w.symbol).value, w.v.price.value;
      && (w.side == Sell ==> level >= px * (1.0 - c.rails.crossTolPct / 100.0))
      && (w.side == Buy ==> level <= px * (1.0 + c.rails.crossTolPct / 100.0))
      && -c.rails.priceBandPct <= (level / px - 1.0) * 100.0 <= c.rails.priceBandPct
  }

  /** The stop is on the side of the market where it does not fire at once, and within its band. */
  predicate StopFits(c: Config, w: Want) {
    Market(c, w.symbol).Some? && w.v.stop.Some? ==>
      var px, stop := Market(c, w.symbol).value, w.v.stop.value;
      && (w.side == Sell ==> stop < px) && (w.side == Buy ==> stop > px)
      && -c.rails.stopBandPct <= (stop / px - 1.0) * 100.0 <= c.rails.stopBandPct
  }

  /** At its limit, or its stop, or without either at the market, the order is within the order cap. */
  predicate NotionalFits(c: Config, w: Want, qty: int) {
    var level := if w.kind == Limit || w.kind == StopLimit then w.v.price else w.v.stop;
    var ref := if level.Some? then level.value else if w.symbol in c.lastPx then c.lastPx[w.symbol] else 0.0;
    c.rails.maxOrderNotional.None? || ref == 0.0 || c.unit == 0
    || qty as real / c.unit as real * ref <= c.rails.maxOrderNotional.value
  }

  /** The account holds the quantity on the side the exit closes. */
  predicate HoldsEnough(c: Config, w: Want, qty: int) {
    var have := if w.symbol in c.positions then c.positions[w.symbol] else 0;
    qty <= 0 || (if w.side == Sell then have >= qty else -have >= qty)
  }

  predicate IsAStop(w: Want) { w.kind == Stop || w.kind == StopLimit }

  /** Two exits of the want's deployment on its symbol. */
  predicate HasSibling(exits: seq<Want>, w: Want) {
    exists i, j :: 0 <= i < j < |exits| && exits[i].dep == w.dep && exits[i].symbol == w.symbol
                   && exits[j].dep == w.dep && exits[j].symbol == w.symbol
  }

  /** When a reason to leave a want out applies, whatever other reasons there are. */
  predicate LeavesOut(c: Config, w: Want, exits: seq<Want>, why: Why) {
    var qty := RoundStep(w.qty, c.step);
    match why
    case SimulatedTarget => !w.entry && w.kind == Limit && HasSibling(exits, w)
    case NotNative => w.kind !in c.native
    case Crossing => w.kind == Limit && !LimitFits(c, w)
    case BadStop => IsAStop(w) && !StopFits(c, w)
    case AwaitingShares => !w.entry && !HoldsEnough(c, w, qty)
    case OverNotional => !NotionalFits(c, w, qty)
    case FoldFreeze =>
      w.entry && w.symbol in c.foldPending
      && (c.foldPending[w.symbol] == UnknownSize
          || (c.foldPending[w.symbol].Size? && Abs(qty + c.foldPending[w.symbol].diff) < Abs(qty)))
    case NothingToBuy => w.entry && qty <= 0
    case PriceUnknown => w.entry && IsAStop(w) && Market(c, w.symbol).None?
  }

  /** The order in which the reasons are asked for; exits and entries share it. */
  function Asked(why: Why): nat {
    match why
    case SimulatedTarget => 0 case NotNative => 1 case FoldFreeze => 2 case NothingToBuy => 3
    case PriceUnknown => 4 case Crossing => 5 case BadStop => 6 case AwaitingShares => 7 case OverNotional => 8
  }

  /** A want is left out for the first reason that applies, and accepted, in whole steps, exactly when none
      does. */
  lemma AcceptedExactly(c: Config, w: Want, exits: seq<Want>)
    ensures match GateFor(c, w, exits)
            case Go(qty) => qty == RoundStep(w.qty, c.step) && forall r :: !LeavesOut(c, w, exits, r)
            case Skip(why) =>
              LeavesOut(c, w, exits, why) && forall r :: Asked(r) < Asked(why) ==> !LeavesOut(c, w, exits, r)
  {
    SiblingsExactly(exits, w);
    LevelsExactly(c, w);
    CapExactly(c, w, RoundStep(w.qty, c.step));
    if w.entry { EntryInTurn(c, w, exits); } else { ExitInTurn(c, w, exits); }
  }

  lemma LevelsExactly(c: Config, w: Want)
    ensures LimitRefused(w.side, w.v.price, Px(c, w.symbol), c.rails) <==> !LimitFits(c, w)
    ensures StopRefused(w.side, w.v.stop, Px(c, w.symbol), c.rails) <==> !StopFits(c, w)
  {}

  lemma CapExactly(c: Config, w: Want, qty: int)
    ensures OverCap(c, w, qty) <==> !NotionalFits(c, w, qty)
    ensures !w.entry ==> (HoldingOn(c, w.symbol, w.side) < qty <==> !HoldsEnough(c, w, qty))
  {}

  lemma {:induction false} SiblingsExactly(exits: seq<Want>, w: Want)
    ensures Siblings(exits, w) > 1 <==> HasSibling(exits, w)
    ensures Siblings(exits, w) > 0 <==>
            exists i :: 0 <= i < |exits| && exits[i].dep == w.dep && exits[i].symbol == w.symbol
  {
    if exits != [] {
      var n := |exits| - 1;
      SiblingsExactly(exits[..n], w);
      assert forall i :: 0 <= i < n ==> exits[..n][i] == exits[i];
      SiblingOfLast(exits, w);
    }
  }

  lemma SiblingOfLast(exits: seq<Want>, w: Want)
    requires exits != []
    ensures var some, last := exits[..|exits| - 1], exits[|exits| - 1];
            HasSibling(exits, w) <==>
              || HasSibling(some, w)
              || (last.dep == w.dep && last.symbol == w.symbol
                  && exists i :: 0 <= i < |some| && some[i].dep == w.dep && some[i].symbol == w.symbol)
  {
    var some, last := exits[..|exits| - 1], exits[|exits| - 1];
    if HasSibling(some, w) {
      var i, j :| 0 <= i < j < |some| && some[i].dep == w.dep && some[i].symbol == w.symbol
                  && some[j].dep == w.dep && some[j].symbol == w.symbol;
      assert exits[i] == some[i] && exits[j] == some[j];
    }
    if i :| 0 <= i < |some| && some[i].dep == w.dep && some[i].symbol == w.symbol { assert exits[i] == some[i]; }
    if HasSibling(exits, w) {
      var i, j :| 0 <= i < j < |exits| && exits[i].dep == w.dep && exits[i].symbol == w.symbol
                  && exits[j].dep == w.dep && exits[j].symbol == w.symbol;
      assert some[i] == exits[i];
      if j < |some| { assert some[j] == exits[j]; }
    }
  }

  /** The gates put by name, for proofs that need nothing about levels. */
  ghost predicate GatesByName(c: Config, w: Want, exits: seq<Want>) {
    var qty := RoundStep(w.qty, c.step);
    && (Siblings(exits, w) > 1 <==> HasSibling(exits, w))
    && (LimitRefused(w.side, w.v.price, Px(c, w.symbol), c.rails) <==> !LimitFits(c, w))
    && (StopRefused(w.side, w.v.stop, Px(c, w.symbol), c.rails) <==> !StopFits(c, w))
    && (OverCap(c, w, qty) <==> !NotionalFits(c, w, qty))
    && (!w.entry ==> (HoldingOn(c, w.symbol, w.side) < qty <==> !HoldsEnough(c, w, qty)))
  }

  lemma ExitInTurn(c: Config, w: Want, exits: seq<Want>)
    requires !w.entry && GatesByName(c, w, exits)
    ensures match GateFor(c, w, exits)
            case Go(qty) => qty == RoundStep(w.qty, c.step) && forall r :: !LeavesOut(c, w, exits, r)
            case Skip(why) =>
              LeavesOut(c, w, exits, why) && forall r :: Asked(r) < Asked(why) ==> !LeavesOut(c, w, exits, r)
  {}

  lemma EntryInTurn(c: Config, w: Want, exits: seq<Want>)
    requires w.entry && GatesByName(c, w, exits)
    ensures match GateFor(c, w, exits)
            case Go(qty) => qty == RoundStep(w.qty, c.step) && forall r :: !LeavesOut(c, w, exits, r)
            case Skip(why) =>
              LeavesOut(c, w, exits, why) && forall r :: Asked(r) < Asked(why) ==> !LeavesOut(c, w, exits, r)
  {}

  /** What passes the gates: an exit on its own covers no more than the account holds on the side it closes;
      an entry stop is placed only against a known price; and no stop, exit or entry, is on the side of the
      market where it would fire at once. */
  lemma GatesHold(c: Config, w: Want, exits: seq<Want>)
    requires GateFor(c, w, exits).Go?
    ensures var qty := GateFor(c, w, exits).qty;
            var have := if w.symbol in c.positions then c.positions[w.symbol] else 0;
            !w.entry && qty > 0 ==> (if w.side.Sell? then 0 < qty <= have else have <= -qty < 0)
    ensures w.entry && IsStop(w.kind) ==> Px(c, w.symbol) > 0.0
    ensures IsStop(w.kind) && w.v.stop.Some? && Px(c, w.symbol) > 0.0 ==>
              if w.side.Sell? then w.v.stop.value < Px(c, w.symbol) else w.v.stop.value > Px(c, w.symbol)
    ensures !(w.entry && GateFor(c, w, exits).qty <= 0)
    ensures w.kind.Limit? && w.v.price.Some? && Px(c, w.symbol) > 0.0 ==>
              if w.side.Sell? then w.v.price.value >= Px(c, w.symbol) * (1.0 - c.rails.crossTolPct / 100.0)
              else w.v.price.value <= Px(c, w.symbol) * (1.0 + c.rails.crossTolPct / 100.0)
    ensures w.kind in c.native && !Simulated(w, exits)
  {
    AcceptedExactly(c, w, exits);
    assert !LeavesOut(c, w, exits, Crossing) && !LeavesOut(c, w, exits, BadStop) && !LeavesOut(c, w, exits, NotNative);
    assert !LeavesOut(c, w, exits, AwaitingShares) && !LeavesOut(c, w, exits, NothingToBuy);
    assert !LeavesOut(c, w, exits, PriceUnknown) && !LeavesOut(c, w, exits, SimulatedTarget);
    SiblingsExactly(exits, w);
  }

  // Exits are judged one by one: nothing keeps what they cover together within the holding.

  /** The gates that look at an exit's venue support and levels. */
  predicate LevelsPass(c: Config, w: Want) {
    && w.kind in c.native && !(IsStop(w.kind) && StopRefused(w.side, w.v.stop, Px(c, w.symbol), c.rails))
    && !OverCap(c, w, RoundStep(w.qty, c.step))
  }

  predicate SameSide(a: Want, b: Want) {
    !a.entry && !b.entry && !a.kind.Limit? && !b.kind.Limit? && a.symbol == b.symbol && a.side == b.side
  }

  /** When two accepted stops together close more than the account holds, and would open the other side if
      both fired: each fits alone and the two do not. */
  lemma ExitsOversellExactly(c: Config, exits: seq<Want>, a: Want, b: Want)
    requires SameSide(a, b)
    ensures var (qa, qb, have) := (RoundStep(a.qty, c.step), RoundStep(b.qty, c.step), Closable(c, a));
            GateFor(c, a, exits) == Go(qa) && GateFor(c, b, exits) == Go(qb) && qa + qb > have
            <==> LevelsPass(c, a) && LevelsPass(c, b) && qa <= have && qb <= have && have < qa + qb
  {}

  /** So a stop and a trailing stop that each cover the whole holding are both accepted. */
  lemma WholeHoldingTwice(c: Config, exits: seq<Want>, a: Want, b: Want)
    requires SameSide(a, b) && LevelsPass(c, a) && LevelsPass(c, b)
    requires a.qty == b.qty == Closable(c, a) > 0 && c.step == 1
    ensures GateFor(c, a, exits) == Go(a.qty) && GateFor(c, b, exits) == Go(b.qty)
    ensures a.qty + b.qty == 2 * Closable(c, a)
  {
    ExitsOversellExactly(c, exits, a, b);
    RoundStepIsFloor(a.qty, 1);
  }

  predicate AcceptedExit(c: Config, w: Want, all: seq<Want>, symbol: string, side: Side) {
    !w.entry && w.symbol == symbol && w.side == side && GateFor(c, w, all).Go?
  }

  /** What the accepted exits of one symbol and side among `some` would close together, and how many they are. */
  function AcceptedQty(c: Config, some: seq<Want>, all: seq<Want>, symbol: string, side: Side): int {
    if some == [] then 0
    else
      var w := some[|some| - 1];
      AcceptedQty(c, some[..|some| - 1], all, symbol, side)
      + if AcceptedExit(c, w, all, symbol, side) then GateFor(c, w, all).qty else 0
  }

  function AcceptedCount(c: Config, some: seq<Want>, all: seq<Want>, symbol: string, side: Side): nat {
    if some == [] then 0
    else
      AcceptedCount(c, some[..|some| - 1], all, symbol, side)
      + if AcceptedExit(c, some[|some| - 1], all, symbol, side) then 1 else 0
  }

  /** Together they close at most the holding once for each of them. */
  lemma {:induction false} AcceptedWithinBound(c: Config, some: seq<Want>, all: seq<Want>, symbol: string, side: Side)
    ensures AcceptedQty(c, some, all, symbol, side)
            <= AcceptedCount(c, some, all, symbol, side) * HoldingOn(c, symbol, side)
  {
    if some != [] {
      var front := some[..|some| - 1];
      AcceptedWithinBound(c, front, all, symbol, side);
      OneMore(AcceptedCount(c, front, all, symbol, side), HoldingOn(c, symbol, side));
    }
  }

  lemma OneMore(n: nat, have: nat)
    ensures (n + 1) * have == n * have + have
  {}

  /** And the bound is reached: stops that each cover the whole holding are all accepted, however many. */
  lemma {:induction false} BoundIsReached(c: Config, some: seq<Want>, all: seq<Want>, symbol: string, side: Side)
    requires forall w :: w in some ==>
               && !w.entry && !w.kind.Limit? && w.symbol == symbol && w.side == side && LevelsPass(c, w)
               && RoundStep(w.qty, c.step) == HoldingOn(c, symbol, side)
    ensures AcceptedCount(c, some, all, symbol, side) == |some|
    ensures AcceptedQty(c, some, all, symbol, side) == |some| * HoldingOn(c, symbol, side)
  {
    if some != [] {
      var front, w := some[..|some| - 1], some[|some| - 1];
      assert w in some;
      BoundIsReached(c, front, all, symbol, side);
      OneMore(|front|, HoldingOn(c, symbol, side));
      assert GateFor(c, w, all) == Go(HoldingOn(c, symbol, side));
    }
  }

  /** Unlike an entry, an exit has no floor: accepted, it goes out with quantity zero exactly when less than
      one step is wanted, and being without shares does not hold such an exit back. */
  lemma DustExitGoesOutEmpty(c: Config, w: Want, exits: seq<Want>)
    requires !w.entry && w.qty >= 0 && c.step > 0
    ensures GateFor(c, w, exits).Go? ==> (GateFor(c, w, exits).qty == 0 <==> w.qty < c.step)
    ensures w.qty < c.step && w.kind.TrailingStop? && w.kind in c.native && c.rails.maxOrderNotional.None? ==>
              GateFor(c, w, exits) == Go(0)
  {}

  lemma {:induction false} TwoSiblings(exits: seq<Want>, i: nat, j: nat)
    requires i < j < |exits| && exits[i].dep == exits[j].dep && exits[i].symbol == exits[j].symbol
    ensures Siblings(exits, exits[i]) > 1 && Siblings(exits, exits[j]) > 1
    decreases |exits|
  {
    var some := exits[..|exits| - 1];
    if j < |some| {
      TwoSiblings(some, i, j);
    } else {
      OneSibling(some, i);
    }
  }

  lemma {:induction false} OneSibling(exits: seq<Want>, i: nat)
    requires i < |exits|
    ensures Siblings(exits, exits[i]) >= 1
    ensures forall w: Want :: w.dep == exits[i].dep && w.symbol == exits[i].symbol ==> Siblings(exits, w) >= 1
    decreases |exits|
  {
    if i < |exits| - 1 { OneSibling(exits[..|exits| - 1], i); }
  }

  /** The two legs of a bracket never rest together: of two exits one deployment wants on one symbol, no
      accepted one is a take-profit. */
  lemma BracketRestsOneLeg(c: Config, exits: seq<Want>, i: nat, j: nat)
    requires i < |exits| && j < |exits| && i != j && !exits[i].entry
    requires exits[i].dep == exits[j].dep && exits[i].symbol == exits[j].symbol && GateFor(c, exits[i], exits).Go?
    ensures !exits[i].kind.Limit?
  {
    if i < j { TwoSiblings(exits, i, j); } else { TwoSiblings(exits, j, i); }
  }

  // ------------------------------------------------------------------ one pass

  datatype Action =
    | Cancel(id: nat)
    | Replace(id: nat, qty: int, price: Option<real>)
    | Submit(want: Want, qty: int, cid: string)
    | MarketOrder(n: nat)
    | CloseOrder(n: nat)

  /** A mutation on the wire, and whether submissions were suppressed when it went out. */
  datatype Wire = Wire(action: Action, suppressed: bool)

  datatype Run = Run(venue: seq<Resting>, nextId: nat, budget: int, tripped: bool, aborted: bool, wires: seq<Wire>)

  function Without(venue: seq<Resting>, id: nat): seq<Resting> {
    if venue == [] then []
    else Without(venue[..|venue| - 1], id) + if venue[|venue| - 1].id == id then [] else [venue[|venue| - 1]]
  }

  function Amended(venue: seq<Resting>, id: nat, qty: int, price: Option<real>, silent: bool): seq<Resting> {
    seq(|venue|, i requires 0 <= i < |venue| =>
      if venue[i].id == id then venue[i].(qty := qty, v := venue[i].v.(price := price), silent := silent) else venue[i])
  }

  /** What the venue does when it carries a mutation out. */
  function Effect(r: Run, a: Action, silent: bool): Run {
    match a
    case Cancel(id) => r.(venue := Without(r.venue, id))
    case Replace(id, qty, price) => r.(venue := Amended(r.venue, id, qty, price, silent))
    case Submit(w, qty, cid) =>
      r.(venue := r.venue + [Resting(r.nextId, w.symbol, cid, w.kind, qty, w.v, silent)], nextId := r.nextId + 1)
    case _ => r
  }

  function Wired(c: Config, r: Run, a: Action): Run {
    var sent := r.(wires := r.wires + [Wire(a, r.tripped)]);
    match c.draws(|r.wires|).reply
    case Accepted(silent) => Effect(sent, a, silent)
    case Refused(notReady) => sent.(tripped := r.tripped || (notReady && !a.Cancel?))
    case Throttled => if a.Cancel? || a.Replace? then sent.(aborted := true) else sent
    case Lost(done, silent) => (if done then Effect(sent, a, silent) else sent).(aborted := true)
  }

  /** Every mutation goes through the gateway switch, the budget and the dry-run switch, in that order.
      An exception has ended the pass when `aborted` is set. */
  function ActOn(c: Config, r: Run, a: Action): Run {
    if r.aborted || (!a.Cancel? && r.tripped) || r.budget <= 0 then r
    else if c.rails.dryRun then r.(budget := r.budget - 1)
    else Wired(c, r.(budget := r.budget - 1), a)
  }

  function OnClose(c: Config, r: Run, n: nat): Run {
    if n == 0 then r else ActOn(c, OnClose(c, r, n - 1), CloseOrder(n - 1))
  }

  function Released(c: Config, r: Run, ours: seq<Resting>, wants: seq<Want>, entry: bool): Run {
    if ours == [] then r
    else
      var before := Released(c, r, ours[..|ours| - 1], wants, entry);
      if Stale(ours[|ours| - 1], wants, entry) then ActOn(c, before, Cancel(ours[|ours| - 1].id)) else before
  }

  /** The market batch spends its budget while the orders are decided and transmits them afterwards. */
  function Deferred(c: Config, r: Run, n: nat): (Run, nat) {
    if n == 0 then (r, 0)
    else
      var (before, k) := Deferred(c, r, n - 1);
      if before.aborted || before.tripped || before.budget <= 0 then (before, k)
      else (before.(budget := before.budget - 1), if c.rails.dryRun then k else k + 1)
  }

  function Launched(c: Config, r: Run, k: nat): Run {
    if k == 0 then r
    else
      var before := Launched(c, r, k - 1);
      if before.aborted || before.tripped then before else Wired(c, before, MarketOrder(k - 1))
  }

  function Batch(c: Config, r: Run, n: nat): Run { Launched(c, Deferred(c, r, n).0, Deferred(c, r, n).1) }

  /** Whole shares: a replace carries its quantity through a truncating conversion. */
  function WholeShares(c: Config, qty: int): int { if c.unit == 0 then qty else RoundStep(qty, c.unit) }

  function SubmitFor(c: Config, r: Run, w: Want, qty: int): Run {
    match Mint(PrefixOf(w), w.kind, c.draws(|r.wires|).uuid, w.v)
    case TooLong => r.(aborted := true)
    case Cid(cid) => ActOn(c, r, Submit(w, qty, cid))
  }

  /** A resting order that differs is amended where the venue can amend it, left alone while submissions
      are suppressed, and otherwise cancelled and sent again. */
  function Refreshed(c: Config, r: Run, w: Want, qty: int, o: Resting): Run {
    if !Changed(w.kind, ListingOf(o), qty, w.v, true) then r
    else if w.kind.Limit? && c.supportsReplace then ActOn(c, r, Replace(o.id, WholeShares(c, qty), w.v.price))
    else if r.tripped then r
    else SubmitFor(c, ActOn(c, r, Cancel(o.id)), w, qty)
  }

  function PlacedOne(c: Config, r: Run, w: Want, exits: seq<Want>, ours: seq<Resting>): Run {
    match GateFor(c, w, exits)
    case Skip(_) => r
    case Go(qty) =>
      var o := First(ours, w);
      if o.None? then SubmitFor(c, r, w, qty) else Refreshed(c, r, w, qty, o.value)
  }

  function Placed(c: Config, r: Run, wants: seq<Want>, exits: seq<Want>, ours: seq<Resting>): Run {
    if wants == [] then r
    else PlacedOne(c, Placed(c, r, wants[..|wants| - 1], exits, ours), wants[|wants| - 1], exits, ours)
  }

  function OursOf(venue: seq<Resting>): (s: seq<Resting>)
    ensures forall o :: o in s <==> o in venue && IsOurs(o)
  {
    if venue == [] then []
    else OursOf(venue[..|venue| - 1]) + if IsOurs(venue[|venue| - 1]) then [venue[|venue| - 1]] else []
  }

  /** Exits whose take-profit is not simulated. */
  function Placeable(exits: seq<Want>, all: seq<Want>): (s: seq<Want>)
    ensures forall w :: w in s <==> w in exits && !Simulated(w, all)
  {
    if exits == [] then []
    else Placeable(exits[..|exits| - 1], all) + if Simulated(exits[|exits| - 1], all) then [] else [exits[|exits| - 1]]
  }

  /** How many on-close tickets and market orders the other sections decide on. */
  datatype Others = Others(closes: nat, deltas: nat)

  function AfterRelease(c: Config, r: Run, exits: seq<Want>, entries: seq<Want>, n: Others): Run {
    var ours := OursOf(r.venue);
    Released(c, Released(c, OnClose(c, r, n.closes), ours, entries, true), ours, Placeable(exits, exits), false)
  }

  /** One pass: on-close tickets, stale entries, stale exits, the market batch, exits, entries. The venue's
      open orders are read once, at the start. */
  function Pass(c: Config, r: Run, exits: seq<Want>, entries: seq<Want>, n: Others): Run {
    if c.rails.paused || !c.rails.liveAllowed then r
    else
      var ours := OursOf(r.venue);
      var batched := Batch(c, AfterRelease(c, r, exits, entries, n), n.deltas);
      Placed(c, Placed(c, batched, exits, exits, ours), entries, exits, ours)
  }

  // ------------------------------------------------------------------ the pass as it runs

  /** The variables the closures of one pass share, and the venue they act on. */
  class Sweep {
    const c: Config
    var venue: seq<Resting>
    var nextId: nat
    var budget: int
    var tripped: bool
    var aborted: bool
    var wires: seq<Wire>

    ghost function State(): Run
      reads this
    {
      Run(venue, nextId, budget, tripped, aborted, wires)
    }

    constructor (c: Config, venue: seq<Resting>, nextId: nat, suppressed: bool)
      ensures this.c == c
      ensures State() == Run(venue, nextId, c.rails.maxOrders, suppressed, false, [])
    {
      this.c, this.venue, this.nextId := c, venue, nextId;
      budget, tripped, aborted, wires := c.rails.maxOrders, suppressed, false, [];
    }

    method Spend() returns (ok: bool)
      modifies this`budget
      ensures ok == (old(budget) > 0)
      ensures budget == if ok then old(budget) - 1 else old(budget)
    {
      ok := budget > 0;
      if ok { budget := budget - 1; }
    }

    method CarryOut(a: Action, silent: bool)
      modifies this`venue, this`nextId
      ensures State() == Effect(old(State()), a, silent)
    {
      match a
      case Cancel(id) => venue := Without(venue, id);
      case Replace(id, qty, price) => venue := Amended(venue, id, qty, price, silent);
      case Submit(w, qty, cid) =>
        venue := venue + [Resting(nextId, w.symbol, cid, w.kind, qty, w.v, silent)];
        nextId := nextId + 1;
      case _ =>
    }

    method Transmit(a: Action)
      modifies this
      ensures State() == Wired(c, old(State()), a)
    {
      var reply := c.draws(|wires|).reply;
      wires := wires + [Wire(a, tripped)];
      match reply
      case Accepted(silent) => CarryOut(a, silent);
      case Refused(notReady) => if notReady && !a.Cancel? { tripped := true; }
      case Throttled => if a.Cancel? || a.Replace? { aborted := true; }
      case Lost(done, silent) =>
        if done { CarryOut(a, silent); }
        aborted := true;
    }

    method Act(a: Action)
      modifies this
      ensures State() == ActOn(c, old(State()), a)
    {
      if aborted || (!a.Cancel? && tripped) { return; }
      var ok := Spend();
      assert State() == old(State()).(budget := if ok then old(budget) - 1 else old(budget));
      if ok && !c.rails.dryRun { Transmit(a); }
    }

    method Release(ours: seq<Resting>, wants: seq<Want>, entry: bool)
      modifies this
      ensures State() == Released(c, old(State()), ours, wants, entry)
    {
      for i := 0 to |ours|
        invariant State() == Released(c, old(State()), ours[..i], wants, entry)
      {
        assert ours[..i + 1][..i] == ours[..i];
        if Stale(ours[i], wants, entry) { Act(Cancel(ours[i].id)); }
      }
      assert ours[..|ours|] == ours;
    }

    method TicketsOnClose(n: nat)
      modifies this
      ensures State() == OnClose(c, old(State()), n)
    {
      for i := 0 to n
        invariant State() == OnClose(c, old(State()), i)
      {
        Act(CloseOrder(i));
      }
    }

    method MarketBatch(n: nat)
      modifies this
      ensures State() == Batch(c, old(State()), n)
    {
      var batch: nat := 0;
      for i := 0 to n
        invariant (State(), batch) == Deferred(c, old(State()), i)
      {
        if !aborted && !tripped {
          var ok := Spend();
          if ok && !c.rails.dryRun { batch := batch + 1; }
        }
      }
      ghost var decided := State();
      for i := 0 to batch
        invariant State() == Launched(c, decided, i)
      {
        if !aborted && !tripped { Transmit(MarketOrder(i)); }
      }
    }

    method SendNew(w: Want, qty: int)
      modifies this
      ensures State() == SubmitFor(c, old(State()), w, qty)
    {
      var minted := Mint(PrefixOf(w), w.kind, c.draws(|wires|).uuid, w.v);
      match minted
      case TooLong => aborted := true;
      case Cid(cid) => Act(Submit(w, qty, cid));
    }

    method PlaceOne(w: Want, exits: seq<Want>, ours: seq<Resting>)
      modifies this
      ensures State() == PlacedOne(c, old(State()), w, exits, ours)
    {
      var gate := GateFor(c, w, exits);
      if gate.Skip? { return; }
      var existing := First(ours, w);
      if existing.None? {
        SendNew(w, gate.qty);
      } else {
        var o := existing.value;
        var cancelResubmit := !(w.kind.Limit? && c.supportsReplace);
        if Changed(w.kind, ListingOf(o), gate.qty, w.v, true) {
          if !cancelResubmit {
            Act(Replace(o.id, WholeShares(c, gate.qty), w.v.price));
          } else if !tripped {
            Act(Cancel(o.id));
            SendNew(w, gate.qty);
          }
        }
      }
    }

    method Place(wants: seq<Want>, exits: seq<Want>, ours: seq<Resting>)
      modifies this
      ensures State() == Placed(c, old(State()), wants, exits, ours)
    {
      for i := 0 to |wants|
        invariant State() == Placed(c, old(State()), wants[..i], exits, ours)
      {
        assert wants[..i + 1][..i] == wants[..i];
        PlaceOne(wants[i], exits, ours);
      }
      assert wants[..|wants|] == wants;
    }

    method Reconcile(exits: seq<Want>, entries: seq<Want>, n: Others)
      modifies this
      ensures State() == Pass(c, old(State()), exits, entries, n)
    {
      if c.rails.paused || !c.rails.liveAllowed { return; }
      var ours := OursOf(venue);
      TicketsOnClose(n.closes);
      Release(ours, entries, true);
      Release(ours, Placeable(exits, exits), false);
      MarketBatch(n.deltas);
      Place(exits, exits, ours);
      Place(entries, exits, ours);
    }
  }
}
