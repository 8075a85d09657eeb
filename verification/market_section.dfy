/**
 Section 2 of `reconcile` for one symbol: the chain of gates between a target and a market order, and
 the owner's kept shares, which are taken out of the account before the strategies look at it.
 */
module MarketSection {
  import opened Common
  import opened Journal
  import opened MarketDelta

  const REFUSED_MAX_PER_DAY := 3

  // ------------------------------------------------------------------ kept shares

  /** What the owner kept in one symbol, and what the managed deployments hold of it by their books. */
  datatype Kept = Kept(kept: int, booked: int)

  /** The kept shares still in the account: never more than it holds beyond the books, on the same side. */
  function KeptNow(position: int, k: Kept): (q: int)
    ensures k.kept > 0 ==> 0 <= q <= k.kept
    ensures k.kept < 0 ==> k.kept <= q <= 0
    ensures k.kept == 0 ==> q == 0
  {
    var spare := position - k.booked;
    if k.kept > 0 then Min(k.kept, Max(spare, 0))
    else if k.kept < 0 then Max(k.kept, Min(spare, 0))
    else 0
  }

  /** The position the deployments are shown. */
  function Carved(position: int, k: Kept): int { position - KeptNow(position, k) }

  /** The side nothing may trade towards while the account does not cover books and kept shares: 1 when
      kept longs are short of their amount, -1 when kept shorts are, 0 otherwise. */
  function KeptShort(position: int, k: Kept): int {
    if Abs(KeptNow(position, k)) < Abs(k.kept) then (if k.kept > 0 then 1 else -1) else 0
  }

  /** Carving never hides shares the deployments' books claim: while the account covers the books on the
      kept side the carved view still covers them, and the view is the books exactly when the account is
      not long enough for both. */
  lemma CarvedCoversBooks(position: int, k: Kept)
    ensures k.kept > 0 && position >= k.booked ==> k.booked <= Carved(position, k) <= position
    ensures k.kept < 0 && position <= k.booked ==> position <= Carved(position, k) <= k.booked
    ensures k.kept > 0 ==> (KeptShort(position, k) == 0 <==> position - k.booked >= k.kept)
    ensures k.kept < 0 ==> (KeptShort(position, k) == 0 <==> position - k.booked <= k.kept)
    ensures KeptShort(position, k) != 0 ==> KeptShort(position, k) == if k.kept > 0 then 1 else -1
    ensures k.kept == 0 ==> Carved(position, k) == position && KeptShort(position, k) == 0
    ensures k.kept > 0 && position >= k.booked && KeptShort(position, k) != 0 ==> Carved(position, k) == k.booked
    ensures k.kept < 0 && position <= k.booked && KeptShort(position, k) != 0 ==> Carved(position, k) == k.booked
  {}

  // ------------------------------------------------------------------ the gates

  datatype Rails = Rails(maxOrderNotional: Option<real>, maxPositionNotional: Option<real>, maxOrders: int,
                         paused: bool, dryRun: bool, liveAllowed: bool,
                         priceBandPct: real, crossTolPct: real, stopBandPct: real)

  /** Fills of our own orders the sleeve has not folded: none, some of unknown size, or a signed size. */
  datatype FoldPending = Nothing | UnknownSize | Size(diff: int)

  datatype SymbolView = SymbolView(
    want: int, have: int, pending: int, moc: int, step: int, px: real,
    cooldown: bool, unresolved: bool, unfolded: int, openRows: seq<(Cid, int)>, visible: set<Cid>, clientIds: bool,
    foldPending: FoldPending, kept: int, keptShort: int, refused: map<(Side, int), nat>)

  datatype Reason = QuoteCooldown | Unacknowledged | UnfoldedFill | HiddenOrder | AtTarget | FoldExplains | NoPrice
                  | OverPositionCap | OverOrderCap | AgainstKept | KeptUncovered | ShortWaits | RefusedToday

  datatype Verdict = Send(order: Order) | Hold(why: Reason)

  /** An open journal row the venue's listing does not show. */
  predicate Hidden(v: SymbolView) {
    v.clientIds && exists i :: 0 <= i < |v.openRows| && v.openRows[i].0 !in v.visible
  }

  /** Would folding the outstanding fills shrink the trade? Unknown sizes always freeze. */
  predicate FoldingShrinks(pending: FoldPending, delta: int) {
    match pending
    case Nothing => false
    case UnknownSize => true
    case Size(diff) => Abs(delta + diff) < Abs(delta)
  }

  function Effective(v: SymbolView): int { v.have + v.pending + v.moc }

  function Refusals(v: SymbolView, o: Order): nat {
    var key := (if o.delta > 0 then Buy else Sell, Abs(o.delta) as int);
    if key in v.refused then v.refused[key] else 0
  }

  /** The value of a trade or a holding. */
  function Notional(qty: int, px: real): real { Abs(qty) as real * px }

  /** The gates in turn, for the gap to the target in whole steps and the order cut at zero. */
  function Gated(v: SymbolView, rails: Rails, delta: int, o: Order): Verdict {
    if v.cooldown then Hold(QuoteCooldown)
    else if v.unresolved then Hold(Unacknowledged)
    else if v.unfolded != 0 then Hold(UnfoldedFill)
    else if Hidden(v) then Hold(HiddenOrder)
    else if delta == 0 then Hold(AtTarget)
    else if FoldingShrinks(v.foldPending, delta) then Hold(FoldExplains)
    else if v.px <= 0.0 then Hold(NoPrice)
    else if rails.maxPositionNotional.Some? && Notional(v.want, v.px) > rails.maxPositionNotional.value
            && Abs(v.want) > Abs(v.have) then Hold(OverPositionCap)
    else if rails.maxOrderNotional.Some? && Notional(delta, v.px) > rails.maxOrderNotional.value
      then Hold(OverOrderCap)
    else if (v.kept > 0 && v.want < 0) || (v.kept < 0 && v.want > 0) then Hold(AgainstKept)
    else if (v.keptShort > 0 && delta < 0) || (v.keptShort < 0 && delta > 0) then Hold(KeptUncovered)
    else if o.opensShort && RoundStep(v.have, v.step) > 0 then Hold(ShortWaits)
    else if Refusals(v, o) >= REFUSED_MAX_PER_DAY && Abs(Effective(v) + o.delta) > Abs(Effective(v))
      then Hold(RefusedToday)
    else Send(o)
  }

  function MarketVerdict(v: SymbolView, rails: Rails): Verdict {
    Gated(v, rails, Gap(v.want, Effective(v), v.step), CutAtZero(v.want, Effective(v), v.step))
  }

  /** Whatever passes every gate is the order of `Decide`, with all of its guarantees, and no gate that
      stands for missing evidence was open. */
  lemma SentOrderIsSound(v: SymbolView, rails: Rails)
    requires MarketVerdict(v, rails).Send?
    ensures Decide(v.want, v.have, v.pending + v.moc, v.step) == Some(MarketVerdict(v, rails).order)
    ensures Between(Effective(v), Effective(v) + MarketVerdict(v, rails).order.delta, v.want)
    ensures !v.unresolved && v.unfolded == 0
    ensures v.clientIds ==> forall c :: c in v.openRows ==> c.0 in v.visible
  {
    OrderIsSound(v.want, v.have, v.pending + v.moc, v.step);
  }

  // ------------------------------------------------------------------ exactly when an order is sent

  /** How often this very order was refused today. */
  function RefusalsOf(v: SymbolView, side: Side, qty: int): nat {
    if (side, qty) in v.refused then v.refused[(side, qty)] else 0
  }

  predicate WithinCap(cap: Option<real>, notional: real) { cap.None? || notional <= cap.value }

  lemma HiddenIs(v: SymbolView)
    ensures Hidden(v) <==> v.clientIds && exists row :: row in v.openRows && row.0 !in v.visible
  {
    if row :| row in v.openRows && row.0 !in v.visible {
      var i :| 0 <= i < |v.openRows| && v.openRows[i] == row;
      assert v.openRows[i].0 !in v.visible;
    }
  }

  /** When a reason to hold the symbol back applies, whatever other reasons there are: on what the pass sees,
      its rails, the gap to the target in whole steps and the order cut at zero. */
  predicate Applies(v: SymbolView, rails: Rails, gap: int, o: Order, why: Reason) {
    var eff := v.have + v.pending + v.moc;
    match why
    case QuoteCooldown => v.cooldown
    case Unacknowledged => v.unresolved
    case UnfoldedFill => v.unfolded != 0
    case HiddenOrder => v.clientIds && exists row :: row in v.openRows && row.0 !in v.visible
    case AtTarget => gap == 0
    case FoldExplains =>
      v.foldPending == UnknownSize || (v.foldPending.Size? && Abs(gap + v.foldPending.diff) < Abs(gap))
    case NoPrice => v.px <= 0.0
    case OverPositionCap =>
      !WithinCap(rails.maxPositionNotional, Notional(v.want, v.px)) && Abs(v.want) > Abs(v.have)
    case OverOrderCap => !WithinCap(rails.maxOrderNotional, Notional(gap, v.px))
    case AgainstKept => (v.kept > 0 && v.want < 0) || (v.kept < 0 && v.want > 0)
    case KeptUncovered => (v.keptShort > 0 && gap < 0) || (v.keptShort < 0 && gap > 0)
    case ShortWaits => o.opensShort && v.have >= Unit(v.step)
    case RefusedToday =>
      RefusalsOf(v, if o.delta > 0 then Buy else Sell, Abs(o.delta)) >= 3 && Abs(eff + o.delta) > Abs(eff)
  }

  /** The order in which the section asks. */
  function Turn(why: Reason): nat {
    match why
    case QuoteCooldown => 0 case Unacknowledged => 1 case UnfoldedFill => 2 case HiddenOrder => 3
    case AtTarget => 4 case FoldExplains => 5 case NoPrice => 6 case OverPositionCap => 7
    case OverOrderCap => 8 case AgainstKept => 9 case KeptUncovered => 10 case ShortWaits => 11
    case RefusedToday => 12
  }

  /** The reason applies and none that is asked for earlier does. */
  predicate IsFirst(v: SymbolView, rails: Rails, gap: int, o: Order, why: Reason) {
    Applies(v, rails, gap, o, why) && forall r :: Turn(r) < Turn(why) ==> !Applies(v, rails, gap, o, r)
  }

  lemma SentWithoutReason(v: SymbolView, rails: Rails, gap: int, o: Order)
    requires Gated(v, rails, gap, o).Send?
    ensures Gated(v, rails, gap, o).order == o && forall r :: !Applies(v, rails, gap, o, r)
  {
    HiddenIs(v);
  }

  lemma HeldWithReason(v: SymbolView, rails: Rails, gap: int, o: Order)
    requires Gated(v, rails, gap, o).Hold?
    ensures Applies(v, rails, gap, o, Gated(v, rails, gap, o).why)
  {
    HiddenIs(v);
  }

  lemma NoneEarlier(v: SymbolView, rails: Rails, gap: int, o: Order, r: Reason)
    requires Gated(v, rails, gap, o).Hold? && Turn(r) < Turn(Gated(v, rails, gap, o).why)
    ensures !Applies(v, rails, gap, o, r)
  {
    HiddenIs(v);
  }

  lemma GatesInTurn(v: SymbolView, rails: Rails, gap: int, o: Order)
    ensures match Gated(v, rails, gap, o)
            case Send(sent) => sent == o && forall r :: !Applies(v, rails, gap, o, r)
            case Hold(why) => IsFirst(v, rails, gap, o, why)
  {
    if Gated(v, rails, gap, o).Send? {
      SentWithoutReason(v, rails, gap, o);
    } else {
      HeldWithReason(v, rails, gap, o);
      forall r | Turn(r) < Turn(Gated(v, rails, gap, o).why) ensures !Applies(v, rails, gap, o, r) {
        NoneEarlier(v, rails, gap, o, r);
      }
    }
  }

  /** A symbol is held back for the first reason that applies, and its order, cut at zero, is sent exactly
      when none does. */
  lemma HeldForTheFirstReason(v: SymbolView, rails: Rails)
    ensures var gap := RoundStep(v.want - (v.have + v.pending + v.moc), v.step);
            var o := CutAtZero(v.want, v.have + v.pending + v.moc, v.step);
            match MarketVerdict(v, rails)
            case Send(sent) => sent == o && forall r :: !Applies(v, rails, gap, o, r)
            case Hold(why) => IsFirst(v, rails, gap, o, why)
  {
    GatesInTurn(v, rails, Gap(v.want, Effective(v), v.step), CutAtZero(v.want, Effective(v), v.step));
  }

  /** Nothing is cooling down, unacknowledged, unfolded or hidden; the gap is a step at least and not explained
      by fills on their way to the sleeve; there is a price; the target is within the position cap or no
      larger than the holding; the whole gap is within the order cap; no kept share is in the way; no short
      goes out while the venue shows a long; and this order was refused fewer than three times today or
      does not grow the holding. */
  predicate Clears(v: SymbolView, rails: Rails, gap: int, o: Order) {
    var eff := v.have + v.pending + v.moc;
    && !v.cooldown && !v.unresolved && v.unfolded == 0
    && (v.clientIds ==> forall row :: row in v.openRows ==> row.0 in v.visible)
    && gap != 0
    && (v.foldPending == Nothing || (v.foldPending.Size? && Abs(gap + v.foldPending.diff) >= Abs(gap)))
    && v.px > 0.0
    && (WithinCap(rails.maxPositionNotional, Notional(v.want, v.px)) || Abs(v.want) <= Abs(v.have))
    && WithinCap(rails.maxOrderNotional, Notional(gap, v.px))
    && !(v.kept > 0 && v.want < 0) && !(v.kept < 0 && v.want > 0)
    && !(v.keptShort > 0 && gap < 0) && !(v.keptShort < 0 && gap > 0)
    && !(o.opensShort && v.have >= Unit(v.step))
    && (RefusalsOf(v, if o.delta > 0 then Buy else Sell, Abs(o.delta)) < 3 || Abs(eff + o.delta) <= Abs(eff))
  }

  lemma ClearsUnlessAReason(v: SymbolView, rails: Rails, gap: int, o: Order)
    ensures Clears(v, rails, gap, o) <==> forall r :: !Applies(v, rails, gap, o, r)
  {
    if forall r :: !Applies(v, rails, gap, o, r) {
      assert !Applies(v, rails, gap, o, QuoteCooldown) && !Applies(v, rails, gap, o, Unacknowledged);
      assert !Applies(v, rails, gap, o, UnfoldedFill) && !Applies(v, rails, gap, o, HiddenOrder);
      assert !Applies(v, rails, gap, o, AtTarget) && !Applies(v, rails, gap, o, FoldExplains);
      assert !Applies(v, rails, gap, o, NoPrice) && !Applies(v, rails, gap, o, OverPositionCap);
      assert !Applies(v, rails, gap, o, OverOrderCap) && !Applies(v, rails, gap, o, AgainstKept);
      assert !Applies(v, rails, gap, o, KeptUncovered) && !Applies(v, rails, gap, o, ShortWaits);
      assert !Applies(v, rails, gap, o, RefusedToday);
    }
  }

  /** Exactly when an order goes out, on what the pass sees and its rails, and which: the gap in whole steps,
      cut at zero. */
  lemma SendExactly(v: SymbolView, rails: Rails)
    ensures var eff := v.have + v.pending + v.moc;
            MarketVerdict(v, rails).Send? <==>
              Clears(v, rails, RoundStep(v.want - eff, v.step), CutAtZero(v.want, eff, v.step))
    ensures MarketVerdict(v, rails).Send? ==>
              MarketVerdict(v, rails).order == CutAtZero(v.want, v.have + v.pending + v.moc, v.step)
  {
    GatedSends(v, rails, Gap(v.want, Effective(v), v.step), CutAtZero(v.want, Effective(v), v.step));
  }

  lemma GatedSends(v: SymbolView, rails: Rails, gap: int, o: Order)
    ensures Gated(v, rails, gap, o).Send? <==> Clears(v, rails, gap, o)
    ensures Gated(v, rails, gap, o).Send? ==> Gated(v, rails, gap, o).order == o
  {
    GatesInTurn(v, rails, gap, o);
    ClearsUnlessAReason(v, rails, gap, o);
  }

  // ------------------------------------------------------------------ size gates and orders that shed risk

  /** No gate before the size limits holds the symbol back. */
  predicate ReachesSizeGates(v: SymbolView) {
    && !v.cooldown && !v.unresolved && v.unfolded == 0 && !Hidden(v)
    && Gap(v.want, Effective(v), v.step) != 0
  }

  predicate Priced(v: SymbolView) {
    ReachesSizeGates(v) && !FoldingShrinks(v.foldPending, Gap(v.want, Effective(v), v.step)) && v.px > 0.0
  }

  predicate PositionCapped(v: SymbolView, rails: Rails) {
    && rails.maxPositionNotional.Some? && Notional(v.want, v.px) > rails.maxPositionNotional.value
    && Abs(v.want) > Abs(v.have)
  }

  predicate OrderCapped(v: SymbolView, rails: Rails) {
    && rails.maxOrderNotional.Some?
    && Notional(Gap(v.want, Effective(v), v.step), v.px) > rails.maxOrderNotional.value
  }

  /** The order the symbol comes to would leave a smaller effective holding. */
  predicate OrderShrinks(v: SymbolView) {
    Abs(Effective(v) + CutAtZero(v.want, Effective(v), v.step).delta) < Abs(Effective(v))
  }

  /** The target is on the flat side of the effective holding; a holding below one step, which an order
      can only jump over, is in addition more than half of the gap. */
  predicate TowardsFlat(v: SymbolView) {
    var eff := Effective(v);
    && ((v.want < eff && eff > 0) || (eff < 0 && eff < v.want))
    && (Abs(eff) >= v.step || Abs(Gap(v.want, eff, v.step)) < 2 * Abs(eff))
  }

  lemma OrderShrinksExactly(v: SymbolView)
    requires Gap(v.want, Effective(v), v.step) != 0
    ensures OrderShrinks(v) <==> TowardsFlat(v)
  {}

  /** When each gate that judges a size holds the symbol back, and when what it holds back would shed risk:
      the fold rail and both caps do as soon as the target lies towards flat, the count of refusals never
      does. */
  lemma SizeGatesHoldReductionsExactly(v: SymbolView, rails: Rails)
    ensures MarketVerdict(v, rails) == Hold(FoldExplains) <==>
              ReachesSizeGates(v) && FoldingShrinks(v.foldPending, Gap(v.want, Effective(v), v.step))
    ensures MarketVerdict(v, rails) == Hold(OverPositionCap) <==> Priced(v) && PositionCapped(v, rails)
    ensures MarketVerdict(v, rails) == Hold(OverOrderCap) <==>
              Priced(v) && !PositionCapped(v, rails) && OrderCapped(v, rails)
    ensures ReachesSizeGates(v) ==> (OrderShrinks(v) <==> TowardsFlat(v))
    ensures MarketVerdict(v, rails) == Hold(RefusedToday) ==> !OrderShrinks(v) && !TowardsFlat(v)
  {
    SizeGatesInTurn(v, rails, Gap(v.want, Effective(v), v.step), CutAtZero(v.want, Effective(v), v.step));
    if Gap(v.want, Effective(v), v.step) != 0 { OrderShrinksExactly(v); }
  }

  lemma SizeGatesInTurn(v: SymbolView, rails: Rails, gap: int, o: Order)
    ensures var reaches := !v.cooldown && !v.unresolved && v.unfolded == 0 && !Hidden(v) && gap != 0;
            var priced := reaches && !FoldingShrinks(v.foldPending, gap) && v.px > 0.0;
            var ordered := rails.maxOrderNotional.Some? && Notional(gap, v.px) > rails.maxOrderNotional.value;
            && (Gated(v, rails, gap, o) == Hold(FoldExplains) <==> reaches && FoldingShrinks(v.foldPending, gap))
            && (Gated(v, rails, gap, o) == Hold(OverPositionCap) <==> priced && PositionCapped(v, rails))
            && (Gated(v, rails, gap, o) == Hold(OverOrderCap) <==> priced && !PositionCapped(v, rails) && ordered)
            && (Gated(v, rails, gap, o) == Hold(RefusedToday) ==>
                  gap != 0 && Abs(Effective(v) + o.delta) > Abs(Effective(v)))
  {}

  /** With nothing in flight and at least one step held, the position cap strands exactly a reversal: the
      strategies want a larger position on the other side, and the sell to flat that comes first is held back. */
  lemma PositionCapStrandsReversals(v: SymbolView, rails: Rails)
    requires Priced(v) && PositionCapped(v, rails) && v.pending + v.moc == 0 && Abs(v.have) >= Unit(v.step)
    ensures MarketVerdict(v, rails) == Hold(OverPositionCap)
    ensures OrderShrinks(v) <==> Reversal(v.want, v.have)
    ensures Reversal(v.want, v.have) ==> Abs(v.have + CutAtZero(v.want, v.have, v.step).delta) < Unit(v.step)
  {
    assert Effective(v) == v.have;
    assert TowardsFlat(v) <==> Reversal(v.want, v.have) by { LargerTargetIsReversal(v); }
    OrderShrinksExactly(v);
    CappedVerdict(v, rails);
    if Reversal(v.want, v.have) { ReversalIsCutToFlat(v.want, v.have, v.step); }
  }

  predicate Reversal(want: int, have: int) { (have > 0 && want < 0) || (have < 0 && want > 0) }

  lemma CappedVerdict(v: SymbolView, rails: Rails)
    requires Priced(v) && PositionCapped(v, rails)
    ensures MarketVerdict(v, rails) == Hold(OverPositionCap)
  {}

  lemma LargerTargetIsReversal(v: SymbolView)
    requires Effective(v) == v.have && Abs(v.want) > Abs(v.have) >= Unit(v.step)
    ensures TowardsFlat(v) <==> Reversal(v.want, v.have)
  {}

  lemma ReversalIsCutToFlat(want: int, have: int, step: int)
    requires Abs(have) >= Unit(step) && Gap(want, have, step) != 0
    requires Reversal(want, have) && Abs(want) > Abs(have)
    ensures Abs(have + CutAtZero(want, have, step).delta) < Unit(step)
  {}

  /** A view in which no gate is closed. */
  predicate Clear(v: SymbolView) {
    && !v.cooldown && !v.unresolved && v.unfolded == 0 && v.openRows == [] && v.foldPending.Nothing? && v.px > 0.0
    && v.refused == map[]
  }

  /** 100 held, a short of 150 wanted, a position cap of 120: the sell of 100 that would end flat is refused. */
  lemma PositionCapStrandsALong(v: SymbolView, rails: Rails)
    requires Clear(v) && v.want == -150 && v.have == 100 && v.pending == 0 && v.moc == 0 && v.step == 1 && v.px == 1.0
    requires rails.maxPositionNotional == Some(120.0)
    ensures MarketVerdict(v, rails) == Hold(OverPositionCap)
    ensures CutAtZero(v.want, Effective(v), v.step) == Order(-100, false) && OrderShrinks(v)
  {
    RoundStepIsFloor(-250, 1);
    RoundStepIsFloor(-100, 1);
  }

  /** 100 held, nothing wanted, an order cap of 50: the sell to flat is refused, on every pass. */
  lemma OrderCapStrandsALong(v: SymbolView, rails: Rails)
    requires Clear(v) && v.want == 0 && v.have == 100 && v.pending == 0 && v.moc == 0 && v.step == 1 && v.px == 1.0
    requires rails.maxPositionNotional == None && rails.maxOrderNotional == Some(50.0)
    ensures MarketVerdict(v, rails) == Hold(OverOrderCap)
    ensures CutAtZero(v.want, Effective(v), v.step) == Order(-100, false) && OrderShrinks(v)
  {
    RoundStepIsFloor(-100, 1);
  }

  /** The order cap looks at the whole gap, not at the order: 100 held and a short of 100 wanted is
      refused under a cap of 150 although the order would sell 100. */
  lemma OrderCapJudgesTheGap(v: SymbolView, rails: Rails)
    requires Clear(v) && v.want == -100 && v.have == 100 && v.pending == 0 && v.moc == 0 && v.step == 1 && v.px == 1.0
    requires rails.maxPositionNotional == None && rails.maxOrderNotional == Some(150.0)
    ensures MarketVerdict(v, rails) == Hold(OverOrderCap)
    ensures Notional(CutAtZero(v.want, Effective(v), v.step).delta, v.px) <= 150.0
  {
    RoundStepIsFloor(-200, 1);
    RoundStepIsFloor(-100, 1);
  }

  // ------------------------------------------------------------------ the owner's shares are never sold

  /** The signed quantity of those orders in `os` whose index is in `filled`. */
  function FilledPart(os: seq<int>, filled: set<nat>): int {
    if os == [] then 0
    else FilledPart(os[..|os| - 1], filled) + if |os| - 1 in filled then os[|os| - 1] else 0
  }

  function Total(os: seq<int>): int {
    if os == [] then 0 else Total(os[..|os| - 1]) + os[|os| - 1]
  }

  lemma {:induction false} SellsOnlyShrink(os: seq<int>, filled: set<nat>)
    requires forall i :: 0 <= i < |os| ==> os[i] <= 0
    ensures Total(os) <= FilledPart(os, filled) <= 0
  {
    if os != [] { SellsOnlyShrink(os[..|os| - 1], filled); }
  }

  lemma {:induction false} BuysOnlyGrow(os: seq<int>, filled: set<nat>)
    requires forall i :: 0 <= i < |os| ==> os[i] >= 0
    ensures 0 <= FilledPart(os, filled) <= Total(os)
  {
    if os != [] { BuysOnlyGrow(os[..|os| - 1], filled); }
  }

  /** The market section as it sees an account of `position` shares with `orders` in flight, through
      the view that leaves out the kept shares. */
  ghost predicate SeesThroughKept(v: SymbolView, position: int, k: Kept, orders: seq<int>) {
    && v.have == Carved(position, k)
    && v.kept == KeptNow(position, k)
    && v.keptShort == KeptShort(position, k)
    && v.pending + v.moc == Total(orders)
  }

  /** Kept longs. A market sell is sent only while the account covers the kept shares, and then, with no
      buy in flight, every possible pattern of fills leaves the full kept amount in the account. */
  lemma KeptLongsStay(v: SymbolView, rails: Rails, position: int, k: Kept, orders: seq<int>, filled: set<nat>,
                      fills: bool)
    requires k.kept > 0 && SeesThroughKept(v, position, k, orders)
    requires MarketVerdict(v, rails).Send? && MarketVerdict(v, rails).order.delta < 0
    requires forall i :: 0 <= i < |orders| ==> orders[i] <= 0
    ensures position + FilledPart(orders, filled) + (if fills then MarketVerdict(v, rails).order.delta else 0) >= k.kept
  {
    SentOrderIsSound(v, rails);
    SellsOnlyShrink(orders, filled);
  }

  /** The mirror for kept shorts: no market buy, with no sell in flight, buys them back. */
  lemma KeptShortsStay(v: SymbolView, rails: Rails, position: int, k: Kept, orders: seq<int>, filled: set<nat>,
                       fills: bool)
    requires k.kept < 0 && SeesThroughKept(v, position, k, orders)
    requires MarketVerdict(v, rails).Send? && MarketVerdict(v, rails).order.delta > 0
    requires forall i :: 0 <= i < |orders| ==> orders[i] >= 0
    ensures position + FilledPart(orders, filled) + (if fills then MarketVerdict(v, rails).order.delta else 0) <= k.kept
  {
    SentOrderIsSound(v, rails);
    BuysOnlyGrow(orders, filled);
  }

  /** With orders on both sides in flight the account still ends with the kept amount once all of them
      have filled, whatever their signs. */
  lemma KeptLongsStayInTheEnd(v: SymbolView, rails: Rails, position: int, k: Kept, orders: seq<int>)
    requires k.kept > 0 && SeesThroughKept(v, position, k, orders)
    requires MarketVerdict(v, rails).Send? && MarketVerdict(v, rails).order.delta < 0
    ensures position + Total(orders) + MarketVerdict(v, rails).order.delta >= k.kept
  {
    SentOrderIsSound(v, rails);
  }

  predicate Uncapped(rails: Rails) { rails.maxPositionNotional.None? && rails.maxOrderNotional.None? }

  /** The bound is reached: of 15 shares with 10 kept and nothing wanted, exactly 5 are sold. */
  lemma SellsDownToTheKept(v: SymbolView, rails: Rails)
    requires Clear(v) && Uncapped(rails) && v.want == 0 && v.pending == 0 && v.moc == 0 && v.step == 1
    requires SeesThroughKept(v, 15, Kept(10, 0), [])
    ensures MarketVerdict(v, rails) == Send(Order(-5, false))
    ensures 15 + MarketVerdict(v, rails).order.delta == 10
  {
    RoundStepIsFloor(-5, 1);
  }

  // Orders of both signs in flight.

  /** The quantity of the orders in flight on one side: the sells, or with `buys` the buys. */
  function OneSide(os: seq<int>, buys: bool): int {
    if os == [] then 0
    else
      var q := os[|os| - 1];
      OneSide(os[..|os| - 1], buys) + if (q > 0) == buys then q else 0
  }

  /** The account once those of the orders in `filled`, and with `fills` the new order, have filled. */
  function AfterFills(position: int, orders: seq<int>, filled: set<nat>, delta: int, fills: bool): int {
    position + FilledPart(orders, filled) + if fills then delta else 0
  }

  function SideOf(os: seq<int>, buys: bool): set<nat> { set i: nat | i < |os| && (os[i] > 0) == buys }

  lemma {:induction false} SidesBound(os: seq<int>, filled: set<nat>)
    ensures OneSide(os, false) <= FilledPart(os, filled) <= OneSide(os, true)
    ensures OneSide(os, false) <= 0 <= OneSide(os, true)
  {
    if os != [] { SidesBound(os[..|os| - 1], filled); }
  }

  lemma {:induction false} SameFilled(os: seq<int>, f: set<nat>, g: set<nat>)
    requires forall i: nat :: i < |os| ==> (i in f <==> i in g)
    ensures FilledPart(os, f) == FilledPart(os, g)
  {
    if os != [] { SameFilled(os[..|os| - 1], f, g); }
  }

  /** The bounds are reached, by the fills of exactly that side. */
  lemma {:induction false} SideIsReached(os: seq<int>, buys: bool)
    ensures FilledPart(os, SideOf(os, buys)) == OneSide(os, buys)
  {
    if os != [] {
      var front := os[..|os| - 1];
      SideIsReached(front, buys);
      SameFilled(front, SideOf(front, buys), SideOf(os, buys));
    }
  }

  /** Kept longs, whatever is in flight: every pattern of fills leaves the kept amount exactly when what the
      strategies are shown covers the sells in flight together with the new one. */
  lemma KeptLongsStayExactly(v: SymbolView, rails: Rails, position: int, k: Kept, orders: seq<int>)
    requires k.kept > 0 && SeesThroughKept(v, position, k, orders)
    requires MarketVerdict(v, rails).Send? && CutAtZero(v.want, Effective(v), v.step).delta < 0
    ensures var d := CutAtZero(v.want, Effective(v), v.step).delta;
            && MarketVerdict(v, rails).order.delta == d
            && ((forall filled: set<nat>, fills :: AfterFills(position, orders, filled, d, fills) >= k.kept)
                <==> Carved(position, k) + OneSide(orders, false) + d >= 0)
  {
    var d := CutAtZero(v.want, Effective(v), v.step).delta;
    SideIsReached(orders, false);
    assert AfterFills(position, orders, SideOf(orders, false), d, true)
           == position + OneSide(orders, false) + d;
    forall filled: set<nat>, fills: bool
      ensures AfterFills(position, orders, filled, d, fills) >= position + OneSide(orders, false) + d
    {
      SidesBound(orders, filled);
    }
  }

  /** The mirror for kept shorts and the buys. */
  lemma KeptShortsStayExactly(v: SymbolView, rails: Rails, position: int, k: Kept, orders: seq<int>)
    requires k.kept < 0 && SeesThroughKept(v, position, k, orders)
    requires MarketVerdict(v, rails).Send? && CutAtZero(v.want, Effective(v), v.step).delta > 0
    ensures var d := CutAtZero(v.want, Effective(v), v.step).delta;
            && MarketVerdict(v, rails).order.delta == d
            && ((forall filled: set<nat>, fills :: AfterFills(position, orders, filled, d, fills) <= k.kept)
                <==> Carved(position, k) + OneSide(orders, true) + d <= 0)
  {
    var d := CutAtZero(v.want, Effective(v), v.step).delta;
    SideIsReached(orders, true);
    assert AfterFills(position, orders, SideOf(orders, true), d, true)
           == position + OneSide(orders, true) + d;
    forall filled: set<nat>, fills: bool
      ensures AfterFills(position, orders, filled, d, fills) <= position + OneSide(orders, true) + d
    {
      SidesBound(orders, filled);
    }
  }

  /** The smallest account that fails it: one that holds only its 10 kept shares, with a buy of 5 in flight
      and nothing wanted, sells 5; if the sell fills first the account is down to 5. */
  lemma PendingBuyCanDipIntoKept(v: SymbolView, rails: Rails)
    requires Clear(v) && Uncapped(rails) && v.want == 0 && v.pending == 5 && v.moc == 0 && v.step == 1
    requires SeesThroughKept(v, 10, Kept(10, 0), [5])
    ensures MarketVerdict(v, rails) == Send(Order(-5, false))
    ensures 10 + FilledPart([5], {}) + MarketVerdict(v, rails).order.delta < 10
  {
    assert Total([5]) == 5 && FilledPart([5], {}) == 0 by { assert [5][..0] == []; }
    RoundStepIsFloor(-5, 1);
  }
}
