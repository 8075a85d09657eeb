/**
 The arithmetic of one market order: what `reconcile` sends for one symbol once it knows what the
 strategies want, what the account holds and what is already in flight.

 Quantities are whole numbers of one smallest unit, so a venue's order step is a whole number too and
 the 1e-9 tolerances of the float code are exact comparisons.
 */
module MarketDelta {
  import opened Common

  /** Rounds towards zero to a whole number of order steps; a step of zero or less rounds nothing. */
  function RoundStep(qty: int, step: int): (r: int)
    ensures step > 0 ==> Abs(qty - r) < step && Abs(r) <= Abs(qty)
    ensures step > 0 ==> (r == 0 <==> Abs(qty) < step)
    ensures qty >= 0 ==> r >= 0
    ensures qty <= 0 ==> r <= 0
    ensures step <= 0 ==> r == qty
  {
    if step <= 0 then qty
    else
      var whole := Abs(qty) - Abs(qty) % step;
      assert whole == 0 <==> Abs(qty) < step by { WholePart(Abs(qty), step); }
      if qty >= 0 then whole else -whole
  }

  lemma WholePart(a: nat, step: int)
    requires step > 0
    ensures a - a % step == (a / step) * step
    ensures a < step <==> a - a % step == 0
  {
    if a < step { assert a / step == 0; }
  }

  /** The rounding is the floor the source writes: whole steps of the magnitude, with the sign put back. */
  lemma RoundStepIsFloor(qty: int, step: int)
    requires step > 0
    ensures RoundStep(qty, step) == if qty >= 0 then (Abs(qty) / step) * step else -((Abs(qty) / step) * step)
  {
    WholePart(Abs(qty), step);
  }

  /** No larger whole number of steps fits in the quantity. */
  lemma RoundStepIsLargest(qty: int, step: int, k: nat)
    requires step > 0 && k * step <= Abs(qty)
    ensures k * step <= Abs(RoundStep(qty, step))
  {
    var q := Abs(qty) / step;
    WholePart(Abs(qty), step);
    assert (q + 1) * step == q * step + step;
    if k > q {
      MoreSteps(q + 1, k, step);
    } else {
      MoreSteps(k, q, step);
    }
  }

  lemma MoreSteps(a: int, b: int, step: int)
    requires a <= b && step > 0
    ensures a * step <= b * step
  {}

  // ----------------------------------------------------------------- one market order

  /** A market order: signed quantity, and whether the venue is told that it opens a short. */
  datatype Order = Order(delta: int, opensShort: bool)

  /** The gap to the target in whole steps, before the zero crossing is looked at. */
  function Gap(want: int, eff: int, step: int): int { RoundStep(want - eff, step) }

  /** The order before the venue's own holding is consulted: a trade through zero is cut to the
      part that closes the position, unless the position is smaller than one step. */
  function CutAtZero(want: int, eff: int, step: int): (o: Order)
  {
    var delta := Gap(want, eff, step);
    var flat := RoundStep(-eff, step);
    if delta < 0 && eff > 0 && eff + delta < 0 then
      if flat != 0 then Order(flat, false) else Order(delta, true)
    else if delta < 0 && eff <= 0 then Order(delta, true)
    else if delta > 0 && eff < 0 && eff + delta > 0 then
      if flat != 0 then Order(flat, false) else Order(delta, false)
    else Order(delta, false)
  }

  /** What the market section sends: nothing inside one step of the target, and no short while the
      venue itself still shows a long. `have` is the holding, `pending` the signed open market orders. */
  function Decide(want: int, have: int, pending: int, step: int): (o: Option<Order>)
  {
    var eff := have + pending;
    if Gap(want, eff, step) == 0 then None
    else
      var o := CutAtZero(want, eff, step);
      if o.opensShort && RoundStep(have, step) > 0 then None else Some(o)
  }

  /** Every order moves the holding towards the target and never past it; it trades through zero only
      from a holding smaller than one step, and it is flagged as opening a short exactly when it is a
      sell that leaves the account short. */
  lemma OrderIsSound(want: int, have: int, pending: int, step: int)
    requires Decide(want, have, pending, step).Some?
    ensures var eff := have + pending;
            var o := Decide(want, have, pending, step).value;
            && o.delta != 0
            && (o.delta > 0 <==> want > eff)
            && Abs(o.delta) <= Abs(want - eff)
            && Between(eff, eff + o.delta, want)
            && (eff < 0 < eff + o.delta || eff + o.delta < 0 < eff ==> Abs(eff) < step)
            && (o.opensShort <==> o.delta < 0 && eff + o.delta < 0)
            && (o.opensShort ==> RoundStep(have, step) <= 0)
  {
    var eff := have + pending;
  }

  /** The smallest quantity a venue with this step can trade. */
  function Unit(step: int): int { Max(step, 1) }

  /** At most two filled orders close the gap to less than one step, from any holding to any target;
      after that the section sends nothing. Where nothing is rounded they reach the target itself. */
  lemma TwoOrdersSettle(want: int, have: int, step: int)
    ensures Decide(want, have, 0, step).None? <==> Abs(want - have) < Unit(step)
    ensures var first := Decide(want, have, 0, step);
            first.Some? ==>
              var mid := have + first.value.delta;
              var second := Decide(want, mid, 0, step);
              var end := if second.Some? then mid + second.value.delta else mid;
              Abs(want - end) < Unit(step) && Decide(want, end, 0, step).None?
  {
    var first := Decide(want, have, 0, step);
    NothingOnlyWhenClose(want, have, step);
    if first.Some? {
      CutLeavesLessThanAStep(want, have, step);
      OneOrderSettles(want, have + first.value.delta, step);
    }
  }

  /** From the target, or from less than a step, one more order is enough. */
  lemma OneOrderSettles(want: int, mid: int, step: int)
    requires Abs(want - mid) < Unit(step) || Abs(mid) < Unit(step)
    ensures var second := Decide(want, mid, 0, step);
            var end := if second.Some? then mid + second.value.delta else mid;
            Abs(want - end) < Unit(step) && Decide(want, end, 0, step).None?
  {
    var second := Decide(want, mid, 0, step);
    NothingOnlyWhenClose(want, mid, step);
    if second.Some? {
      CutLeavesLessThanAStep(want, mid, step);
      NothingOnlyWhenClose(want, mid + second.value.delta, step);
    }
  }

  /** With nothing in flight the section is silent exactly inside one step of the target. */
  lemma NothingOnlyWhenClose(want: int, have: int, step: int)
    ensures Decide(want, have, 0, step).None? <==> Abs(want - have) < Unit(step)
  {
  }

  /** One order either reaches the target to within a step or leaves a holding smaller than a step. */
  lemma CutLeavesLessThanAStep(want: int, have: int, step: int)
    requires Decide(want, have, 0, step).Some?
    ensures var end := have + Decide(want, have, 0, step).value.delta;
            Abs(want - end) < Unit(step) || (Abs(end) < Unit(step) && Abs(have) >= Unit(step))
  {
  }
}
