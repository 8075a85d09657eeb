/**
 The weight-vector rebalance of one sleeve: truncated share targets, sells before buys, and the cash it
 can never overdraw.
 */
module Rebalance {
  import opened Common

  const MIN_WEIGHT := 0.001

  /** One target weight, holding and marked price per symbol; a missing price is zero or less. */
  datatype Market = Market(weights: map<string, real>, prices: map<string, real>)

  datatype Sleeve = Sleeve(cash: real, qty: map<string, int>)

  /** Truncation towards zero. */
  function Trunc(x: real): int { if x >= 0.0 then x.Floor else -((-x).Floor) }

  /** A product by name: proofs below use only the facts of `Scale` and `Distribute` about it. */
  function Times(a: real, b: real): real { a * b }

  /** How many whole shares a sum of money buys; short sums round towards zero too. */
  function Shares(money: real, px: real): int
    requires px != 0.0
  {
    Trunc(money / px)
  }

  predicate Priced(m: Market, sym: string) { sym in m.prices && m.prices[sym] != 0.0 }

  function Held(s: Sleeve, sym: string): int { if sym in s.qty then s.qty[sym] else 0 }

  function HeldValue(s: Sleeve, m: Market, sym: string): real {
    Times(Price(m, sym), Held(s, sym) as real)
  }

  function Price(m: Market, sym: string): real { if Priced(m, sym) then m.prices[sym] else 0.0 }

  function Weight(m: Market, sym: string): real { if sym in m.weights then m.weights[sym] else 0.0 }

  /** Sums over a listing of the symbols: what is held at the marks, and the weights. */
  function HeldTotal(s: Sleeve, m: Market, syms: seq<string>): real {
    if syms == [] then 0.0 else HeldTotal(s, m, syms[..|syms| - 1]) + HeldValue(s, m, syms[|syms| - 1])
  }

  function WeightTotal(m: Market, syms: seq<string>): real {
    if syms == [] then 0.0 else WeightTotal(m, syms[..|syms| - 1]) + Weight(m, syms[|syms| - 1])
  }

  function Equity(s: Sleeve, m: Market, syms: seq<string>): real { s.cash + HeldTotal(s, m, syms) }

  predicate Targeted(m: Market, sym: string) {
    sym in m.weights && Priced(m, sym) && (m.weights[sym] >= MIN_WEIGHT || m.weights[sym] <= -MIN_WEIGHT)
  }

  /** Whole shares, never rounded up. */
  function Want(m: Market, equity: real, sym: string): int {
    if Targeted(m, sym) then Shares(Times(equity, m.weights[sym]), m.prices[sym]) else 0
  }

  /** Signed shares to trade. */
  datatype Delta = Delta(sym: string, dq: int)

  function Change(s: Sleeve, m: Market, equity: real, sym: string): int {
    if Priced(m, sym) then Want(m, equity, sym) - Held(s, sym) else 0
  }

  function Deltas(s: Sleeve, m: Market, equity: real, syms: seq<string>): seq<Delta> {
    if syms == [] then []
    else
      var sym := syms[|syms| - 1];
      Deltas(s, m, equity, syms[..|syms| - 1])
      + if Change(s, m, equity, sym) != 0 then [Delta(sym, Change(s, m, equity, sym))] else []
  }

  /** Stable sort by signed size. */
  function Inserted(list: seq<Delta>, x: Delta): seq<Delta> {
    if list == [] || list[|list| - 1].dq <= x.dq then list + [x]
    else Inserted(list[..|list| - 1], x) + [list[|list| - 1]]
  }

  function Sorted(list: seq<Delta>): seq<Delta> {
    if list == [] then [] else Inserted(Sorted(list[..|list| - 1]), list[|list| - 1])
  }

  function Orders(s: Sleeve, m: Market, syms: seq<string>): seq<Delta> {
    Sorted(Deltas(s, m, Equity(s, m, syms), syms))
  }

  function Fill(s: Sleeve, m: Market, o: Delta): Sleeve {
    Sleeve(s.cash - Times(Price(m, o.sym), o.dq as real), s.qty[o.sym := Held(s, o.sym) + o.dq])
  }

  /** After some orders, of which those in `filled` were filled at the marks and the rest not at all. */
  function After(s: Sleeve, m: Market, orders: seq<Delta>, filled: set<string>): Sleeve {
    if orders == [] then s
    else
      var before, o := After(s, m, orders[..|orders| - 1], filled), orders[|orders| - 1];
      if o.sym in filled then Fill(before, m, o) else before
  }

  /** The symbols reported flat: filled, and nothing left. */
  function Flat(s: Sleeve, m: Market, orders: seq<Delta>, filled: set<string>): seq<string> {
    if orders == [] then []
    else
      var o := orders[|orders| - 1];
      Flat(s, m, orders[..|orders| - 1], filled)
      + if o.sym in filled && Held(After(s, m, orders, filled), o.sym) == 0 then [o.sym] else []
  }

  class Portfolio {
    var cash: real
    var qty: map<string, int>
    var openTickets: nat

    ghost function State(): Sleeve
      reads this
    {
      Sleeve(cash, qty)
    }

    method MarketOrder(m: Market, o: Delta, fills: bool)
      modifies this`cash, this`qty
      ensures State() == if fills then Fill(old(State()), m, o) else old(State())
    {
      if !fills { return; }
      cash := cash - Times(Price(m, o.sym), o.dq as real);
      qty := qty[o.sym := (if o.sym in qty then qty[o.sym] else 0) + o.dq];
    }

    method MarkedEquity(m: Market, syms: seq<string>) returns (equity: real)
      ensures equity == Equity(State(), m, syms)
    {
      var worth := 0.0;
      for i := 0 to |syms|
        invariant worth == HeldTotal(State(), m, syms[..i])
      {
        CutAt(syms, i);
        worth := worth + Times(Price(m, syms[i]), (if syms[i] in qty then qty[syms[i]] else 0) as real);
      }
      CutAt(syms, |syms|);
      equity := cash + worth;
    }

    method ListDeltas(m: Market, equity: real, syms: seq<string>) returns (deltas: seq<Delta>)
      ensures deltas == Deltas(State(), m, equity, syms)
    {
      deltas := [];
      for i := 0 to |syms|
        invariant deltas == Deltas(State(), m, equity, syms[..i])
      {
        CutAt(syms, i);
        var sym := syms[i];
        if Priced(m, sym) {
          var dq := Want(m, equity, sym) - if sym in qty then qty[sym] else 0;
          if dq != 0 { deltas := deltas + [Delta(sym, dq)]; }
        }
      }
      CutAt(syms, |syms|);
    }

    method PlaceAll(m: Market, orders: seq<Delta>, filled: set<string>) returns (flat: seq<string>)
      modifies this`cash, this`qty
      ensures State() == After(old(State()), m, orders, filled)
      ensures flat == Flat(old(State()), m, orders, filled)
    {
      flat := [];
      for i := 0 to |orders|
        invariant State() == After(old(State()), m, orders[..i], filled)
        invariant flat == Flat(old(State()), m, orders[..i], filled)
      {
        CutAt(orders, i);
        var o := orders[i];
        MarketOrder(m, o, o.sym in filled);
        if o.sym in filled && (if o.sym in qty then qty[o.sym] else 0) == 0 { flat := flat + [o.sym]; }
      }
      CutAt(orders, |orders|);
    }

    /** `syms` lists every symbol held or weighted, in the order the sleeve is walked; `filled` are the
        symbols whose order the venue fills. */
    method Rebalance(m: Market, syms: seq<string>, filled: set<string>) returns (placed: seq<Delta>, flat: seq<string>)
      modifies this
      ensures openTickets == 0
      ensures placed == Orders(old(State()), m, syms)
      ensures State() == After(old(State()), m, placed, filled)
      ensures flat == Flat(old(State()), m, placed, filled)
    {
      openTickets := 0;
      var equity := MarkedEquity(m, syms);
      var deltas := ListDeltas(m, equity, syms);
      placed := Sorted(deltas);
      flat := PlaceAll(m, placed, filled);
    }
  }

  // ------------------------------------------------------------------ the order of the orders

  ghost predicate Rising(list: seq<Delta>) { forall i, j :: 0 <= i < j < |list| ==> list[i].dq <= list[j].dq }

  lemma {:induction false} InsertedMembers(list: seq<Delta>, x: Delta)
    ensures multiset(Inserted(list, x)) == multiset(list) + multiset{x}
  {
    if list != [] && list[|list| - 1].dq > x.dq {
      InsertedMembers(list[..|list| - 1], x);
      LastSplits([], list);
    }
  }

  lemma {:induction false} InsertedIs(list: seq<Delta>, x: Delta)
    requires Rising(list)
    ensures Rising(Inserted(list, x)) && multiset(Inserted(list, x)) == multiset(list) + multiset{x}
  {
    InsertedMembers(list, x);
    if list != [] && list[|list| - 1].dq > x.dq {
      var some, y := list[..|list| - 1], list[|list| - 1];
      InsertedIs(some, x);
      var put := Inserted(some, x);
      forall i | 0 <= i < |put| ensures put[i].dq <= y.dq {
        assert put[i] in multiset(put);
        assert put[i] == x || put[i] in some;
      }
    }
  }

  lemma {:induction false} SortedIs(list: seq<Delta>)
    ensures Rising(Sorted(list)) && multiset(Sorted(list)) == multiset(list)
  {
    if list != [] {
      SortedIs(list[..|list| - 1]);
      InsertedIs(Sorted(list[..|list| - 1]), list[|list| - 1]);
      LastSplits([], list);
    }
  }

  predicate DistinctSyms(list: seq<Delta>) { forall i, j :: 0 <= i < j < |list| ==> list[i].sym != list[j].sym }

  predicate Listing(syms: seq<string>) { forall i, j :: 0 <= i < j < |syms| ==> syms[i] != syms[j] }

  lemma {:induction false} DeltasAre(s: Sleeve, m: Market, equity: real, syms: seq<string>)
    requires Listing(syms)
    ensures DistinctSyms(Deltas(s, m, equity, syms))
    ensures forall d :: d in Deltas(s, m, equity, syms) <==>
                          d.sym in syms && d.dq == Change(s, m, equity, d.sym) && d.dq != 0
  {
    if syms != [] {
      var some, sym := syms[..|syms| - 1], syms[|syms| - 1];
      DeltasAre(s, m, equity, some);
      assert forall x :: x in syms <==> x in some || x == sym;
    }
  }

  /** The orders of a rebalance: one for each symbol off its target, for exactly the difference, in order of
      size. */
  lemma OrdersAre(s: Sleeve, m: Market, syms: seq<string>)
    requires Listing(syms)
    ensures Rising(Orders(s, m, syms)) && DistinctSyms(Orders(s, m, syms))
    ensures forall d :: d in Orders(s, m, syms) <==>
                          d.sym in syms && d.dq == Change(s, m, Equity(s, m, syms), d.sym) && d.dq != 0
  {
    var ds := Deltas(s, m, Equity(s, m, syms), syms);
    DeltasAre(s, m, Equity(s, m, syms), syms);
    SortedIs(ds);
    SameMembers(ds, Sorted(ds));
    DistinctCarries(ds, Sorted(ds));
  }

  /** Every sell is placed before every buy. */
  lemma SellsComeFirst(s: Sleeve, m: Market, syms: seq<string>, i: nat, j: nat)
    requires Listing(syms) && i < |Orders(s, m, syms)| && j < |Orders(s, m, syms)|
    requires Orders(s, m, syms)[i].dq < 0 < Orders(s, m, syms)[j].dq
    ensures i < j
  {
    OrdersAre(s, m, syms);
  }

  lemma SameMembers(a: seq<Delta>, b: seq<Delta>)
    requires multiset(a) == multiset(b)
    ensures forall d :: d in a <==> d in b
  {
    forall d ensures d in a <==> d in b {
      assert d in a <==> d in multiset(a);
      assert d in b <==> d in multiset(b);
    }
  }

  lemma DistinctCarries(a: seq<Delta>, b: seq<Delta>)
    requires DistinctSyms(a) && multiset(a) == multiset(b)
    ensures DistinctSyms(b)
  {
    forall i, j | 0 <= i < j < |b| ensures b[i].sym != b[j].sym {
      assert b[i] in multiset(b) && b[j] in multiset(b);
      assert b[i] in a && b[j] in a;
      if b[i].sym == b[j].sym {
        OnePerSym(a, b[i], b[j]);
        TwiceCounts(b, i, j);
        OnceCounts(a, b[i]);
      }
    }
  }

  lemma OnePerSym(a: seq<Delta>, x: Delta, y: Delta)
    requires DistinctSyms(a) && x in a && y in a && x.sym == y.sym
    ensures x == y
  {
    var i :| 0 <= i < |a| && a[i] == x;
    var j :| 0 <= j < |a| && a[j] == y;
  }

  lemma TwiceCounts(b: seq<Delta>, i: nat, j: nat)
    requires i < j < |b| && b[i] == b[j]
    ensures multiset(b)[b[i]] >= 2
  {
    var x := b[i];
    CutAt(b, j);
    assert b[..j][i] == x && x in multiset(b[..j]);
    assert b[j..][0] == x && x in multiset(b[j..]);
    assert multiset(b) == multiset(b[..j]) + multiset(b[j..]);
  }

  lemma {:induction false} OnceCounts(a: seq<Delta>, x: Delta)
    requires DistinctSyms(a)
    ensures multiset(a)[x] <= 1
  {
    if a != [] {
      OnceCounts(a[..|a| - 1], x);
      LastSplits([], a);
      if a[|a| - 1] == x {
        assert x !in a[..|a| - 1];
        assert multiset(a[..|a| - 1])[x] == 0;
      }
    }
  }

  // ------------------------------------------------------------------ cash

  function Value(m: Market, o: Delta): real { Times(Price(m, o.sym), o.dq as real) }

  /** What some orders cost. */
  function Cost(m: Market, orders: seq<Delta>): real {
    if orders == [] then 0.0 else Cost(m, orders[..|orders| - 1]) + Value(m, orders[|orders| - 1])
  }

  lemma CostSnoc(m: Market, orders: seq<Delta>, o: Delta)
    ensures Cost(m, orders + [o]) == Cost(m, orders) + Value(m, o)
  {
    assert (orders + [o])[..|orders|] == orders;
  }

  lemma {:induction false} CostInserted(m: Market, list: seq<Delta>, x: Delta)
    ensures Cost(m, Inserted(list, x)) == Cost(m, list) + Value(m, x)
  {
    if list == [] || list[|list| - 1].dq <= x.dq {
      CostSnoc(m, list, x);
    } else {
      CostInserted(m, list[..|list| - 1], x);
      CostSnoc(m, Inserted(list[..|list| - 1], x), list[|list| - 1]);
    }
  }

  lemma {:induction false} CostSorted(m: Market, list: seq<Delta>)
    ensures Cost(m, Sorted(list)) == Cost(m, list)
  {
    if list != [] {
      CostSorted(m, list[..|list| - 1]);
      CostInserted(m, Sorted(list[..|list| - 1]), list[|list| - 1]);
    }
  }

  /** One more symbol in the sum. */
  lemma CostStep(s: Sleeve, m: Market, equity: real, syms: seq<string>)
    requires syms != [] && equity >= 0.0
    requires forall sym :: sym in m.weights ==> m.weights[sym] >= 0.0
    requires forall sym :: sym in m.prices ==> m.prices[sym] > 0.0
    requires var some := syms[..|syms| - 1];
             Cost(m, Deltas(s, m, equity, some)) <= Times(equity, WeightTotal(m, some)) - HeldTotal(s, m, some)
    ensures Cost(m, Deltas(s, m, equity, syms)) <= Times(equity, WeightTotal(m, syms)) - HeldTotal(s, m, syms)
  {
    var some, sym := syms[..|syms| - 1], syms[|syms| - 1];
    OneChange(s, m, equity, sym);
    OneMore(s, m, equity, syms);
    Distribute(equity, WeightTotal(m, some), Weight(m, sym));
    AddUp(Cost(m, Deltas(s, m, equity, some)), Value(m, Delta(sym, Change(s, m, equity, sym))),
          Times(equity, WeightTotal(m, some)), Times(equity, Weight(m, sym)),
          HeldTotal(s, m, some), HeldValue(s, m, sym));
  }

  /** What the changed shares cost is at most the weights' part of the equity less what is already held. */
  lemma {:induction false} CostOfDeltas(s: Sleeve, m: Market, equity: real, syms: seq<string>)
    requires equity >= 0.0
    requires forall sym :: sym in m.weights ==> m.weights[sym] >= 0.0
    requires forall sym :: sym in m.prices ==> m.prices[sym] > 0.0
    ensures Cost(m, Deltas(s, m, equity, syms)) <= Times(equity, WeightTotal(m, syms)) - HeldTotal(s, m, syms)
  {
    if syms != [] {
      CostOfDeltas(s, m, equity, syms[..|syms| - 1]);
      CostStep(s, m, equity, syms);
    }
  }

  lemma AddUp(c: real, v: real, e1: real, e2: real, h1: real, h2: real)
    requires c <= e1 - h1 && v <= e2 - h2
    ensures c + v <= (e1 + e2) - (h1 + h2)
  {}

  lemma OneMore(s: Sleeve, m: Market, equity: real, syms: seq<string>)
    requires syms != []
    ensures var sym := syms[|syms| - 1];
            Cost(m, Deltas(s, m, equity, syms)) ==
            Cost(m, Deltas(s, m, equity, syms[..|syms| - 1])) + Value(m, Delta(sym, Change(s, m, equity, sym)))
  {
    var before, sym := Deltas(s, m, equity, syms[..|syms| - 1]), syms[|syms| - 1];
    if Change(s, m, equity, sym) != 0 {
      CostSnoc(m, before, Delta(sym, Change(s, m, equity, sym)));
    } else {
      assert before + [] == before;
    }
  }

  lemma Distribute(e: real, a: real, b: real)
    ensures Times(e, a + b) == Times(e, a) + Times(e, b)
  {}

  lemma OneChange(s: Sleeve, m: Market, equity: real, sym: string)
    requires equity >= 0.0
    requires forall x :: x in m.weights ==> m.weights[x] >= 0.0
    requires forall x :: x in m.prices ==> m.prices[x] > 0.0
    ensures Value(m, Delta(sym, Change(s, m, equity, sym))) <= Times(equity, Weight(m, sym)) - HeldValue(s, m, sym)
  {
    NonNegative(equity, Weight(m, sym));
    if Priced(m, sym) {
      if Targeted(m, sym) { WantFits(m, equity, sym); }
      var want, held, px := Want(m, equity, sym), Held(s, sym), m.prices[sym];
      Distribute(px, (want - held) as real, held as real);
    }
  }

  lemma NonNegative(a: real, b: real)
    requires a >= 0.0 && b >= 0.0
    ensures Times(a, b) >= 0.0
  {}

  /** A target is the largest number of whole shares the weight's part of the equity pays for. */
  lemma WantFits(m: Market, equity: real, sym: string)
    requires equity >= 0.0 && Targeted(m, sym) && m.weights[sym] >= 0.0 && m.prices[sym] > 0.0
    ensures var want, part, px := Want(m, equity, sym), Times(equity, m.weights[sym]), m.prices[sym];
            want >= 0 && Times(px, want as real) <= part < Times(px, (want + 1) as real)
  {
    NonNegative(equity, m.weights[sym]);
    SharesFit(Times(equity, m.weights[sym]), m.prices[sym]);
  }

  lemma SharesFit(part: real, px: real)
    requires part >= 0.0 && px > 0.0
    ensures var n := Shares(part, px); n >= 0 && Times(px, n as real) <= part < Times(px, (n + 1) as real)
  {
    var q := part / px;
    assert Times(px, q) == part;
    if q < 0.0 { Scale(px, q, 0.0); }
    var n := q.Floor;
    var next := (n + 1) as real;
    assert n as real <= q < next;
    Scale(px, n as real, q);
    Scale(px, q, next);
  }

  lemma Scale(px: real, a: real, b: real)
    requires px > 0.0
    ensures a <= b ==> Times(px, a) <= Times(px, b)
    ensures a < b ==> Times(px, a) < Times(px, b)
    ensures Times(px, 0.0) == 0.0 && Times(0.0, a) == 0.0
  {}

  predicate SellsFill(orders: seq<Delta>, filled: set<string>) {
    forall i :: 0 <= i < |orders| && orders[i].dq < 0 ==> orders[i].sym in filled
  }

  /** Sell proceeds come in before anything is paid out: if every order so far is a sell, cash has only
      grown; afterwards it only shrinks towards what the whole list leaves. */
  lemma {:induction false} CashPath(s: Sleeve, m: Market, orders: seq<Delta>, filled: set<string>, n: nat)
    requires Rising(orders) && n <= |orders|
    requires forall x :: x in m.prices ==> m.prices[x] > 0.0
    requires SellsFill(orders, filled)
    ensures After(s, m, orders[..n], filled).cash >= s.cash
            || After(s, m, orders[..n], filled).cash >= s.cash - Cost(m, orders)
  {
    if n == 0 {
    } else if orders[n - 1].dq <= 0 {
      SellsAddCash(s, m, orders[..n], filled);
    } else {
      AtLeastCost(s, m, orders[..n], filled);
      BuysCost(m, orders, n);
    }
  }

  lemma {:induction false} SellsAddCash(s: Sleeve, m: Market, orders: seq<Delta>, filled: set<string>)
    requires forall i :: 0 <= i < |orders| ==> orders[i].dq <= 0
    requires forall x :: x in m.prices ==> m.prices[x] > 0.0
    ensures After(s, m, orders, filled).cash >= s.cash
  {
    if orders != [] {
      SellsAddCash(s, m, orders[..|orders| - 1], filled);
      var o := orders[|orders| - 1];
      if Priced(m, o.sym) { Scale(m.prices[o.sym], o.dq as real, 0.0); }
    }
  }

  /** With every sell filled, leaving out a buy only leaves more cash. */
  lemma {:induction false} AtLeastCost(s: Sleeve, m: Market, orders: seq<Delta>, filled: set<string>)
    requires forall x :: x in m.prices ==> m.prices[x] > 0.0
    requires SellsFill(orders, filled)
    ensures After(s, m, orders, filled).cash >= s.cash - Cost(m, orders)
  {
    if orders != [] {
      AtLeastCost(s, m, orders[..|orders| - 1], filled);
      var o := orders[|orders| - 1];
      if o.sym !in filled && Priced(m, o.sym) { Scale(m.prices[o.sym], 0.0, o.dq as real); }
    }
  }

  lemma {:induction false} BuysCost(m: Market, orders: seq<Delta>, n: nat)
    requires Rising(orders) && 0 < n <= |orders| && orders[n - 1].dq > 0
    requires forall x :: x in m.prices ==> m.prices[x] > 0.0
    ensures Cost(m, orders[..n]) <= Cost(m, orders)
  {
    if n < |orders| {
      var some, o := orders[..|orders| - 1], orders[|orders| - 1];
      BuysCost(m, some, n);
      assert some[..n] == orders[..n];
      if Priced(m, o.sym) { Scale(m.prices[o.sym], 0.0, o.dq as real); }
    } else {
      assert orders[..n] == orders;
    }
  }

  ghost predicate Long(s: Sleeve, m: Market, syms: seq<string>) {
    && s.cash >= 0.0
    && (forall x :: x in s.qty ==> s.qty[x] >= 0)
    && (forall x :: x in m.prices ==> m.prices[x] > 0.0)
    && (forall x :: x in m.weights ==> m.weights[x] >= 0.0)
    && WeightTotal(m, syms) <= 1.0
  }

  lemma {:induction false} HoldingsAreWorthSomething(s: Sleeve, m: Market, syms: seq<string>)
    requires forall x :: x in s.qty ==> s.qty[x] >= 0
    requires forall x :: x in m.prices ==> m.prices[x] > 0.0
    ensures HeldTotal(s, m, syms) >= 0.0
  {
    if syms != [] {
      HoldingsAreWorthSomething(s, m, syms[..|syms| - 1]);
      var sym := syms[|syms| - 1];
      if Priced(m, sym) { Scale(m.prices[sym], 0.0, Held(s, sym) as real); }
    }
  }

  /** The whole list of orders costs no more than the cash there is. */
  lemma CostFits(s: Sleeve, m: Market, syms: seq<string>)
    requires Listing(syms) && Long(s, m, syms)
    ensures Cost(m, Orders(s, m, syms)) <= s.cash
  {
    var equity := Equity(s, m, syms);
    HoldingsAreWorthSomething(s, m, syms);
    CostSorted(m, Deltas(s, m, equity, syms));
    CostOfDeltas(s, m, equity, syms);
    AtMostEquity(equity, WeightTotal(m, syms));
  }

  /** The rebalance never overdraws: for a long sleeve and weights that sum to at most one, cash is not
      negative after any number of the orders, as long as the sells fill; buys may fill or not. */
  lemma NeverOverdraws(s: Sleeve, m: Market, syms: seq<string>, filled: set<string>, n: nat)
    requires Listing(syms) && Long(s, m, syms) && n <= |Orders(s, m, syms)| && SellsFill(Orders(s, m, syms), filled)
    ensures After(s, m, Orders(s, m, syms)[..n], filled).cash >= 0.0
  {
    var os := Orders(s, m, syms);
    OrdersAre(s, m, syms);
    CostFits(s, m, syms);
    CashPath(s, m, os, filled, n);
  }

  lemma AtMostEquity(e: real, w: real)
    requires e >= 0.0 && w <= 1.0
    ensures Times(e, w) <= e
  {}

  // ------------------------------------------------------------------ where it ends

  lemma {:induction false} AfterHolds(s: Sleeve, m: Market, orders: seq<Delta>, filled: set<string>, sym: string)
    requires DistinctSyms(orders)
    ensures forall i :: 0 <= i < |orders| && orders[i].sym == sym ==>
                          Held(After(s, m, orders, filled), sym)
                          == Held(s, sym) + if sym in filled then orders[i].dq else 0
    ensures (forall i :: 0 <= i < |orders| ==> orders[i].sym != sym)
            ==> Held(After(s, m, orders, filled), sym) == Held(s, sym)
  {
    if orders != [] { AfterHolds(s, m, orders[..|orders| - 1], filled, sym); }
  }

  /** Every priced symbol whose order fills ends at its truncated target; an unpriced one keeps what it had. */
  lemma EndsAtTarget(s: Sleeve, m: Market, syms: seq<string>, filled: set<string>, sym: string)
    requires Listing(syms) && sym in syms && sym in filled
    ensures Held(After(s, m, Orders(s, m, syms), filled), sym) ==
            if Priced(m, sym) then Want(m, Equity(s, m, syms), sym) else Held(s, sym)
  {
    OrdersAre(s, m, syms);
    HoldsTheChange(s, m, Orders(s, m, syms), filled, sym, Change(s, m, Equity(s, m, syms), sym));
  }

  /** A symbol with one order ends with its change, and one without with what it had. */
  lemma HoldsTheChange(s: Sleeve, m: Market, os: seq<Delta>, filled: set<string>, sym: string, dq: int)
    requires DistinctSyms(os) && sym in filled
    requires if dq != 0 then Delta(sym, dq) in os else forall o :: o in os ==> o.sym != sym
    ensures Held(After(s, m, os, filled), sym) == Held(s, sym) + dq
  {
    AfterHolds(s, m, os, filled, sym);
    if dq != 0 {
      var i :| 0 <= i < |os| && os[i] == Delta(sym, dq);
      assert os[i].sym == sym;
    } else {
      forall i | 0 <= i < |os| ensures os[i].sym != sym { assert os[i] in os; }
    }
  }

  /** The truncated target of a long sleeve is less than one share's price below the weight's part of the
      equity, and never above it. */
  lemma TargetWithinAShare(s: Sleeve, m: Market, syms: seq<string>, sym: string)
    requires Long(s, m, syms) && Targeted(m, sym)
    ensures var want, px := Want(m, Equity(s, m, syms), sym), m.prices[sym];
            var part := Times(Equity(s, m, syms), m.weights[sym]);
            want >= 0 && Times(px, want as real) <= part < Times(px, (want + 1) as real)
  {
    HoldingsAreWorthSomething(s, m, syms);
    WantFits(m, Equity(s, m, syms), sym);
  }

  /** The most whole shares the money pays for, towards zero on the short side too. */
  predicate PaysForExactly(money: real, px: real, n: int) {
    if money >= 0.0 then n >= 0 && Times(px, n as real) <= money < Times(px, (n + 1) as real)
    else n <= 0 && Times(px, (n - 1) as real) < money <= Times(px, n as real)
  }

  /** Where a filled symbol ends, on the marks, the weights and the equity alone: without a weight, or with one
      of less than a thousandth either way, at nothing; otherwise at the most whole shares its part of the
      equity pays for. */
  lemma EndsAtItsPart(s: Sleeve, m: Market, syms: seq<string>, filled: set<string>, sym: string)
    requires Listing(syms) && sym in syms && sym in filled && sym in m.prices && m.prices[sym] > 0.0
    ensures var n := Held(After(s, m, Orders(s, m, syms), filled), sym);
            var w := if sym in m.weights then m.weights[sym] else 0.0;
            if 1000.0 * w < 1.0 && 1000.0 * w > -1.0 then n == 0
            else PaysForExactly(Times(Equity(s, m, syms), w), m.prices[sym], n)
  {
    EndsAtTarget(s, m, syms, filled, sym);
    WantExactly(m, Equity(s, m, syms), sym);
  }

  lemma WantExactly(m: Market, equity: real, sym: string)
    requires sym in m.prices && m.prices[sym] > 0.0
    ensures var w := if sym in m.weights then m.weights[sym] else 0.0;
            if 1000.0 * w < 1.0 && 1000.0 * w > -1.0 then Want(m, equity, sym) == 0
            else PaysForExactly(Times(equity, w), m.prices[sym], Want(m, equity, sym))
  {
    if Targeted(m, sym) {
      var part := Times(equity, m.weights[sym]);
      if part >= 0.0 { SharesFit(part, m.prices[sym]); } else { ShortSharesFit(part, m.prices[sym]); }
    }
  }

  lemma ShortSharesFit(part: real, px: real)
    requires part < 0.0 && px > 0.0
    ensures var n := Shares(part, px); n <= 0 && Times(px, (n - 1) as real) < part <= Times(px, n as real)
  {
    var q := part / px;
    assert Times(px, q) == part;
    if q >= 0.0 { Scale(px, 0.0, q); }
    var n := (-q).Floor;
    Scale(px, q, (-n) as real);
    Scale(px, (-n - 1) as real, q);
  }

  /** Trading at the marks neither makes nor loses anything: whatever is ordered and whatever of it fills, the
      equity stays. */
  lemma {:induction false} EquityIsConserved(s: Sleeve, m: Market, syms: seq<string>, orders: seq<Delta>,
                                             filled: set<string>)
    requires Listing(syms) && forall o :: o in orders ==> o.sym in syms
    ensures Equity(After(s, m, orders, filled), m, syms) == Equity(s, m, syms)
  {
    if orders != [] {
      var n := |orders| - 1;
      EquityIsConserved(s, m, syms, orders[..n], filled);
      assert orders[n] in orders;
      if orders[n].sym in filled { FillConserves(After(s, m, orders[..n], filled), m, syms, orders[n]); }
    }
  }

  lemma FillConserves(s: Sleeve, m: Market, syms: seq<string>, o: Delta)
    requires Listing(syms) && o.sym in syms
    ensures Equity(Fill(s, m, o), m, syms) == Equity(s, m, syms)
  {
    FilledTotal(s, m, syms, o);
  }

  lemma {:induction false} FilledTotal(s: Sleeve, m: Market, syms: seq<string>, o: Delta)
    requires Listing(syms)
    ensures HeldTotal(Fill(s, m, o), m, syms) ==
            HeldTotal(s, m, syms) + if o.sym in syms then Times(Price(m, o.sym), o.dq as real) else 0.0
  {
    if syms != [] {
      var n := |syms| - 1;
      FilledTotal(s, m, syms[..n], o);
      FilledValue(s, m, syms[n], o);
    }
  }

  lemma FilledValue(s: Sleeve, m: Market, sym: string, o: Delta)
    ensures HeldValue(Fill(s, m, o), m, sym) ==
            HeldValue(s, m, sym) + if sym == o.sym then Times(Price(m, sym), o.dq as real) else 0.0
  {
    if sym == o.sym {
      assert Times(Price(m, sym), (Held(s, sym) + o.dq) as real)
             == Times(Price(m, sym), Held(s, sym) as real) + Times(Price(m, sym), o.dq as real);
    }
  }

  /** A fill is paid at the mark, and an unpriced symbol is worth nothing. */
  lemma FillsPayTheMark(s: Sleeve, m: Market, o: Delta)
    ensures var px := if o.sym in m.prices then m.prices[o.sym] else 0.0;
            Fill(s, m, o).cash == s.cash - px * o.dq as real
    ensures Held(Fill(s, m, o), o.sym) == Held(s, o.sym) + o.dq
    ensures forall x :: x != o.sym ==> Held(Fill(s, m, o), x) == Held(s, x)
  {}

  /** A holding adds its shares at the mark to the equity. */
  lemma HoldingIsWorthItsMark(s: Sleeve, m: Market, syms: seq<string>, sym: string, q: int)
    requires Listing(syms) && sym in syms
    ensures var px := if sym in m.prices then m.prices[sym] else 0.0;
            var more := Sleeve(s.cash, s.qty[sym := Held(s, sym) + q]);
            Equity(more, m, syms) == Equity(s, m, syms) + px * q as real
  {
    FillConserves(s, m, syms, Delta(sym, q));
    FillsPayTheMark(s, m, Delta(sym, q));
    CashIsNoHolding(Fill(s, m, Delta(sym, q)), Sleeve(s.cash, s.qty[sym := Held(s, sym) + q]), m, syms);
  }

  lemma {:induction false} CashIsNoHolding(a: Sleeve, b: Sleeve, m: Market, syms: seq<string>)
    requires a.qty == b.qty
    ensures HeldTotal(a, m, syms) == HeldTotal(b, m, syms)
  {
    if syms != [] { CashIsNoHolding(a, b, m, syms[..|syms| - 1]); }
  }

  /** With nothing held the equity is the cash. */
  lemma {:induction false} EquityOfCash(s: Sleeve, m: Market, syms: seq<string>)
    requires forall x :: x in s.qty ==> s.qty[x] == 0
    ensures Equity(s, m, syms) == s.cash
  {
    if syms != [] {
      EquityOfCash(s, m, syms[..|syms| - 1]);
      assert Held(s, syms[|syms| - 1]) == 0;
    }
  }

  /** A symbol is reported flat exactly when its order filled and its target is nothing. */
  lemma {:induction false} FlatIs(s: Sleeve, m: Market, orders: seq<Delta>, filled: set<string>, sym: string)
    requires DistinctSyms(orders)
    ensures sym in Flat(s, m, orders, filled) <==>
            sym in filled && exists i :: 0 <= i < |orders| && orders[i].sym == sym && Held(s, sym) + orders[i].dq == 0
  {
    if orders != [] {
      var n := |orders| - 1;
      FlatIs(s, m, orders[..n], filled, sym);
      AfterHolds(s, m, orders, filled, orders[n].sym);
      assert orders[n].sym == orders[n].sym;
    }
  }
}
