/**
 The live book (dqengine/live/book.py): the in-memory copy of one account that the fast path trades
 from. Times are in milliseconds; symbols are upper case; a blank id or client id is absent.
 */
module Book {
  import opened Common
  import opened OrderedDict

  const RECONCILE_FRESH_MS := 90000
  const RECENT_MS := 5000
  const INFLIGHT_MAX_MS := 20000
  const INFLIGHT_KEPT_MS := 2000
  const REASON_LENGTH := 300

  datatype BookOrder = BookOrder(id: string, cid: string, symbol: string, side: Side, qty: int, status: string)

  datatype Inflight = Inflight(symbol: string, side: Side, qty: int, at: int)

  datatype FillRow = FillRow(boid: string, cid: string, symbol: string, qty: int)

  type Orders = d: seq<(string, BookOrder)> | Distinct(d) witness []
  type Inflights = d: seq<(string, Inflight)> | Distinct(d) witness []

  /** The fields of the book. A book whose `frozen` is blank is not frozen. */
  datatype State = State(positions: map<string, int>, open: Orders, inflight: Inflights, recent: seq<Inflight>,
                         reconciledAt: int, frozen: string)

  const EMPTY := State(map[], [], [], [], 0, "never audited")

  // ------------------------------------------------------------------ what each operation does

  function Recent(recent: seq<Inflight>, now: int): seq<Inflight> {
    if recent == [] then []
    else Recent(recent[..|recent| - 1], now) +
         (if now - recent[|recent| - 1].at < RECENT_MS then [recent[|recent| - 1]] else [])
  }

  function AfterSubmit(b: State, cid: string, e: Inflight): State {
    b.(inflight := Put(b.inflight, cid, e), recent := Recent(b.recent + [e], e.at))
  }

  predicate DeadStatus(status: string) {
    status == "canceled" || status == "cancelled" || status == "rejected" || status == "expired"
  }

  /** The key an acknowledged order rests under: the venue's id when there is one, else our own. */
  function AckKey(cid: string, o: BookOrder): string {
    if o.id != "" then o.id else if o.cid != "" then o.cid else cid
  }

  predicate Rests(cid: string, order: Option<BookOrder>) {
    order.Some? && AckKey(cid, order.value) != "" && !DeadStatus(order.value.status)
  }

  function AfterAck(b: State, cid: string, order: Option<BookOrder>): State {
    b.(inflight := Del(b.inflight, cid),
       open := if Rests(cid, order) then Put(b.open, AckKey(cid, order.value), order.value) else b.open)
  }

  function AfterReject(b: State, cid: string): State { b.(inflight := Del(b.inflight, cid)) }

  function AfterCancel(b: State, id: string): State { b.(open := Del(b.open, id)) }

  /** The oldest entry resting under a client id or carrying it. */
  function ByCid(open: seq<(string, BookOrder)>, cid: string): (i: Option<nat>)
    ensures i.Some? ==> i.value < |open| && (open[i.value].0 == cid || open[i.value].1.cid == cid)
    ensures i.None? ==> forall j :: 0 <= j < |open| ==> open[j].0 != cid && open[j].1.cid != cid
  {
    if open == [] then None
    else if ByCid(open[..|open| - 1], cid).Some? then ByCid(open[..|open| - 1], cid)
    else if open[|open| - 1].0 == cid || open[|open| - 1].1.cid == cid then Some(|open| - 1)
    else None
  }

  /** The key of the entry a fill is evidence for. */
  function FillKey(open: seq<(string, BookOrder)>, x: FillRow): (k: Option<string>)
    ensures k.Some? ==> Has(open, k.value)
  {
    if x.boid != "" && Has(open, x.boid) then Some(x.boid)
    else if x.cid != "" && ByCid(open, x.cid).Some? then Some(open[ByCid(open, x.cid).value].0)
    else None
  }

  function Position(positions: map<string, int>, symbol: string): int {
    if symbol in positions then positions[symbol] else 0
  }

  function AfterFill(b: State, x: FillRow, positions: bool): State {
    var moved :=
      if positions then b.(positions := b.positions[x.symbol := Position(b.positions, x.symbol) + x.qty]) else b;
    var k := FillKey(b.open, x);
    if k.None? then moved
    else
      var o := Get(b.open, k.value);
      var left := o.qty - Abs(x.qty);
      moved.(open := if left <= 0 then Del(b.open, k.value) else Put(b.open, k.value, o.(qty := left)))
  }

  function AfterFills(b: State, xs: seq<FillRow>, positions: bool): State {
    if xs == [] then b else AfterFill(AfterFills(b, xs[..|xs| - 1], positions), xs[|xs| - 1], positions)
  }

  /** Symbols in the middle of settling: our own submit a moment ago, or one not answered yet. */
  function Settling(recent: seq<Inflight>, inflight: seq<(string, Inflight)>): set<string> {
    (set r | r in recent :: r.symbol) + (set e | e in inflight :: e.1.symbol)
  }

  function FetchedOrders(fetched: seq<BookOrder>): Orders {
    if fetched == [] then []
    else
      var o := fetched[|fetched| - 1];
      var d := FetchedOrders(fetched[..|fetched| - 1]);
      if o.id != "" then Put(d, o.id, o) else d
  }

  function ClientIds(d: seq<(string, BookOrder)>): set<string> { (set e | e in d :: e.1.cid) - {""} }

  /** A settling order the fetch does not show: the book's own entry stays. */
  predicate Stays(e: (string, BookOrder), settle: set<string>, fetched: seq<(string, BookOrder)>) {
    e.1.symbol in settle && !Has(fetched, e.0) && e.1.cid !in ClientIds(fetched)
  }

  function Staying(open: seq<(string, BookOrder)>, settle: set<string>,
                   fetched: seq<(string, BookOrder)>): (r: seq<(string, BookOrder)>)
    ensures forall e :: e in r <==> e in open && Stays(e, settle, fetched)
  {
    if open == [] then []
    else Staying(open[..|open| - 1], settle, fetched) +
         (if Stays(open[|open| - 1], settle, fetched) then [open[|open| - 1]] else [])
  }

  lemma {:induction false} StayingIsDistinct(open: seq<(string, BookOrder)>, settle: set<string>,
                                             fetched: seq<(string, BookOrder)>)
    requires Distinct(open) && Distinct(fetched)
    ensures Distinct(fetched + Staying(open, settle, fetched))
  {
    if open != [] {
      var init := open[..|open| - 1];
      StayingIsDistinct(init, settle, fetched);
      var last := open[|open| - 1];
      if Stays(last, settle, fetched) {
        var d := fetched + Staying(init, settle, fetched);
        forall i | 0 <= i < |d| ensures d[i].0 != last.0 {
          if i >= |fetched| {
            assert d[i] in Staying(init, settle, fetched);
            var j :| 0 <= j < |init| && init[j] == d[i];
            assert open[j].0 != last.0;
          }
        }
        assert Distinct(d + [last]);
        assert Staying(open, settle, fetched) == Staying(init, settle, fetched) + [last];
        assert fetched + Staying(open, settle, fetched) == d + [last];
      } else {
        assert Staying(open, settle, fetched) == Staying(init, settle, fetched);
      }
    }
  }

  function AuditPositions(own: map<string, int>, fetched: map<string, int>, settle: set<string>): map<string, int> {
    map s | s in own.Keys + fetched.Keys && (if s in settle then s in own else s in fetched)
      :: if s in settle then own[s] else fetched[s]
  }

  function AuditOrders(open: Orders, fetched: seq<BookOrder>, settle: set<string>): Orders {
    var d := FetchedOrders(fetched);
    StayingIsDistinct(open, settle, d);
    d + Staying(open, settle, d)
  }

  function YoungInflight(inflight: Inflights, now: int): (r: Inflights)
    ensures forall e :: e in r <==> e in inflight && now - e.1.at < INFLIGHT_KEPT_MS
  {
    if inflight == [] then []
    else
      var last := inflight[|inflight| - 1];
      var init := YoungInflight(inflight[..|inflight| - 1], now);
      if now - last.1.at < INFLIGHT_KEPT_MS then
        assert forall i :: 0 <= i < |init| ==> init[i] in inflight[..|inflight| - 1];
        init + [last]
      else init
  }

  function AfterAudit(b: State, now: int, positions: map<string, int>, fetched: seq<BookOrder>): State {
    var recent := Recent(b.recent, now);
    var settle := Settling(recent, b.inflight);
    State(AuditPositions(b.positions, positions, settle), AuditOrders(b.open, fetched, settle),
          YoungInflight(b.inflight, now), recent, now, "")
  }

  function AfterFreeze(b: State, reason: string): State {
    b.(frozen := if |reason| <= REASON_LENGTH then reason else reason[..REASON_LENGTH])
  }

  /** An order submitted and never answered for longer than the book trusts. */
  predicate Overdue(b: State, now: int) {
    exists e :: e in b.inflight && now - e.1.at > INFLIGHT_MAX_MS
  }

  predicate FastPathOk(b: State, now: int) {
    b.frozen == "" && now - b.reconciledAt <= RECONCILE_FRESH_MS && !Overdue(b, now)
  }

  /** Asking is not free of effect: an overdue order freezes the book on the spot. */
  function AfterAsking(b: State, now: int, reason: string): State {
    if b.frozen == "" && now - b.reconciledAt <= RECONCILE_FRESH_MS && Overdue(b, now) then b.(frozen := reason) else b
  }

  // ------------------------------------------------------------------ exposure

  function OrderIn(symbol: string): BookOrder -> int {
    (o: BookOrder) => if o.symbol == symbol then Sign(o.side) * o.qty else 0
  }

  function InflightIn(symbol: string): Inflight -> int {
    (e: Inflight) => if e.symbol == symbol then Sign(e.side) * e.qty else 0
  }

  /** What the account holds of a symbol once everything the book knows to be under way has filled. */
  function Exposure(b: State, symbol: string): int {
    Position(b.positions, symbol) + Sum(b.open, OrderIn(symbol)) + Sum(b.inflight, InflightIn(symbol))
  }

  /** Each operation but the audit moves the exposure by exactly what it stands for, whatever is in the
      book: an entry it overwrites leaves, an entry it removes leaves, an entry it adds comes in. */
  lemma SubmitMoves(b: State, cid: string, e: Inflight, s: string)
    ensures Exposure(AfterSubmit(b, cid, e), s) == Exposure(b, s) - Value(b.inflight, cid, InflightIn(s))
            + InflightIn(s)(e)
  {
    SumPut(b.inflight, cid, e, InflightIn(s));
  }

  lemma AckMoves(b: State, cid: string, order: Option<BookOrder>, s: string)
    ensures Exposure(AfterAck(b, cid, order), s) == Exposure(b, s) - Value(b.inflight, cid, InflightIn(s))
              + (if Rests(cid, order)
                 then OrderIn(s)(order.value) - Value(b.open, AckKey(cid, order.value), OrderIn(s)) else 0)
  {
    SumDel(b.inflight, cid, InflightIn(s));
    if Rests(cid, order) { SumPut(b.open, AckKey(cid, order.value), order.value, OrderIn(s)); }
  }

  lemma CancelMoves(b: State, id: string, cid: string, s: string)
    ensures Exposure(AfterCancel(b, id), s) == Exposure(b, s) - Value(b.open, id, OrderIn(s))
    ensures Exposure(AfterReject(b, cid), s) == Exposure(b, s) - Value(b.inflight, cid, InflightIn(s))
  {
    SumDel(b.open, id, OrderIn(s));
    SumDel(b.inflight, cid, InflightIn(s));
  }

  /** The acknowledgement of a submit the book knows, under a key nothing else rests under, changes no
      exposure when the order is live and takes its quantity out when it is dead. */
  lemma LiveAckConserves(b: State, cid: string, o: BookOrder, s: string)
    requires Has(b.inflight, cid)
    requires var e := Get(b.inflight, cid); o.symbol == e.symbol && o.side == e.side && o.qty == e.qty
    requires AckKey(cid, o) != "" && !Has(b.open, AckKey(cid, o))
    ensures !DeadStatus(o.status) ==> Exposure(AfterAck(b, cid, Some(o)), s) == Exposure(b, s)
    ensures DeadStatus(o.status) ==> Exposure(AfterAck(b, cid, Some(o)), s) == Exposure(b, s) - OrderIn(s)(o)
  {
    AckMoves(b, cid, Some(o), s);
  }

  /** What a fill takes out of the pending orders of a symbol: its size, but no more than the order it names
      had left. */
  function TakenFrom(b: State, x: FillRow, s: string): int {
    var k := FillKey(b.open, x);
    if k.None? then 0
    else
      var o := Get(b.open, k.value);
      if o.symbol == s then Sign(o.side) * Min(Abs(x.qty), o.qty) else 0
  }

  lemma FillTakes(b: State, x: FillRow, s: string)
    ensures Sum(AfterFill(b, x, true).open, OrderIn(s)) == Sum(b.open, OrderIn(s)) - TakenFrom(b, x, s)
  {
    var k := FillKey(b.open, x);
    if k.Some? {
      var o := Get(b.open, k.value);
      if o.qty - Abs(x.qty) <= 0 {
        SumDel(b.open, k.value, OrderIn(s));
      } else {
        SumPut(b.open, k.value, o.(qty := o.qty - Abs(x.qty)), OrderIn(s));
      }
    }
  }

  /** A fill moves its quantity into the position and out of the pending order it names. */
  lemma FillMoves(b: State, x: FillRow, s: string)
    ensures Exposure(AfterFill(b, x, true), s) ==
            Exposure(b, s) + (if x.symbol == s then x.qty else 0) - TakenFrom(b, x, s)
  {
    FillTakes(b, x, s);
    assert AfterFill(b, x, true).inflight == b.inflight;
    assert AfterFill(b, x, true).positions == b.positions[x.symbol := Position(b.positions, x.symbol) + x.qty];
  }

  /** It leaves the exposure alone exactly when the two quantities agree: same side, and no more than was
      pending. */
  lemma FillConservesExactly(b: State, x: FillRow)
    requires FillKey(b.open, x).Some? && Get(b.open, FillKey(b.open, x).value).symbol == x.symbol
    ensures var o := Get(b.open, FillKey(b.open, x).value);
            o.qty >= 0 ==>
              (Exposure(AfterFill(b, x, true), x.symbol) == Exposure(b, x.symbol) <==>
               x.qty == 0 || (Sign(o.side) * x.qty > 0 && Abs(x.qty) <= o.qty))
  {
    FillMoves(b, x, x.symbol);
  }

  // ------------------------------------------------------------------ lifecycles

  function Submitted(b: State, cid: string, o: BookOrder, at: int): State {
    AfterSubmit(b, cid, Inflight(o.symbol, o.side, o.qty, at))
  }

  /** Submit and live acknowledgement of a fresh order, together: one more entry at the end. */
  lemma SubmitThenAck(b: State, cid: string, o: BookOrder, at: int)
    requires o.cid == cid && !DeadStatus(o.status) && AckKey(cid, o) != ""
    requires !Has(b.inflight, cid) && !Has(b.open, AckKey(cid, o))
    ensures AfterAck(Submitted(b, cid, o, at), cid, Some(o))
            == Submitted(b, cid, o, at).(inflight := b.inflight, open := b.open + [(AckKey(cid, o), o)])
  {
    var i1 := Submitted(b, cid, o, at).inflight;
    AtIs(i1, |b.inflight|);
    assert i1[..|b.inflight|] + i1[|b.inflight| + 1..] == b.inflight;
  }

  /** The whole fill of the last entry takes it out again. */
  lemma FillOfLast(b: State, open: Orders, k: string, o: BookOrder, qty: int)
    requires b.open == open + [(k, o)] && !Has(open, k) && o.qty > 0 && Abs(qty) == o.qty
    requires k == (if o.id != "" then o.id else o.cid) && o.cid != "" && ByCid(open, o.cid).None?
    ensures AfterFill(b, FillRow(o.id, o.cid, o.symbol, qty), true)
            == b.(open := open, positions := b.positions[o.symbol := Position(b.positions, o.symbol) + qty])
  {
    KeyOfLast(open, k, o, FillRow(o.id, o.cid, o.symbol, qty));
    DelLast(open, (k, o));
  }

  lemma KeyOfLast(open: Orders, k: string, o: BookOrder, x: FillRow)
    requires Distinct(open + [(k, o)]) && x.boid == o.id && x.cid == o.cid
    requires k == (if o.id != "" then o.id else o.cid) && o.cid != "" && ByCid(open, o.cid).None?
    ensures FillKey(open + [(k, o)], x) == Some(k) && Get(open + [(k, o)], k) == o
  {
    AtIs(open + [(k, o)], |open|);
    ByCidLast(open, (k, o), o.cid);
  }

  lemma DelLast(open: Orders, e: (string, BookOrder))
    requires Distinct(open + [e])
    ensures Del(open + [e], e.0) == open
  {
    var all := open + [e];
    AtIs(all, |open|);
    assert all[..|open|] == open && all[|open| + 1..] == [];
  }

  /** An order that is submitted, acknowledged and filled whole ends as exactly its shares: the exposure
      moved once, at the submit, and nothing of the order is left in the book. */
  lemma WholeLifeOfAnOrder(b: State, cid: string, o: BookOrder, at: int, s: string)
    requires cid != "" && o.cid == cid && o.qty > 0 && !DeadStatus(o.status)
    requires !Has(b.inflight, cid) && !Has(b.open, AckKey(cid, o)) && ByCid(b.open, cid).None?
    ensures var acked := AfterAck(Submitted(b, cid, o, at), cid, Some(o));
            var done := AfterFill(acked, FillRow(o.id, cid, o.symbol, Sign(o.side) * o.qty), true);
            && Exposure(Submitted(b, cid, o, at), s) == Exposure(b, s) + OrderIn(s)(o)
            && Exposure(acked, s) == Exposure(b, s) + OrderIn(s)(o)
            && Exposure(done, s) == Exposure(b, s) + OrderIn(s)(o)
            && done.open == b.open && done.inflight == b.inflight
            && Position(done.positions, o.symbol) == Position(b.positions, o.symbol) + Sign(o.side) * o.qty
  {
    SubmitMoves(b, cid, Inflight(o.symbol, o.side, o.qty, at), s);
    SubmitThenAck(b, cid, o, at);
    var acked := AfterAck(Submitted(b, cid, o, at), cid, Some(o));
    SumConcat(b.open, [(AckKey(cid, o), o)], OrderIn(s));
    SumOne((AckKey(cid, o), o), OrderIn(s));
    FillOfLast(acked, b.open, AckKey(cid, o), o, Sign(o.side) * o.qty);
  }

  lemma ByCidLast(open: seq<(string, BookOrder)>, e: (string, BookOrder), cid: string)
    requires ByCid(open, cid).None? && (e.0 == cid || e.1.cid == cid)
    ensures ByCid(open + [e], cid) == Some(|open|)
  {
    assert (open + [e])[..|open|] == open;
  }

  /** A fill that overtakes its acknowledgement finds no pending order to clear: the shares are counted as
      a position and again as the order, until an audit. */
  lemma OvertakingFillCountsTwice(b: State, cid: string, o: BookOrder, at: int)
    requires cid != "" && o.cid == cid && !DeadStatus(o.status)
    requires !Has(b.inflight, cid) && !Has(b.open, AckKey(cid, o)) && (o.id != "" ==> !Has(b.open, o.id))
             && ByCid(b.open, cid).None?
    ensures var filled := AfterFill(Submitted(b, cid, o, at), FillRow(o.id, cid, o.symbol, Sign(o.side) * o.qty), true);
            Exposure(AfterAck(filled, cid, Some(o)), o.symbol) == Exposure(b, o.symbol) + 2 * OrderIn(o.symbol)(o)
  {
    var s := o.symbol;
    var x := FillRow(o.id, cid, s, Sign(o.side) * o.qty);
    var moved := b.(positions := b.positions[s := Position(b.positions, s) + x.qty]);
    assert FillKey(b.open, x).None?;
    assert AfterFill(Submitted(b, cid, o, at), x, true) == Submitted(moved, cid, o, at);
    AckedExposure(moved, cid, o, at, s);
    MovedExposure(b, s, x.qty);
  }

  lemma MovedExposure(b: State, s: string, qty: int)
    ensures Exposure(b.(positions := b.positions[s := Position(b.positions, s) + qty]), s) == Exposure(b, s) + qty
  {}

  /** Submitted and acknowledged alive, an order adds its signed quantity to the exposure. */
  lemma AckedExposure(b: State, cid: string, o: BookOrder, at: int, s: string)
    requires cid != "" && o.cid == cid && !DeadStatus(o.status)
    requires !Has(b.inflight, cid) && !Has(b.open, AckKey(cid, o))
    ensures Exposure(AfterAck(Submitted(b, cid, o, at), cid, Some(o)), s) == Exposure(b, s) + OrderIn(s)(o)
  {
    SubmitThenAck(b, cid, o, at);
    SumConcat(b.open, [(AckKey(cid, o), o)], OrderIn(s));
    SumOne((AckKey(cid, o), o), OrderIn(s));
  }

  // ------------------------------------------------------------------ the audit

  /** A symbol that is not settling is after the audit exactly what the venue said: the fetched position
      and the fetched orders that carry an id, and nothing of ours. */
  lemma AuditTakesTheVenue(b: State, now: int, positions: map<string, int>, fetched: seq<BookOrder>, s: string)
    requires s !in Settling(Recent(b.recent, now), b.inflight)
    ensures var a := AfterAudit(b, now, positions, fetched);
            && (s in a.positions <==> s in positions) && (s in positions ==> a.positions[s] == positions[s])
            && Exposure(a, s) == Position(positions, s) + Sum(FetchedOrders(fetched), OrderIn(s))
            && (forall k :: Has(a.open, k) && Get(a.open, k).symbol == s ==> Has(FetchedOrders(fetched), k))
  {
    var recent := Recent(b.recent, now);
    var settle := Settling(recent, b.inflight);
    var d := FetchedOrders(fetched);
    var a := AfterAudit(b, now, positions, fetched);
    var staying := Staying(b.open, settle, d);
    SumConcat(d, staying, OrderIn(s));
    NothingOf(staying, s);
    NoInflightOf(a.inflight, s);
    forall i | |d| <= i < |a.open| ensures a.open[i].1.symbol != s { assert a.open[i] in staying; }
    forall k | Has(a.open, k) && Get(a.open, k).symbol == s ensures Has(d, k) { AtIs(d, At(a.open, k).value); }
  }

  lemma {:induction false} NothingOf(d: seq<(string, BookOrder)>, s: string)
    requires forall e :: e in d ==> e.1.symbol != s
    ensures Sum(d, OrderIn(s)) == 0
  {
    if d != [] { NothingOf(d[..|d| - 1], s); }
  }

  lemma {:induction false} NoInflightOf(d: seq<(string, Inflight)>, s: string)
    requires forall e :: e in d ==> e.1.symbol != s
    ensures Sum(d, InflightIn(s)) == 0
  {
    if d != [] { NoInflightOf(d[..|d| - 1], s); }
  }

  /** A settling symbol keeps the book's own position. */
  lemma AuditKeepsSettlingPositions(b: State, now: int, positions: map<string, int>, fetched: seq<BookOrder>, s: string)
    requires s in Settling(Recent(b.recent, now), b.inflight)
    ensures var a := AfterAudit(b, now, positions, fetched);
            (s in a.positions <==> s in b.positions) && (s in b.positions ==> a.positions[s] == b.positions[s])
  {}

  /** None of a settling symbol's pending orders is lost: each is still there under its key, or the fetch
      shows it under the venue's id with the same client id. */
  lemma AuditLosesNoPendingOrder(b: State, now: int, positions: map<string, int>, fetched: seq<BookOrder>, s: string,
                                 k: string)
    requires s in Settling(Recent(b.recent, now), b.inflight) && Has(b.open, k) && Get(b.open, k).symbol == s
    ensures var a := AfterAudit(b, now, positions, fetched);
            Has(a.open, k) || exists k' :: Has(a.open, k') && Get(a.open, k').cid == Get(b.open, k).cid != ""
  {
    MergedKeepsOrder(b.open, fetched, Settling(Recent(b.recent, now), b.inflight), k);
  }

  lemma MergedKeepsOrder(open: Orders, fetched: seq<BookOrder>, settle: set<string>, k: string)
    requires Has(open, k) && Get(open, k).symbol in settle
    ensures var merged := AuditOrders(open, fetched, settle);
            Has(merged, k) || exists k' :: Has(merged, k') && Get(merged, k').cid == Get(open, k).cid != ""
  {
    var d, merged := FetchedOrders(fetched), AuditOrders(open, fetched, settle);
    var e, staying := open[At(open, k).value], Staying(open, settle, d);
    if Has(d, k) {
      AtIs(merged, At(d, k).value);
    } else if e.1.cid in ClientIds(d) {
      var i :| 0 <= i < |d| && d[i].1.cid == e.1.cid;
      AtIs(merged, i);
      assert Get(merged, merged[i].0) == d[i].1;
    } else {
      assert e in open && e in staying;
      var j :| 0 <= j < |staying| && staying[j] == e;
      AtIs(merged, |d| + j);
    }
  }

  // ------------------------------------------------------------------ the licence

  /** The licence is read off the book: unfrozen, audited within ninety seconds, nothing unanswered for
      more than twenty; and asking again after a refusal for an overdue order refuses too. */
  lemma AskingIsConsistent(b: State, now: int, reason: string)
    requires reason != ""
    ensures FastPathOk(b, now) ==> AfterAsking(b, now, reason) == b
    ensures !FastPathOk(b, now) ==> !FastPathOk(AfterAsking(b, now, reason), now)
    ensures AfterAsking(b, now, reason) != b ==>
              b.frozen == "" && now - b.reconciledAt <= 90000 && exists e :: e in b.inflight && now - e.1.at > 20000
    ensures b.frozen == "" && now - b.reconciledAt <= 90000 && Overdue(b, now) ==>
              AfterAsking(b, now, reason).frozen == reason
  {}

  /** What a fetch shows under a key: the last of its orders with that id, and nothing without an id. */
  lemma {:induction false} FetchedExactly(fetched: seq<BookOrder>, k: string)
    ensures Has(FetchedOrders(fetched), k) <==> k != "" && exists i :: 0 <= i < |fetched| && fetched[i].id == k
    ensures Has(FetchedOrders(fetched), k) ==>
              exists i :: 0 <= i < |fetched| && fetched[i].id == k && Get(FetchedOrders(fetched), k) == fetched[i]
                          && forall j :: i < j < |fetched| ==> fetched[j].id != k
  {
    if fetched != [] {
      var n := |fetched| - 1;
      FetchedExactly(fetched[..n], k);
      assert forall i :: 0 <= i < n ==> fetched[..n][i] == fetched[i];
      if fetched[n].id == k { FetchedLast(fetched, k); } else { FetchedBefore(fetched, k); }
    }
  }

  lemma FetchedLast(fetched: seq<BookOrder>, k: string)
    requires fetched != [] && fetched[|fetched| - 1].id == k
    ensures Has(FetchedOrders(fetched), k) <==> k != ""
    ensures k != "" ==> Get(FetchedOrders(fetched), k) == fetched[|fetched| - 1]
  {}

  lemma FetchedBefore(fetched: seq<BookOrder>, k: string)
    requires fetched != [] && fetched[|fetched| - 1].id != k
    ensures var d, before := FetchedOrders(fetched), FetchedOrders(fetched[..|fetched| - 1]);
            (Has(d, k) <==> Has(before, k)) && (Has(d, k) ==> Get(d, k) == Get(before, k))
  {
    var o := fetched[|fetched| - 1];
    if o.id != "" { PutGets(FetchedOrders(fetched[..|fetched| - 1]), o.id, o, k); }
  }

  /** Whose word counts for an open order after an audit: what was fetched, and beside it the book's own entries
      of settling symbols that no fetched order shows, by key or by client id. */
  lemma MergedExactly(open: Orders, fetched: seq<BookOrder>, settle: set<string>, k: string, o: BookOrder)
    ensures (k, o) in AuditOrders(open, fetched, settle) <==>
              || (k, o) in FetchedOrders(fetched)
              || ((k, o) in open && o.symbol in settle && !Has(FetchedOrders(fetched), k)
                  && (o.cid == "" || forall e :: e in FetchedOrders(fetched) ==> e.1.cid != o.cid))
  {
    var d := FetchedOrders(fetched);
    assert o.cid in ClientIds(d) <==> o.cid != "" && exists e :: e in d && e.1.cid == o.cid;
  }

  /** The entry a fill is evidence for: the one under its venue id; without that the oldest that rests under its
      client id or carries it; without either none. */
  lemma FillKeyExactly(open: Orders, x: FillRow)
    ensures x.boid != "" && Has(open, x.boid) ==> FillKey(open, x) == Some(x.boid)
    ensures !(x.boid != "" && Has(open, x.boid)) && x.cid != "" ==>
              forall i :: 0 <= i < |open| && (open[i].0 == x.cid || open[i].1.cid == x.cid)
                          && (forall j :: 0 <= j < i ==> open[j].0 != x.cid && open[j].1.cid != x.cid) ==>
                            FillKey(open, x) == Some(open[i].0)
    ensures FillKey(open, x).None? <==>
              && !(x.boid != "" && Has(open, x.boid))
              && (x.cid == "" || forall i :: 0 <= i < |open| ==> open[i].0 != x.cid && open[i].1.cid != x.cid)
  {
    forall i | 0 <= i < |open| && (open[i].0 == x.cid || open[i].1.cid == x.cid)
               && (forall j :: 0 <= j < i ==> open[j].0 != x.cid && open[j].1.cid != x.cid)
      ensures ByCid(open, x.cid) == Some(i)
    {
      FirstIsByCid(open, i, x.cid);
    }
  }

  /** The signed quantity of a symbol's fills. */
  function FilledOf(xs: seq<FillRow>, s: string): int {
    if xs == [] then 0 else FilledOf(xs[..|xs| - 1], s) + if xs[|xs| - 1].symbol == s then xs[|xs| - 1].qty else 0
  }

  /** A batch of fills moves each symbol's position by its fills, or, learned after an audit, none; and in
      either case it clears the pending orders one fill after the other. */
  lemma {:induction false} BatchMoves(b: State, xs: seq<FillRow>, positions: bool, s: string)
    ensures Position(AfterFills(b, xs, positions).positions, s)
            == Position(b.positions, s) + if positions then FilledOf(xs, s) else 0
    ensures xs != [] ==>
              AfterFills(b, xs, positions).open
              == AfterFill(AfterFills(b, xs[..|xs| - 1], positions), xs[|xs| - 1], positions).open
  {
    if xs != [] { BatchMoves(b, xs[..|xs| - 1], positions, s); }
  }

  /** The key an acknowledged order rests under: the venue's id, or without one its client id, or without that
      the one it was sent under; it rests unless that is blank too or its status says it is dead. */
  lemma RestsExactly(cid: string, o: BookOrder)
    ensures AckKey(cid, o) != "" ==> AckKey(cid, o) in {o.id, o.cid, cid}
    ensures o.id != "" ==> AckKey(cid, o) == o.id
    ensures o.id == "" && o.cid != "" ==> AckKey(cid, o) == o.cid
    ensures o.id == "" && o.cid == "" ==> AckKey(cid, o) == cid
    ensures Rests(cid, Some(o)) <==>
              (o.id != "" || o.cid != "" || cid != "")
              && o.status !in {"canceled", "cancelled", "rejected", "expired"}
    ensures !Rests(cid, None)
  {}

  /** A freeze shuts the fast path exactly when it names a reason: a blank one leaves an unfrozen book
      open, and even opens a frozen one. */
  lemma FreezeNeedsAReason(b: State, reason: string, now: int)
    ensures reason != "" ==> !FastPathOk(AfterFreeze(b, reason), now)
    ensures reason == "" ==> (FastPathOk(AfterFreeze(b, reason), now) <==>
                                now - b.reconciledAt <= 90000 && !Overdue(b, now))
    ensures AfterFreeze(b, reason) == b.(frozen := if |reason| <= 300 then reason else reason[..300])
  {}

  // ------------------------------------------------------------------ the object

  class LiveBook {
    var positions: map<string, int>
    var open: Orders
    var inflight: Inflights
    var recent: seq<Inflight>
    var reconciledAt: int
    var frozen: string

    function Now(): State reads this { State(positions, open, inflight, recent, reconciledAt, frozen) }

    constructor ()
      ensures Now() == EMPTY
    {
      positions, open, inflight, recent, reconciledAt, frozen := map[], [], [], [], 0, "never audited";
    }

    method FastPath(now: int, reason: string) returns (ok: bool)
      requires reason != ""
      modifies this
      ensures ok == old(FastPathOk(Now(), now))
      ensures Now() == AfterAsking(old(Now()), now, reason)
    {
      if frozen != "" { return false; }
      if now - reconciledAt > RECONCILE_FRESH_MS { return false; }
      var i := 0;
      while i < |inflight|
        invariant 0 <= i <= |inflight| && Now() == old(Now())
        invariant forall j :: 0 <= j < i ==> now - inflight[j].1.at <= INFLIGHT_MAX_MS
      {
        if now - inflight[i].1.at > INFLIGHT_MAX_MS {
          assert inflight[i] in inflight;
          frozen := reason;
          return false;
        }
        i := i + 1;
      }
      ok := true;
    }

    method Freeze(reason: string)
      modifies this
      ensures Now() == AfterFreeze(old(Now()), reason)
    {
      frozen := if |reason| <= REASON_LENGTH then reason else reason[..REASON_LENGTH];
    }

    method NoteSubmit(cid: string, symbol: string, side: Side, qty: int, now: int)
      modifies this
      ensures Now() == AfterSubmit(old(Now()), cid, Inflight(symbol, side, qty, now))
    {
      inflight := Put(inflight, cid, Inflight(symbol, side, qty, now));
      recent := recent + [Inflight(symbol, side, qty, now)];
      CollectRecent(now);
    }

    method CollectRecent(now: int)
      modifies this`recent
      ensures recent == Recent(old(recent), now)
    {
      var kept: seq<Inflight> := [];
      var i := 0;
      while i < |recent|
        invariant 0 <= i <= |recent| && recent == old(recent)
        invariant kept == Recent(recent[..i], now)
      {
        assert recent[..i + 1][..i] == recent[..i];
        if now - recent[i].at < RECENT_MS { kept := kept + [recent[i]]; }
        i := i + 1;
      }
      assert recent[..i] == recent;
      recent := kept;
    }

    method NoteAck(cid: string, order: Option<BookOrder>)
      modifies this
      ensures Now() == AfterAck(old(Now()), cid, order)
    {
      inflight := Del(inflight, cid);
      if order.None? { return; }
      var o := order.value;
      var key := if o.id != "" then o.id else if o.cid != "" then o.cid else cid;
      if key == "" || DeadStatus(o.status) { return; }
      open := Put(open, key, o);
    }

    method NoteReject(cid: string)
      modifies this
      ensures Now() == AfterReject(old(Now()), cid)
    {
      inflight := Del(inflight, cid);
    }

    method NoteCancel(id: string)
      modifies this
      ensures Now() == AfterCancel(old(Now()), id)
    {
      open := Del(open, id);
    }

    method NoteFills(xs: seq<FillRow>, move: bool)
      modifies this
      ensures Now() == AfterFills(old(Now()), xs, move)
    {
      var i := 0;
      while i < |xs|
        invariant 0 <= i <= |xs|
        invariant Now() == AfterFills(old(Now()), xs[..i], move)
      {
        assert xs[..i + 1][..i] == xs[..i];
        NoteFill(xs[i], move);
        i := i + 1;
      }
      assert xs[..i] == xs;
    }

    method NoteFill(x: FillRow, move: bool)
      modifies this
      ensures Now() == AfterFill(old(Now()), x, move)
    {
      if move { positions := positions[x.symbol := Position(positions, x.symbol) + x.qty]; }
      var key := KeyOfFill(open, x);
      if key.Some? {
        var o := Get(open, key.value);
        var left := o.qty - Abs(x.qty);
        open := Put(open, key.value, o.(qty := left));
        if left <= 0 {
          DelAfterPut(old(open), key.value, o.(qty := left));
          open := Del(open, key.value);
        }
      }
    }

    /** A clean audit: the venue wins, except for symbols that are still settling. */
    method ApplyAudit(now: int, fetchedPositions: map<string, int>, fetched: seq<BookOrder>)
      modifies this
      ensures Now() == AfterAudit(old(Now()), now, fetchedPositions, fetched)
    {
      CollectRecent(now);
      var settle := Settling(recent, inflight);
      var newPositions := MergePositions(positions, fetchedPositions, settle);
      var newOpen := MergeOrders(open, fetched, settle);
      positions, open := newPositions, newOpen;
      inflight := YoungInflight(inflight, now);
      reconciledAt := now;
      frozen := "";
    }
  }

  method MergePositions(own: map<string, int>, fetched: map<string, int>, settle: set<string>)
    returns (merged: map<string, int>)
    ensures merged == AuditPositions(own, fetched, settle)
  {
    merged := fetched;
    var rest := settle;
    while rest != {}
      invariant rest <= settle
      invariant merged == AuditPositions(own, fetched, settle - rest)
      decreases |rest|
    {
      var s :| s in rest;
      rest := rest - {s};
      if s in own { merged := merged[s := own[s]]; } else { merged := merged - {s}; }
    }
    assert settle - rest == settle;
  }

  method MergeOrders(open: Orders, fetched: seq<BookOrder>, settle: set<string>)
    returns (merged: seq<(string, BookOrder)>)
    ensures merged == AuditOrders(open, fetched, settle)
  {
    var d := FetchedOrders(fetched);
    merged := d;
    var fetchedCids := ClientIds(d);
    var i := 0;
    while i < |open|
      invariant 0 <= i <= |open|
      invariant merged == d + Staying(open[..i], settle, d)
    {
      var (k, o) := open[i];
      assert open[..i + 1][..i] == open[..i];
      KeyIsFetchedOrNew(open, settle, d, i);
      if o.symbol in settle && !Has(merged, k) && o.cid !in fetchedCids { merged := merged + [(k, o)]; }
      i := i + 1;
    }
    assert open[..i] == open;
  }

  /** The entry a fill is evidence for: by the venue's id, or the first one under or with its client id. */
  method KeyOfFill(open: Orders, x: FillRow) returns (key: Option<string>)
    ensures key == FillKey(open, x)
  {
    if x.boid != "" && Has(open, x.boid) { return Some(x.boid); }
    if x.cid == "" { return None; }
    for i := 0 to |open|
      invariant forall j :: 0 <= j < i ==> open[j].0 != x.cid && open[j].1.cid != x.cid
    {
      if open[i].0 == x.cid || open[i].1.cid == x.cid {
        FirstIsByCid(open, i, x.cid);
        return Some(open[i].0);
      }
    }
    return None;
  }

  lemma FirstIsByCid(open: seq<(string, BookOrder)>, i: nat, cid: string)
    requires i < |open| && (open[i].0 == cid || open[i].1.cid == cid)
    requires forall j :: 0 <= j < i ==> open[j].0 != cid && open[j].1.cid != cid
    ensures ByCid(open, cid) == Some(i)
  {
    var n := |open| - 1;
    if i < n { FirstIsByCid(open[..n], i, cid); }
    else { assert forall j :: 0 <= j < n ==> open[..n][j] == open[j]; }
  }

  lemma DelAfterPut(d: seq<(string, BookOrder)>, k: string, o: BookOrder)
    requires Distinct(d) && Has(d, k)
    ensures Has(Put(d, k, o), k) && Del(Put(d, k, o), k) == Del(d, k)
  {
    var i := At(d, k).value;
    AtIs(Put(d, k, o), i);
  }

  /** While the loop of the audit runs, a key of the book is in the new dictionary only if it was fetched. */
  lemma KeyIsFetchedOrNew(open: Orders, settle: set<string>, d: Orders, i: nat)
    requires i < |open|
    ensures Has(d + Staying(open[..i], settle, d), open[i].0) <==> Has(d, open[i].0)
  {
    var all := d + Staying(open[..i], settle, d);
    StayingIsDistinct(open[..i], settle, d);
    var k := open[i].0;
    if Has(d, k) { AtIs(all, At(d, k).value); }
    forall j | |d| <= j < |all| ensures all[j].0 != k {
      assert all[j] in Staying(open[..i], settle, d);
      var m :| 0 <= m < i && open[..i][m] == all[j];
      assert open[m].0 != open[i].0;
    }
    if Has(all, k) { AtIs(d, At(all, k).value); }
  }
}
