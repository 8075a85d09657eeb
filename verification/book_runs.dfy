/**
 The live book over whole runs of its operations: how long a submit keeps its symbol settling, what a
 settling symbol's position is worth, and what an audit takes out of its exposure.
 */
module BookRuns {
  import opened Common
  import opened OrderedDict
  import opened Book

  datatype Note =
    | Submit(cid: string, e: Inflight)
    | Ack(cid: string, order: Option<BookOrder>)
    | Reject(cid: string)
    | Cancel(id: string)
    | Fill(x: FillRow, move: bool)
    | Audit(now: int, positions: map<string, int>, fetched: seq<BookOrder>)
    | Freeze(reason: string)
    | Ask(now: int, reason: string)

  function Noted(b: State, n: Note): State {
    match n
    case Submit(cid, e) => AfterSubmit(b, cid, e)
    case Ack(cid, order) => AfterAck(b, cid, order)
    case Reject(cid) => AfterReject(b, cid)
    case Cancel(id) => AfterCancel(b, id)
    case Fill(x, move) => AfterFill(b, x, move)
    case Audit(now, positions, fetched) => AfterAudit(b, now, positions, fetched)
    case Freeze(reason) => AfterFreeze(b, reason)
    case Ask(now, reason) => AfterAsking(b, now, reason)
  }

  function AfterNotes(b: State, ns: seq<Note>): State {
    if ns == [] then b else Noted(AfterNotes(b, ns[..|ns| - 1]), ns[|ns| - 1])
  }

  /** The clock an operation reads, if it drops what is no longer recent. */
  function Clock(n: Note): Option<int> {
    match n case Submit(_, e) => Some(e.at) case Audit(now, _, _) => Some(now) case _ => None
  }

  predicate Until(n: Note, t: int) { Clock(n).Some? ==> Clock(n).value < t }

  predicate IsSettling(b: State, s: string, now: int) { s in Settling(Recent(b.recent, now), b.inflight) }

  // ------------------------------------------------------------------ the window of a submit

  lemma {:induction false} RecentIs(recent: seq<Inflight>, now: int)
    ensures forall r :: r in Recent(recent, now) <==> r in recent && now - r.at < 5000
  {
    if recent != [] {
      var n := |recent| - 1;
      RecentIs(recent[..n], now);
      LastSplits([], recent);
    }
  }

  lemma OneNoteKeepsRecent(b: State, n: Note, e: Inflight)
    requires e in b.recent && Until(n, e.at + 5000)
    ensures e in Noted(b, n).recent
  {
    match n
    case Submit(_, x) => RecentIs(b.recent + [x], x.at);
    case Audit(now, _, _) => RecentIs(b.recent, now);
    case _ =>
  }

  /** What is recent stays recent until a clock five seconds later is read. */
  lemma {:induction false} RecentStays(b: State, ns: seq<Note>, e: Inflight)
    requires e in b.recent && forall n :: n in ns ==> Until(n, e.at + 5000)
    ensures e in AfterNotes(b, ns).recent
  {
    if ns != [] {
      var k := |ns| - 1;
      assert ns[k] in ns && forall n :: n in ns[..k] ==> n in ns;
      RecentStays(b, ns[..k], e);
      OneNoteKeepsRecent(AfterNotes(b, ns[..k]), ns[k], e);
    }
  }

  /** The fills of a symbol that were noted as moving its position. */
  function Moved(ns: seq<Note>, s: string): int {
    if ns == [] then 0
    else
      var n := ns[|ns| - 1];
      Moved(ns[..|ns| - 1], s) + if MovesPosition(n, s) then n.x.qty else 0
  }

  predicate MovesPosition(n: Note, s: string) { n.Fill? && n.move && n.x.symbol == s }

  lemma OneNoteMoves(b: State, n: Note, e: Inflight)
    requires e in b.recent && Until(n, e.at + 5000)
    ensures Position(Noted(b, n).positions, e.symbol)
            == Position(b.positions, e.symbol) + if MovesPosition(n, e.symbol) then n.x.qty else 0
  {
    if n.Audit? {
      RecentIs(b.recent, n.now);
      assert IsSettling(b, e.symbol, n.now);
      AuditKeepsSettlingPositions(b, n.now, n.positions, n.fetched, e.symbol);
    }
  }

  /** For five seconds after a submit the position of its symbol is the book's own, whatever is answered,
      refused, cancelled, filled or audited in between: every audit of the window, however its fetch reads,
      leaves the position at the submit plus the fills noted since. */
  lemma {:induction false} PositionIsOurOwn(b: State, ns: seq<Note>, e: Inflight)
    requires e in b.recent && forall n :: n in ns ==> Until(n, e.at + 5000)
    ensures Position(AfterNotes(b, ns).positions, e.symbol) == Position(b.positions, e.symbol) + Moved(ns, e.symbol)
  {
    if ns != [] {
      var k := |ns| - 1;
      assert ns[k] in ns && forall n :: n in ns[..k] ==> n in ns;
      PositionIsOurOwn(b, ns[..k], e);
      RecentStays(b, ns[..k], e);
      OneNoteMoves(AfterNotes(b, ns[..k]), ns[k], e);
    }
  }

  // ------------------------------------------------------------------ exactly how long a submit settles

  lemma InIs<V>(d: seq<(string, V)>, k: string, v: V)
    requires Distinct(d)
    ensures (k, v) in d <==> Has(d, k) && Get(d, k) == v
  {
    if Has(d, k) { assert d[At(d, k).value] in d; }
    if (k, v) in d {
      var i :| 0 <= i < |d| && d[i] == (k, v);
      AtIs(d, i);
    }
  }

  /** The one submit of the symbol, or nothing of it, is in flight and recent. */
  ghost predicate OnlyThis(b: State, cid: string, e: Inflight) {
    && (forall r :: r in b.recent && r.symbol == e.symbol ==> r == e)
    && (Has(b.inflight, cid) ==> Get(b.inflight, cid) == e)
    && (forall k :: Has(b.inflight, k) && Get(b.inflight, k).symbol == e.symbol ==> k == cid)
  }

  /** Not another submit of this symbol or under this client id. */
  predicate NotAnother(n: Note, cid: string, e: Inflight) { n.Submit? ==> n.cid != cid && n.e.symbol != e.symbol }

  /** The order is answered, or an audit two seconds after it gives it up. */
  predicate Ends(n: Note, cid: string, e: Inflight) {
    match n
    case Ack(c, _) => c == cid
    case Reject(c) => c == cid
    case Audit(now, _, _) => now - e.at >= 2000
    case _ => false
  }

  lemma YoungIs(d: Inflights, now: int, k: string)
    ensures Has(YoungInflight(d, now), k) <==> Has(d, k) && now - Get(d, k).at < 2000
    ensures Has(YoungInflight(d, now), k) ==> Get(YoungInflight(d, now), k) == Get(d, k)
  {
    var r := YoungInflight(d, now);
    if Has(r, k) {
      InIs(r, k, Get(r, k));
      InIs(d, k, Get(r, k));
    }
    if Has(d, k) {
      InIs(d, k, Get(d, k));
      InIs(r, k, Get(d, k));
    }
  }

  lemma NotedKeepsOnlyThis(b: State, n: Note, cid: string, e: Inflight)
    requires OnlyThis(b, cid, e) && NotAnother(n, cid, e)
    ensures OnlyThis(Noted(b, n), cid, e)
    ensures Has(Noted(b, n).inflight, cid) <==> Has(b.inflight, cid) && !Ends(n, cid, e)
  {
    var a := Noted(b, n);
    match n
    case Submit(c, x) =>
      RecentIs(b.recent + [x], x.at);
      PutGets(b.inflight, c, x, cid);
      forall k | Has(a.inflight, k) && Get(a.inflight, k).symbol == e.symbol
        ensures k == cid
      {
        PutGets(b.inflight, c, x, k);
      }
    case Ack(c, _) =>
      DelGets(b.inflight, c, cid);
      forall k | Has(a.inflight, k) && Get(a.inflight, k).symbol == e.symbol
        ensures k == cid
      {
        DelGets(b.inflight, c, k);
      }
    case Reject(c) =>
      DelGets(b.inflight, c, cid);
      forall k | Has(a.inflight, k) && Get(a.inflight, k).symbol == e.symbol
        ensures k == cid
      {
        DelGets(b.inflight, c, k);
      }
    case Audit(now, _, _) =>
      RecentIs(b.recent, now);
      YoungIs(b.inflight, now, cid);
      forall k | Has(a.inflight, k) && Get(a.inflight, k).symbol == e.symbol
        ensures k == cid
      {
        YoungIs(b.inflight, now, k);
      }
    case _ =>
  }

  lemma {:induction false} InFlightUntilItEnds(b: State, ns: seq<Note>, cid: string, e: Inflight)
    requires OnlyThis(b, cid, e) && Has(b.inflight, cid) && forall n :: n in ns ==> NotAnother(n, cid, e)
    ensures OnlyThis(AfterNotes(b, ns), cid, e)
    ensures Has(AfterNotes(b, ns).inflight, cid) <==> forall n :: n in ns ==> !Ends(n, cid, e)
  {
    if ns != [] {
      var k := |ns| - 1;
      InFlightUntilItEnds(b, ns[..k], cid, e);
      LastSplits([], ns);
      assert NotAnother(ns[k], cid, e);
      NotedKeepsOnlyThis(AfterNotes(b, ns[..k]), ns[k], cid, e);
    }
  }

  /** Nothing of the symbol is in flight or recent. */
  ghost predicate Calm(b: State, s: string) {
    && (forall r :: r in b.recent ==> r.symbol != s)
    && (forall k :: Has(b.inflight, k) ==> Get(b.inflight, k).symbol != s)
  }

  /** Exactly how long a submit keeps its symbol settling: for five seconds whatever becomes of it, and for as
      long after that as it is neither answered nor given up by an audit. */
  lemma SettlesExactly(b: State, cid: string, e: Inflight, ns: seq<Note>, now: int)
    requires Calm(b, e.symbol) && forall n :: n in ns ==> NotAnother(n, cid, e)
    requires forall n :: n in ns ==> Until(n, now + 1)
    ensures IsSettling(AfterNotes(AfterSubmit(b, cid, e), ns), e.symbol, now)
            <==> now - e.at < 5000 || forall n :: n in ns ==> !Ends(n, cid, e)
  {
    var b1 := AfterSubmit(b, cid, e);
    var a := AfterNotes(b1, ns);
    RecentIs(b.recent + [e], e.at);
    SubmitIsOnly(b, cid, e);
    InFlightUntilItEnds(b1, ns, cid, e);
    RecentIs(a.recent, now);
    if now - e.at < 5000 {
      forall n | n in ns ensures Until(n, e.at + 5000) { assert Until(n, now + 1); }
      RecentStays(b1, ns, e);
    }
    SettlingIs(a, cid, e, now);
  }

  lemma SubmitIsOnly(b: State, cid: string, e: Inflight)
    requires Calm(b, e.symbol)
    ensures OnlyThis(AfterSubmit(b, cid, e), cid, e) && Has(AfterSubmit(b, cid, e).inflight, cid)
  {
    var a := AfterSubmit(b, cid, e);
    RecentIs(b.recent + [e], e.at);
    PutGets(b.inflight, cid, e, cid);
    forall k | Has(a.inflight, k) && Get(a.inflight, k).symbol == e.symbol
      ensures k == cid
    {
      PutGets(b.inflight, cid, e, k);
    }
  }

  lemma SettlingIs(b: State, cid: string, e: Inflight, now: int)
    requires OnlyThis(b, cid, e)
    ensures IsSettling(b, e.symbol, now) <==> (e in b.recent && now - e.at < 5000) || Has(b.inflight, cid)
  {
    RecentIs(b.recent, now);
    if Has(b.inflight, cid) {
      InIs(b.inflight, cid, e);
      assert (cid, e) in b.inflight;
    }
    forall x | x in b.inflight && x.1.symbol == e.symbol ensures Has(b.inflight, cid) {
      InIs(b.inflight, x.0, x.1);
    }
  }

  // ------------------------------------------------------------------ a settling symbol across an audit

  /** The book's own entries that the fetch stands in for. */
  function Superseded(open: seq<(string, BookOrder)>, settle: set<string>,
                      fetched: seq<(string, BookOrder)>): (r: seq<(string, BookOrder)>)
    ensures forall e :: e in r <==> e in open && !Stays(e, settle, fetched)
  {
    if open == [] then []
    else Superseded(open[..|open| - 1], settle, fetched) +
         (if Stays(open[|open| - 1], settle, fetched) then [] else [open[|open| - 1]])
  }

  /** The orders in flight for two seconds or more. */
  function Aged(inflight: seq<(string, Inflight)>, now: int): (r: seq<(string, Inflight)>)
    ensures forall e :: e in r <==> e in inflight && now - e.1.at >= 2000
  {
    if inflight == [] then []
    else
      var last := inflight[|inflight| - 1];
      Aged(inflight[..|inflight| - 1], now) + if now - last.1.at >= 2000 then [last] else []
  }

  lemma {:induction false} OpenSplits(open: seq<(string, BookOrder)>, settle: set<string>,
                                      d: seq<(string, BookOrder)>, f: BookOrder -> int)
    ensures Sum(open, f) == Sum(Staying(open, settle, d), f) + Sum(Superseded(open, settle, d), f)
  {
    if open != [] {
      var init, last := open[..|open| - 1], open[|open| - 1];
      OpenSplits(init, settle, d, f);
      SumConcat(Staying(init, settle, d), if Stays(last, settle, d) then [last] else [], f);
      SumConcat(Superseded(init, settle, d), if Stays(last, settle, d) then [] else [last], f);
      SumOne(last, f);
    }
  }

  lemma {:induction false} InflightSplits(inflight: Inflights, now: int, f: Inflight -> int)
    ensures Sum(inflight, f) == Sum(YoungInflight(inflight, now), f) + Sum(Aged(inflight, now), f)
  {
    if inflight != [] {
      var init: Inflights, last := inflight[..|inflight| - 1], inflight[|inflight| - 1];
      InflightSplits(init, now, f);
      var young := now - last.1.at < 2000;
      SumConcat(YoungInflight(init, now), if young then [last] else [], f);
      SumConcat(Aged(init, now), if young then [] else [last], f);
      SumOne(last, f);
    }
  }

  /** What an audit does to the exposure of a settling symbol: the fetched orders come in, the entries they
      stand in for leave, and so does every submit unanswered for two seconds. */
  lemma AuditMovesSettling(b: State, now: int, positions: map<string, int>, fetched: seq<BookOrder>, s: string)
    requires IsSettling(b, s, now)
    ensures var d := FetchedOrders(fetched);
            var settle := Settling(Recent(b.recent, now), b.inflight);
            Exposure(AfterAudit(b, now, positions, fetched), s) ==
            Exposure(b, s) + Sum(d, OrderIn(s)) - Sum(Superseded(b.open, settle, d), OrderIn(s))
              - Sum(Aged(b.inflight, now), InflightIn(s))
  {
    var d := FetchedOrders(fetched);
    var settle := Settling(Recent(b.recent, now), b.inflight);
    AuditKeepsSettlingPositions(b, now, positions, fetched, s);
    OpenSplits(b.open, settle, d, OrderIn(s));
    InflightSplits(b.inflight, now, InflightIn(s));
    SumConcat(d, Staying(b.open, settle, d), OrderIn(s));
  }

  /** A fetch that shows nothing of a settling symbol: its exposure changes exactly by its submits that are
      unanswered for two seconds, although such an order may well be on its way. */
  lemma AuditGivesUpUnanswered(b: State, now: int, positions: map<string, int>, fetched: seq<BookOrder>, s: string)
    requires IsSettling(b, s, now) && forall o :: o in fetched ==> o.symbol != s
    requires forall e :: e in b.open && e.1.symbol == s ==>
               !Has(FetchedOrders(fetched), e.0) && e.1.cid !in ClientIds(FetchedOrders(fetched))
    ensures Exposure(AfterAudit(b, now, positions, fetched), s) == Exposure(b, s)
            - Sum(Aged(b.inflight, now), InflightIn(s))
  {
    var d := FetchedOrders(fetched);
    var settle := Settling(Recent(b.recent, now), b.inflight);
    AuditMovesSettling(b, now, positions, fetched, s);
    FetchedAre(fetched);
    NothingOf(d, s);
    NothingOf(Superseded(b.open, settle, d), s);
  }

  lemma {:induction false} FetchedAre(fetched: seq<BookOrder>)
    ensures forall e :: e in FetchedOrders(fetched) ==> e.1 in fetched
  {
    if fetched != [] {
      var n := |fetched| - 1;
      FetchedAre(fetched[..n]);
      var d, all := FetchedOrders(fetched[..n]), FetchedOrders(fetched);
      forall e | e in all ensures e.1 in fetched {
        assert e in d || e.1 == fetched[n];
      }
    }
  }

  /** An unanswered submit of 100: after an audit two seconds later the book holds nothing of it. */
  lemma UnansweredHundredDropsOut(b: State, e: Inflight, positions: map<string, int>)
    requires e.side == Buy && e.qty == 100
    requires b.positions == map[] && b.open == [] && b.inflight == [("c", e)] && b.recent == [e]
    ensures Exposure(b, e.symbol) == 100 && IsSettling(b, e.symbol, e.at + 2000)
    ensures Exposure(AfterAudit(b, e.at + 2000, positions, []), e.symbol) == 0
  {
    var x := ("c", e);
    SumOne(x, InflightIn(e.symbol));
    assert x in b.inflight;
    AuditGivesUpUnanswered(b, e.at + 2000, positions, [], e.symbol);
    LastSplits([], [x]);
    assert Aged([x], e.at + 2000) == [x] by { assert [x][..0] == [] && [] + [x] == [x]; }
  }
}
