/**
 The write-ahead order ledger (dqengine/live/journal.py). One `Journal` object is the table of one
 broker connection; a row exists before its order goes to the wire and its state moves in place.

 Times are whole seconds. Client ids of market orders are a function of the intent, and that function
 is taken to be injective; every other client id is a string.
 */
module Journal {
  import opened Common

  const ACK_DEADLINE_S := 10
  const ABANDON_S := 60

  datatype Cid = MarketCid(symbol: string, side: Side, qty: int, epoch: nat) | NamedCid(text: string)

  predicate Blank(cid: Cid) { cid == NamedCid("") }

  datatype State = Sending | Submitted | Open | Filled | Canceled | Rejected | Abandoned

  datatype Note = NoNote | FoldedNote | TextNote(text: string)

  datatype Row = Row(cid: Cid, boid: string, symbol: string, side: Side, qty: nat, filled: nat,
                     state: State, note: Note, created: int)

  /** A reconcile submit, as the transmit path hands it to the ledger. */
  datatype Entry = Entry(cid: Cid, symbol: string, side: Side, qty: int)

  /** One broker execution. */
  datatype Execution = Execution(execId: string, cid: Cid, boid: string, symbol: string, signedQty: int, filledAt: int)

  /** One line of the venue's open-order listing. */
  datatype Listed = Listed(cid: Cid, id: string)

  predicate Outstanding(st: State) { st.Sending? || st.Submitted? || st.Open? }

  function Remaining(r: Row): nat { if r.qty <= r.filled then 0 else r.qty - r.filled }

  // ------------------------------------------------------------------ specification

  /** Index of the row with this client id; a blank id names no row. */
  function Find(rows: seq<Row>, cid: Cid): (i: Option<nat>)
    ensures i.Some? ==> i.value < |rows| && rows[i.value].cid == cid && !Blank(cid)
    ensures i.None? ==> Blank(cid) || forall k :: 0 <= k < |rows| ==> rows[k].cid != cid
  {
    if rows == [] || Blank(cid) then None
    else if Find(rows[..|rows| - 1], cid).Some? then Find(rows[..|rows| - 1], cid)
    else if rows[|rows| - 1].cid == cid then Some(|rows| - 1)
    else None
  }

  function FindBoid(rows: seq<Row>, boid: string): (i: Option<nat>)
    ensures i.Some? ==> i.value < |rows| && rows[i.value].boid == boid && boid != ""
    ensures i.None? ==> boid == "" || forall k :: 0 <= k < |rows| ==> rows[k].boid != boid
  {
    if rows == [] || boid == "" then None
    else if FindBoid(rows[..|rows| - 1], boid).Some? then FindBoid(rows[..|rows| - 1], boid)
    else if rows[|rows| - 1].boid == boid then Some(|rows| - 1)
    else None
  }

  /** The table is keyed by client id. */
  ghost predicate Keyed(rows: seq<Row>) {
    && (forall i :: 0 <= i < |rows| ==> !Blank(rows[i].cid))
    && (forall i, j :: 0 <= i < j < |rows| ==> rows[i].cid != rows[j].cid)
  }

  function FreshRow(e: Entry, now: int): Row {
    Row(e.cid, "", e.symbol, e.side, Abs(e.qty), 0, Sending, NoNote, now)
  }

  /** The state an acknowledgement puts a row in, whatever state it was in. */
  function AckState(status: string): State {
    if status == "filled" then Filled
    else if status == "canceled" || status == "cancelled" || status == "expired" then Canceled
    else if status == "rejected" then Rejected
    else Submitted
  }

  function AckRow(r: Row, boid: string, status: string): Row {
    r.(boid := if boid != "" then boid else r.boid, state := AckState(status))
  }

  function FoldRow(r: Row, signedQty: int): Row {
    var f := r.filled + Abs(signedQty);
    r.(filled := f, state := if f >= r.qty then Filled else r.state)
  }

  function CancelRow(r: Row): Row { if Outstanding(r.state) then r.(state := Canceled) else r }

  /** The row an execution lands on: client id first, broker order id second. */
  function FoldTarget(rows: seq<Row>, cid: Cid, boid: string): (i: Option<nat>)
    ensures i.Some? ==> i.value < |rows|
  {
    if Find(rows, cid).Some? then Find(rows, cid) else FindBoid(rows, boid)
  }

  function AfterFold(rows: seq<Row>, x: Execution): (out: seq<Row>)
    ensures |out| == |rows|
  {
    var i := FoldTarget(rows, x.cid, x.boid);
    if i.None? then rows else rows[i.value := FoldRow(rows[i.value], x.signedQty)]
  }

  function AfterCancel(rows: seq<Row>, cid: Cid, boid: string): (out: seq<Row>)
    ensures |out| == |rows|
  {
    var i := FoldTarget(rows, cid, boid);
    if i.None? then rows else rows[i.value := CancelRow(rows[i.value])]
  }

  function FoldedMark(r: Row, symbol: string): Row {
    if r.symbol == symbol && r.state == Filled && r.note == NoNote then r.(note := FoldedNote) else r
  }

  function AfterMarkFolded(rows: seq<Row>, symbol: string): (out: seq<Row>)
    ensures |out| == |rows|
  {
    seq(|rows|, i requires 0 <= i < |rows| => FoldedMark(rows[i], symbol))
  }

  /** The id the listing shows for a client id; a later line overrides an earlier one. */
  function ListedId(listing: seq<Listed>, cid: Cid): (id: Option<string>)
    ensures id.Some? <==> !Blank(cid) && exists k :: 0 <= k < |listing| && listing[k].cid == cid
  {
    if listing == [] || Blank(cid) then None
    else if listing[|listing| - 1].cid == cid then Some(listing[|listing| - 1].id)
    else ListedId(listing[..|listing| - 1], cid)
  }

  /** Recovery of one row: only a `sending` row past the ack deadline moves. No listing at all is no
      evidence of absence. */
  function ResolveRow(r: Row, now: int, listing: Option<seq<Listed>>, pollOk: bool): Row {
    if r.state != Sending || now - r.created <= ACK_DEADLINE_S then r
    else
      var seen := if listing.None? then None else ListedId(listing.value, r.cid);
      if seen.Some? then r.(state := Open, boid := if seen.value != "" then seen.value else r.boid)
      else if pollOk && listing.Some? && now - r.created > ABANDON_S
      then r.(state := Abandoned, note := TextNote("never observed at venue"))
      else r
  }

  function AfterResolve(rows: seq<Row>, now: int, listing: Option<seq<Listed>>, pollOk: bool): (out: seq<Row>)
    ensures |out| == |rows|
  {
    seq(|rows|, i requires 0 <= i < |rows| => ResolveRow(rows[i], now, listing, pollOk))
  }

  // ------------------------------------------------------------------ rows by client id

  function Known(rows: seq<Row>, c: Cid): bool { Find(rows, c).Some? }

  function RowOf(rows: seq<Row>, c: Cid): (r: Row)
    requires Known(rows, c)
    ensures r in rows && r.cid == c
  {
    rows[Find(rows, c).value]
  }

  lemma FindIs(rows: seq<Row>, i: nat)
    requires Keyed(rows) && i < |rows|
    ensures Find(rows, rows[i].cid) == Some(i)
  {
    var f := Find(rows, rows[i].cid);
    assert f.Some?;
    assert f.value == i;
  }

  // ------------------------------------------------------------------ the row that a pair of ids names

  /** Row `i` is the first with this client id; where the client id is blank or on no row, it is the first
      with this broker id, if there is one. */
  ghost predicate Names(rows: seq<Row>, cid: Cid, boid: string, i: nat) {
    && i < |rows|
    && if cid != NamedCid("") && exists k :: 0 <= k < |rows| && rows[k].cid == cid
       then rows[i].cid == cid && forall k :: 0 <= k < i ==> rows[k].cid != cid
       else boid != "" && rows[i].boid == boid && forall k :: 0 <= k < i ==> rows[k].boid != boid
  }

  lemma {:induction false} FindIsFirst(rows: seq<Row>, cid: Cid)
    ensures Find(rows, cid).Some? <==> cid != NamedCid("") && exists k :: 0 <= k < |rows| && rows[k].cid == cid
    ensures Find(rows, cid).Some? ==> forall k :: 0 <= k < Find(rows, cid).value ==> rows[k].cid != cid
  {
    if rows != [] && !Blank(cid) { FindIsFirst(rows[..|rows| - 1], cid); }
  }

  lemma {:induction false} FindBoidIsFirst(rows: seq<Row>, boid: string)
    ensures FindBoid(rows, boid).Some? <==> boid != "" && exists k :: 0 <= k < |rows| && rows[k].boid == boid
    ensures FindBoid(rows, boid).Some? ==> forall k :: 0 <= k < FindBoid(rows, boid).value ==> rows[k].boid != boid
  {
    if rows != [] && boid != "" { FindBoidIsFirst(rows[..|rows| - 1], boid); }
  }

  lemma TargetIsNamed(rows: seq<Row>, cid: Cid, boid: string)
    ensures forall i: nat :: Names(rows, cid, boid, i) <==> FoldTarget(rows, cid, boid) == Some(i)
  {
    FindIsFirst(rows, cid);
    FindBoidIsFirst(rows, boid);
  }

  /** An execution adds its size to the row its ids name, which is filled once that is its whole quantity, and
      touches no other; ids that name no row change nothing. */
  lemma FoldExactly(rows: seq<Row>, x: Execution, i: nat)
    requires i < |rows|
    ensures var r, r' := rows[i], AfterFold(rows, x)[i];
            if Names(rows, x.cid, x.boid, i)
            then && r'.filled == r.filled + Abs(x.signedQty)
                 && r'.state == (if r.filled + Abs(x.signedQty) >= r.qty then Filled else r.state)
                 && r' == r.(filled := r'.filled, state := r'.state)
            else r' == r
  {
    TargetIsNamed(rows, x.cid, x.boid);
  }

  /** A cancel takes the row its ids name out of the outstanding ones, if it is one, and touches no other. */
  lemma CancelExactly(rows: seq<Row>, cid: Cid, boid: string, i: nat)
    requires i < |rows|
    ensures var r := rows[i];
            AfterCancel(rows, cid, boid)[i] ==
            if Names(rows, cid, boid, i) && r.state in {Sending, Submitted, Open} then r.(state := Canceled) else r
  {
    TargetIsNamed(rows, cid, boid);
  }

  /** What an acknowledgement makes of its row: the status decides the state alone, and a broker id is kept
      unless a new one comes. */
  lemma AckExactly(r: Row, boid: string, status: string)
    ensures var a := AckRow(r, boid, status);
            && (a.state == Filled <==> status == "filled")
            && (a.state == Canceled <==> status in {"canceled", "cancelled", "expired"})
            && (a.state == Rejected <==> status == "rejected")
            && (a.state == Submitted <==> status !in {"filled", "canceled", "cancelled", "expired", "rejected"})
            && a == r.(state := a.state, boid := if boid == "" then r.boid else boid)
  {}

  /** A new row: the intent's own size without its sign, nothing filled, waiting for its answer. */
  lemma FreshExactly(e: Entry, now: int)
    ensures var r := FreshRow(e, now);
            && r.cid == e.cid && r.symbol == e.symbol && r.side == e.side && r.boid == "" && r.created == now
            && (r.qty == e.qty || r.qty == -e.qty) && r.filled == 0 && r.state == Sending && r.note == NoNote
  {}

  /** The listing shows a client id under the id of the last line that carries it. */
  lemma {:induction false} ListedIdIsLast(listing: seq<Listed>, cid: Cid)
    ensures ListedId(listing, cid).Some? && cid != NamedCid("") ==>
              exists k :: 0 <= k < |listing| && listing[k] == Listed(cid, ListedId(listing, cid).value)
                          && forall j :: k < j < |listing| ==> listing[j].cid != cid
  {
    if listing != [] && listing[|listing| - 1].cid != cid { ListedIdIsLast(listing[..|listing| - 1], cid); }
  }

  predicate IsListed(listing: Option<seq<Listed>>, cid: Cid) {
    listing.Some? && cid != NamedCid("") && exists k :: 0 <= k < |listing.value| && listing.value[k].cid == cid
  }

  /** Recovery of one row: only one that has been `sending` for more than ten seconds moves; to `open` when the
      venue lists it, and to `abandoned` after more than sixty when the poll worked and there is a listing
      without it. */
  lemma ResolveExactly(r: Row, now: int, listing: Option<seq<Listed>>, pollOk: bool)
    ensures var r' := ResolveRow(r, now, listing, pollOk);
            var late := r.state == Sending && now - r.created > 10;
            && (r' != r && IsListed(listing, r.cid) ==>
                  var id := ListedId(listing.value, r.cid).value;
                  r' == r.(state := Open, boid := if id == "" then r.boid else id))
            && (r'.state == Open && r.state != Open <==> late && IsListed(listing, r.cid))
            && (r'.state == Abandoned && r.state != Abandoned <==>
                  late && listing.Some? && !IsListed(listing, r.cid) && pollOk && now - r.created > 60)
            && (r'.state == Abandoned && r.state != Abandoned ==>
                  r' == r.(state := Abandoned, note := TextNote("never observed at venue")))
            && (r'.state == r.state ==> r' == r)
            && r'.state in {r.state, Open, Abandoned}
  {}

  /** Rewriting rows one by one, without touching their client ids, moves no row. */
  lemma RewriteKeeps(rows: seq<Row>, rows': seq<Row>)
    requires Keyed(rows) && |rows'| == |rows| && forall i :: 0 <= i < |rows| ==> rows'[i].cid == rows[i].cid
    ensures Keyed(rows')
    ensures forall c :: Find(rows', c) == Find(rows, c)
  {
    forall c ensures Find(rows', c) == Find(rows, c) {
      if Find(rows, c).Some? { FindIs(rows', Find(rows, c).value); }
    }
  }

  lemma AppendKeeps(rows: seq<Row>, r: Row)
    requires Keyed(rows) && !Blank(r.cid) && !Known(rows, r.cid)
    ensures Keyed(rows + [r])
    ensures forall c :: Known(rows, c) ==> Known(rows + [r], c) && RowOf(rows + [r], c) == RowOf(rows, c)
    ensures Known(rows + [r], r.cid) && RowOf(rows + [r], r.cid) == r
  {
    var rows' := rows + [r];
    assert Keyed(rows');
    forall c | Known(rows, c) ensures Find(rows', c) == Find(rows, c) { FindIs(rows', Find(rows, c).value); }
    FindIs(rows', |rows|);
  }

  // ------------------------------------------------------------------ the gates, per symbol

  function Sum(rows: seq<Row>, f: Row -> int): int {
    if rows == [] then 0 else Sum(rows[..|rows| - 1], f) + f(rows[|rows| - 1])
  }

  /** The rows the delta pass looks at: this symbol, created since the start of the day. */
  predicate Counts(r: Row, symbol: string, since: int) { r.symbol == symbol && r.created >= since }

  function EpochOf(symbol: string, since: int): Row -> int {
    (r: Row) => if Counts(r, symbol, since) then 1 else 0
  }

  function OpenQtyOf(symbol: string, since: int): Row -> int {
    (r: Row) => if Counts(r, symbol, since) && Outstanding(r.state) then Sign(r.side) * Remaining(r) else 0
  }

  function FilledTodayOf(symbol: string, since: int): Row -> int {
    (r: Row) => if Counts(r, symbol, since) && r.state == Filled then Sign(r.side) * r.filled else 0
  }

  function FilledSideOf(symbol: string, since: int, side: Side): Row -> int {
    (r: Row) => if Counts(r, symbol, since) && r.state == Filled && r.side == side then r.filled else 0
  }

  function UnfoldedOf(symbol: string, since: int): Row -> int {
    (r: Row) => if Counts(r, symbol, since) && r.state == Filled && r.note != FoldedNote then r.filled else 0
  }

  function OpenRows(rows: seq<Row>, symbol: string, since: int): seq<(Cid, int)> {
    if rows == [] then []
    else
      var r := rows[|rows| - 1];
      OpenRows(rows[..|rows| - 1], symbol, since) +
      (if Counts(r, symbol, since) && Outstanding(r.state) && Remaining(r) != 0
       then [(r.cid, Sign(r.side) * Remaining(r))] else [])
  }

  predicate Overdue(r: Row, symbol: string, since: int, now: int) {
    Counts(r, symbol, since) && r.state == Sending && now - r.created > ACK_DEADLINE_S
  }

  predicate Unresolved(rows: seq<Row>, symbol: string, since: int, now: int) {
    exists i :: 0 <= i < |rows| && Overdue(rows[i], symbol, since, now)
  }

  // ------------------------------------------------------------------ facts about the gates

  lemma {:induction false} SumUpdate(rows: seq<Row>, i: nat, r: Row, f: Row -> int)
    requires i < |rows|
    ensures Sum(rows[i := r], f) == Sum(rows, f) - f(rows[i]) + f(r)
  {
    var n := |rows| - 1;
    if i == n {
      assert rows[i := r][..n] == rows[..n];
    } else {
      SumUpdate(rows[..n], i, r, f);
      assert rows[i := r][..n] == rows[..n][i := r];
    }
  }

  /** What one row adds to each gate of a symbol: nothing unless it is of the symbol and of today; to the epoch
      one; to the open quantity what an outstanding row has left; to the filled quantities what a filled
      one has, signed, per side, or as long as it is not marked folded. */
  lemma GateTermsExactly(r: Row, symbol: string, since: int)
    ensures var today := r.symbol == symbol && r.created >= since;
            var sign := if r.side == Buy then 1 else -1;
            && EpochOf(symbol, since)(r) == (if today then 1 else 0)
            && OpenQtyOf(symbol, since)(r) ==
               (if today && r.state in {Sending, Submitted, Open} && r.filled < r.qty
                then sign * (r.qty - r.filled) else 0)
            && FilledTodayOf(symbol, since)(r) == (if today && r.state == Filled then sign * r.filled else 0)
            && (forall side :: FilledSideOf(symbol, since, side)(r) ==
                               (if today && r.state == Filled && r.side == side then r.filled else 0))
            && UnfoldedOf(symbol, since)(r) ==
               (if today && r.state == Filled && r.note != FoldedNote then r.filled else 0)
  {}

  /** A symbol is unresolved exactly while a row of today has been `sending` for more than ten seconds. */
  lemma UnresolvedExact(rows: seq<Row>, symbol: string, since: int, now: int)
    ensures Unresolved(rows, symbol, since, now) <==>
            exists i :: 0 <= i < |rows| && rows[i].symbol == symbol && rows[i].created >= since
                        && rows[i].state == Sending && now - rows[i].created > 10
  {
    if i :| 0 <= i < |rows| && Overdue(rows[i], symbol, since, now) { assert rows[i].state == Sending; }
  }

  /** The open rows of a symbol are exactly its outstanding rows with something left to fill. */
  lemma {:induction false} OpenRowsExact(rows: seq<Row>, symbol: string, since: int, c: (Cid, int))
    ensures c in OpenRows(rows, symbol, since) <==>
            exists i :: 0 <= i < |rows| && rows[i].symbol == symbol && rows[i].created >= since
                        && rows[i].state in {Sending, Submitted, Open} && rows[i].filled < rows[i].qty
                        && c == (rows[i].cid, Sign(rows[i].side) * (rows[i].qty - rows[i].filled))
  {
    if rows != [] {
      var n := |rows| - 1;
      OpenRowsExact(rows[..n], symbol, since, c);
      LastOpenRow(rows, symbol, since, c);
      assert forall i :: 0 <= i < n ==> rows[..n][i] == rows[i];
    }
  }

  lemma LastOpenRow(rows: seq<Row>, symbol: string, since: int, c: (Cid, int))
    requires rows != []
    ensures var r := rows[|rows| - 1];
            c in OpenRows(rows, symbol, since) <==>
              || c in OpenRows(rows[..|rows| - 1], symbol, since)
              || (r.symbol == symbol && r.created >= since && r.state in {Sending, Submitted, Open}
                  && r.filled < r.qty && c == (r.cid, Sign(r.side) * (r.qty - r.filled)))
  {
    var r, before := rows[|rows| - 1], OpenRows(rows[..|rows| - 1], symbol, since);
    var open := r.symbol == symbol && r.created >= since && r.state in {Sending, Submitted, Open} && r.filled < r.qty;
    assert open <==> Counts(r, symbol, since) && Outstanding(r.state) && Remaining(r) != 0;
    if open {
      var last := (r.cid, Sign(r.side) * (r.qty - r.filled));
      assert OpenRows(rows, symbol, since) == before + [last];
    } else {
      assert OpenRows(rows, symbol, since) == before;
    }
  }

  /** A symbol is frozen for unfolded fills exactly while some row of today is filled with a positive
      quantity and not marked folded: offsetting fills never cancel out. */
  lemma {:induction false} UnfoldedExact(rows: seq<Row>, symbol: string, since: int)
    ensures Sum(rows, UnfoldedOf(symbol, since)) >= 0
    ensures Sum(rows, UnfoldedOf(symbol, since)) != 0 <==>
            exists i :: 0 <= i < |rows| && rows[i].symbol == symbol && rows[i].created >= since
                        && rows[i].state == Filled && rows[i].note != FoldedNote && rows[i].filled > 0
  {
    if rows != [] {
      var n := |rows| - 1;
      UnfoldedExact(rows[..n], symbol, since);
      assert forall i :: 0 <= i < n ==> rows[..n][i] == rows[i];
    }
  }

  /** The fold lift clears a symbol exactly when none of its filled rows carries another note: a row
      that was abandoned or rejected with a note and filled later stays frozen for the day. */
  lemma FoldLiftClears(rows: seq<Row>, symbol: string, since: int)
    ensures Sum(AfterMarkFolded(rows, symbol), UnfoldedOf(symbol, since)) == 0 <==>
            forall i :: 0 <= i < |rows| && rows[i].filled > 0 && rows[i].note.TextNote? ==>
                          !(rows[i].symbol == symbol && rows[i].created >= since && rows[i].state == Filled)
  {
    var out := AfterMarkFolded(rows, symbol);
    UnfoldedExact(out, symbol, since);
    forall i | 0 <= i < |rows|
      ensures Counts(out[i], symbol, since) == Counts(rows[i], symbol, since)
      ensures out[i].state == rows[i].state && out[i].filled == rows[i].filled
      ensures Counts(rows[i], symbol, since) && rows[i].state == Filled ==>
                (out[i].note != FoldedNote <==> rows[i].note.TextNote?)
    {}
    if Sum(out, UnfoldedOf(symbol, since)) != 0 {
      var i :| 0 <= i < |out| && Counts(out[i], symbol, since) && out[i].state == Filled
               && out[i].note != FoldedNote && out[i].filled > 0;
      assert Counts(rows[i], symbol, since);
    }
  }

  // ------------------------------------------------------------------ the table

  datatype Gates = Gates(openQty: map<string, int>, openRows: map<string, seq<(Cid, int)>>,
                         unfolded: map<string, int>, filledToday: map<string, int>,
                         filledBuy: map<string, int>, filledSell: map<string, int>,
                         unresolved: set<string>, epoch: map<string, int>)

  function Get(m: map<string, int>, k: string): int { if k in m then m[k] else 0 }

  function GetRows(m: map<string, seq<(Cid, int)>>, k: string): seq<(Cid, int)> { if k in m then m[k] else [] }

  ghost predicate Describes(m: map<string, int>, rows: seq<Row>, f: string -> Row -> int) {
    forall s :: Get(m, s) == Sum(rows, f(s))
  }

  function EpochBy(since: int): string -> Row -> int { s => EpochOf(s, since) }
  function OpenQtyBy(since: int): string -> Row -> int { s => OpenQtyOf(s, since) }
  function FilledTodayBy(since: int): string -> Row -> int { s => FilledTodayOf(s, since) }
  function FilledSideBy(since: int, side: Side): string -> Row -> int { s => FilledSideOf(s, since, side) }
  function UnfoldedBy(since: int): string -> Row -> int { s => UnfoldedOf(s, since) }

  ghost predicate GatesDescribe(g: Gates, rows: seq<Row>, since: int, now: int) {
    && Describes(g.openQty, rows, OpenQtyBy(since))
    && Describes(g.unfolded, rows, UnfoldedBy(since))
    && Describes(g.filledToday, rows, FilledTodayBy(since))
    && Describes(g.filledBuy, rows, FilledSideBy(since, Buy))
    && Describes(g.filledSell, rows, FilledSideBy(since, Sell))
    && Describes(g.epoch, rows, EpochBy(since))
    && (forall s :: GetRows(g.openRows, s) == OpenRows(rows, s, since))
    && (forall s :: s in g.unresolved <==> Unresolved(rows, s, since, now))
  }

  class OrderJournal {
    var rows: seq<Row>

    ghost predicate Valid() reads this { Keyed(rows) }

    constructor ()
      ensures Valid() && rows == []
    {
      rows := [];
    }

    method Lookup(cid: Cid) returns (i: int)
      requires Valid()
      ensures i == if Find(rows, cid).Some? then Find(rows, cid).value else -1
    {
      if Blank(cid) { return -1; }
      i := 0;
      while i < |rows|
        invariant 0 <= i <= |rows|
        invariant forall k :: 0 <= k < i ==> rows[k].cid != cid
      {
        if rows[i].cid == cid { return; }
        i := i + 1;
      }
      i := -1;
    }

    method LookupBoid(boid: string) returns (i: int)
      ensures i == if FindBoid(rows, boid).Some? then FindBoid(rows, boid).value else -1
    {
      if boid == "" { return -1; }
      i := 0;
      while i < |rows|
        invariant 0 <= i <= |rows|
        invariant FindBoid(rows[..i], boid).None?
        invariant forall k :: 0 <= k < i ==> rows[k].boid != boid
      {
        assert rows[..i + 1][..i] == rows[..i];
        if rows[i].boid == boid { FindBoidPrefix(rows, boid, i + 1); return; }
        i := i + 1;
      }
      assert rows[..i] == rows;
      i := -1;
    }

    /** The write-ahead insert. A second insert of one client id changes nothing and says so. */
    method RecordSending(e: Entry, now: int) returns (inserted: bool)
      requires Valid() && !Blank(e.cid)
      modifies this
      ensures Valid()
      ensures inserted <==> Find(old(rows), e.cid).None?
      ensures rows == if inserted then old(rows) + [FreshRow(e, now)] else old(rows)
    {
      var i := Lookup(e.cid);
      if i >= 0 { return false; }
      rows := rows + [FreshRow(e, now)];
      inserted := true;
    }

    method MarkSubmitted(cid: Cid, boid: string, status: string)
      requires Valid()
      modifies this
      ensures Valid()
      ensures var i := Find(old(rows), cid);
              rows == if i.None? then old(rows) else old(rows)[i.value := AckRow(old(rows)[i.value], boid, status)]
    {
      var i := Lookup(cid);
      if i < 0 { return; }
      if boid != "" { rows := rows[i := rows[i].(boid := boid)]; }
      if status == "filled" {
        rows := rows[i := rows[i].(state := Filled)];
      } else if status == "canceled" || status == "cancelled" || status == "expired" {
        rows := rows[i := rows[i].(state := Canceled)];
      } else if status == "rejected" {
        rows := rows[i := rows[i].(state := Rejected)];
      } else {
        rows := rows[i := rows[i].(state := Submitted)];
      }
    }

    method MarkRejected(cid: Cid, note: string)
      requires Valid()
      modifies this
      ensures Valid()
      ensures var i := Find(old(rows), cid);
              rows == if i.None? then old(rows)
                      else old(rows)[i.value := old(rows)[i.value].(state := Rejected, note := TextNote(note))]
    {
      var i := Lookup(cid);
      if i >= 0 { rows := rows[i := rows[i].(state := Rejected, note := TextNote(note))]; }
    }

    method FoldExecution(x: Execution)
      requires Valid()
      modifies this
      ensures Valid() && rows == AfterFold(old(rows), x)
    {
      var i := Lookup(x.cid);
      if i < 0 { i := LookupBoid(x.boid); }
      if i < 0 { return; }
      rows := rows[i := rows[i].(filled := rows[i].filled + Abs(x.signedQty))];
      if rows[i].filled >= rows[i].qty { rows := rows[i := rows[i].(state := Filled)]; }
    }

    method MarkCanceled(cid: Cid, boid: string)
      requires Valid()
      modifies this
      ensures Valid() && rows == AfterCancel(old(rows), cid, boid)
    {
      var i := Lookup(cid);
      if i < 0 { i := LookupBoid(boid); }
      if i >= 0 && Outstanding(rows[i].state) { rows := rows[i := rows[i].(state := Canceled)]; }
    }

    method MarkFolded(symbol: string)
      requires Valid()
      modifies this
      ensures Valid() && rows == AfterMarkFolded(old(rows), symbol)
    {
      var k := 0;
      while k < |rows|
        invariant 0 <= k <= |rows| == |old(rows)|
        invariant forall i :: 0 <= i < k ==> rows[i] == FoldedMark(old(rows)[i], symbol)
        invariant forall i :: k <= i < |rows| ==> rows[i] == old(rows)[i]
      {
        if rows[k].symbol == symbol && rows[k].state == Filled && rows[k].note == NoNote {
          rows := rows[k := rows[k].(note := FoldedNote)];
        }
        k := k + 1;
      }
    }

    /** Recovery of unacknowledged rows against the venue's listing and the poll's verdict. */
    method ResolveStale(now: int, listing: Option<seq<Listed>>, pollOk: bool)
      requires Valid()
      modifies this
      ensures Valid() && rows == AfterResolve(old(rows), now, listing, pollOk)
    {
      var k := 0;
      while k < |rows|
        invariant 0 <= k <= |rows| == |old(rows)|
        invariant forall i :: 0 <= i < k ==> rows[i] == ResolveRow(old(rows)[i], now, listing, pollOk)
        invariant forall i :: k <= i < |rows| ==> rows[i] == old(rows)[i]
      {
        if rows[k].state == Sending && now - rows[k].created > ACK_DEADLINE_S {
          var seen := if listing.None? then None else ListedId(listing.value, rows[k].cid);
          if seen.Some? {
            rows := rows[k := rows[k].(state := Open)];
            if seen.value != "" { rows := rows[k := rows[k].(boid := seen.value)]; }
          } else if pollOk && listing.Some? && now - rows[k].created > ABANDON_S {
            rows := rows[k := rows[k].(state := Abandoned, note := TextNote("never observed at venue"))];
          }
        }
        k := k + 1;
      }
    }

    /** One scan of the table gives the delta pass everything it gates on, symbol by symbol. */
    method ReadGates(since: int, now: int) returns (g: Gates)
      requires Valid()
      ensures GatesDescribe(g, rows, since, now)
    {
      g := Gates(map[], map[], map[], map[], map[], map[], {}, map[]);
      var k := 0;
      while k < |rows|
        invariant 0 <= k <= |rows|
        invariant GatesDescribe(g, rows[..k], since, now)
      {
        g := CountRow(g, rows[k], since, now, rows[..k]);
        assert rows[..k] + [rows[k]] == rows[..k + 1];
        k := k + 1;
      }
      assert rows[..k] == rows;
    }
  }

  function Add(m: map<string, int>, k: string, n: int): map<string, int> { m[k := Get(m, k) + n] }

  /** One turn of the scan: what a single row adds to the gates of the rows before it. */
  method CountRow(before: Gates, r: Row, since: int, now: int, ghost seen: seq<Row>) returns (g: Gates)
    requires GatesDescribe(before, seen, since, now)
    ensures GatesDescribe(g, seen + [r], since, now)
  {
    g := before;
    if r.created >= since {
      g := g.(epoch := Add(g.epoch, r.symbol, 1));
    }
    DescribesStep(before.epoch, g.epoch, seen, r, EpochBy(since));
    var qty, open := CountOpen(g.openQty, g.openRows, r, since, seen);
    g := g.(openQty := qty, openRows := open);
    var today, unfolded := CountFilled(g.filledToday, g.unfolded, r, since, seen);
    var buys, sells := CountSide(g.filledBuy, g.filledSell, r, since, seen);
    g := g.(filledToday := today, unfolded := unfolded, filledBuy := buys, filledSell := sells);
    if r.created >= since && r.state == Sending && now - r.created > ACK_DEADLINE_S {
      g := g.(unresolved := g.unresolved + {r.symbol});
    }
    UnresolvedExtends(seen, r, since, now);
  }

  method CountOpen(qty: map<string, int>, open: map<string, seq<(Cid, int)>>, r: Row, since: int, ghost seen: seq<Row>)
    returns (q: map<string, int>, o: map<string, seq<(Cid, int)>>)
    requires Describes(qty, seen, OpenQtyBy(since))
    requires forall s :: GetRows(open, s) == OpenRows(seen, s, since)
    ensures Describes(q, seen + [r], OpenQtyBy(since))
    ensures forall s :: GetRows(o, s) == OpenRows(seen + [r], s, since)
  {
    q, o := qty, open;
    var sign: int := if r.side == Buy then 1 else -1;
    var rem := Remaining(r);
    if r.created >= since && Outstanding(r.state) && rem != 0 {
      q := Add(q, r.symbol, sign * rem);
      o := o[r.symbol := GetRows(o, r.symbol) + [(r.cid, sign * rem)]];
    }
    DescribesStep(qty, q, seen, r, OpenQtyBy(since));
    OpenRowsStep(open, o, seen, r, since);
  }

  /** One more row in the open rows of its symbol. */
  lemma OpenRowsStep(m: map<string, seq<(Cid, int)>>, m': map<string, seq<(Cid, int)>>, seen: seq<Row>, r: Row,
                     since: int)
    requires forall s :: GetRows(m, s) == OpenRows(seen, s, since)
    requires forall s :: GetRows(m', s) ==
                           if Counts(r, s, since) && Outstanding(r.state) && Remaining(r) != 0
                           then GetRows(m, s) + [(r.cid, Sign(r.side) * Remaining(r))] else GetRows(m, s)
    ensures forall s :: GetRows(m', s) == OpenRows(seen + [r], s, since)
  {
    forall s ensures GetRows(m', s) == OpenRows(seen + [r], s, since) {
      assert (seen + [r])[..|seen|] == seen;
    }
  }

  method CountFilled(today: map<string, int>, unfolded: map<string, int>, r: Row, since: int, ghost seen: seq<Row>)
    returns (t: map<string, int>, u: map<string, int>)
    requires Describes(today, seen, FilledTodayBy(since))
    requires Describes(unfolded, seen, UnfoldedBy(since))
    ensures Describes(t, seen + [r], FilledTodayBy(since))
    ensures Describes(u, seen + [r], UnfoldedBy(since))
  {
    t, u := today, unfolded;
    if r.created >= since && r.state == Filled {
      t := Add(t, r.symbol, Sign(r.side) * r.filled);
      // any fill that is not folded counts with its magnitude, whatever it nets against
      if r.note != FoldedNote { u := Add(u, r.symbol, r.filled); }
    }
    DescribesStep(today, t, seen, r, FilledTodayBy(since));
    DescribesStep(unfolded, u, seen, r, UnfoldedBy(since));
  }

  /** The two side totals are kept apart: a sell and an equal buy must not read as nothing. */
  method CountSide(buys: map<string, int>, sells: map<string, int>, r: Row, since: int, ghost seen: seq<Row>)
    returns (b: map<string, int>, s: map<string, int>)
    requires Describes(buys, seen, FilledSideBy(since, Buy))
    requires Describes(sells, seen, FilledSideBy(since, Sell))
    ensures Describes(b, seen + [r], FilledSideBy(since, Buy))
    ensures Describes(s, seen + [r], FilledSideBy(since, Sell))
  {
    b, s := buys, sells;
    if r.created >= since && r.state == Filled {
      if r.side == Buy {
        b := Add(b, r.symbol, r.filled);
      } else {
        s := Add(s, r.symbol, r.filled);
      }
    }
    DescribesStep(buys, b, seen, r, FilledSideBy(since, Buy));
    DescribesStep(sells, s, seen, r, FilledSideBy(since, Sell));
  }

  lemma DescribesStep(m: map<string, int>, m': map<string, int>, seen: seq<Row>, r: Row, f: string -> Row -> int)
    requires Describes(m, seen, f)
    requires forall s :: Get(m', s) == Get(m, s) + f(s)(r)
    ensures Describes(m', seen + [r], f)
  {
    assert (seen + [r])[..|seen|] == seen;
  }

  lemma FindBoidPrefix(rows: seq<Row>, boid: string, n: nat)
    requires n <= |rows| && FindBoid(rows[..n], boid).Some?
    ensures FindBoid(rows, boid) == FindBoid(rows[..n], boid)
    decreases |rows|
  {
    if n < |rows| {
      var m := |rows| - 1;
      assert rows[..m][..n] == rows[..n];
      FindBoidPrefix(rows[..m], boid, n);
    } else {
      assert rows[..n] == rows;
    }
  }

  lemma UnresolvedExtends(seen: seq<Row>, r: Row, since: int, now: int)
    ensures forall s :: Unresolved(seen + [r], s, since, now) <==>
                          Unresolved(seen, s, since, now) || Overdue(r, s, since, now)
  {
    var long := seen + [r];
    forall s
      ensures Unresolved(long, s, since, now) <==> Unresolved(seen, s, since, now) || Overdue(r, s, since, now)
    {
      if Unresolved(seen, s, since, now) {
        var i :| 0 <= i < |seen| && Overdue(seen[i], s, since, now);
        assert Overdue(long[i], s, since, now);
      }
      if Overdue(r, s, since, now) { assert Overdue(long[|seen|], s, since, now); }
    }
  }
}
