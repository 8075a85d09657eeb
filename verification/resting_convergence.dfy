/**
 Convergence of the resting orders: on a venue that carries out what it is sent and echoes levels exactly
 or not at all, one pass leaves what the strategies want and the next pass leaves it alone.
 */
module RestingConvergence {
  import opened Common
  import opened LevelTokens
  import opened MarketDelta
  import opened RestingOrders
  import opened RestingRules

  // ------------------------------------------------------------------ identities

  /** The order was placed by the executor for some want of its kind. */
  ghost predicate MintedFor(o: Resting, w: Want, uuid: Uuid) {
    w.kind == o.kind && Mint(PrefixOf(w), o.kind, uuid, o.v) == Cid(o.cid)
  }

  ghost predicate WellPlaced(o: Resting) {
    !o.kind.Other? && Specified(o.kind, o.v) && exists w, uuid :: MintedFor(o, w, uuid)
  }

  /** The letters of a prefix that tell its family and its kind. */
  function TagOf(entry: bool, kind: Kind): string
    requires !kind.Other?
  {
    match kind
    case Limit => if entry then "en-lmt" else "sl-tp-"
    case Stop => if entry then "en-stp" else "sl-stp"
    case StopLimit => if entry then "en-stl" else "sl-stl"
    case TrailingStop => if entry then "en-tra" else "sl-trl"
  }

  lemma TagIs(w: Want)
    requires !w.kind.Other?
    ensures |PrefixOf(w)| >= 6 && PrefixOf(w)[..6] == TagOf(w.entry, w.kind)
  {}

  lemma TagsDiffer(e1: bool, k1: Kind, e2: bool, k2: Kind)
    requires !k1.Other? && !k2.Other? && TagOf(e1, k1) == TagOf(e2, k2)
    ensures e1 == e2 && k1 == k2
  {
    var s, t := TagOf(e1, k1), TagOf(e2, k2);
    assert s[0] == t[0] && s[3] == t[3] && s[4] == t[4] && s[5] == t[5];
  }

  lemma StartsInTurn(s: string, p: string, n: nat)
    requires StartsWith(s, p) && n <= |p|
    ensures |s| >= n && s[..n] == p[..n]
  {
    assert s[..n] == s[..|p|][..n];
  }

  lemma SameKind(cid: string, w: Want, w': Want)
    requires StartsWith(cid, PrefixOf(w)) && StartsWith(cid, PrefixOf(w')) && !w.kind.Other? && !w'.kind.Other?
    ensures w.kind == w'.kind && w.entry == w'.entry
  {
    TagIs(w);
    TagIs(w');
    StartsInTurn(cid, PrefixOf(w), 6);
    StartsInTurn(cid, PrefixOf(w'), 6);
    TagsDiffer(w.entry, w.kind, w'.entry, w'.kind);
  }

  /** An id that matches a want was minted for its kind, and remembers the levels it was minted for. */
  lemma MatchingKind(o: Resting, w: Want)
    requires WellPlaced(o) && Matches(o, w) && !w.kind.Other?
    ensures o.kind == w.kind && Remembers(o.cid, o.kind, o.v)
  {
    var w', uuid: Uuid :| MintedFor(o, w', uuid);
    IdRoundTrip(PrefixOf(w'), o.kind, uuid, o.v);
    MintStarts(PrefixOf(w'), o.kind, uuid, o.v);
    SameKind(o.cid, w, w');
  }

  lemma MintStarts(prefix: string, kind: Kind, uuid: Uuid, v: Levels)
    ensures Mint(prefix, kind, uuid, v).Cid? ==> StartsWith(Mint(prefix, kind, uuid, v).text, prefix)
  {}

  lemma MatchingFamily(o: Resting, w: Want, entry: bool)
    requires Matches(o, w) && !w.kind.Other? && InFamily(o, entry)
    ensures w.entry == entry
  {
    TagIs(w);
    StartsInTurn(o.cid, PrefixOf(w), 6);
    assert o.cid[0] == TagOf(w.entry, w.kind)[0] by { assert o.cid[..6][0] == o.cid[0]; }
    assert o.cid[0] == if entry then 'e' else 's';
  }

  /** What a release looks at: every order minted for an exit is in the exit family and in no other, and every one
      minted for an entry in the entry family, a trailing entry in neither. */
  lemma MintedIsInFamily(o: Resting, w: Want)
    requires Matches(o, w) && !w.kind.Other?
    ensures InFamily(o, false) <==> !w.entry
    ensures InFamily(o, true) <==> w.entry && !w.kind.TrailingStop?
  {
    TagIs(w);
    if w.entry || !w.kind.Limit? { TagIsClosed(w); }
    FamilyByTag(o.cid, PrefixOf(w), w.entry, w.kind);
  }

  lemma TagIsClosed(w: Want)
    requires !w.kind.Other? && (w.entry || !w.kind.Limit?)
    ensures |PrefixOf(w)| >= 7 && PrefixOf(w)[6] == '-'
  {}

  /** The tag and the dash after it decide on the family. */
  lemma FamilyByTag(cid: string, prefix: string, entry: bool, kind: Kind)
    requires !kind.Other? && StartsWith(cid, prefix) && |prefix| >= 6 && prefix[..6] == TagOf(entry, kind)
    requires entry || !kind.Limit? ==> |prefix| >= 7 && prefix[6] == '-'
    ensures InExits(cid) <==> !entry
    ensures InEntries(cid) <==> entry && !kind.TrailingStop?
  {
    StartsInTurn(cid, prefix, 6);
    if entry || !kind.Limit? {
      StartsInTurn(cid, prefix, 7);
      assert cid[6] == cid[..7][6] == prefix[..7][6] == '-';
    }
    DashAfter(cid, "sl-stp");
    DashAfter(cid, "sl-stl");
    DashAfter(cid, "sl-trl");
    DashAfter(cid, "en-lmt");
    DashAfter(cid, "en-stp");
    DashAfter(cid, "en-stl");
    if InExits(cid) { TagIsExit(cid[..6], entry, kind); }
    if InEntries(cid) { TagIsEntry(cid[..6], entry, kind); }
  }

  lemma DashAfter(cid: string, tag: string)
    requires |tag| == 6
    ensures StartsWith(cid, tag + "-") <==> |cid| >= 7 && cid[..6] == tag && cid[6] == '-'
  {
    if |cid| >= 7 && cid[..6] == tag && cid[6] == '-' { assert cid[..7] == cid[..6] + [cid[6]]; }
    if StartsWith(cid, tag + "-") { assert cid[..6] == cid[..7][..6] == tag && cid[6] == cid[..7][6]; }
  }

  lemma TagIsExit(tag: string, entry: bool, kind: Kind)
    requires !kind.Other? && tag == TagOf(entry, kind) && tag in {"sl-tp-", "sl-stp", "sl-stl", "sl-trl"}
    ensures !entry
  {
    assert tag[0] == 's';
  }

  lemma TagIsEntry(tag: string, entry: bool, kind: Kind)
    requires !kind.Other? && tag == TagOf(entry, kind) && tag in {"en-lmt", "en-stp", "en-stl"}
    ensures entry && !kind.TrailingStop?
  {
    assert tag[0] == 'e' && tag[3] != 't';
  }

  predicate InExits(cid: string) {
    StartsWith(cid, "sl-tp-") || StartsWith(cid, "sl-stp-") || StartsWith(cid, "sl-stl-") || StartsWith(cid, "sl-trl-")
  }

  predicate InEntries(cid: string) {
    StartsWith(cid, "en-lmt-") || StartsWith(cid, "en-stp-") || StartsWith(cid, "en-stl-")
  }

  lemma MatchingIsOurs(o: Resting, w: Want)
    requires Matches(o, w) && !w.kind.Other?
    ensures IsOurs(o)
  {
    TagIs(w);
    StartsInTurn(o.cid, PrefixOf(w), 6);
    assert o.cid[..3] == o.cid[..6][..3] == TagOf(w.entry, w.kind)[..3];
    assert TagOf(w.entry, w.kind)[..3] == if w.entry then "en-" else "sl-";
  }

  /** Neither want's identity extends the other's. */
  predicate Disjoint(a: Want, b: Want) {
    a.symbol == b.symbol ==> !StartsWith(PrefixOf(a), PrefixOf(b)) && !StartsWith(PrefixOf(b), PrefixOf(a))
  }

  lemma DisjointMatch(o: Resting, a: Want, b: Want)
    requires Matches(o, a) && Matches(o, b)
    ensures !Disjoint(a, b)
  {
    var p, q := PrefixOf(a), PrefixOf(b);
    if |p| <= |q| { StartsInTurn(o.cid, q, |p|); } else { StartsInTurn(o.cid, p, |q|); }
  }

  // ------------------------------------------------------------------ a calm venue

  /** Everything sent is carried out, and something is sent. */
  ghost predicate Calm(c: Config) {
    !c.rails.dryRun && !c.rails.paused && c.rails.liveAllowed && forall i: nat :: c.draws(i).reply.Accepted?
  }

  ghost predicate Ready(r: Run, budget: int) { !r.aborted && !r.tripped && r.budget >= budget }

  ghost predicate UniqueIds(r: Run) {
    && (forall x, y :: x in r.venue && y in r.venue && x.id == y.id ==> x == y)
    && (forall x :: x in r.venue ==> x.id < r.nextId)
  }

  ghost predicate AtMostOne(venue: seq<Resting>, w: Want) {
    forall x, y :: x in venue && y in venue && Matches(x, w) && Matches(y, w) ==> x == y
  }

  /** A want's order rests, alone, at the wanted quantity and with nothing to change. */
  ghost predicate Settled(venue: seq<Resting>, w: Want, qty: int) {
    && AtMostOne(venue, w)
    && exists o :: o in venue && Good(o, w, qty)
  }

  ghost predicate Good(o: Resting, w: Want, qty: int) {
    Matches(o, w) && WellPlaced(o) && o.qty == qty && !Changed(w.kind, ListingOf(o), qty, w.v, true)
  }

  /** The want is one a strategy can ask for, and a quantity the venue can amend to. */
  ghost predicate Sane(c: Config, w: Want, exits: seq<Want>) {
    && !w.kind.Other? && Specified(w.kind, w.v)
    && (GateFor(c, w, exits).Go? && w.kind.Limit? && c.supportsReplace ==>
          WholeShares(c, GateFor(c, w, exits).qty) == GateFor(c, w, exits).qty)
  }

  /** Same orders outside one want. */
  ghost predicate SameOutside(a: seq<Resting>, b: seq<Resting>, w: Want) {
    forall o :: !Matches(o, w) ==> (o in a <==> o in b)
  }

  /** A new order alone with its identity settles the want. */
  lemma AppendSettles(r: Run, r': Run, w: Want, o: Resting)
    requires UniqueIds(r) && r'.venue == r.venue + [o] && r'.nextId == r.nextId + 1 && o.id == r.nextId
    requires Good(o, w, o.qty) && forall x :: x in r.venue ==> !Matches(x, w)
    ensures UniqueIds(r') && Settled(r'.venue, w, o.qty) && SameOutside(r.venue, r'.venue, w)
  {
    assert o in r'.venue;
  }

  lemma SubmitSettles(c: Config, r: Run, w: Want, qty: int)
    requires Calm(c) && Ready(r, 1) && UniqueIds(r) && !w.kind.Other? && Specified(w.kind, w.v)
    requires forall o :: o in r.venue ==> !Matches(o, w)
    ensures var r' := SubmitFor(c, r, w, qty);
            Ready(r', r.budget - 1) && UniqueIds(r') && Settled(r'.venue, w, qty) && SameOutside(r.venue, r'.venue, w)
  {
    var uuid := c.draws(|r.wires|).uuid;
    MintedMatches(c, w, uuid);
    var m := Mint(PrefixOf(w), w.kind, uuid, w.v);
    var o := Resting(r.nextId, w.symbol, m.text, w.kind, qty, w.v, c.draws(|r.wires|).reply.silent);
    assert MintedFor(o, w, uuid);
    NewIsGood(o, w, qty);
    AppendSettles(r, SubmitFor(c, r, w, qty), w, o);
  }

  lemma NewIsGood(o: Resting, w: Want, qty: int)
    requires Matches(o, w) && WellPlaced(o) && !w.kind.Other? && o.qty == qty && o.v == w.v
    ensures Good(o, w, qty)
  {
    MatchingKind(o, w);
    UnchangedNeverChurns(w.kind, ListingOf(o), w.v);
  }

  lemma AmendSettles(c: Config, r: Run, w: Want, qty: int, o: Resting)
    requires Calm(c) && Ready(r, 1) && UniqueIds(r) && w.kind.Limit? && w.v.price.Some? && WholeShares(c, qty) == qty
    requires o in r.venue && Matches(o, w) && WellPlaced(o) && AtMostOne(r.venue, w)
    ensures var r' := ActOn(c, r, Replace(o.id, WholeShares(c, qty), w.v.price));
            Ready(r', r.budget - 1) && UniqueIds(r') && Settled(r'.venue, w, qty) && SameOutside(r.venue, r'.venue, w)
  {
    var r' := ActOn(c, r, Replace(o.id, WholeShares(c, qty), w.v.price));
    var silent := c.draws(|r.wires|).reply.silent;
    var o' := o.(qty := qty, v := o.v.(price := w.v.price), silent := silent);
    AmendedIs(r, o, o', qty, w.v.price, silent);
    MatchingKind(o, w);
    AmendSettlesExactlyWholeShares(c, w, qty, o, silent);
    var w', uuid: Uuid :| MintedFor(o, w', uuid);
    assert MintedFor(o', w', uuid);
    assert Good(o', w, qty);
  }

  lemma AmendedIs(r: Run, o: Resting, o': Resting, qty: int, price: Option<real>, silent: bool)
    requires UniqueIds(r) && o in r.venue
    requires o' == o.(qty := qty, v := o.v.(price := price), silent := silent)
    ensures forall x :: x in Amended(r.venue, o.id, qty, price, silent) <==> x == o' || (x in r.venue && x != o)
  {
    var a := Amended(r.venue, o.id, qty, price, silent);
    forall x ensures x in a <==> x == o' || (x in r.venue && x != o) {
      if x in a {
        var i :| 0 <= i < |a| && a[i] == x;
        assert r.venue[i] in r.venue;
      }
      if x in r.venue && x != o {
        var i :| 0 <= i < |r.venue| && r.venue[i] == x;
        assert a[i] == x;
      }
      var j :| 0 <= j < |r.venue| && r.venue[j] == o;
      assert a[j] == o';
    }
  }

  lemma RefreshSettles(c: Config, r: Run, w: Want, qty: int, o: Resting)
    requires Calm(c) && Ready(r, 2) && UniqueIds(r) && !w.kind.Other? && Specified(w.kind, w.v)
    requires w.kind.Limit? && c.supportsReplace ==> WholeShares(c, qty) == qty
    requires o in r.venue && Matches(o, w) && WellPlaced(o) && AtMostOne(r.venue, w)
    ensures var r' := Refreshed(c, r, w, qty, o);
            Ready(r', r.budget - 2) && UniqueIds(r') && Settled(r'.venue, w, qty) && SameOutside(r.venue, r'.venue, w)
  {
    if !Changed(w.kind, ListingOf(o), qty, w.v, true) {
      assert Good(o, w, qty);
    } else if w.kind.Limit? && c.supportsReplace {
      AmendSettles(c, r, w, qty, o);
    } else {
      var r1 := ActOn(c, r, Cancel(o.id));
      WithoutIs(r.venue, o.id);
      assert r1.venue == Without(r.venue, o.id);
      SubmitSettles(c, r1, w, qty);
    }
  }

  /** Placing one want settles it and leaves the orders of every other identity alone. */
  lemma PlaceOneSettles(c: Config, r: Run, w: Want, exits: seq<Want>, ours: seq<Resting>)
    requires Calm(c) && Ready(r, 2) && UniqueIds(r) && Sane(c, w, exits)
    requires forall o :: Matches(o, w) ==> (o in r.venue <==> o in ours)
    requires forall o :: o in ours && Matches(o, w) ==> WellPlaced(o)
    requires AtMostOne(ours, w)
    ensures var r' := PlacedOne(c, r, w, exits, ours);
            && Ready(r', r.budget - 2) && UniqueIds(r') && SameOutside(r.venue, r'.venue, w)
            && (GateFor(c, w, exits).Go? ==> Settled(r'.venue, w, GateFor(c, w, exits).qty))
  {
    var gate := GateFor(c, w, exits);
    if gate.Go? {
      FirstIs(ours, w);
      var o := First(ours, w);
      if o.None? {
        SubmitSettles(c, r, w, gate.qty);
      } else {
        RefreshSettles(c, r, w, gate.qty, o.value);
      }
    }
  }

  // ------------------------------------------------------------------ all wants

  predicate Goes(c: Config, w: Want, exits: seq<Want>) { GateFor(c, w, exits).Go? }

  /** What the theorem needs of one want: it is sane, and what already carries its identity is at most one
      order, placed by the executor. */
  ghost predicate Prepared(c: Config, venue: seq<Resting>, w: Want, exits: seq<Want>) {
    && Sane(c, w, exits)
    && AtMostOne(venue, w)
    && forall o :: o in venue && Matches(o, w) ==> WellPlaced(o)
  }

  ghost predicate PairwiseDisjoint(c: Config, wants: seq<Want>, exits: seq<Want>) {
    forall i, j :: 0 <= i < j < |wants| && Goes(c, wants[i], exits) && Goes(c, wants[j], exits)
      ==> Disjoint(wants[i], wants[j])
  }

  ghost predicate SameFor(a: seq<Resting>, b: seq<Resting>, w: Want) {
    forall o :: Matches(o, w) ==> (o in a <==> o in b)
  }

  ghost predicate AllSettled(c: Config, venue: seq<Resting>, wants: seq<Want>, exits: seq<Want>) {
    forall i :: 0 <= i < |wants| && Goes(c, wants[i], exits)
      ==> Settled(venue, wants[i], GateFor(c, wants[i], exits).qty)
  }

  /** No accepted want carries the order's identity. */
  ghost predicate Outside(c: Config, o: Resting, wants: seq<Want>, exits: seq<Want>) {
    forall i :: 0 <= i < |wants| && Goes(c, wants[i], exits) ==> !Matches(o, wants[i])
  }

  /** Work on one identity does not show in a disjoint one. */
  lemma DisjointFrame(a: seq<Resting>, b: seq<Resting>, w: Want, other: Want)
    requires SameOutside(a, b, w) && Disjoint(other, w)
    ensures SameFor(a, b, other)
  {
    forall o | Matches(o, other) ensures o in a <==> o in b {
      if Matches(o, w) { DisjointMatch(o, other, w); }
    }
  }

  lemma SettledFrame(a: seq<Resting>, b: seq<Resting>, w: Want, qty: int)
    requires Settled(a, w, qty) && SameFor(a, b, w)
    ensures Settled(b, w, qty)
  {
    var o :| o in a && Good(o, w, qty);
    assert o in b;
  }

  lemma OthersOutside(c: Config, wants: seq<Want>, exits: seq<Want>, o: Resting)
    requires wants != [] && PairwiseDisjoint(c, wants, exits) && Goes(c, wants[|wants| - 1], exits)
    requires Matches(o, wants[|wants| - 1])
    ensures Outside(c, o, wants[..|wants| - 1], exits)
  {
    var n := |wants| - 1;
    forall i | 0 <= i < n && Goes(c, wants[..n][i], exits) ensures !Matches(o, wants[..n][i]) {
      assert wants[..n][i] == wants[i] && Disjoint(wants[i], wants[n]);
      if Matches(o, wants[i]) { DisjointMatch(o, wants[i], wants[n]); }
    }
  }

  /** The snapshot still speaks for every want of the list. */
  ghost predicate Current(c: Config, venue: seq<Resting>, wants: seq<Want>, exits: seq<Want>, ours: seq<Resting>) {
    forall i :: 0 <= i < |wants| && Goes(c, wants[i], exits) ==>
                  Prepared(c, ours, wants[i], exits) && SameFor(venue, ours, wants[i])
  }

  lemma ShorterList(c: Config, venue: seq<Resting>, wants: seq<Want>, exits: seq<Want>, ours: seq<Resting>)
    requires wants != [] && PairwiseDisjoint(c, wants, exits) && Current(c, venue, wants, exits, ours)
    ensures PairwiseDisjoint(c, wants[..|wants| - 1], exits) && Current(c, venue, wants[..|wants| - 1], exits, ours)
  {
    var some := wants[..|wants| - 1];
    assert forall i :: 0 <= i < |some| ==> some[i] == wants[i];
  }

  lemma {:induction false} PlacedSettles(c: Config, r: Run, wants: seq<Want>, exits: seq<Want>, ours: seq<Resting>)
    requires Calm(c) && Ready(r, 2 * |wants|) && UniqueIds(r) && PairwiseDisjoint(c, wants, exits)
    requires Current(c, r.venue, wants, exits, ours)
    ensures var r' := Placed(c, r, wants, exits, ours);
            && Ready(r', r.budget - 2 * |wants|) && UniqueIds(r') && AllSettled(c, r'.venue, wants, exits)
            && forall o :: Outside(c, o, wants, exits) ==> (o in r.venue <==> o in r'.venue)
  {
    if wants != [] {
      var n := |wants| - 1;
      ShorterList(c, r.venue, wants, exits, ours);
      PlacedSettles(c, r, wants[..n], exits, ours);
      var r1 := Placed(c, r, wants[..n], exits, ours);
      if Goes(c, wants[n], exits) {
        forall o | Matches(o, wants[n]) ensures o in r1.venue <==> o in ours {
          OthersOutside(c, wants, exits, o);
        }
        PlaceLast(c, r1, wants, exits, ours);
      } else {
        SkippedLast(c, r1.venue, wants, exits);
      }
      OutsideSplits(c, r, r1, wants, exits, ours);
    }
  }

  lemma SkippedLast(c: Config, venue: seq<Resting>, wants: seq<Want>, exits: seq<Want>)
    requires wants != [] && !Goes(c, wants[|wants| - 1], exits) && AllSettled(c, venue, wants[..|wants| - 1], exits)
    ensures AllSettled(c, venue, wants, exits)
  {
    var some := wants[..|wants| - 1];
    forall i | 0 <= i < |wants| && Goes(c, wants[i], exits)
      ensures Settled(venue, wants[i], GateFor(c, wants[i], exits).qty)
    {
      assert some[i] == wants[i];
    }
  }

  lemma PlaceLast(c: Config, r1: Run, wants: seq<Want>, exits: seq<Want>, ours: seq<Resting>)
    requires wants != [] && Calm(c) && Ready(r1, 2) && UniqueIds(r1) && PairwiseDisjoint(c, wants, exits)
    requires var w := wants[|wants| - 1]; Goes(c, w, exits) && Prepared(c, ours, w, exits) && SameFor(r1.venue, ours, w)
    requires AllSettled(c, r1.venue, wants[..|wants| - 1], exits)
    ensures var r' := PlacedOne(c, r1, wants[|wants| - 1], exits, ours);
            && Ready(r', r1.budget - 2) && UniqueIds(r') && AllSettled(c, r'.venue, wants, exits)
            && SameOutside(r1.venue, r'.venue, wants[|wants| - 1])
  {
    var n := |wants| - 1;
    PlaceOneSettles(c, r1, wants[n], exits, ours);
    EarlierStaySettled(c, r1.venue, PlacedOne(c, r1, wants[n], exits, ours).venue, wants, exits);
  }

  lemma EarlierStaySettled(c: Config, a: seq<Resting>, b: seq<Resting>, wants: seq<Want>, exits: seq<Want>)
    requires wants != [] && PairwiseDisjoint(c, wants, exits) && AllSettled(c, a, wants[..|wants| - 1], exits)
    requires var w := wants[|wants| - 1];
             Goes(c, w, exits) && SameOutside(a, b, w) && Settled(b, w, GateFor(c, w, exits).qty)
    ensures AllSettled(c, b, wants, exits)
  {
    forall i | 0 <= i < |wants| && Goes(c, wants[i], exits)
      ensures Settled(b, wants[i], GateFor(c, wants[i], exits).qty)
    {
      if i < |wants| - 1 { EarlierStays(c, a, b, wants, exits, i); }
    }
  }

  lemma EarlierStays(c: Config, a: seq<Resting>, b: seq<Resting>, wants: seq<Want>, exits: seq<Want>, i: nat)
    requires i < |wants| - 1 && Goes(c, wants[i], exits) && Goes(c, wants[|wants| - 1], exits)
    requires Disjoint(wants[i], wants[|wants| - 1]) && AllSettled(c, a, wants[..|wants| - 1], exits)
    requires SameOutside(a, b, wants[|wants| - 1])
    ensures Settled(b, wants[i], GateFor(c, wants[i], exits).qty)
  {
    assert wants[..|wants| - 1][i] == wants[i];
    DisjointFrame(a, b, wants[|wants| - 1], wants[i]);
    SettledFrame(a, b, wants[i], GateFor(c, wants[i], exits).qty);
  }

  lemma OutsideSplits(c: Config, r: Run, r1: Run, wants: seq<Want>, exits: seq<Want>, ours: seq<Resting>)
    requires wants != []
    requires forall o :: Outside(c, o, wants[..|wants| - 1], exits) ==> (o in r.venue <==> o in r1.venue)
    requires var w := wants[|wants| - 1];
             Goes(c, w, exits) ==> SameOutside(r1.venue, PlacedOne(c, r1, w, exits, ours).venue, w)
    ensures forall o :: Outside(c, o, wants, exits) ==>
                          (o in r.venue <==> o in PlacedOne(c, r1, wants[|wants| - 1], exits, ours).venue)
  {
    var n := |wants| - 1;
    forall o | Outside(c, o, wants, exits)
      ensures o in r.venue <==> o in PlacedOne(c, r1, wants[n], exits, ours).venue
    {
      assert Outside(c, o, wants[..n], exits) by {
        forall i | 0 <= i < n && Goes(c, wants[..n][i], exits) ensures !Matches(o, wants[..n][i]) {
          assert wants[..n][i] == wants[i];
        }
      }
    }
  }

  lemma {:induction false} PlacedConcat(c: Config, r: Run, a: seq<Want>, b: seq<Want>, exits: seq<Want>,
                                        ours: seq<Resting>)
    ensures Placed(c, r, a + b, exits, ours) == Placed(c, Placed(c, r, a, exits, ours), b, exits, ours)
  {
    if b == [] {
      assert a + b == a;
    } else {
      var some, w := b[..|b| - 1], b[|b| - 1];
      LastSplits(a, b);
      PlacedSnoc(c, r, a + some, w, exits, ours);
      PlacedConcat(c, r, a, some, exits, ours);
    }
  }

  lemma PlacedSnoc(c: Config, r: Run, some: seq<Want>, w: Want, exits: seq<Want>, ours: seq<Resting>)
    ensures Placed(c, r, some + [w], exits, ours) == PlacedOne(c, Placed(c, r, some, exits, ours), w, exits, ours)
  {
    assert (some + [w])[..|some|] == some;
  }

  // ------------------------------------------------------------------ the sections before

  lemma {:induction false} OnCloseIsCalm(c: Config, r: Run, n: nat)
    requires Calm(c) && Ready(r, n)
    ensures Ready(OnClose(c, r, n), r.budget - n)
    ensures OnClose(c, r, n).venue == r.venue && OnClose(c, r, n).nextId == r.nextId
  {
    if n > 0 { OnCloseIsCalm(c, r, n - 1); }
  }

  lemma {:induction false} DeferredIsCalm(c: Config, r: Run, n: nat)
    requires Calm(c) && Ready(r, n)
    ensures var (r', k) := Deferred(c, r, n); r' == r.(budget := r.budget - n) && k == n
  {
    if n > 0 { DeferredIsCalm(c, r, n - 1); }
  }

  lemma {:induction false} LaunchedIsCalm(c: Config, r: Run, k: nat)
    requires Calm(c) && Ready(r, 0)
    ensures var r' := Launched(c, r, k);
            Ready(r', r.budget) && r'.budget == r.budget && r'.venue == r.venue && r'.nextId == r.nextId
  {
    if k > 0 { LaunchedIsCalm(c, r, k - 1); }
  }

  /** A release takes away exactly the stale orders of the snapshot. */
  lemma {:induction false} ReleasedIs(c: Config, r: Run, some: seq<Resting>, wants: seq<Want>, entry: bool, r0: Run)
    requires Calm(c) && Ready(r, |some|) && UniqueIds(r0)
    requires forall o :: o in r.venue || o in some ==> o in r0.venue
    ensures var r' := Released(c, r, some, wants, entry);
            && Ready(r', r.budget - |some|) && r'.nextId == r.nextId
            && forall o :: o in r'.venue <==> o in r.venue && !(o in some && Stale(o, wants, entry))
  {
    if some != [] {
      var n := |some| - 1;
      var x := some[n];
      assert x in some && forall o :: o in some <==> o in some[..n] || o == x;
      ReleasedIs(c, r, some[..n], wants, entry, r0);
      var r1 := Released(c, r, some[..n], wants, entry);
      if Stale(x, wants, entry) {
        WithoutIs(r1.venue, x.id);
        assert ActOn(c, r1, Cancel(x.id)).venue == Without(r1.venue, x.id);
      }
    }
  }

  // ------------------------------------------------------------------ the theorem

  /** Nothing stale rests, and every accepted want rests alone as it should. */
  ghost predicate Converged(c: Config, venue: seq<Resting>, exits: seq<Want>, entries: seq<Want>) {
    && AllSettled(c, venue, exits + entries, exits)
    && forall o :: o in venue ==> !Stale(o, entries, true) && !Stale(o, Placeable(exits, exits), false)
  }

  ghost predicate Start(c: Config, r: Run, exits: seq<Want>, entries: seq<Want>) {
    && UniqueIds(r) && PairwiseDisjoint(c, exits + entries, exits)
    && (forall w :: w in exits ==> !w.entry && !w.kind.Other?)
    && (forall w :: w in entries ==> w.entry && !w.kind.Other?)
    && forall i :: 0 <= i < |exits + entries| && Goes(c, (exits + entries)[i], exits) ==>
                     Prepared(c, r.venue, (exits + entries)[i], exits)
  }

  function Enough(r: Run, exits: seq<Want>, entries: seq<Want>, n: Others): nat {
    n.closes + 2 * |OursOf(r.venue)| + n.deltas + 2 * |exits + entries|
  }

  lemma InFamilyIsOurs(o: Resting, entry: bool)
    requires InFamily(o, entry)
    ensures IsOurs(o)
  {
    var s := o.cid;
    if entry {
      assert s[..7][..3] == s[..3];
    } else if StartsWith(s, "sl-tp-") {
      assert s[..6][..3] == s[..3];
    } else {
      assert s[..7][..3] == s[..3];
    }
  }

  /** A want that is placed keeps the orders of its identity from being stale in either family. */
  lemma MatchedIsNotStale(c: Config, o: Resting, exits: seq<Want>, entries: seq<Want>, i: nat)
    requires i < |exits + entries| && Matches(o, (exits + entries)[i]) && Goes(c, (exits + entries)[i], exits)
    requires forall w :: w in exits ==> !w.entry && !w.kind.Other?
    requires forall w :: w in entries ==> w.entry && !w.kind.Other?
    ensures !Stale(o, entries, true) && !Stale(o, Placeable(exits, exits), false)
  {
    var w := (exits + entries)[i];
    assert if i < |exits| then w in exits else w in entries;
    if InFamily(o, true) { MatchingFamily(o, w, true); }
    if InFamily(o, false) { MatchingFamily(o, w, false); }
    var wants := if w.entry then entries else Placeable(exits, exits);
    assert w in wants;
    var k :| 0 <= k < |wants| && wants[k] == w;
    assert Matches(o, wants[k]);
  }

  lemma AfterReleaseIs(c: Config, r: Run, exits: seq<Want>, entries: seq<Want>, n: Others)
    requires Calm(c) && Start(c, r, exits, entries) && Ready(r, Enough(r, exits, entries, n))
    ensures var r3 := AfterRelease(c, r, exits, entries, n);
            && Ready(r3, n.deltas + 2 * |exits + entries|) && UniqueIds(r3)
            && (forall o :: o in r3.venue <==>
                             o in r.venue && !Stale(o, entries, true) && !Stale(o, Placeable(exits, exits), false))
  {
    var ours, live := OursOf(r.venue), Placeable(exits, exits);
    var r1 := OnClose(c, r, n.closes);
    OnCloseIsCalm(c, r, n.closes);
    ReleasedIs(c, r1, ours, entries, true, r);
    var r2 := Released(c, r1, ours, entries, true);
    ReleasedIs(c, r2, ours, live, false, r);
    var r3 := Released(c, r2, ours, live, false);
    forall o | o in r.venue ensures o in r3.venue <==> !Stale(o, entries, true) && !Stale(o, live, false) {
      if InFamily(o, true) { InFamilyIsOurs(o, true); }
      if InFamily(o, false) { InFamilyIsOurs(o, false); }
    }
  }

  lemma BatchIsCalm(c: Config, r: Run, n: nat)
    requires Calm(c) && Ready(r, n)
    ensures var r' := Batch(c, r, n); Ready(r', r.budget - n) && r'.venue == r.venue && r'.nextId == r.nextId
  {
    DeferredIsCalm(c, r, n);
    LaunchedIsCalm(c, r.(budget := r.budget - n), n);
  }

  /** After the releases the snapshot still speaks for every want that will be placed. */
  lemma ReleaseLeavesCurrent(c: Config, r: Run, venue: seq<Resting>, exits: seq<Want>, entries: seq<Want>)
    requires Start(c, r, exits, entries)
    requires forall o :: o in venue <==>
                      o in r.venue && !Stale(o, entries, true) && !Stale(o, Placeable(exits, exits), false)
    ensures Current(c, venue, exits + entries, exits, OursOf(r.venue))
  {
    var ours, all := OursOf(r.venue), exits + entries;
    forall i | 0 <= i < |all| && Goes(c, all[i], exits)
      ensures Prepared(c, ours, all[i], exits) && SameFor(venue, ours, all[i])
    {
      assert Prepared(c, r.venue, all[i], exits);
      forall o | Matches(o, all[i]) ensures o in venue <==> o in ours {
        MatchingIsOurs(o, all[i]);
        MatchedIsNotStale(c, o, exits, entries, i);
      }
    }
  }

  /** Placing brings nothing stale. */
  lemma PlacingAddsNothingStale(c: Config, before: seq<Resting>, after: seq<Resting>, exits: seq<Want>,
                                entries: seq<Want>)
    requires forall w :: w in exits ==> !w.entry && !w.kind.Other?
    requires forall w :: w in entries ==> w.entry && !w.kind.Other?
    requires forall o :: o in before ==> !Stale(o, entries, true) && !Stale(o, Placeable(exits, exits), false)
    requires forall o :: Outside(c, o, exits + entries, exits) ==> (o in before <==> o in after)
    ensures forall o :: o in after ==> !Stale(o, entries, true) && !Stale(o, Placeable(exits, exits), false)
  {
    var all := exits + entries;
    forall o | o in after ensures !Stale(o, entries, true) && !Stale(o, Placeable(exits, exits), false) {
      if !Outside(c, o, all, exits) {
        var i :| 0 <= i < |all| && Goes(c, all[i], exits) && Matches(o, all[i]);
        MatchedIsNotStale(c, o, exits, entries, i);
      }
    }
  }

  /** One pass over a calm venue, with budget enough: afterwards every accepted want has exactly one order
      resting, at its quantity and with nothing to change, nothing unwanted rests, and every order that
      is neither stale nor carries an accepted want's identity is as it was. */
  lemma OnePassConverges(c: Config, r: Run, exits: seq<Want>, entries: seq<Want>, n: Others)
    requires Calm(c) && Start(c, r, exits, entries) && Ready(r, Enough(r, exits, entries, n))
    ensures var r' := Pass(c, r, exits, entries, n);
            && UniqueIds(r') && Converged(c, r'.venue, exits, entries)
            && forall o :: Outside(c, o, exits + entries, exits) ==>
                             (o in r'.venue <==>
                                o in r.venue && !Stale(o, entries, true) && !Stale(o, Placeable(exits, exits), false))
  {
    var ours, all := OursOf(r.venue), exits + entries;
    var r3 := AfterRelease(c, r, exits, entries, n);
    AfterReleaseIs(c, r, exits, entries, n);
    BatchIsCalm(c, r3, n.deltas);
    var r4 := Batch(c, r3, n.deltas);
    ReleaseLeavesCurrent(c, r, r4.venue, exits, entries);
    PlacedSettles(c, r4, all, exits, ours);
    PlacedConcat(c, r4, exits, entries, exits, ours);
    PlacingAddsNothingStale(c, r4.venue, Placed(c, r4, all, exits, ours).venue, exits, entries);
  }

  // ------------------------------------------------------------------ the next pass

  lemma {:induction false} NothingReleased(c: Config, r: Run, some: seq<Resting>, wants: seq<Want>, entry: bool)
    requires forall o :: o in some ==> !Stale(o, wants, entry)
    ensures Released(c, r, some, wants, entry) == r
  {
    if some != [] {
      assert some[|some| - 1] in some;
      NothingReleased(c, r, some[..|some| - 1], wants, entry);
    }
  }

  lemma {:induction false} NothingPlaced(c: Config, r: Run, wants: seq<Want>, exits: seq<Want>, venue: seq<Resting>)
    requires AllSettled(c, venue, wants, exits) && forall w :: w in wants ==> !w.kind.Other?
    ensures Placed(c, r, wants, exits, OursOf(venue)) == r
  {
    if wants != [] {
      var n := |wants| - 1;
      assert AllSettled(c, venue, wants[..n], exits) by {
        forall i | 0 <= i < n && Goes(c, wants[i], exits)
          ensures Settled(venue, wants[..n][i], GateFor(c, wants[..n][i], exits).qty)
        {
          assert wants[..n][i] == wants[i];
        }
      }
      NothingPlaced(c, r, wants[..n], exits, venue);
      var w := wants[n];
      assert w in wants;
      if Goes(c, w, exits) { SettledStays(c, r, w, exits, venue); }
    }
  }

  lemma SettledStays(c: Config, r: Run, w: Want, exits: seq<Want>, venue: seq<Resting>)
    requires Goes(c, w, exits) && Settled(venue, w, GateFor(c, w, exits).qty) && !w.kind.Other?
    ensures PlacedOne(c, r, w, exits, OursOf(venue)) == r
  {
    var o :| o in venue && Good(o, w, GateFor(c, w, exits).qty);
    MatchingIsOurs(o, w);
    FirstIs(OursOf(venue), w);
    assert First(OursOf(venue), w) == Some(o);
  }

  /** The pass after, with the same wants and market and whatever the venue would answer: no cancel, no
      replace and no submit of a resting order; only the on-close and market sections can send. */
  lemma NextPassIsQuiet(c: Config, r: Run, exits: seq<Want>, entries: seq<Want>, n: Others)
    requires !c.rails.paused && c.rails.liveAllowed && Converged(c, r.venue, exits, entries)
    requires forall w :: w in exits + entries ==> !w.kind.Other?
    ensures Pass(c, r, exits, entries, n) == Batch(c, OnClose(c, r, n.closes), n.deltas)
  {
    var ours := OursOf(r.venue);
    var r1 := OnClose(c, r, n.closes);
    NothingReleased(c, r1, ours, entries, true);
    NothingReleased(c, r1, ours, Placeable(exits, exits), false);
    var r4 := Batch(c, r1, n.deltas);
    PlacedConcat(c, r4, exits, entries, exits, ours);
    NothingPlaced(c, r4, exits + entries, exits, r.venue);
  }

  /** What a venue will answer does not change what is accepted. */
  lemma GatesIgnoreAnswers(c: Config, draws: nat -> Draw, w: Want, exits: seq<Want>)
    ensures GateFor(c.(draws := draws), w, exits) == GateFor(c, w, exits)
  {}

  lemma ConvergedWhateverTheAnswers(c: Config, draws: nat -> Draw, venue: seq<Resting>, exits: seq<Want>,
                                    entries: seq<Want>)
    requires Converged(c, venue, exits, entries)
    ensures Converged(c.(draws := draws), venue, exits, entries)
  {
    var all, c' := exits + entries, c.(draws := draws);
    forall i | 0 <= i < |all| && Goes(c', all[i], exits)
      ensures Settled(venue, all[i], GateFor(c', all[i], exits).qty)
    {
      GatesIgnoreAnswers(c, draws, all[i], exits);
    }
  }

  /** Converge, then rest: the two passes together. */
  lemma SecondPassSendsNothing(c: Config, r: Run, exits: seq<Want>, entries: seq<Want>, n: Others,
                               draws: nat -> Draw, budget: int, tripped: bool)
    requires Calm(c) && Start(c, r, exits, entries) && Ready(r, Enough(r, exits, entries, n))
    ensures var r' := Pass(c, r, exits, entries, n);
            var again := Run(r'.venue, r'.nextId, budget, tripped, false, []);
            Pass(c.(draws := draws), again, exits, entries, Others(0, 0)) == again
  {
    OnePassConverges(c, r, exits, entries, n);
    var r' := Pass(c, r, exits, entries, n);
    var again := Run(r'.venue, r'.nextId, budget, tripped, false, []);
    ConvergedWhateverTheAnswers(c, draws, r'.venue, exits, entries);
    NextPassIsQuiet(c.(draws := draws), again, exits, entries, Others(0, 0));
    NoOthers(c.(draws := draws), again);
  }

  lemma NoOthers(c: Config, r: Run)
    ensures Batch(c, OnClose(c, r, 0), 0) == r
  {}

  /** For instance: an empty venue, one accepted exit, and a budget of three. */
  lemma FirstExitGoesOut(c: Config, r: Run, w: Want)
    requires Calm(c) && r.venue == [] && Ready(r, 3) && !w.entry && Sane(c, w, [w]) && Goes(c, w, [w])
    ensures var r' := Pass(c, r, [w], [], Others(0, 0));
            Settled(r'.venue, w, GateFor(c, w, [w]).qty) && forall o :: o in r'.venue ==> !Stale(o, [], true)
  {
    assert [w] + [] == [w];
    assert Prepared(c, r.venue, w, [w]);
    assert OursOf(r.venue) == [];
    OnePassConverges(c, r, [w], [], Others(0, 0));
    assert ([w] + [])[0] == w;
  }

  // ------------------------------------------------------------------ what settled means

  predicate Near(a: Option<real>, b: Option<real>) {
    a.Some? && b.Some? && a.value - b.value <= 0.004 && b.value - a.value <= 0.004
  }

  predicate SameCents(a: Option<real>, b: Option<real>) { a.Some? && b.Some? && Cents(a.value) == Cents(b.value) }

  /** A stop that is left resting is at its level: within four tenths of a cent of it where the venue
      echoes levels, and at the same cents where it does not and the resting level could be encoded. */
  lemma SettledStopIsAtItsLevel(o: Resting, w: Want, qty: int)
    requires Good(o, w, qty) && w.kind.Stop? && w.v.stop.Some?
    ensures !o.silent ==> Near(o.v.stop, w.v.stop)
    ensures o.silent && CentsIfEncodable(o.v.stop).Some? ==> SameCents(o.v.stop, w.v.stop)
  {
    MatchingKind(o, w);
    if o.silent { StopChangeIsExact(ListingOf(o), qty, o.v, w.v); }
  }

  lemma SettledStopLimitIsAtItsLevels(o: Resting, w: Want, qty: int)
    requires Good(o, w, qty) && w.kind.StopLimit? && w.v.stop.Some? && w.v.price.Some?
    ensures !o.silent ==> Near(o.v.stop, w.v.stop) && Near(o.v.price, w.v.price)
    ensures o.silent && CentsIfEncodable(o.v.stop).Some? && CentsIfEncodable(o.v.price).Some? ==>
              SameCents(o.v.stop, w.v.stop) && SameCents(o.v.price, w.v.price)
  {
    MatchingKind(o, w);
    if o.silent { StopLimitChangeIsExact(ListingOf(o), qty, o.v, w.v); }
  }

  /** A take-profit left resting where the venue echoes levels is at its price. */
  lemma SettledLimitIsAtItsLevel(o: Resting, w: Want, qty: int)
    requires Good(o, w, qty) && w.kind.Limit? && w.v.price.Some?
    ensures !o.silent ==> Near(o.v.price, w.v.price)
  {
    GoodExactly(o, w, qty);
  }

  /** The levels of a resting order agree with what is wanted: to the tolerance where the venue echoes them, to
      the cent, or to five hundredths of a percent, where the client id remembers them, and in any case
      where neither says anything. */
  predicate LevelsAgree(o: Resting, w: Want)
    requires Specified(o.kind, o.v) && Specified(w.kind, w.v) && o.kind == w.kind
  {
    match w.kind
    case Limit => o.silent || Distance(o.v.price.value, w.v.price.value) <= 0.004
    case Stop =>
      if o.silent then Encodable(o.v.stop.value) ==> Cents(o.v.stop.value) == Cents(w.v.stop.value)
      else Distance(o.v.stop.value, w.v.stop.value) <= 0.004
    case StopLimit =>
      if o.silent then
        Encodable(o.v.stop.value) && Encodable(o.v.price.value) ==>
          Cents(o.v.stop.value) == Cents(w.v.stop.value) && Cents(o.v.price.value) == Cents(w.v.price.value)
      else
        Distance(o.v.stop.value, w.v.stop.value) <= 0.004 && Distance(o.v.price.value, w.v.price.value) <= 0.004
    case TrailingStop =>
      if o.silent then Encodable(o.v.trail.value * 100.0) ==> !TrailMoved(o.v.trail.value, w.v.trail.value)
      else Distance(o.v.trail.value, w.v.trail.value) <= 0.0005
    case Other(_) => true
  }

  /** What converged means, without the change test: an order is left resting for a want exactly when it is of
      the wanted quantity and its levels agree. */
  lemma GoodExactly(o: Resting, w: Want, qty: int)
    requires Matches(o, w) && WellPlaced(o) && !w.kind.Other? && Specified(w.kind, w.v)
    ensures o.kind == w.kind
    ensures Good(o, w, qty) <==> o.qty == qty && LevelsAgree(o, w)
  {
    MatchingKind(o, w);
    match w.kind
    case Limit => LimitAgrees(o, w, qty);
    case Stop => StopAgrees(o, w, qty);
    case StopLimit => StopLimitAgrees(o, w, qty);
    case TrailingStop => TrailAgrees(o, w, qty);
  }

  /** The order is of the want's kind, and its id remembers its levels. */
  ghost predicate RemembersFor(o: Resting, w: Want) {
    o.kind == w.kind && Specified(o.kind, o.v) && Specified(w.kind, w.v) && Remembers(o.cid, o.kind, o.v)
  }

  lemma LimitAgrees(o: Resting, w: Want, qty: int)
    requires RemembersFor(o, w) && w.kind.Limit?
    ensures !Changed(w.kind, ListingOf(o), qty, w.v, true) <==> o.qty == qty && LevelsAgree(o, w)
  {
    if o.silent { LimitLevelNeedsAnEcho(ListingOf(o), qty, o.v, w.v); }
    else { EchoedLimitChange(ListingOf(o), qty, w.v, true); }
  }

  lemma StopAgrees(o: Resting, w: Want, qty: int)
    requires RemembersFor(o, w) && w.kind.Stop?
    ensures !Changed(w.kind, ListingOf(o), qty, w.v, true) <==> o.qty == qty && LevelsAgree(o, w)
  {
    if o.silent { StopChangeIsExact(ListingOf(o), qty, o.v, w.v); }
    else { EchoedStopChange(ListingOf(o), qty, w.kind, w.v, true); }
  }

  lemma StopLimitAgrees(o: Resting, w: Want, qty: int)
    requires RemembersFor(o, w) && w.kind.StopLimit?
    ensures !Changed(w.kind, ListingOf(o), qty, w.v, true) <==> o.qty == qty && LevelsAgree(o, w)
  {
    if o.silent { StopLimitChangeIsExact(ListingOf(o), qty, o.v, w.v); }
    else { EchoedStopLimitChange(ListingOf(o), qty, w.v, true); }
  }

  lemma TrailAgrees(o: Resting, w: Want, qty: int)
    requires RemembersFor(o, w) && w.kind.TrailingStop?
    ensures !Changed(w.kind, ListingOf(o), qty, w.v, true) <==> o.qty == qty && LevelsAgree(o, w)
  {
    if !o.silent {
      EchoedTrailChange(ListingOf(o), qty, w.v, true);
    } else if Encodable(o.v.trail.value * 100.0) {
      TrailChangeIsCoarse(ListingOf(o), qty, o.v, w.v);
    } else {
      UnknownIsUnchanged(w.kind, ListingOf(o), qty, w.v, true);
    }
  }

  lemma GoodAgrees(o: Resting, w: Want, qty: int)
    requires Good(o, w, qty) && !w.kind.Other? && Specified(w.kind, w.v)
    ensures o.kind == w.kind && LevelsAgree(o, w)
  {
    GoodExactly(o, w, qty);
  }

  /** A trailing stop left resting trails by its percent, to five hundredths of one. */
  lemma SettledTrailIsAtItsLevel(o: Resting, w: Want, qty: int)
    requires Good(o, w, qty) && w.kind.TrailingStop? && w.v.trail.Some?
    ensures o.v.trail.Some? && TrailAgreed(o.silent, o.v.trail.value, w.v.trail.value)
  {
    GoodAgrees(o, w, qty);
  }

  /** Within five hundredths of a percent where echoed, or where the id remembers it. */
  predicate TrailAgreed(silent: bool, resting: real, wanted: real) {
    if silent then Encodable(resting * 100.0) ==> !TrailMoved(resting, wanted) else Distance(resting, wanted) <= 0.0005
  }
}
