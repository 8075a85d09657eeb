/**
 Second bars from trades: the batch form that reads a whole day at once, the streaming form that emits a
 bar when its second is over, and exactly when the two agree.
 */
module SecondBars {
  import opened Common
  import opened OrderedDict

  const SESSION_OPEN_MS := 34200000

  /** The one-letter condition codes that keep a trade out of every bar. */
  const EXCLUDED := "CGHIMNPQRTUVWZ479"

  predicate Excluded(code: string) { |code| == 1 && code[0] in EXCLUDED }

  datatype Trade = Trade(ms: int, px: real, size: real, conditions: seq<string>)

  datatype Bar = Bar(start: int, open: real, high: real, low: real, close: real, volume: real)

  predicate Eligible(t: Trade, closeMs: int) {
    SESSION_OPEN_MS <= t.ms < closeMs && forall i :: 0 <= i < |t.conditions| ==> !Excluded(t.conditions[i])
  }

  /** The start of the second a time lies in. */
  function Bucket(ms: int): (b: int)
    ensures b % 1000 == 0 && b <= ms < b + 1000
  {
    (ms / 1000) * 1000
  }

  /** The codes that mark a trade not to be counted. */
  lemma ExcludedExactly(code: string)
    ensures Excluded(code) <==>
      code in {"C", "G", "H", "I", "M", "N", "P", "Q", "R", "T", "U", "V", "W", "Z", "4", "7", "9"}
  {
    if |code| == 1 {
      assert code == [code[0]];
      assert code[0] in EXCLUDED <==> exists i :: 0 <= i < |EXCLUDED| && EXCLUDED[i] == code[0];
    }
  }

  /** A bar can hold what is traded from half past nine until the close without such a code. */
  lemma EligibleExactly(t: Trade, closeMs: int)
    ensures Eligible(t, closeMs) <==>
              (9 * 60 + 30) * 60000 <= t.ms < closeMs && forall c :: c in t.conditions ==> !Excluded(c)
  {}

  function Opened(t: Trade): Bar { Bar(Bucket(t.ms), t.px, t.px, t.px, t.px, t.size) }

  function Extended(b: Bar, t: Trade): Bar {
    b.(high := if t.px > b.high then t.px else b.high, low := if t.px < b.low then t.px else b.low,
       close := t.px, volume := b.volume + t.size)
  }

  // ------------------------------------------------------------------ the batch form

  function Folded(out: seq<(int, Bar)>, t: Trade, closeMs: int): (r: seq<(int, Bar)>)
    requires Distinct(out)
    ensures Distinct(r)
  {
    if !Eligible(t, closeMs) then out
    else
      var b := Bucket(t.ms);
      Put(out, b, if Has(out, b) then Extended(Get(out, b), t) else Opened(t))
  }

  function Aggregated(trades: seq<Trade>, closeMs: int): (out: seq<(int, Bar)>)
    ensures Distinct(out)
  {
    if trades == [] then [] else Folded(Aggregated(trades[..|trades| - 1], closeMs), trades[|trades| - 1], closeMs)
  }

  method AggregateTrades(trades: seq<Trade>, closeMs: int) returns (out: seq<(int, Bar)>)
    ensures out == Aggregated(trades, closeMs)
  {
    out := [];
    for i := 0 to |trades|
      invariant out == Aggregated(trades[..i], closeMs)
    {
      var t := trades[i];
      assert trades[..i + 1][..i] == trades[..i];
      if Eligible(t, closeMs) {
        var b := Bucket(t.ms);
        if Has(out, b) {
          out := Put(out, b, Extended(Get(out, b), t));
        } else {
          out := Put(out, b, Opened(t));
        }
      }
    }
    assert trades[..|trades|] == trades;
  }

  /** The trades that count and lie in the second that starts at `b`, in order. */
  function InSecond(trades: seq<Trade>, closeMs: int, b: int): seq<Trade> {
    if trades == [] then []
    else
      var t := trades[|trades| - 1];
      InSecond(trades[..|trades| - 1], closeMs, b) + if Eligible(t, closeMs) && b <= t.ms < b + 1000 then [t] else []
  }

  function Volume(ts: seq<Trade>): real {
    if ts == [] then 0.0 else Volume(ts[..|ts| - 1]) + ts[|ts| - 1].size
  }

  /** What a bar of some trades is, with no arithmetic of the code in it: first, highest, lowest and last
      price, and the total size. */
  ghost predicate IsBarOf(bar: Bar, ts: seq<Trade>, b: int) {
    && ts != [] && bar.start == b
    && bar.open == ts[0].px && bar.close == ts[|ts| - 1].px
    && (forall i :: 0 <= i < |ts| ==> bar.low <= ts[i].px <= bar.high)
    && (exists i :: 0 <= i < |ts| && ts[i].px == bar.high)
    && (exists i :: 0 <= i < |ts| && ts[i].px == bar.low)
    && bar.volume == Volume(ts)
  }

  lemma OpenedIsBar(t: Trade)
    ensures IsBarOf(Opened(t), [t], Bucket(t.ms))
  {
    assert [t][..0] == [] && [t][0] == t;
  }

  lemma ExtendedIsBar(bar: Bar, ts: seq<Trade>, t: Trade, b: int)
    requires IsBarOf(bar, ts, b)
    ensures IsBarOf(Extended(bar, t), ts + [t], b)
  {
    var all := ts + [t];
    assert all[..|ts|] == ts && all[|ts|] == t;
    var h :| 0 <= h < |ts| && ts[h].px == bar.high;
    var l :| 0 <= l < |ts| && ts[l].px == bar.low;
    assert all[h].px == bar.high && all[l].px == bar.low;
    assert all[0] == ts[0];
  }

  /** For one second, the dictionary says what its trades say. */
  ghost predicate Describes(out: seq<(int, Bar)>, ts: seq<Trade>, b: int) {
    (Has(out, b) <==> ts != []) && (Has(out, b) ==> IsBarOf(Get(out, b), ts, b))
  }

  lemma FoldDescribes(out: seq<(int, Bar)>, ts: seq<Trade>, t: Trade, closeMs: int, b: int)
    requires Distinct(out) && Describes(out, ts, b) && b % 1000 == 0
    ensures Describes(Folded(out, t, closeMs), if Eligible(t, closeMs) && b <= t.ms < b + 1000 then ts + [t] else ts, b)
  {
    if Eligible(t, closeMs) {
      var k := Bucket(t.ms);
      PutGets(out, k, if Has(out, k) then Extended(Get(out, k), t) else Opened(t), b);
      if k == b {
        if Has(out, k) {
          ExtendedIsBar(Get(out, k), ts, t, b);
        } else {
          OpenedIsBar(t);
          assert ts + [t] == [t];
        }
      }
    }
  }

  predicate OnSeconds(out: seq<(int, Bar)>) {
    forall i :: 0 <= i < |out| ==> out[i].0 == out[i].1.start && out[i].0 % 1000 == 0
  }

  lemma FoldOnSeconds(out: seq<(int, Bar)>, t: Trade, closeMs: int)
    requires Distinct(out) && OnSeconds(out)
    ensures OnSeconds(Folded(out, t, closeMs))
  {
    var b := Bucket(t.ms);
    if Eligible(t, closeMs) && Has(out, b) {
      var k := At(out, b).value;
      assert out[k].0 == b == out[k].1.start;
    }
  }

  /** Every bar starts on a whole second, under its start. */
  lemma {:induction false} BarsStartOnSeconds(trades: seq<Trade>, closeMs: int)
    ensures OnSeconds(Aggregated(trades, closeMs))
  {
    if trades != [] {
      BarsStartOnSeconds(trades[..|trades| - 1], closeMs);
      FoldOnSeconds(Aggregated(trades[..|trades| - 1], closeMs), trades[|trades| - 1], closeMs);
    }
  }

  /** The batch form has a bar for exactly the seconds with a trade that counts, and it is the bar of the
      trades in `[b, b + 1000)`, in whatever order they come. */
  lemma {:induction false} AggregatedIsPerSecond(trades: seq<Trade>, closeMs: int, b: int)
    requires b % 1000 == 0
    ensures Describes(Aggregated(trades, closeMs), InSecond(trades, closeMs, b), b)
  {
    if trades != [] {
      var before, t := trades[..|trades| - 1], trades[|trades| - 1];
      AggregatedIsPerSecond(before, closeMs, b);
      FoldDescribes(Aggregated(before, closeMs), InSecond(before, closeMs, b), t, closeMs, b);
      assert InSecond(before, closeMs, b) + [] == InSecond(before, closeMs, b);
    }
  }

  // ------------------------------------------------------------------ the streaming form

  datatype Event = Print(sym: string, trade: Trade) | Flush(now: int)

  /** Bars in progress by symbol, and completed bars not yet fetched. */
  datatype Stream = Stream(open: seq<(string, Bar)>, done: seq<(string, Bar)>)

  function AfterTrade(s: Stream, sym: string, t: Trade, closeMs: int): (r: Stream)
    requires Distinct(s.open)
    ensures Distinct(r.open)
  {
    if !Eligible(t, closeMs) then s
    else if Has(s.open, sym) && Get(s.open, sym).start == Bucket(t.ms)
    then s.(open := Put(s.open, sym, Extended(Get(s.open, sym), t)))
    else Stream(Put(s.open, sym, Opened(t)), s.done + if Has(s.open, sym) then [(sym, Get(s.open, sym))] else [])
  }

  predicate Over(x: (string, Bar), now: int) { x.1.start + 1000 <= now }

  function Elapsed(open: seq<(string, Bar)>, now: int): seq<(string, Bar)> {
    if open == [] then []
    else Elapsed(open[..|open| - 1], now) + if Over(open[|open| - 1], now) then [open[|open| - 1]] else []
  }

  function Running(open: seq<(string, Bar)>, now: int): (r: seq<(string, Bar)>)
    ensures Distinct(open) ==> Distinct(r)
    ensures forall i :: 0 <= i < |r| ==> r[i] in open
  {
    if open == [] then []
    else
      var r := Running(open[..|open| - 1], now);
      if Over(open[|open| - 1], now) then r else r + [open[|open| - 1]]
  }

  lemma TakeOut(a: seq<(string, Bar)>, x: (string, Bar), b: seq<(string, Bar)>)
    requires Distinct(a + ([x] + b))
    ensures Del(a + ([x] + b), x.0) == a + b
  {
    var all := a + ([x] + b);
    assert all[|a|] == x && all[..|a|] == a && all[|a| + 1..] == b;
    AtIs(all, |a|);
  }

  /** One turn of the flush loop: the first `i` entries have been looked at. */
  lemma FlushTurn(keys: seq<(string, Bar)>, open: seq<(string, Bar)>, i: nat, now: int)
    requires i < |keys| && Distinct(keys) && Distinct(open) && open == Running(keys[..i], now) + keys[i..]
    ensures (if Over(keys[i], now) then Del(open, keys[i].0) else open) == Running(keys[..i + 1], now) + keys[i + 1..]
    ensures Elapsed(keys[..i + 1], now) ==
            if Over(keys[i], now) then Elapsed(keys[..i], now) + [keys[i]] else Elapsed(keys[..i], now)
  {
    CutAt(keys, i);
    TakeOut(Running(keys[..i], now), keys[i], keys[i + 1..]);
    Regroup(Running(keys[..i], now), [keys[i]], keys[i + 1..]);
  }

  class SecondBucketConsolidator {
    const closeMs: int
    var open: seq<(string, Bar)>
    var done: seq<(string, Bar)>

    ghost predicate Valid()
      reads this
    {
      Distinct(open)
    }

    ghost function State(): Stream
      reads this
    {
      Stream(open, done)
    }

    constructor (closeMs: int)
      ensures Valid() && State() == Stream([], []) && this.closeMs == closeMs
    {
      this.closeMs, open, done := closeMs, [], [];
    }

    method AddTrade(sym: string, t: Trade)
      requires Valid()
      modifies this
      ensures Valid() && State() == AfterTrade(old(State()), sym, t, closeMs)
    {
      if !Eligible(t, closeMs) { return; }
      var bar := if Has(open, sym) then Some(Get(open, sym)) else None;
      if bar.Some? && bar.value.start != Bucket(t.ms) {
        done := done + [(sym, bar.value)];
        bar := None;
      }
      if bar.None? {
        open := Put(open, sym, Opened(t));
      } else {
        open := Put(open, sym, Extended(bar.value, t));
      }
    }

    method FlushBefore(now: int) returns (out: seq<(string, Bar)>)
      requires Valid()
      modifies this
      ensures Valid()
      ensures out == old(done) + Elapsed(old(open), now)
      ensures State() == Stream(Running(old(open), now), [])
    {
      out, done := done, [];
      var keys := open;
      for i := 0 to |keys|
        invariant Distinct(open)
        invariant open == Running(keys[..i], now) + keys[i..]
        invariant out == old(done) + Elapsed(keys[..i], now)
        invariant done == []
      {
        FlushTurn(keys, open, i, now);
        if Over(keys[i], now) {
          Regroup(old(done), Elapsed(keys[..i], now), [keys[i]]);
          out := out + [keys[i]];
          open := Del(open, keys[i].0);
        }
      }
      assert keys[..|keys|] == keys;
    }
  }

  // ------------------------------------------------------------------ whole runs

  /** The stream after some events, and everything fetched so far. */
  function Ran(es: seq<Event>, closeMs: int): (r: (Stream, seq<(string, Bar)>))
    ensures Distinct(r.0.open)
  {
    if es == [] then (Stream([], []), [])
    else
      var (s, fetched) := Ran(es[..|es| - 1], closeMs);
      match es[|es| - 1]
      case Print(sym, t) => (AfterTrade(s, sym, t, closeMs), fetched)
      case Flush(now) => (Stream(Running(s.open, now), []), fetched + s.done + Elapsed(s.open, now))
  }

  /** The bars of one symbol in a list. */
  function Of(log: seq<(string, Bar)>, sym: string): seq<Bar> {
    if log == [] then []
    else Of(log[..|log| - 1], sym) + if log[|log| - 1].0 == sym then [log[|log| - 1].1] else []
  }

  /** All bars of a symbol: fetched, completed, and in progress. */
  function BarsOf(es: seq<Event>, closeMs: int, sym: string): seq<Bar> {
    var (s, fetched) := Ran(es, closeMs);
    Of(fetched, sym) + Of(s.done, sym) + Of(s.open, sym)
  }

  function TradesOf(es: seq<Event>, sym: string): seq<Trade> {
    if es == [] then []
    else TradesOf(es[..|es| - 1], sym)
         + match es[|es| - 1] case Print(x, t) => (if x == sym then [t] else []) case Flush(_) => []
  }

  lemma TradesStep(es: seq<Event>, sym: string)
    requires es != []
    ensures var before, e := es[..|es| - 1], es[|es| - 1];
            TradesOf(es, sym) ==
            if e.Print? && e.sym == sym then TradesOf(before, sym) + [e.trade] else TradesOf(before, sym)
  {}

  lemma {:induction false} OfConcat(a: seq<(string, Bar)>, b: seq<(string, Bar)>, sym: string)
    ensures Of(a + b, sym) == Of(a, sym) + Of(b, sym)
  {
    if b == [] {
      assert a + b == a;
    } else {
      OfConcat(a, b[..|b| - 1], sym);
      assert (a + b)[..|a + b| - 1] == a + b[..|b| - 1];
    }
  }

  /** In a dictionary a symbol has at most one bar. */
  lemma {:induction false} OfDict(d: seq<(string, Bar)>, sym: string)
    requires Distinct(d)
    ensures Of(d, sym) == if Has(d, sym) then [Get(d, sym)] else []
  {
    if d != [] { OfDict(d[..|d| - 1], sym); }
  }

  lemma OfSnoc(log: seq<(string, Bar)>, x: (string, Bar), sym: string)
    ensures Of(log + [x], sym) == Of(log, sym) + if x.0 == sym then [x.1] else []
  {
    assert (log + [x])[..|log|] == log;
  }

  lemma {:induction false} OfFlush(open: seq<(string, Bar)>, now: int, sym: string)
    requires Distinct(open)
    ensures Of(Elapsed(open, now), sym) ==
            if Has(open, sym) && Get(open, sym).start + 1000 <= now then [Get(open, sym)] else []
    ensures Of(Running(open, now), sym) ==
            if Has(open, sym) && Get(open, sym).start + 1000 > now then [Get(open, sym)] else []
  {
    if open != [] {
      var some, x := open[..|open| - 1], open[|open| - 1];
      assert open == some + [x];
      OfFlush(some, now, sym);
      SnocGets(some, x, sym);
      if Over(x, now) {
        assert Elapsed(open, now) == Elapsed(some, now) + [x];
        OfSnoc(Elapsed(some, now), x, sym);
      } else {
        assert Elapsed(open, now) == Elapsed(some, now);
        OfSnoc(Running(some, now), x, sym);
      }
    }
  }

  lemma FlushLeaves(open: seq<(string, Bar)>, now: int, sym: string)
    requires Distinct(open)
    ensures Has(Running(open, now), sym) <==> Has(open, sym) && Get(open, sym).start + 1000 > now
    ensures Has(Running(open, now), sym) ==> Get(Running(open, now), sym) == Get(open, sym)
  {
    OfFlush(open, now, sym);
    OfDict(Running(open, now), sym);
  }

  /** A flush moves bars along but keeps the list of a symbol. */
  lemma FlushKeepsBars(es: seq<Event>, closeMs: int, sym: string)
    requires es != [] && es[|es| - 1].Flush?
    ensures BarsOf(es, closeMs, sym) == BarsOf(es[..|es| - 1], closeMs, sym)
  {
    var (s, fetched) := Ran(es[..|es| - 1], closeMs);
    var now := es[|es| - 1].now;
    OfFlush(s.open, now, sym);
    OfDict(s.open, sym);
    OfConcat(fetched + s.done, Elapsed(s.open, now), sym);
    OfConcat(fetched, s.done, sym);
  }

  /** The trade finds its symbol's last bar already handed out, though its second is the same. */
  predicate IsLate(before: seq<Event>, closeMs: int, sym: string, t: Trade) {
    var bars := BarsOf(before, closeMs, sym);
    Eligible(t, closeMs) && !Has(Ran(before, closeMs).0.open, sym) && bars != []
      && bars[|bars| - 1].start == Bucket(t.ms)
  }

  /** What one trade does to the list of its symbol. */
  function Grown(bars: seq<Bar>, t: Trade, closeMs: int): seq<Bar> {
    if !Eligible(t, closeMs) then bars
    else if bars != [] && bars[|bars| - 1].start == Bucket(t.ms)
    then bars[..|bars| - 1] + [Extended(bars[|bars| - 1], t)]
    else bars + [Opened(t)]
  }

  /** A symbol's share of a dictionary after one write. */
  lemma OfPut(d: seq<(string, Bar)>, x: string, v: Bar, sym: string)
    requires Distinct(d)
    ensures Of(Put(d, x, v), sym) == if x == sym then [v] else Of(d, sym)
  {
    PutGets(d, x, v, sym);
    OfDict(Put(d, x, v), sym);
    OfDict(d, sym);
  }

  /** A trade touches only its own symbol's list in the stream. */
  lemma TradeInStream(s: Stream, x: string, t: Trade, closeMs: int, sym: string)
    requires Distinct(s.open) && Eligible(t, closeMs)
    ensures var s' := AfterTrade(s, x, t, closeMs);
            var held := if Has(s.open, sym) then [Get(s.open, sym)] else [];
            Of(s'.done, sym) + Of(s'.open, sym) ==
            Of(s.done, sym) + if x != sym then held
                              else if held != [] && held[0].start == Bucket(t.ms) then [Extended(held[0], t)]
                              else held + [Opened(t)]
  {
    OfDict(s.open, sym);
    if !Has(s.open, x) {
      assert s.done + [] == s.done;
      OfPut(s.open, x, Opened(t), sym);
    } else if Get(s.open, x).start == Bucket(t.ms) {
      OfPut(s.open, x, Extended(Get(s.open, x), t), sym);
    } else {
      Succeeds(s, x, t, closeMs, sym);
    }
  }

  /** The trade opens the next bar, and the finished one moves to the completed bars. */
  lemma Succeeds(s: Stream, x: string, t: Trade, closeMs: int, sym: string)
    requires Distinct(s.open) && Eligible(t, closeMs) && Has(s.open, x) && Get(s.open, x).start != Bucket(t.ms)
    ensures var s' := AfterTrade(s, x, t, closeMs);
            Of(s'.done, sym) + Of(s'.open, sym) ==
            Of(s.done, sym) + if x == sym then [Get(s.open, x)] + [Opened(t)] else Of(s.open, sym)
  {
    OfSnoc(s.done, (x, Get(s.open, x)), sym);
    OfPut(s.open, x, Opened(t), sym);
    if x == sym { Regroup(Of(s.done, sym), [Get(s.open, x)], [Opened(t)]); }
  }

  lemma GrownAt(handed: seq<Bar>, held: seq<Bar>, t: Trade, closeMs: int)
    requires |held| == 1 && Eligible(t, closeMs)
    ensures Grown(handed + held, t, closeMs) ==
            handed + if held[0].start == Bucket(t.ms) then [Extended(held[0], t)] else held + [Opened(t)]
  {
    var bars := handed + held;
    assert bars[|bars| - 1] == held[0] && bars[..|bars| - 1] == handed;
  }

  lemma TradeGrowsBars(es: seq<Event>, closeMs: int, sym: string)
    requires es != [] && es[|es| - 1].Print?
    ensures var before, e := es[..|es| - 1], es[|es| - 1];
            var bars := BarsOf(before, closeMs, sym);
            BarsOf(es, closeMs, sym) ==
            if e.sym != sym then bars
            else if IsLate(before, closeMs, sym, e.trade) then bars + [Opened(e.trade)]
            else Grown(bars, e.trade, closeMs)
  {
    var e := es[|es| - 1];
    BarsAfterTrade(es, closeMs, sym);
    if Eligible(e.trade, closeMs) {
      var (s, fetched) := Ran(es[..|es| - 1], closeMs);
      OfDict(s.open, sym);
      var s' := AfterTrade(s, e.sym, e.trade, closeMs);
      TradeInStream(s, e.sym, e.trade, closeMs, sym);
      BarsSplit(Of(fetched, sym), Of(s.done, sym), Of(s.open, sym), Of(s'.done, sym), Of(s'.open, sym), e.sym == sym,
                e.trade, closeMs);
    }
  }

  lemma BarsAfterTrade(es: seq<Event>, closeMs: int, sym: string)
    requires es != [] && es[|es| - 1].Print?
    ensures var e := es[|es| - 1];
            var (s, fetched) := Ran(es[..|es| - 1], closeMs);
            var s' := AfterTrade(s, e.sym, e.trade, closeMs);
            BarsOf(es, closeMs, sym) == Of(fetched, sym) + Of(s'.done, sym) + Of(s'.open, sym)
  {}

  lemma BarsSplit(fetched: seq<Bar>, done: seq<Bar>, held: seq<Bar>, done': seq<Bar>, held': seq<Bar>, mine: bool,
                  t: Trade, closeMs: int)
    requires |held| <= 1 && Eligible(t, closeMs)
    requires done' + held' == done + if !mine then held
                                     else if held != [] && held[0].start == Bucket(t.ms) then [Extended(held[0], t)]
                                     else held + [Opened(t)]
    ensures fetched + done' + held' ==
            if !mine then fetched + done + held
            else if held == [] then fetched + done + held + [Opened(t)]
            else Grown(fetched + done + held, t, closeMs)
  {
    assert fetched + done' + held' == fetched + (done' + held');
    if mine && held != [] { GrownAt(fetched + done, held, t, closeMs); }
  }

  // ------------------------------------------------------------------ streaming against batch

  /** How many trades of a symbol arrive after their second was handed out. */
  function Late(es: seq<Event>, closeMs: int, sym: string): nat {
    if es == [] then 0
    else
      var before, e := es[..|es| - 1], es[|es| - 1];
      Late(before, closeMs, sym) + if e.Print? && e.sym == sym && IsLate(before, closeMs, sym, e.trade) then 1 else 0
  }

  /** The batch list built trade by trade. */
  function GroupedBars(ts: seq<Trade>, closeMs: int): seq<Bar> {
    if ts == [] then [] else Grown(GroupedBars(ts[..|ts| - 1], closeMs), ts[|ts| - 1], closeMs)
  }

  /** The streamed list ends with the same second as the batch list and is longer by the late trades. */
  ghost predicate Together(s: seq<Bar>, g: seq<Bar>, late: nat) {
    && |s| == |g| + late
    && (s == [] <==> g == [])
    && (s != [] ==> s[|s| - 1].start == g[|g| - 1].start)
    && (late == 0 ==> s == g)
  }

  lemma TradeKeepsTogether(s: seq<Bar>, g: seq<Bar>, late: nat, t: Trade, closeMs: int)
    requires Together(s, g, late)
    ensures Together(Grown(s, t, closeMs), Grown(g, t, closeMs), late)
    ensures Eligible(t, closeMs) && s != [] && s[|s| - 1].start == Bucket(t.ms) ==>
              Together(s + [Opened(t)], Grown(g, t, closeMs), late + 1)
  {}

  ghost predicate InStepAt(es: seq<Event>, closeMs: int, sym: string) {
    Together(BarsOf(es, closeMs, sym), GroupedBars(TradesOf(es, sym), closeMs), Late(es, closeMs, sym))
  }

  lemma LateStep(es: seq<Event>, closeMs: int, sym: string)
    requires es != [] && es[|es| - 1].Print?
    ensures var before, e := es[..|es| - 1], es[|es| - 1];
            Late(es, closeMs, sym) ==
            if e.sym == sym && IsLate(before, closeMs, sym, e.trade) then Late(before, closeMs, sym) + 1
            else Late(before, closeMs, sym)
  {}

  lemma OtherTradeInStep(es: seq<Event>, closeMs: int, sym: string)
    requires es != [] && es[|es| - 1].Print? && es[|es| - 1].sym != sym && InStepAt(es[..|es| - 1], closeMs, sym)
    ensures InStepAt(es, closeMs, sym)
  {
    TradesStep(es, sym);
    TradeGrowsBars(es, closeMs, sym);
    LateStep(es, closeMs, sym);
  }

  lemma OwnTradeInStep(es: seq<Event>, closeMs: int, sym: string)
    requires es != [] && es[|es| - 1].Print? && es[|es| - 1].sym == sym && InStepAt(es[..|es| - 1], closeMs, sym)
    ensures InStepAt(es, closeMs, sym)
  {
    var before, t := es[..|es| - 1], es[|es| - 1].trade;
    var s, g := BarsOf(before, closeMs, sym), GroupedBars(TradesOf(before, sym), closeMs);
    var late := Late(before, closeMs, sym);
    var isLate := IsLate(before, closeMs, sym, t);
    GrowTogether(s, g, late, t, closeMs, isLate);
    assert BarsOf(es, closeMs, sym) == (if isLate then s + [Opened(t)] else Grown(s, t, closeMs)) by {
      TradeGrowsBars(es, closeMs, sym);
    }
    assert GroupedBars(TradesOf(es, sym), closeMs) == Grown(g, t, closeMs) by {
      TradesStep(es, sym);
      GroupedSnoc(TradesOf(before, sym), t, closeMs);
    }
    assert Late(es, closeMs, sym) == late + (if isLate then 1 else 0) by { LateStep(es, closeMs, sym); }
  }

  lemma GrowTogether(s: seq<Bar>, g: seq<Bar>, late: nat, t: Trade, closeMs: int, isLate: bool)
    requires Together(s, g, late)
    requires isLate ==> Eligible(t, closeMs) && s != [] && s[|s| - 1].start == Bucket(t.ms)
    ensures Together(if isLate then s + [Opened(t)] else Grown(s, t, closeMs), Grown(g, t, closeMs),
                     late + if isLate then 1 else 0)
  {
    TradeKeepsTogether(s, g, late, t, closeMs);
  }

  lemma FlushInStep(es: seq<Event>, closeMs: int, sym: string)
    requires es != [] && es[|es| - 1].Flush? && InStepAt(es[..|es| - 1], closeMs, sym)
    ensures InStepAt(es, closeMs, sym)
  {
    TradesStep(es, sym);
    FlushKeepsBars(es, closeMs, sym);
  }

  lemma {:induction false} InStep(es: seq<Event>, closeMs: int, sym: string)
    ensures InStepAt(es, closeMs, sym)
  {
    if es != [] {
      InStep(es[..|es| - 1], closeMs, sym);
      if es[|es| - 1].Flush? {
        FlushInStep(es, closeMs, sym);
      } else if es[|es| - 1].sym == sym {
        OwnTradeInStep(es, closeMs, sym);
      } else {
        OtherTradeInStep(es, closeMs, sym);
      }
    }
  }

  lemma GroupedSnoc(ts: seq<Trade>, t: Trade, closeMs: int)
    ensures GroupedBars(ts + [t], closeMs) == Grown(GroupedBars(ts, closeMs), t, closeMs)
  {
    assert (ts + [t])[..|ts|] == ts;
  }

  predicate TimeOrdered(ts: seq<Trade>) { forall i, j :: 0 <= i < j < |ts| ==> ts[i].ms <= ts[j].ms }

  function Values(d: seq<(int, Bar)>): seq<Bar> { seq(|d|, i requires 0 <= i < |d| => d[i].1) }

  /** Keys are the bars' starts, in increasing order, up to the last trade's second. */
  ghost predicate InOrder(d: seq<(int, Bar)>, last: int) {
    && (forall i :: 0 <= i < |d| ==> d[i].0 == d[i].1.start <= last)
    && forall i, j :: 0 <= i < j < |d| ==> d[i].0 < d[j].0
  }

  lemma FoldInOrder(d: seq<(int, Bar)>, t: Trade, closeMs: int)
    requires Distinct(d) && InOrder(d, Bucket(t.ms))
    ensures InOrder(Folded(d, t, closeMs), Bucket(t.ms))
    ensures Values(Folded(d, t, closeMs)) == Grown(Values(d), t, closeMs)
  {
    if Eligible(t, closeMs) && d != [] {
      var n := |d| - 1;
      if d[n].0 == Bucket(t.ms) {
        AtIs(d, n);
      } else {
        assert !Has(d, Bucket(t.ms));
      }
    }
  }

  lemma BucketMonotone(a: int, b: int)
    requires a <= b
    ensures Bucket(a) <= Bucket(b)
  {}

  /** For trades in time order the batch dictionary lists its bars in the order of their seconds. */
  lemma {:induction false} GroupedIsAggregated(ts: seq<Trade>, closeMs: int)
    requires TimeOrdered(ts)
    ensures GroupedBars(ts, closeMs) == Values(Aggregated(ts, closeMs))
    ensures ts != [] ==> InOrder(Aggregated(ts, closeMs), Bucket(ts[|ts| - 1].ms))
  {
    if ts != [] {
      var some, t := ts[..|ts| - 1], ts[|ts| - 1];
      GroupedIsAggregated(some, closeMs);
      if some != [] { BucketMonotone(some[|some| - 1].ms, t.ms); }
      assert InOrder(Aggregated(some, closeMs), Bucket(t.ms));
      FoldInOrder(Aggregated(some, closeMs), t, closeMs);
    }
  }

  // ------------------------------------------------------------------ late, read off the events

  /** An event of the symbol that gets into a bar. */
  predicate Prints(es: seq<Event>, closeMs: int, sym: string, i: nat) {
    i < |es| && es[i].Print? && es[i].sym == sym && Eligible(es[i].trade, closeMs)
  }

  /** Some flush after event `i` declares everything before `end` over. */
  ghost predicate FlushedAfter(es: seq<Event>, i: nat, end: int) {
    exists j :: i < j < |es| && es[j].Flush? && end <= es[j].now
  }

  /** The symbol's last print of the run. */
  ghost predicate IsLast(es: seq<Event>, closeMs: int, sym: string, i: nat) {
    Prints(es, closeMs, sym, i) && forall j :: i < j < |es| ==> !Prints(es, closeMs, sym, j)
  }

  /** Print `k` comes late: it is of the same second as the symbol's print before it, and between the two a
      flush has declared that second over. */
  ghost predicate ComesLate(es: seq<Event>, closeMs: int, sym: string, k: nat) {
    && Prints(es, closeMs, sym, k)
    && exists i: nat :: i < k && IsLast(es[..k], closeMs, sym, i)
                   && Bucket(es[i].trade.ms) == Bucket(es[k].trade.ms)
                   && FlushedAfter(es[..k], i, Bucket(es[k].trade.ms) + 1000)
  }

  /** The late prints of a symbol. */
  ghost function LatePrints(es: seq<Event>, closeMs: int, sym: string): set<nat> {
    set k: nat | k < |es| && ComesLate(es, closeMs, sym, k)
  }

  /** What the stream holds of a symbol after its last print `i`: a bar of that second, handed out by the
      first flush past it. */
  ghost predicate HoldsLast(es: seq<Event>, closeMs: int, sym: string, i: nat) {
    && IsLast(es, closeMs, sym, i)
    && var b := Bucket(es[i].trade.ms);
       BarStands(Ran(es, closeMs).0.open, BarsOf(es, closeMs, sym), sym, b, FlushedAfter(es, i, b + 1000))
  }

  /** The symbol's last bar is of the second `b`, and in progress unless it was flushed. */
  ghost predicate BarStands(open: seq<(string, Bar)>, bars: seq<Bar>, sym: string, b: int, flushed: bool) {
    && bars != [] && bars[|bars| - 1].start == b
    && (Has(open, sym) <==> !flushed)
    && (Has(open, sym) ==> Get(open, sym).start == b)
  }

  /** Before the symbol's first print there is nothing of it. */
  ghost predicate HoldsNothing(es: seq<Event>, closeMs: int, sym: string) {
    && (forall i :: 0 <= i < |es| ==> !Prints(es, closeMs, sym, i))
    && !Has(Ran(es, closeMs).0.open, sym) && BarsOf(es, closeMs, sym) == []
  }

  lemma SamePrints(es: seq<Event>, closeMs: int, sym: string)
    requires es != []
    ensures var before := es[..|es| - 1];
            (forall i :: 0 <= i < |before| ==> (Prints(es, closeMs, sym, i) <==> Prints(before, closeMs, sym, i)))
  {}

  lemma LastStays(es: seq<Event>, closeMs: int, sym: string, i: nat)
    requires es != [] && !Prints(es, closeMs, sym, |es| - 1) && IsLast(es[..|es| - 1], closeMs, sym, i)
    ensures IsLast(es, closeMs, sym, i)
  {
    SamePrints(es, closeMs, sym);
  }

  lemma FlushedGrows(es: seq<Event>, i: nat, end: int)
    requires i < |es| - 1
    ensures FlushedAfter(es, i, end) <==>
            FlushedAfter(es[..|es| - 1], i, end) || (es[|es| - 1].Flush? && end <= es[|es| - 1].now)
  {
    var before := es[..|es| - 1];
    if FlushedAfter(before, i, end) {
      var j :| i < j < |before| && before[j].Flush? && end <= before[j].now;
      assert es[j] == before[j];
    }
    if FlushedAfter(es, i, end) {
      var j :| i < j < |es| && es[j].Flush? && end <= es[j].now;
      if j < |before| { assert before[j] == es[j]; }
    }
  }

  /** A print that counts leaves a bar of its second in progress. */
  lemma OwnPrintOpens(s: Stream, sym: string, t: Trade, closeMs: int)
    requires Distinct(s.open) && Eligible(t, closeMs)
    ensures var open := AfterTrade(s, sym, t, closeMs).open; Has(open, sym) && Get(open, sym).start == Bucket(t.ms)
  {
    PutGets(s.open, sym, Opened(t), sym);
    if Has(s.open, sym) { PutGets(s.open, sym, Extended(Get(s.open, sym), t), sym); }
  }

  lemma OwnPrintIsLastBar(es: seq<Event>, closeMs: int, sym: string)
    requires es != [] && Prints(es, closeMs, sym, |es| - 1)
    ensures var bars := BarsOf(es, closeMs, sym);
            bars != [] && bars[|bars| - 1].start == Bucket(es[|es| - 1].trade.ms)
  {
    TradeGrowsBars(es, closeMs, sym);
  }

  lemma OwnPrintHolds(es: seq<Event>, closeMs: int, sym: string)
    requires es != [] && Prints(es, closeMs, sym, |es| - 1)
    ensures HoldsLast(es, closeMs, sym, |es| - 1)
  {
    var s, e := Ran(es[..|es| - 1], closeMs).0, es[|es| - 1];
    OwnPrintOpens(s, sym, e.trade, closeMs);
    assert Ran(es, closeMs).0 == AfterTrade(s, sym, e.trade, closeMs);
    OwnPrintIsLastBar(es, closeMs, sym);
    assert !FlushedAfter(es, |es| - 1, Bucket(e.trade.ms) + 1000);
    assert IsLast(es, closeMs, sym, |es| - 1);
  }

  lemma FlushHolds(es: seq<Event>, closeMs: int, sym: string, i: nat)
    requires es != [] && es[|es| - 1].Flush? && HoldsLast(es[..|es| - 1], closeMs, sym, i)
    ensures HoldsLast(es, closeMs, sym, i)
  {
    var before, now, b := es[..|es| - 1], es[|es| - 1].now, Bucket(es[i].trade.ms);
    assert before[i] == es[i];
    LastStays(es, closeMs, sym, i);
    FlushKeepsBars(es, closeMs, sym);
    FlushedGrows(es, i, b + 1000);
    FlushStands(Ran(before, closeMs).0.open, BarsOf(before, closeMs, sym), sym, b,
                FlushedAfter(before, i, b + 1000), now);
    assert Ran(es, closeMs).0.open == Running(Ran(before, closeMs).0.open, now);
  }

  lemma FlushStands(open: seq<(string, Bar)>, bars: seq<Bar>, sym: string, b: int, flushed: bool, now: int)
    requires Distinct(open) && BarStands(open, bars, sym, b, flushed)
    ensures BarStands(Running(open, now), bars, sym, b, flushed || b + 1000 <= now)
  {
    FlushLeaves(open, now, sym);
  }

  /** Another symbol's print, or one that gets into no bar. */
  lemma OtherPrintKeeps(es: seq<Event>, closeMs: int, sym: string)
    requires es != [] && es[|es| - 1].Print? && !Prints(es, closeMs, sym, |es| - 1)
    ensures var s, s' := Ran(es[..|es| - 1], closeMs).0, Ran(es, closeMs).0;
            && (Has(s'.open, sym) <==> Has(s.open, sym))
            && (Has(s.open, sym) ==> Get(s'.open, sym) == Get(s.open, sym))
            && BarsOf(es, closeMs, sym) == BarsOf(es[..|es| - 1], closeMs, sym)
  {
    var s, e := Ran(es[..|es| - 1], closeMs).0, es[|es| - 1];
    TradeGrowsBars(es, closeMs, sym);
    if Eligible(e.trade, closeMs) {
      PutGets(s.open, e.sym, Opened(e.trade), sym);
      if Has(s.open, e.sym) { PutGets(s.open, e.sym, Extended(Get(s.open, e.sym), e.trade), sym); }
    }
  }

  lemma OtherPrintHolds(es: seq<Event>, closeMs: int, sym: string, i: nat)
    requires es != [] && es[|es| - 1].Print? && !Prints(es, closeMs, sym, |es| - 1)
    requires HoldsLast(es[..|es| - 1], closeMs, sym, i)
    ensures HoldsLast(es, closeMs, sym, i)
  {
    LastStays(es, closeMs, sym, i);
    OtherPrintKeeps(es, closeMs, sym);
    FlushedGrows(es, i, Bucket(es[i].trade.ms) + 1000);
  }

  lemma NothingYet(es: seq<Event>, closeMs: int, sym: string)
    requires es != [] && HoldsNothing(es[..|es| - 1], closeMs, sym) && !Prints(es, closeMs, sym, |es| - 1)
    ensures HoldsNothing(es, closeMs, sym)
  {
    var before := es[..|es| - 1];
    SamePrints(es, closeMs, sym);
    if es[|es| - 1].Flush? {
      FlushKeepsBars(es, closeMs, sym);
      FlushLeaves(Ran(before, closeMs).0.open, es[|es| - 1].now, sym);
    } else {
      OtherPrintKeeps(es, closeMs, sym);
    }
  }

  /** In every run the stream holds of a symbol what its last print and the flushes since then say. */
  lemma {:induction false} SymbolHolds(es: seq<Event>, closeMs: int, sym: string)
    ensures HoldsNothing(es, closeMs, sym) || exists i: nat :: HoldsLast(es, closeMs, sym, i)
  {
    if es != [] {
      SymbolHolds(es[..|es| - 1], closeMs, sym);
      if Prints(es, closeMs, sym, |es| - 1) {
        OwnPrintHolds(es, closeMs, sym);
      } else if HoldsNothing(es[..|es| - 1], closeMs, sym) {
        NothingYet(es, closeMs, sym);
      } else {
        var i: nat :| HoldsLast(es[..|es| - 1], closeMs, sym, i);
        if es[|es| - 1].Flush? { FlushHolds(es, closeMs, sym, i); } else { OtherPrintHolds(es, closeMs, sym, i); }
      }
    }
  }

  lemma LastIsOne(es: seq<Event>, closeMs: int, sym: string, i: nat, j: nat)
    requires IsLast(es, closeMs, sym, i) && IsLast(es, closeMs, sym, j)
    ensures i == j
  {}

  /** The two ways of saying it agree: found late by the stream, and late by the events. */
  lemma LateByEvents(es: seq<Event>, closeMs: int, sym: string)
    requires es != [] && es[|es| - 1].Print? && es[|es| - 1].sym == sym
    ensures IsLate(es[..|es| - 1], closeMs, sym, es[|es| - 1].trade) <==> ComesLate(es, closeMs, sym, |es| - 1)
  {
    var k, before := |es| - 1, es[..|es| - 1];
    SymbolHolds(before, closeMs, sym);
    if HoldsNothing(before, closeMs, sym) {
      assert forall i :: !IsLast(before, closeMs, sym, i);
    } else {
      var i: nat :| HoldsLast(before, closeMs, sym, i);
      forall j: nat | IsLast(before, closeMs, sym, j) ensures j == i { LastIsOne(before, closeMs, sym, i, j); }
      assert es[i] == before[i];
    }
  }

  lemma EarlierLate(es: seq<Event>, before: seq<Event>, closeMs: int, sym: string, k: nat)
    requires k < |before| <= |es| && before == es[..|before|]
    ensures ComesLate(es, closeMs, sym, k) <==> ComesLate(before, closeMs, sym, k)
  {
    assert before[..k] == es[..k];
    assert forall i :: 0 <= i <= k ==> before[i] == es[i];
  }

  lemma LatePrintsStep(es: seq<Event>, closeMs: int, sym: string)
    requires es != []
    ensures var before, k: nat := es[..|es| - 1], |es| - 1;
            && k !in LatePrints(before, closeMs, sym)
            && LatePrints(es, closeMs, sym) ==
               LatePrints(before, closeMs, sym) + if ComesLate(es, closeMs, sym, k) then {k} else {}
  {
    var before := es[..|es| - 1];
    forall j: nat | j < |before|
      ensures j in LatePrints(es, closeMs, sym) <==> j in LatePrints(before, closeMs, sym)
    {
      EarlierLate(es, before, closeMs, sym, j);
    }
  }

  /** So the late trades counted along the run are the late prints. */
  lemma {:induction false} LateIsLatePrints(es: seq<Event>, closeMs: int, sym: string)
    ensures Late(es, closeMs, sym) == |LatePrints(es, closeMs, sym)|
  {
    if es != [] {
      LateIsLatePrints(es[..|es| - 1], closeMs, sym);
      LatePrintsStep(es, closeMs, sym);
      if es[|es| - 1].Print? && es[|es| - 1].sym == sym { LateByEvents(es, closeMs, sym); }
    }
  }

  /** Streaming equals batch: whatever the interleaving of symbols and flushes, a symbol whose own trades
      come in time order is given exactly the batch bars, in order, if and only if none of its trades
      arrives after its second was handed out. Each one that does makes one bar too many. */
  lemma StreamingEqualsBatch(es: seq<Event>, closeMs: int, sym: string)
    requires TimeOrdered(TradesOf(es, sym))
    ensures var batch := Values(Aggregated(TradesOf(es, sym), closeMs));
            && (BarsOf(es, closeMs, sym) == batch <==> forall k :: !ComesLate(es, closeMs, sym, k))
            && |BarsOf(es, closeMs, sym)| == |batch| + |LatePrints(es, closeMs, sym)|
  {
    InStep(es, closeMs, sym);
    GroupedIsAggregated(TradesOf(es, sym), closeMs);
    LateIsLatePrints(es, closeMs, sym);
    NoneIsZero(es, closeMs, sym);
  }

  lemma NoneIsZero(es: seq<Event>, closeMs: int, sym: string)
    ensures |LatePrints(es, closeMs, sym)| == 0 <==> forall k :: !ComesLate(es, closeMs, sym, k)
  {
    var late := LatePrints(es, closeMs, sym);
    if k: nat :| ComesLate(es, closeMs, sym, k) { assert k in late; }
  }

  /** The clock rule that rules late trades out: no trade belongs to a second a flush has declared over. */
  ghost predicate OnClock(es: seq<Event>, closeMs: int) {
    forall i, j :: 0 <= i < j < |es| && es[i].Flush? && es[j].Print? && Eligible(es[j].trade, closeMs) ==>
                     es[i].now < Bucket(es[j].trade.ms) + 1000
  }

  lemma OnClockNeverLate(es: seq<Event>, closeMs: int, sym: string)
    requires OnClock(es, closeMs)
    ensures forall k :: !ComesLate(es, closeMs, sym, k)
  {}

  /** The live rule: flushes and trades follow one clock, each symbol's trades come in time order, and the
      fetched bars after a flush past the close are the batch bars. */
  lemma LiveBarsAreBatchBars(es: seq<Event>, closeMs: int, sym: string, now: int)
    requires OnClock(es, closeMs) && TimeOrdered(TradesOf(es, sym)) && now >= closeMs + 1000
    ensures Of(Ran(es + [Flush(now)], closeMs).1, sym) == Values(Aggregated(TradesOf(es, sym), closeMs))
  {
    OnClockNeverLate(es, closeMs, sym);
    StreamingEqualsBatch(es, closeMs, sym);
    FlushFetchesAll(es, closeMs, sym, now);
  }

  lemma FlushFetchesAll(es: seq<Event>, closeMs: int, sym: string, now: int)
    requires now >= closeMs + 1000
    ensures Of(Ran(es + [Flush(now)], closeMs).1, sym) == BarsOf(es, closeMs, sym)
  {
    var all := es + [Flush(now)];
    assert all[..|all| - 1] == es;
    FlushKeepsBars(all, closeMs, sym);
    var s, fetched := Ran(all, closeMs).0, Ran(all, closeMs).1;
    assert Of(s.open, sym) == [] && Of(s.done, sym) == [] by {
      OpenBeforeClose(es, closeMs, sym);
      OfFlush(Ran(es, closeMs).0.open, now, sym);
    }
    assert BarsOf(all, closeMs, sym) == Of(fetched, sym) + [] + [];
  }

  lemma {:induction false} OpenBeforeClose(es: seq<Event>, closeMs: int, sym: string)
    ensures var open := Ran(es, closeMs).0.open; Has(open, sym) ==> Get(open, sym).start < closeMs
  {
    if es != [] {
      var before, e := es[..|es| - 1], es[|es| - 1];
      OpenBeforeClose(before, closeMs, sym);
      var s := Ran(before, closeMs).0;
      if e.Flush? {
        OfFlush(s.open, e.now, sym);
        OfDict(Running(s.open, e.now), sym);
      } else if Eligible(e.trade, closeMs) {
        PutGets(s.open, e.sym, Opened(e.trade), sym);
        if Has(s.open, e.sym) { PutGets(s.open, e.sym, Extended(Get(s.open, e.sym), e.trade), sym); }
      }
    }
  }

  // ------------------------------------------------------------------ no volume lost

  function TotalVolume(bars: seq<Bar>): real {
    if bars == [] then 0.0 else TotalVolume(bars[..|bars| - 1]) + bars[|bars| - 1].volume
  }

  function Counted(ts: seq<Trade>, closeMs: int): real {
    if ts == [] then 0.0
    else Counted(ts[..|ts| - 1], closeMs) + if Eligible(ts[|ts| - 1], closeMs) then ts[|ts| - 1].size else 0.0
  }

  lemma VolumeOfMore(bars: seq<Bar>, b: Bar)
    ensures TotalVolume(bars + [b]) == TotalVolume(bars) + b.volume
  {
    assert (bars + [b])[..|bars|] == bars;
  }

  lemma GrownVolume(bars: seq<Bar>, t: Trade, closeMs: int)
    requires Eligible(t, closeMs)
    ensures TotalVolume(Grown(bars, t, closeMs)) == TotalVolume(bars) + t.size
  {
    VolumeOfMore(bars, Opened(t));
    if bars != [] {
      LastSplits([], bars);
      VolumeOfMore(bars[..|bars| - 1], Extended(bars[|bars| - 1], t));
    }
  }

  lemma CountedSnoc(ts: seq<Trade>, t: Trade, closeMs: int)
    ensures Counted(ts + [t], closeMs) == Counted(ts, closeMs) + if Eligible(t, closeMs) then t.size else 0.0
  {
    assert (ts + [t])[..|ts|] == ts;
  }

  /** What one more trade adds to the volume of a symbol's bars and to what counts. */
  lemma TradeAddsVolume(es: seq<Event>, closeMs: int, sym: string)
    requires es != [] && es[|es| - 1].Print? && es[|es| - 1].sym == sym
    ensures var before, t := es[..|es| - 1], es[|es| - 1].trade;
            var size := if Eligible(t, closeMs) then t.size else 0.0;
            && TotalVolume(BarsOf(es, closeMs, sym)) == TotalVolume(BarsOf(before, closeMs, sym)) + size
            && Counted(TradesOf(es, sym), closeMs) == Counted(TradesOf(before, sym), closeMs) + size
  {
    var before, t := es[..|es| - 1], es[|es| - 1].trade;
    assert Counted(TradesOf(es, sym), closeMs)
           == Counted(TradesOf(before, sym), closeMs) + (if Eligible(t, closeMs) then t.size else 0.0) by {
      TradesStep(es, sym);
      CountedSnoc(TradesOf(before, sym), t, closeMs);
    }
    TradeGrowsBars(es, closeMs, sym);
    VolumeOfMore(BarsOf(before, closeMs, sym), Opened(t));
    if Eligible(t, closeMs) { GrownVolume(BarsOf(before, closeMs, sym), t, closeMs); }
  }

  /** Late trades or not, in time order or not: every size that counts is in exactly one bar. */
  lemma {:induction false} NoVolumeLost(es: seq<Event>, closeMs: int, sym: string)
    ensures TotalVolume(BarsOf(es, closeMs, sym)) == Counted(TradesOf(es, sym), closeMs)
  {
    if es != [] {
      NoVolumeLost(es[..|es| - 1], closeMs, sym);
      if es[|es| - 1].Flush? {
        TradesStep(es, sym);
        FlushKeepsBars(es, closeMs, sym);
      } else if es[|es| - 1].sym == sym {
        TradeAddsVolume(es, closeMs, sym);
      } else {
        TradesStep(es, sym);
        TradeGrowsBars(es, closeMs, sym);
      }
    }
  }
}
