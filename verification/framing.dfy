/**
 Length-prefixed frames over a socket that moves as many bytes at a time as it likes. Documents are their
 encoded bytes; `isDocument` says which bytes parse as an object.
 */
module Framing {
  import opened Common

  newtype byte = x: int | 0 <= x < 256

  const FRAME_MAX := 8 * 1024 * 1024
  const CHUNK_MAX := 1024 * 1024
  const WORD := 0x1_0000_0000

  // ------------------------------------------------------------------ the format

  /** Four bytes, most significant first. */
  function Pack(n: nat): (s: seq<byte>)
    requires n < WORD
    ensures |s| == 4
  {
    var high := n / 0x100 / 0x100;
    [(high / 0x100) as byte, (high % 0x100) as byte, (n / 0x100 % 0x100) as byte, (n % 0x100) as byte]
  }

  function Unpack(s: seq<byte>): (n: nat)
    requires |s| == 4
    ensures n < WORD
  {
    ((s[0] as nat * 0x100 + s[1] as nat) * 0x100 + s[2] as nat) * 0x100 + s[3] as nat
  }

  lemma PackRoundTrip(n: nat)
    requires n < WORD
    ensures Unpack(Pack(n)) == n
  {}

  /** The most significant byte comes first. */
  lemma PackIsBigEndian(n: nat)
    requires n < WORD
    ensures var p := Pack(n);
            |p| == 4 && n == p[0] as nat * 0x1000000 + p[1] as nat * 0x10000 + p[2] as nat * 0x100 + p[3] as nat
  {
    PackRoundTrip(n);
  }

  function Frame(body: seq<byte>): seq<byte>
    requires |body| < WORD
  {
    Pack(|body|) + body
  }

  predicate Small(docs: seq<seq<byte>>) { forall i :: 0 <= i < |docs| ==> |docs[i]| <= 8 * 1024 * 1024 }

  function Frames(docs: seq<seq<byte>>): seq<byte>
    requires Small(docs)
  {
    if docs == [] then [] else Frame(docs[0]) + Frames(docs[1..])
  }

  /** What reading one frame at a position gives, and where it leaves the position. */
  datatype Received = Doc(body: seq<byte>) | Eof | TooLarge(n: nat) | BadDocument | Timeout

  function Next(stream: seq<byte>, pos: nat, isDocument: seq<byte> -> bool): (r: (Received, nat))
    requires pos <= |stream|
    ensures pos <= r.1 <= |stream|
    ensures r.0.Doc? ==> r.1 > pos
  {
    if |stream| - pos < 4 then (Eof, |stream|)
    else
      var n := Unpack(stream[pos..pos + 4]);
      if n > FRAME_MAX then (TooLarge(n), pos + 4)
      else if |stream| - pos - 4 < n then (Eof, |stream|)
      else
        var body := stream[pos + 4..pos + 4 + n];
        if isDocument(body) then (Doc(body), pos + 4 + n) else (BadDocument, pos + 4 + n)
  }

  // ------------------------------------------------------------------ the socket

  /** One system call: some bytes move (at least one, and no more than were asked for), the peer has gone,
      or the deadline is past before it starts. */
  datatype Move = Bytes(n: int) | Gone | Late

  datatype Sent = Complete | ClosedMidSend | TimedOut | Unencodable

  datatype Exact = Got(bytes: seq<byte>) | Closed | Expired

  function Moved(want: nat, n: int): (k: nat)
    ensures want > 0 ==> 0 < k <= want
  {
    if n < 1 then Min(1, want) else Min(n, want)
  }

  /** A proper prefix of the frame, perhaps empty, has been added. */
  ghost predicate CutShort(out: seq<byte>, start: seq<byte>, frame: seq<byte>) {
    exists k :: 0 <= k < |frame| && out == start + frame[..k]
  }

  class Socket {
    const incoming: seq<byte>
    const moves: nat -> Move
    var calls: nat
    var pos: nat
    var outgoing: seq<byte>

    ghost predicate Valid()
      reads this
    {
      pos <= |incoming|
    }

    constructor (incoming: seq<byte>, moves: nat -> Move)
      ensures Valid() && this.incoming == incoming && this.moves == moves && pos == 0 && calls == 0 && outgoing == []
    {
      this.incoming, this.moves, calls, pos, outgoing := incoming, moves, 0, 0, [];
    }

    /** The frame goes out whole, or a proper prefix of it does and the caller is told. */
    method SendFrame(body: seq<byte>) returns (r: Sent)
      requires Valid()
      modifies this`calls, this`outgoing
      ensures Valid()
      ensures |body| >= WORD ==> r == Unencodable && outgoing == old(outgoing)
      ensures |body| < WORD ==> r != Unencodable && (r == Complete ==> outgoing == old(outgoing) + Frame(body))
      ensures |body| < WORD && r != Complete ==> CutShort(outgoing, old(outgoing), Frame(body))
    {
      if |body| >= WORD { return Unencodable; }
      var frame := Frame(body);
      var buf := frame;
      while buf != []
        invariant |buf| <= |frame| && buf == frame[|frame| - |buf|..]
        invariant outgoing == old(outgoing) + frame[..|frame| - |buf|]
        decreases |buf|
      {
        var move := moves(calls);
        calls := calls + 1;
        ghost var done := |frame| - |buf|;
        assert CutShort(outgoing, old(outgoing), frame) by { assert outgoing == old(outgoing) + frame[..done]; }
        if move.Late? { return TimedOut; }
        if move.Gone? { return ClosedMidSend; }
        var n := Moved(|buf|, move.n);
        SplitOut(outgoing, old(outgoing), frame, done, n);
        outgoing := outgoing + buf[..n];
        buf := buf[n..];
      }
      r := Complete;
    }

    /** Exactly `n` bytes from where the stream is, however they arrive, or the reason why not. */
    method RecvExact(n: nat) returns (r: Exact)
      requires Valid()
      modifies this`calls, this`pos
      ensures Valid() && pos >= old(pos)
      ensures r.Got? ==> old(pos) + n <= |incoming| && pos == old(pos) + n && r.bytes == incoming[old(pos)..pos]
      ensures r.Closed? ==> |incoming| - old(pos) < n || exists c :: old(calls) <= c < calls && moves(c).Gone?
      ensures r.Closed? && |incoming| - old(pos) < n && (forall c :: old(calls) <= c < calls ==> moves(c).Bytes?)
              ==> pos == |incoming|
      ensures r.Expired? ==> exists c :: old(calls) <= c < calls && moves(c).Late?
      ensures calls >= old(calls)
    {
      var buf: seq<byte> := [];
      while |buf| < n
        invariant Valid() && old(pos) <= pos && pos == old(pos) + |buf| && |buf| <= n
        invariant buf == incoming[old(pos)..pos]
        invariant calls >= old(calls)
        decreases n - |buf|
      {
        var move := moves(calls);
        calls := calls + 1;
        if move.Late? { return Expired; }
        if move.Gone? || pos == |incoming| { return Closed; }
        var want := Min(Min(n - |buf|, CHUNK_MAX), |incoming| - pos);
        var k := Moved(want, move.n);
        buf := buf + incoming[pos..pos + k];
        pos := pos + k;
      }
      r := Got(buf);
    }

    /** One frame: what the stream holds at this position, whatever the sizes of the reads. */
    method RecvFrame(isDocument: seq<byte> -> bool) returns (r: Received)
      requires Valid()
      modifies this`calls, this`pos
      ensures Valid() && calls >= old(calls)
      ensures (forall c :: old(calls) <= c < calls ==> moves(c).Bytes?) ==>
                (r, pos) == Next(incoming, old(pos), isDocument)
      ensures r.Timeout? ==> exists c :: old(calls) <= c < calls && moves(c).Late?
      ensures r.Doc? ==> (r, pos) == Next(incoming, old(pos), isDocument)
      ensures r.TooLarge? ==> pos == old(pos) + 4 && r.n > FRAME_MAX
    {
      var head := RecvExact(4);
      if head.Expired? { return Timeout; }
      if head.Closed? { return Eof; }
      var n := Unpack(head.bytes);
      if n > FRAME_MAX { return TooLarge(n); }
      var body := RecvExact(n);
      if body.Expired? { return Timeout; }
      if body.Closed? { return Eof; }
      if !isDocument(body.bytes) { return BadDocument; }
      r := Doc(body.bytes);
    }

    /** Frames until one is not a document. */
    method RecvAll(isDocument: seq<byte> -> bool) returns (docs: seq<seq<byte>>, end: Received)
      requires Valid()
      modifies this`calls, this`pos
      ensures Valid() && calls >= old(calls)
      ensures (forall c :: old(calls) <= c < calls ==> moves(c).Bytes?) ==>
                (docs, end) == ReadAll(incoming, old(pos), isDocument)
    {
      docs := [];
      AfterNothing(ReadAll(incoming, pos, isDocument));
      while true
        invariant Valid() && calls >= old(calls)
        invariant (forall c :: old(calls) <= c < calls ==> moves(c).Bytes?) ==>
                    ReadAll(incoming, old(pos), isDocument) == After(docs, ReadAll(incoming, pos, isDocument))
        decreases |incoming| - pos
      {
        ghost var rest := ReadAll(incoming, pos, isDocument);
        var r := RecvFrame(isDocument);
        if !r.Doc? {
          end := r;
          assert docs + [] == docs;
          return;
        }
        Regroup(docs, [r.body], ReadAll(incoming, pos, isDocument).0);
        docs := docs + [r.body];
      }
    }
  }

  /** Documents read before a result. */
  function After(docs: seq<seq<byte>>, rest: (seq<seq<byte>>, Received)): (seq<seq<byte>>, Received) {
    (docs + rest.0, rest.1)
  }

  lemma AfterNothing(rest: (seq<seq<byte>>, Received))
    ensures After([], rest) == rest
  {
    assert [] + rest.0 == rest.0;
  }

  lemma SplitOut(out: seq<byte>, start: seq<byte>, frame: seq<byte>, done: nat, n: nat)
    requires done + n <= |frame| && out == start + frame[..done]
    ensures out + frame[done..][..n] == start + frame[..done + n] && frame[done..][n..] == frame[done + n..]
  {
    assert frame[..done] + frame[done..][..n] == frame[..done + n];
  }

  // ------------------------------------------------------------------ whole streams

  function ReadAll(stream: seq<byte>, pos: nat, isDocument: seq<byte> -> bool): (seq<seq<byte>>, Received)
    requires pos <= |stream|
    decreases |stream| - pos
  {
    var (r, next) := Next(stream, pos, isDocument);
    if r.Doc? then
      var (docs, end) := ReadAll(stream, next, isDocument);
      ([r.body] + docs, end)
    else ([], r)
  }

  /** How many of the frames are whole in the first `k` bytes. */
  function Whole(docs: seq<seq<byte>>, k: nat): (m: nat)
    requires Small(docs)
    ensures m <= |docs|
  {
    if docs == [] || k < |Frame(docs[0])| then 0 else 1 + Whole(docs[1..], k - |Frame(docs[0])|)
  }

  lemma {:induction false} WholeIs(docs: seq<seq<byte>>, k: nat)
    requires Small(docs)
    ensures var m := Whole(docs, k);
            && m <= |docs| && |Frames(docs[..m])| <= k
            && (m < |docs| ==> k < |Frames(docs[..m + 1])|)
    decreases |docs|
  {
    if docs != [] && k >= |Frame(docs[0])| {
      WholeIs(docs[1..], k - |Frame(docs[0])|);
      var m := Whole(docs, k);
      assert docs[..m][0] == docs[0] && docs[..m][1..] == docs[1..][..m - 1];
      if m < |docs| { assert docs[..m + 1][0] == docs[0] && docs[..m + 1][1..] == docs[1..][..m]; }
    } else if docs != [] {
      assert docs[..1] == [docs[0]];
    }
  }

  /** The stream from this position reads as the first `m` documents and then ends. */
  ghost predicate ReadsAs(stream: seq<byte>, pos: nat, isDocument: seq<byte> -> bool, docs: seq<seq<byte>>, m: nat) {
    pos <= |stream| && m <= |docs| && ReadAll(stream, pos, isDocument) == (docs[..m], Eof)
  }

  /** A stream cut anywhere gives exactly the documents whose frames arrived whole, in order, and then the
      end of the stream: never part of a document, never an error. */
  lemma {:induction false} CutStreamGivesWholeDocuments(docs: seq<seq<byte>>, k: nat, before: seq<byte>,
                                                        isDocument: seq<byte> -> bool)
    requires Small(docs) && k <= |Frames(docs)| && forall i :: 0 <= i < |docs| ==> isDocument(docs[i])
    ensures ReadsAs(before + Frames(docs)[..k], |before|, isDocument, docs, Whole(docs, k))
    decreases |docs|
  {
    if docs == [] {
      assert before + Frames(docs)[..k] == before;
    } else {
      var frame := Frame(docs[0]);
      if k < |frame| {
        FirstIsCut(docs, k, before, isDocument);
      } else {
        CutStreamGivesWholeDocuments(docs[1..], k - |frame|, before + frame, isDocument);
        TakeConcat(frame, Frames(docs[1..]), k);
        FirstIsWhole(docs, before, Frames(docs[1..])[..k - |frame|], Whole(docs[1..], k - |frame|), isDocument);
      }
    }
  }

  lemma FirstIsCut(docs: seq<seq<byte>>, k: nat, before: seq<byte>, isDocument: seq<byte> -> bool)
    requires Small(docs) && docs != [] && k < |Frame(docs[0])| && k <= |Frames(docs)|
    ensures ReadsAs(before + Frames(docs)[..k], |before|, isDocument, docs, 0)
  {
    TakeConcat(Frame(docs[0]), Frames(docs[1..]), k);
    CutInsideFrame(docs[0], k, before, isDocument);
  }

  lemma FirstIsWhole(docs: seq<seq<byte>>, before: seq<byte>, rest: seq<byte>, m: nat, isDocument: seq<byte> -> bool)
    requires docs != [] && |docs[0]| <= FRAME_MAX && isDocument(docs[0]) && m < |docs|
    requires ReadsAs(before + Frame(docs[0]) + rest, |before + Frame(docs[0])|, isDocument, docs[1..], m)
    ensures ReadsAs(before + (Frame(docs[0]) + rest), |before|, isDocument, docs, m + 1)
  {
    Regroup(before, Frame(docs[0]), rest);
    NextIsFrame(docs[0], before, rest, isDocument);
    OneMore(docs, m);
    ReadStep(before + Frame(docs[0]) + rest, |before|, docs[0], |before| + |Frame(docs[0])|, isDocument);
  }

  lemma OneMore(docs: seq<seq<byte>>, m: nat)
    requires docs != [] && m < |docs|
    ensures [docs[0]] + docs[1..][..m] == docs[..m + 1]
  {}

  lemma ReadStep(stream: seq<byte>, pos: nat, body: seq<byte>, next: nat, isDocument: seq<byte> -> bool)
    requires pos <= |stream| && Next(stream, pos, isDocument) == (Doc(body), next)
    ensures ReadAll(stream, pos, isDocument) ==
            ([body] + ReadAll(stream, next, isDocument).0, ReadAll(stream, next, isDocument).1)
  {}

  lemma NextIsFrame(body: seq<byte>, before: seq<byte>, rest: seq<byte>, isDocument: seq<byte> -> bool)
    requires |body| <= FRAME_MAX && isDocument(body)
    ensures Next(before + Frame(body) + rest, |before|, isDocument) == (Doc(body), |before| + |Frame(body)|)
  {
    var stream := before + Frame(body) + rest;
    var p := |before|;
    assert stream[p..p + 4] == Pack(|body|);
    PackRoundTrip(|body|);
    assert stream[p + 4..p + 4 + |body|] == body;
  }

  lemma CutInsideFrame(body: seq<byte>, k: nat, before: seq<byte>, isDocument: seq<byte> -> bool)
    requires |body| <= FRAME_MAX && k < |Frame(body)|
    ensures ReadAll(before + Frame(body)[..k], |before|, isDocument) == ([], Eof)
  {
    HeadOfCut(body, k, before);
    assert Next(before + Frame(body)[..k], |before|, isDocument).0 == Eof;
  }

  lemma HeadOfCut(body: seq<byte>, k: nat, before: seq<byte>)
    requires |body| < WORD && k < |Frame(body)|
    ensures k >= 4 ==> Unpack((before + Frame(body)[..k])[|before|..|before| + 4]) == |body|
  {
    if k >= 4 {
      assert (before + Frame(body)[..k])[|before|..|before| + 4] == Pack(|body|);
      PackRoundTrip(|body|);
    }
  }

  /** Every list of documents within the size cap comes back as it was sent. */
  lemma RoundTrip(docs: seq<seq<byte>>, isDocument: seq<byte> -> bool)
    requires Small(docs) && forall i :: 0 <= i < |docs| ==> isDocument(docs[i])
    ensures ReadAll(Frames(docs), 0, isDocument) == (docs, Eof)
  {
    var all := Frames(docs);
    CutStreamGivesWholeDocuments(docs, |all|, [], isDocument);
    CutAt(all, |all|);
    assert [] + all == all;
    AllWhole(docs);
    CutAt(docs, |docs|);
  }

  lemma {:induction false} AllWhole(docs: seq<seq<byte>>)
    requires Small(docs)
    ensures Whole(docs, |Frames(docs)|) == |docs|
    decreases |docs|
  {
    if docs != [] { AllWhole(docs[1..]); }
  }

  /** A frame whose body is no document is an error, read to its end. */
  lemma NotADocumentIsRefused(body: seq<byte>, before: seq<byte>, rest: seq<byte>, isDocument: seq<byte> -> bool)
    requires |body| <= 8 * 1024 * 1024 && !isDocument(body)
    ensures Next(before + Frame(body) + rest, |before|, isDocument) == (BadDocument, |before| + 4 + |body|)
  {
    var stream, p := before + Frame(body) + rest, |before|;
    assert stream[p..p + 4] == Pack(|body|);
    PackRoundTrip(|body|);
    assert stream[p + 4..p + 4 + |body|] == body;
  }

  /** The sender has no cap of its own: a larger document goes out whole, and the receiver refuses it
      after four bytes, with the body still unread in front of the next frame. */
  lemma OversizedIsRefusedUnread(body: seq<byte>, before: seq<byte>, rest: seq<byte>, isDocument: seq<byte> -> bool)
    requires 8 * 1024 * 1024 < |body| < WORD
    ensures Next(before + Frame(body) + rest, |before|, isDocument) == (TooLarge(|body|), |before| + 4)
  {
    var stream := before + Frame(body) + rest;
    assert stream[|before|..|before| + 4] == Pack(|body|);
    PackRoundTrip(|body|);
  }
}
