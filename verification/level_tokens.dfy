/**
 The level token inside a client order id: what `reconcile` writes into the ids of the stops it places,
 what it reads back when the venue does not echo a level, and when that makes it replace the order.
 */
module LevelTokens {
  import opened Common

  const MAX_CID_LEN := 40
  const WIDTH := 5
  const CAPACITY := 60466176 // 36 to the fifth
  const RULE_BUCKETS := 46656 // 36 to the third

  // ------------------------------------------------------------------ base 36

  const ALPHABET := "0123456789abcdefghijklmnopqrstuvwxyz"

  predicate IsDigit(c: char) { '0' <= c <= '9' || 'a' <= c <= 'z' }

  predicate AllDigits(s: string) { forall i :: 0 <= i < |s| ==> IsDigit(s[i]) }

  function DigitValue(c: char): nat
    requires IsDigit(c)
  {
    if c <= '9' then c as int - '0' as int else c as int - 'a' as int + 10
  }

  function Digit(n: nat): (c: char)
    requires n < 36
    ensures IsDigit(c) && DigitValue(c) == n
  {
    ALPHABET[n]
  }

  /** Most significant digit first, no leading zero except for zero itself. */
  function Base36(n: nat): string {
    if n < 36 then [Digit(n)] else Base36(n / 36) + [Digit(n % 36)]
  }

  function Value36(s: string): nat
    requires AllDigits(s)
  {
    if s == "" then 0 else Value36(s[..|s| - 1]) * 36 + DigitValue(s[|s| - 1])
  }

  function Reversed(s: string): string { if s == "" then "" else Reversed(s[1..]) + [s[0]] }

  lemma {:induction false} ReversedSnoc(s: string, c: char)
    ensures Reversed(s + [c]) == [c] + Reversed(s)
  {
    if s != "" {
      ReversedSnoc(s[1..], c);
      assert (s + [c])[1..] == s[1..] + [c];
    }
  }

  /** The digits of `n`, none for zero. */
  function Head(n: nat): string { if n == 0 then "" else Base36(n) }

  lemma HeadSnoc(n: nat, tail: string)
    requires n > 0
    ensures Head(n) + tail == Head(n / 36) + ([Digit(n % 36)] + tail)
  {
    assert Head(n) == Head(n / 36) + [Digit(n % 36)] by {
      if n < 36 { assert n / 36 == 0 && n % 36 == n; }
    }
    Regroup(Head(n / 36), [Digit(n % 36)], tail);
  }

  /** The digits come out least significant first and are turned round at the end. */
  method Encode36(n: nat) returns (s: string)
    ensures s == Base36(n)
  {
    if n == 0 { return "0"; }
    var digits, rest := "", n;
    while rest != 0
      invariant Base36(n) == Head(rest) + Reversed(digits)
    {
      ReversedSnoc(digits, Digit(rest % 36));
      HeadSnoc(rest, Reversed(digits));
      digits, rest := digits + [Digit(rest % 36)], rest / 36;
    }
    s := Reversed(digits);
  }

  function Power36(k: nat): nat { if k == 0 then 1 else 36 * Power36(k - 1) }

  /** A number below 36^k takes at most k digits and they read back as the number. */
  lemma {:induction false} Base36RoundTrip(n: nat, k: nat)
    requires k > 0 && n < Power36(k)
    ensures 1 <= |Base36(n)| <= k && AllDigits(Base36(n)) && Value36(Base36(n)) == n
    decreases k
  {
    if n < 36 {
      assert Base36(n)[..0] == "";
    } else {
      assert Power36(0) == 1;
      Base36RoundTrip(n / 36, k - 1);
      assert Base36(n)[..|Base36(n)| - 1] == Base36(n / 36);
    }
  }

  /** Pads with zeros on the left, never cuts. */
  function Padded(s: string, width: nat): string
    decreases width - |s|
  {
    if |s| >= width then s else Padded("0" + s, width)
  }

  lemma {:induction false} LeadingZero(s: string)
    requires AllDigits(s)
    ensures AllDigits("0" + s) && Value36("0" + s) == Value36(s)
  {
    if s != "" {
      LeadingZero(s[..|s| - 1]);
      assert ("0" + s)[..|s|] == "0" + s[..|s| - 1];
    } else {
      assert ("0" + s)[..0] == "";
    }
  }

  lemma {:induction false} PaddedValue(s: string, width: nat)
    requires AllDigits(s) && |s| <= width
    ensures |Padded(s, width)| == width && AllDigits(Padded(s, width)) && Value36(Padded(s, width)) == Value36(s)
    decreases width - |s|
  {
    if |s| < width {
      LeadingZero(s);
      PaddedValue("0" + s, width);
    }
  }

  // ------------------------------------------------------------------ levels in cents

  /** Rounding to the nearest whole number, ties to even. */
  function RoundHalfEven(x: real): int {
    var below := x.Floor;
    if x - below as real < 0.5 then below
    else if x - below as real > 0.5 then below + 1
    else if below % 2 == 0 then below else below + 1
  }

  /** The nearest whole number, and of two the even one. */
  lemma RoundsExactly(x: real)
    ensures var n := RoundHalfEven(x);
            && -0.5 <= x - n as real <= 0.5
            && (x - n as real == 0.5 || x - n as real == -0.5 ==> n % 2 == 0)
  {}

  function Cents(level: real): nat { Max(0, RoundHalfEven(level * 100.0)) }

  function Quantized(level: real): real { Cents(level) as real / 100.0 }

  /** Quantizing moves a level by at most half a cent, changes nothing the second time, and clamps
      negative levels to zero. */
  lemma QuantizedIsNearest(level: real)
    ensures level >= 0.0 ==> -0.005 <= Quantized(level) - level <= 0.005
    ensures level <= 0.0 ==> Quantized(level) == 0.0
    ensures Quantized(Quantized(level)) == Quantized(level)
  {
    assert Quantized(level) * 100.0 == Cents(level) as real;
  }

  /** The token body: the cents of the quantized level, or nothing when they need a sixth digit. */
  function EncodeLevel(level: real): Option<string> {
    var cents: nat := Max(0, RoundHalfEven(Quantized(level) * 100.0));
    if cents > CAPACITY - 1 then None else Some(Padded(Base36(cents), WIDTH))
  }

  predicate Encodable(level: real) { Cents(level) < 36 * 36 * 36 * 36 * 36 }

  lemma EncodedLevel(level: real)
    ensures EncodeLevel(level).Some? <==> Encodable(level)
    ensures Encodable(level) ==>
              var s := EncodeLevel(level).value; |s| == 5 && AllDigits(s) && Value36(s) == Cents(level)
  {
    QuantizedIsNearest(level);
    assert Quantized(level) * 100.0 == Cents(level) as real;
    assert Encodable(level) <==> Cents(level) < CAPACITY;
    if Encodable(level) {
      var n := Cents(level);
      assert Power36(5) == CAPACITY;
      Base36RoundTrip(n, WIDTH);
      PaddedValue(Base36(n), WIDTH);
    }
  }

  // ------------------------------------------------------------------ reading an id

  /** `$` also matches just before one final newline. */
  function Chomp(cid: string): string { if cid != "" && cid[|cid| - 1] == '\n' then cid[..|cid| - 1] else cid }

  /** The digits after a marker that closes the id. */
  function TokenAtEnd(cid: string, mark: char, width: nat): Option<string> {
    var s := Chomp(cid);
    if |s| >= width + 2 && s[|s| - width - 2] == '-' && s[|s| - width - 1] == mark && AllDigits(s[|s| - width..])
    then Some(s[|s| - width..]) else None
  }

  /** A token is read exactly off an id that ends in a dash, the marker and digits; one newline at the very end
      of the id is overlooked. */
  lemma TokenExactly(cid: string, mark: char, width: nat, body: string)
    requires |body| == width
    ensures TokenAtEnd(cid, mark, width) == Some(body) <==>
              AllDigits(body) && exists head :: Chomp(cid) == head + ['-', mark] + body
    ensures cid != "" && cid[|cid| - 1] == '\n' ==> cid == Chomp(cid) + "\n"
    ensures (cid != "" ==> cid[|cid| - 1] != '\n') ==> Chomp(cid) == cid
  {
    var s := Chomp(cid);
    if TokenAtEnd(cid, mark, width) == Some(body) {
      var head := s[..|s| - width - 2];
      assert s == head + ['-', mark] + body;
    }
    if AllDigits(body) && exists head :: s == head + ['-', mark] + body {
      var head :| s == head + ['-', mark] + body;
      assert s[|s| - width..] == body;
    }
  }

  function DecodeLevel(cid: string): (r: Option<real>)
  {
    var t := TokenAtEnd(cid, 'L', WIDTH);
    if t.None? then None else Some(ValueOf(t.value))
  }

  function DecodeLegs(cid: string): (Option<real>, Option<real>) {
    var t := TokenAtEnd(cid, 'B', 2 * WIDTH);
    if t.None? then (None, None) else (Some(ValueOf(t.value[..WIDTH])), Some(ValueOf(t.value[WIDTH..])))
  }

  function ValueOf(s: string): real
    requires AllDigits(s)
  {
    Value36(s) as real / 100.0
  }

  // ------------------------------------------------------------------ writing an id

  function Prefix(s: string, n: nat): string { if |s| <= n then s else s[..n] }

  /** `hash` is the checksum bucket of the rule id; a missing rule id gives no token. */
  function RuleToken(hash: Option<nat>): string {
    if hash.None? then "" else "-" + Padded(Base36(hash.value % RULE_BUCKETS), 3)
  }

  /** The exit and entry kinds; any other name a caller may pass is shortened to three letters. */
  datatype Kind = Limit | Stop | StopLimit | TrailingStop | Other(name: string)

  function ExitCode(kind: Kind): (code: string)
    ensures |code| <= 3
  {
    match kind
    case Limit => "tp"
    case Stop => "stp"
    case StopLimit => "stl"
    case TrailingStop => "trl"
    case Other(name) => Prefix(name, 3)
  }

  /** An entry has no trailing kind of its own. */
  function EntryCode(kind: Kind): (code: string)
    ensures |code| <= 3
  {
    match kind
    case Limit => "lmt"
    case Stop => "stp"
    case StopLimit => "stl"
    case TrailingStop => "tra"
    case Other(name) => Prefix(name, 3)
  }

  function ExitPrefix(dep: string, kind: Kind, sym: string, rule: Option<nat>): string {
    if kind.Limit? then "sl-" + ExitCode(Limit) + "-" + Prefix(dep, 18)
    else "sl-" + ExitCode(kind) + "-" + Prefix(sym, 5) + "-" + Prefix(dep, 4) + RuleToken(rule)
  }

  function EntryPrefix(dep: string, kind: Kind, sym: string, rule: Option<nat>): string {
    "en-" + EntryCode(kind) + "-" + Prefix(sym, 5) + "-" + Prefix(dep, 4) + RuleToken(rule)
  }

  datatype Levels = Levels(price: Option<real>, stop: Option<real>, trail: Option<real>)

  function TokenFor(level: Option<real>): string {
    if level.None? || EncodeLevel(level.value).None? then "" else "-L" + EncodeLevel(level.value).value
  }

  function Percent(trail: Option<real>): Option<real> { if trail.None? then None else Some(trail.value * 100.0) }

  function Token(kind: Kind, v: Levels): string {
    if kind.TrailingStop? then TokenFor(Percent(v.trail))
    else if kind.StopLimit? then
      if v.stop.Some? && v.price.Some? && EncodeLevel(v.stop.value).Some? && EncodeLevel(v.price.value).Some?
      then "-B" + EncodeLevel(v.stop.value).value + EncodeLevel(v.price.value).value else ""
    else TokenFor(v.stop)
  }

  /** A minted id, or the refusal to send one the venue would cut. */
  datatype Minted = Cid(text: string) | TooLong

  predicate IsHex(s: string) { forall i :: 0 <= i < |s| ==> '0' <= s[i] <= '9' || 'a' <= s[i] <= 'f' }

  predicate IsUuid(uuid: string) { |uuid| == 32 && IsHex(uuid) }

  /** `uuid` is the random part, 32 hexadecimal digits. */
  function Mint(prefix: string, kind: Kind, uuid: string, v: Levels): Minted
    requires IsUuid(uuid)
  {
    if kind.Limit? then Cid(prefix + "-" + uuid[..6])
    else
      var text := prefix + "-" + uuid[..4] + Token(kind, v);
      if |text| > MAX_CID_LEN then TooLong else Cid(text)
  }

  /** The id is the prefix, a random part of six digits for a take-profit and of four otherwise, and the token;
      it is refused exactly when that is longer than forty letters, a take-profit never. */
  lemma MintExactly(prefix: string, kind: Kind, uuid: string, v: Levels)
    requires IsUuid(uuid)
    ensures kind.Limit? ==> Mint(prefix, kind, uuid, v) == Cid(prefix + "-" + uuid[..6])
    ensures !kind.Limit? ==>
              var text := prefix + "-" + uuid[..4] + Token(kind, v);
              Mint(prefix, kind, uuid, v) == if |prefix| + 5 + |Token(kind, v)| > 40 then TooLong else Cid(text)
  {}

  lemma RuleTokenLength(hash: Option<nat>)
    ensures |RuleToken(hash)| == if hash.None? then 0 else 4
  {
    if hash.Some? {
      assert Power36(3) == RULE_BUCKETS;
      Base36RoundTrip(hash.value % RULE_BUCKETS, 3);
      PaddedValue(Base36(hash.value % RULE_BUCKETS), 3);
    }
  }

  /** The token of a rule reads back as its checksum modulo 36 to the third. */
  lemma RuleTokenIs(hash: nat)
    ensures var t := RuleToken(Some(hash));
            |t| == 4 && t[0] == '-' && AllDigits(t[1..]) && Value36(t[1..]) == hash % (36 * 36 * 36)
  {
    assert Power36(3) == RULE_BUCKETS;
    Base36RoundTrip(hash % RULE_BUCKETS, 3);
    PaddedValue(Base36(hash % RULE_BUCKETS), 3);
  }

  /** Whose orders share an identity. Of two take-profits: those of deployments whose ids agree in their first
      eighteen letters. Of two other exits, or two entries, of one kind with full-length ids: those that
      agree in the first five letters of the symbol, the first four of the deployment, and the rule token. */
  lemma SharedIdentityExactly(kind: Kind, depA: string, symA: string, ruleA: Option<nat>,
                              depB: string, symB: string, ruleB: Option<nat>)
    ensures kind.Limit? ==>
              (ExitPrefix(depA, kind, symA, ruleA) == ExitPrefix(depB, kind, symB, ruleB) <==>
                 FirstOf(depA, 18) == FirstOf(depB, 18))
    ensures |symA| >= 5 && |symB| >= 5 && |depA| >= 4 && |depB| >= 4 ==>
              var same := symA[..5] == symB[..5] && depA[..4] == depB[..4] && RuleToken(ruleA) == RuleToken(ruleB);
              && (!kind.Limit? ==>
                    (ExitPrefix(depA, kind, symA, ruleA) == ExitPrefix(depB, kind, symB, ruleB) <==> same))
              && (EntryPrefix(depA, kind, symA, ruleA) == EntryPrefix(depB, kind, symB, ruleB) <==> same)
  {
    SameTail("sl-" + ExitCode(Limit) + "-", FirstOf(depA, 18), FirstOf(depB, 18));
    PrefixIs(depA, 18);
    PrefixIs(depB, 18);
    if |symA| >= 5 && |symB| >= 5 && |depA| >= 4 && |depB| >= 4 {
      PrefixIs(symA, 5);
      PrefixIs(symB, 5);
      PrefixIs(depA, 4);
      PrefixIs(depB, 4);
      SameParts("sl-" + ExitCode(kind) + "-", symA[..5], depA[..4], RuleToken(ruleA),
                symB[..5], depB[..4], RuleToken(ruleB));
      SameParts("en-" + EntryCode(kind) + "-", symA[..5], depA[..4], RuleToken(ruleA),
                symB[..5], depB[..4], RuleToken(ruleB));
    }
  }

  function FirstOf(s: string, n: nat): string { s[..if |s| < n then |s| else n] }

  lemma PrefixIs(s: string, n: nat)
    ensures Prefix(s, n) == FirstOf(s, n) && (|s| >= n ==> Prefix(s, n) == s[..n])
  {}

  lemma SameTail(head: string, a: string, b: string)
    ensures head + a == head + b <==> a == b
  {
    assert (head + a)[|head|..] == a && (head + b)[|head|..] == b;
  }

  lemma SameParts(head: string, symA: string, depA: string, ruleA: string, symB: string, depB: string, ruleB: string)
    requires |symA| == |symB| == 5 && |depA| == |depB| == 4
    ensures head + symA + "-" + depA + ruleA == head + symB + "-" + depB + ruleB <==>
              symA == symB && depA == depB && ruleA == ruleB
  {
    var a, b, n := head + symA + "-" + depA + ruleA, head + symB + "-" + depB + ruleB, |head|;
    assert a[n..n + 5] == symA && a[n + 6..n + 10] == depA && a[n + 10..] == ruleA;
    assert b[n..n + 5] == symB && b[n + 6..n + 10] == depB && b[n + 10..] == ruleB;
  }

  lemma TokenLength(kind: Kind, v: Levels)
    ensures |Token(kind, v)| <= 12
    ensures !kind.StopLimit? ==> |Token(kind, v)| <= 7
  {
    if v.stop.Some? { EncodedLevel(v.stop.value); }
    if v.price.Some? { EncodedLevel(v.price.value); }
    if v.trail.Some? { EncodedLevel(v.trail.value * 100.0); }
  }

  /** Every id the executor mints fits: the length guard never fires, for any deployment id, symbol,
      kind, rule and level. */
  lemma EveryIdFits(dep: string, kind: Kind, sym: string, rule: Option<nat>, uuid: string, v: Levels)
    requires IsUuid(uuid)
    ensures var exit := Mint(ExitPrefix(dep, kind, sym, rule), kind, uuid, v); exit.Cid? && |exit.text| <= 40
    ensures var entry := Mint(EntryPrefix(dep, kind, sym, rule), kind, uuid, v);
            entry.Cid? && |entry.text| <= 40
  {
    RuleTokenLength(rule);
    TokenLength(kind, v);
  }

  // ------------------------------------------------------------------ the round trip

  function CentsIfEncodable(level: Option<real>): Option<real> {
    if level.Some? && Encodable(level.value) then Some(Quantized(level.value)) else None
  }

  function SingleLeg(kind: Kind, v: Levels): Option<real> {
    if kind.Limit? || kind.StopLimit? then None
    else CentsIfEncodable(if kind.TrailingStop? then Percent(v.trail) else v.stop)
  }

  function BothLegs(kind: Kind, v: Levels): (Option<real>, Option<real>) {
    if kind.StopLimit? && CentsIfEncodable(v.stop).Some? && CentsIfEncodable(v.price).Some?
    then (CentsIfEncodable(v.stop), CentsIfEncodable(v.price)) else (None, None)
  }

  /** The id reads back as the levels it was minted for: the quantized level, or both legs, where a token
      was embedded, and unknown where none was. */
  ghost predicate Remembers(cid: string, kind: Kind, v: Levels) {
    DecodeLevel(cid) == SingleLeg(kind, v) && DecodeLegs(cid) == BothLegs(kind, v)
  }

  lemma TailIs(head: string, mark: char, body: string)
    requires AllDigits(body) && body != ""
    ensures TokenAtEnd(head + ['-', mark] + body, mark, |body|) == Some(body)
  {
    var s := head + ['-', mark] + body;
    assert Chomp(s) == s by { assert IsDigit(s[|s| - 1]); }
    assert s[|s| - |body|..] == body;
  }

  /** The token is there exactly for what can be encoded, and its digits are the cents. */
  lemma TokenForIs(level: Option<real>)
    ensures TokenFor(level) == "" <==> CentsIfEncodable(level).None?
    ensures CentsIfEncodable(level).Some? ==>
              var body := EncodeLevel(level.value);
              body.Some? && |body.value| == WIDTH && AllDigits(body.value) && TokenFor(level) == "-L" + body.value
              && Some(ValueOf(body.value)) == CentsIfEncodable(level)
  {
    if level.Some? { EncodedLevel(level.value); }
  }

  lemma SingleLegRoundTrip(head: string, level: Option<real>)
    requires |head| >= 5 && head[|head| - 5] == '-' && IsHex(head[|head| - 4..])
    ensures DecodeLevel(head + TokenFor(level)) == CentsIfEncodable(level)
    ensures DecodeLegs(head + TokenFor(level)) == (None, None)
  {
    TokenForIs(level);
    if TokenFor(level) == "" {
      assert head + "" == head[..|head| - 5] + "-" + head[|head| - 4..];
      BareIdDecodesToNothing(head[..|head| - 5], head[|head| - 4..]);
    } else {
      LevelRoundTrip(head, EncodeLevel(level.value).value);
    }
  }

  lemma StopLimitRoundTrip(head: string, v: Levels)
    requires |head| >= 5 && head[|head| - 5] == '-' && IsHex(head[|head| - 4..])
    ensures DecodeLevel(head + Token(StopLimit, v)) == None
    ensures DecodeLegs(head + Token(StopLimit, v)) == BothLegs(StopLimit, v)
  {
    TokenForIs(v.stop);
    TokenForIs(v.price);
    if BothLegs(StopLimit, v).0.None? {
      assert Token(StopLimit, v) == "" by { if v.stop.Some? { EncodedLevel(v.stop.value); } }
      assert head + "" == head[..|head| - 5] + "-" + head[|head| - 4..];
      BareIdDecodesToNothing(head[..|head| - 5], head[|head| - 4..]);
    } else {
      LegsRoundTrip(head, EncodeLevel(v.stop.value).value, EncodeLevel(v.price.value).value);
    }
  }

  /** Every minted id reads back as the quantized level it was minted for, both legs of a stop-limit
      included; whenever no token was embedded it reads back as unknown, whatever the prefix looks like. */
  lemma IdRoundTrip(prefix: string, kind: Kind, uuid: string, v: Levels)
    requires IsUuid(uuid) && Mint(prefix, kind, uuid, v).Cid?
    ensures Remembers(Mint(prefix, kind, uuid, v).text, kind, v)
  {
    var head := prefix + "-" + uuid[..4];
    assert head[|head| - 4..] == uuid[..4];
    if kind.Limit? {
      BareIdDecodesToNothing(prefix, uuid[..6]);
    } else if kind.StopLimit? {
      StopLimitRoundTrip(head, v);
    } else {
      SingleLegRoundTrip(head, if kind.TrailingStop? then Percent(v.trail) else v.stop);
    }
  }

  lemma LevelRoundTrip(head: string, body: string)
    requires AllDigits(body) && |body| == WIDTH
    ensures DecodeLevel(head + ("-L" + body)) == Some(ValueOf(body))
    ensures DecodeLegs(head + ("-L" + body)) == (None, None)
  {
    var s := head + ("-L" + body);
    assert s == head + ['-', 'L'] + body;
    TailIs(head, 'L', body);
    if |s| >= 12 {
      assert !AllDigits(s[|s| - 10..]) by { assert s[|s| - 10..][3] == '-'; }
    }
  }

  lemma LegsRoundTrip(head: string, stop: string, limit: string)
    requires AllDigits(stop) && AllDigits(limit) && |stop| == |limit| == WIDTH
    ensures DecodeLevel(head + ("-B" + stop + limit)) == None
    ensures DecodeLegs(head + ("-B" + stop + limit)) == (Some(ValueOf(stop)), Some(ValueOf(limit)))
  {
    var s := head + ("-B" + stop + limit);
    assert s == head + ['-', 'B'] + (stop + limit);
    TailIs(head, 'B', stop + limit);
    assert (stop + limit)[..WIDTH] == stop && (stop + limit)[WIDTH..] == limit;
    assert s[|s| - 6] == stop[4];
  }

  /** The random part keeps a dash where a token would need a digit. */
  lemma BareIdDecodesToNothing(prefix: string, rand: string)
    requires IsHex(rand) && (|rand| == 4 || |rand| == 6)
    ensures DecodeLevel(prefix + "-" + rand) == None
    ensures DecodeLegs(prefix + "-" + rand) == (None, None)
  {
    var s := prefix + "-" + rand;
    assert s[|s| - 1] == rand[|rand| - 1];
    if |s| >= 12 { assert s[|s| - 10..][9 - |rand|] == '-'; }
    if |s| >= 7 {
      if |rand| == 4 { assert s[|s| - 5..][0] == '-'; } else { assert s[|s| - 6] == rand[0]; }
    }
  }

  // ------------------------------------------------------------------ the change test

  /** What the venue lists for a resting order; it may leave any level out. */
  datatype Listing = Listing(cid: string, qty: int, stop: Option<real>, limit: Option<real>, trailPct: Option<real>)

  function OrZero(x: Option<real>): real { if x.Some? then x.value else 0.0 }

  predicate Apart(resting: Option<real>, wanted: Option<real>, tolerance: real) {
    resting.Some? && (resting.value - OrZero(wanted) > tolerance || OrZero(wanted) - resting.value > tolerance)
  }

  function QuantizedOption(x: Option<real>): Option<real> { if x.Some? then Some(Quantized(x.value)) else None }

  function Hundredth(x: Option<real>): Option<real> { if x.Some? then Some(x.value / 100.0) else None }

  predicate LegChanged(listed: Option<real>, token: Option<real>, wanted: Option<real>, clientIds: bool) {
    if listed.None? && clientIds then Apart(token, QuantizedOption(wanted), 0.004) else Apart(listed, wanted, 0.004)
  }

  predicate TrailChanged(listed: Option<real>, token: Option<real>, wanted: Option<real>, clientIds: bool) {
    if listed.None? && clientIds then Apart(Hundredth(token), Hundredth(QuantizedOption(Percent(wanted))), 0.0005)
    else Apart(Hundredth(listed), wanted, 0.0005)
  }

  /** Does the resting order differ from what is wanted? */
  predicate Changed(kind: Kind, o: Listing, qty: int, v: Levels, clientIds: bool) {
    || o.qty != qty
    || (if kind.TrailingStop? then TrailChanged(o.trailPct, DecodeLevel(o.cid), v.trail, clientIds)
        else if kind.StopLimit? then
          || LegChanged(o.stop, DecodeLegs(o.cid).0, v.stop, clientIds)
          || LegChanged(o.limit, DecodeLegs(o.cid).1, v.price, clientIds)
        else
          LegChanged(if o.stop.Some? then o.stop else o.limit, DecodeLevel(o.cid),
                     if kind.Limit? then v.price else v.stop, clientIds))
  }

  // ------------------------------------------------------------------ when the venue says what rests

  /** The distance of two levels. */
  function Distance(a: real, b: real): real { if a >= b then a - b else b - a }

  /** A take-profit the venue lists with its price is found changed exactly when the price is more than 0.004
      off, or the quantity differs, with or without client ids; a stop, and any other single-leg kind, is
      judged by its stop price, and by its limit price only where none is listed; a stop-limit by either
      leg; a trailing stop by its percent, to five hundredths of one, and by nothing else the venue lists.
      A level that is not wanted at all counts as zero. */
  lemma EchoedLimitChange(o: Listing, qty: int, wanted: Levels, clientIds: bool)
    requires o.stop.None? && o.limit.Some?
    ensures Changed(Limit, o, qty, wanted, clientIds) <==>
              o.qty != qty || Distance(o.limit.value, Wanted(wanted.price)) > 0.004
  {}

  lemma EchoedStopChange(o: Listing, qty: int, kind: Kind, wanted: Levels, clientIds: bool)
    requires (kind.Stop? || kind.Other?) && (o.stop.Some? || o.limit.Some?)
    ensures Changed(kind, o, qty, wanted, clientIds) <==>
              o.qty != qty
              || Distance(if o.stop.Some? then o.stop.value else o.limit.value, Wanted(wanted.stop)) > 0.004
  {}

  lemma EchoedStopLimitChange(o: Listing, qty: int, wanted: Levels, clientIds: bool)
    requires o.stop.Some? && o.limit.Some?
    ensures Changed(StopLimit, o, qty, wanted, clientIds) <==>
              || o.qty != qty
              || Distance(o.stop.value, Wanted(wanted.stop)) > 0.004
              || Distance(o.limit.value, Wanted(wanted.price)) > 0.004
  {}

  lemma EchoedTrailChange(o: Listing, qty: int, wanted: Levels, clientIds: bool)
    requires o.trailPct.Some?
    ensures Changed(TrailingStop, o, qty, wanted, clientIds) <==>
              o.qty != qty || Distance(o.trailPct.value / 100.0, Wanted(wanted.trail)) > 0.0005
  {}

  function Wanted(level: Option<real>): real { match level case None => 0.0 case Some(x) => x }

  /** One leg listed and the other left out: each is judged by what there is, the listed level as it is and the
      remembered one to the cent. */
  lemma HalfEchoedStopLimitChange(o: Listing, qty: int, placed: Levels, wanted: Levels)
    requires Remembers(o.cid, StopLimit, placed) && wanted.stop.Some? && wanted.price.Some?
    requires placed.stop.Some? && placed.price.Some?
    requires Encodable(placed.stop.value) && Encodable(placed.price.value)
    ensures o.stop.Some? && o.limit.None? ==>
              (Changed(StopLimit, o, qty, wanted, true) <==>
                 || o.qty != qty
                 || Distance(o.stop.value, wanted.stop.value) > 0.004
                 || Cents(placed.price.value) != Cents(wanted.price.value))
    ensures o.stop.None? && o.limit.Some? ==>
              (Changed(StopLimit, o, qty, wanted, true) <==>
                 || o.qty != qty
                 || Cents(placed.stop.value) != Cents(wanted.stop.value)
                 || Distance(o.limit.value, wanted.price.value) > 0.004)
  {
    LegIsExact(placed.stop.value, wanted.stop.value);
    LegIsExact(placed.price.value, wanted.price.value);
  }

  /** Without client ids, or without a token, a level the venue does not list is not compared at all. */
  lemma UnknownIsUnchanged(kind: Kind, o: Listing, qty: int, wanted: Levels, clientIds: bool)
    requires Silent(o) && (!clientIds || (DecodeLevel(o.cid).None? && DecodeLegs(o.cid) == (None, None)))
    ensures Changed(kind, o, qty, wanted, clientIds) <==> o.qty != qty
  {}

  predicate Silent(o: Listing) { o.stop.None? && o.limit.None? && o.trailPct.None? }

  lemma ApartInCents(a: nat, b: nat)
    ensures Apart(Some(a as real / 100.0), Some(b as real / 100.0), 0.004) <==> a != b
  {
    if a < b { assert b as real / 100.0 - a as real / 100.0 >= 0.01; }
    if b < a { assert a as real / 100.0 - b as real / 100.0 >= 0.01; }
  }

  /** What a decoded leg says about a wanted level. */
  lemma LegIsExact(placed: real, wanted: real)
    ensures LegChanged(None, CentsIfEncodable(Some(placed)), Some(wanted), true) <==>
              Encodable(placed) && Cents(placed) != Cents(wanted)
  {
    ApartInCents(Cents(placed), Cents(wanted));
  }

  /** On a venue that echoes nothing, a stop placed for one level is found changed exactly when the wanted
      level differs in cents, or the quantity differs; a level too large to encode is compared by
      quantity alone. */
  lemma StopChangeIsExact(o: Listing, qty: int, placed: Levels, wanted: Levels)
    requires Remembers(o.cid, Stop, placed)
    requires Silent(o) && placed.stop.Some? && wanted.stop.Some?
    ensures Encodable(placed.stop.value) ==>
              (Changed(Stop, o, qty, wanted, true) <==>
               Cents(placed.stop.value) != Cents(wanted.stop.value) || o.qty != qty)
    ensures !Encodable(placed.stop.value) ==> (Changed(Stop, o, qty, wanted, true) <==> o.qty != qty)
  {
    LegIsExact(placed.stop.value, wanted.stop.value);
  }

  /** The same for the two legs of a stop-limit: either leg alone is noticed. */
  lemma StopLimitChangeIsExact(o: Listing, qty: int, placed: Levels, wanted: Levels)
    requires Remembers(o.cid, StopLimit, placed)
    requires Silent(o) && placed.stop.Some? && placed.price.Some? && wanted.stop.Some? && wanted.price.Some?
    ensures Encodable(placed.stop.value) && Encodable(placed.price.value) ==>
              (Changed(StopLimit, o, qty, wanted, true) <==>
               Cents(placed.stop.value) != Cents(wanted.stop.value)
               || Cents(placed.price.value) != Cents(wanted.price.value)
               || o.qty != qty)
    ensures !(Encodable(placed.stop.value) && Encodable(placed.price.value)) ==>
              (Changed(StopLimit, o, qty, wanted, true) <==> o.qty != qty)
  {
    if BothLegs(StopLimit, placed).0.Some? {
      LegIsExact(placed.stop.value, wanted.stop.value);
      LegIsExact(placed.price.value, wanted.price.value);
    }
  }

  /** The trails are more than five hundredths of a percent apart. */
  predicate TrailMoved(placed: real, wanted: real) { Abs(Cents(placed * 100.0) - Cents(wanted * 100.0)) > 5 }

  lemma ApartInUnits(token: real, placed: real, wanted: real)
    requires token == Quantized(placed * 100.0)
    ensures TrailChanged(None, Some(token), Some(wanted), true) <==> TrailMoved(placed, wanted)
  {
    var a: int, b: int := Cents(placed * 100.0), Cents(wanted * 100.0);
    assert token / 100.0 - Quantized(wanted * 100.0) / 100.0 == (a - b) as real / 10000.0;
  }

  lemma TrailFromToken(o: Listing, qty: int, placed: real, wanted: Levels)
    requires DecodeLevel(o.cid) == Some(Quantized(placed * 100.0)) && o.trailPct.None? && wanted.trail.Some?
    ensures Changed(TrailingStop, o, qty, wanted, true) <==> TrailMoved(placed, wanted.trail.value) || o.qty != qty
  {
    ApartInUnits(Quantized(placed * 100.0), placed, wanted.trail.value);
  }

  /** A trailing stop is not as sharp: the trail is kept in hundredths of a percent but compared with a
      tolerance of five of them, so it is found changed exactly when it moved by more than five. */
  lemma TrailChangeIsCoarse(o: Listing, qty: int, placed: Levels, wanted: Levels)
    requires Remembers(o.cid, TrailingStop, placed)
    requires Silent(o) && placed.trail.Some? && wanted.trail.Some? && Encodable(placed.trail.value * 100.0)
    ensures Changed(TrailingStop, o, qty, wanted, true) <==>
              TrailMoved(placed.trail.value, wanted.trail.value) || o.qty != qty
  {
    TrailFromToken(o, qty, placed.trail.value, wanted);
  }

  /** So a trail tightened from 1.05 to 1 percent is never sent to such a venue. */
  lemma TighterTrailGoesUnnoticed(o: Listing)
    requires Remembers(o.cid, TrailingStop, Levels(None, None, Some(0.0105))) && Silent(o)
    ensures !Changed(TrailingStop, o, o.qty, Levels(None, None, Some(0.0100)), true)
  {
    assert Cents(0.0105 * 100.0) == 105 by { assert (0.0105 * 100.0 * 100.0).Floor == 105; }
    assert Cents(0.0100 * 100.0) == 100 by { assert (0.0100 * 100.0 * 100.0).Floor == 100; }
    TrailChangeIsCoarse(o, o.qty, Levels(None, None, Some(0.0105)), Levels(None, None, Some(0.0100)));
  }

  /** A take-profit carries no token: on a silent venue only its quantity can be seen to change. */
  lemma LimitLevelNeedsAnEcho(o: Listing, qty: int, placed: Levels, wanted: Levels)
    requires Remembers(o.cid, Limit, placed) && Silent(o)
    ensures Changed(Limit, o, qty, wanted, true) <==> o.qty != qty
  {
  }

  /** What a venue says about an order it was sent: its levels exactly, or nothing. */
  ghost predicate Echoes(o: Listing, kind: Kind, v: Levels) {
    || Silent(o)
    || (o.stop == (if kind.Limit? then None else v.stop)
        && o.limit == (if kind.Limit? || kind.StopLimit? then v.price else None)
        && o.trailPct == Percent(v.trail))
  }

  predicate Specified(kind: Kind, v: Levels) {
    && (kind.Limit? ==> v.price.Some?)
    && (kind.Stop? ==> v.stop.Some?)
    && (kind.StopLimit? ==> v.stop.Some? && v.price.Some?)
    && (kind.TrailingStop? ==> v.trail.Some?)
  }

  lemma SameTrailStays(listed: Option<real>, trail: real)
    requires listed.Some? ==> listed.value == trail * 100.0
    ensures !TrailChanged(listed, CentsIfEncodable(Some(trail * 100.0)), Some(trail), true)
    ensures !TrailChanged(listed, None, Some(trail), true)
  {}

  lemma SameLegStays(listed: Option<real>, level: real)
    requires listed.Some? ==> listed.value == level
    ensures !LegChanged(listed, CentsIfEncodable(Some(level)), Some(level), true)
    ensures !LegChanged(listed, None, Some(level), true)
  {}

  /** An order placed for exactly what is still wanted is never found changed, sub-cent levels included,
      whether the venue echoes the levels exactly or not at all. */
  lemma UnchangedNeverChurns(kind: Kind, o: Listing, v: Levels)
    requires Remembers(o.cid, kind, v)
    requires !kind.Other? && Specified(kind, v) && Echoes(o, kind, v)
    ensures !Changed(kind, o, o.qty, v, true)
  {
    match kind
    case TrailingStop => SameTrailStays(o.trailPct, v.trail.value);
    case StopLimit => SameLegStays(o.stop, v.stop.value); SameLegStays(o.limit, v.price.value);
    case Limit => SameLegStays(o.limit, v.price.value);
    case Stop => SameLegStays(o.stop, v.stop.value);
  }

  /** Comparing a decoded level with the raw one would replace such an order on every pass. */
  lemma RawComparisonWouldChurn()
    ensures Apart(Some(Quantized(380.0045)), Some(380.0045), 0.004)
    ensures !Apart(Some(Quantized(380.0045)), Some(Quantized(380.0045)), 0.004)
  {
    assert (380.0045 * 100.0).Floor == 38000;
    assert Cents(380.0045) == 38000;
  }
}
