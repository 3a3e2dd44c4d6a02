/** The bytes of the ControlMaster protocol (controlmux.go) and of the pty requests (server.go):
    big-endian words, length-prefixed strings, frames. The layouts are those of RFC 4251 section 5,
    of RFC 4254 sections 6.2 and 6.7, and of OpenSSH's PROTOCOL.mux. */
module Wire {
  import opened Prelude

  type byte = x: int | 0 <= x < 0x100
  type uint32 = x: int | 0 <= x < 0x1_0000_0000

  /* ---------------- words, strings, booleans ---------------- */

  /** How many values k bytes can have. */
  function Bound(k: nat): (n: nat)
    ensures n > 0
  {
    if k == 0 then 1 else Bound(k - 1) * 0x100
  }

  /** The k low bytes of x, the most significant first. */
  function Digits(x: nat, k: nat): (b: seq<byte>)
    ensures |b| == k
  {
    if k == 0 then [] else Digits(x / 0x100, k - 1) + [x % 0x100]
  }

  function Value(b: seq<byte>): (x: nat)
    ensures x < Bound(|b|)
  {
    if b == [] then 0 else Value(b[..|b| - 1]) * 0x100 + b[|b| - 1]
  }

  lemma {:induction false} ValueOfDigits(x: nat, k: nat)
    requires x < Bound(k)
    ensures Value(Digits(x, k)) == x
  {
    if k > 0 {
      ValueOfDigits(x / 0x100, k - 1);
      var b := Digits(x, k);
      assert b[..k - 1] == Digits(x / 0x100, k - 1);
    }
  }

  lemma {:induction false} DigitsOfValue(b: seq<byte>)
    ensures Digits(Value(b), |b|) == b
  {
    if b != [] {
      DigitsOfValue(b[..|b| - 1]);
    }
  }

  /** The bytes of a word. */
  function WordSize(): (k: nat)
    ensures k == 4 && Bound(k) == 0x1_0000_0000
  {
    assert Bound(4) == 0x1_0000_0000;
    4
  }

  /** `binary.BigEndian.PutUint32`. */
  function PutUint32(x: uint32): (b: seq<byte>)
    ensures |b| == 4
  {
    Digits(x, WordSize())
  }

  /** `binary.BigEndian.Uint32`. */
  function Uint32(b: seq<byte>): uint32
    requires |b| >= 4
  {
    Value(b[..WordSize()])
  }

  lemma Uint32OfPut(x: uint32, rest: seq<byte>)
    ensures Uint32(PutUint32(x) + rest) == x && (PutUint32(x) + rest)[4..] == rest
  {
    ValueOfDigits(x, WordSize());
    assert (PutUint32(x) + rest)[..4] == PutUint32(x);
  }

  lemma PutOfUint32(b: seq<byte>)
    requires |b| >= 4
    ensures PutUint32(Uint32(b)) == b[..4]
  {
    DigitsOfValue(b[..4]);
  }

  lemma ValueOfFour(a: byte, b: byte, c: byte, d: byte)
    ensures Value([a, b, c, d]) == a * 0x100_0000 + b * 0x1_0000 + c * 0x100 + d
  {
    assert [a, b, c, d][..3] == [a, b, c] && [a, b, c][..2] == [a, b] && [a, b][..1] == [a] && [a][..0] == [];
    assert Value([a]) == a;
    assert Value([a, b]) == a * 0x100 + b;
    assert Value([a, b, c]) == a * 0x1_0000 + b * 0x100 + c;
  }

  /** Most significant byte first. */
  lemma BigEndianIff(x: uint32, a: byte, b: byte, c: byte, d: byte)
    ensures PutUint32(x) == [a, b, c, d] <==> x == a * 0x100_0000 + b * 0x1_0000 + c * 0x100 + d
  {
    ValueOfFour(a, b, c, d);
    ValueOfDigits(x, WordSize());
    DigitsOfValue([a, b, c, d]);
  }

  datatype Pulled<T> = Pulled(rest: seq<byte>, value: T)

  /** None stands for a slice out of range. */
  function PullUint32(stream: seq<byte>): Option<Pulled<uint32>> {
    if |stream| < 4 then None else Some(Pulled(stream[4..], Uint32(stream)))
  }

  function PullString(stream: seq<byte>): Option<Pulled<seq<byte>>> {
    match PullUint32(stream)
    case None => None
    case Some(p) =>
      if p.value == 0 then Some(Pulled(p.rest, []))
      else if p.value > |p.rest| then None
      else Some(Pulled(p.rest[p.value..], p.rest[..p.value]))
  }

  function PullBool(stream: seq<byte>): Option<Pulled<bool>> {
    if |stream| < 4 then None else Some(Pulled(stream[4..], Uint32(stream) != 0))
  }

  function PutString(s: seq<byte>): seq<byte>
    requires |s| < 0x1_0000_0000
  {
    PutUint32(|s|) + s
  }

  /** A word is pulled exactly from where it was put. */
  lemma PullUint32Iff(stream: seq<byte>, x: uint32, rest: seq<byte>)
    ensures PullUint32(stream) == Some(Pulled(rest, x)) <==> stream == PutUint32(x) + rest
  {
    if stream == PutUint32(x) + rest {
      Uint32OfPut(x, rest);
    }
    if PullUint32(stream) == Some(Pulled(rest, x)) {
      PutOfUint32(stream);
    }
  }

  lemma StringPulled(s: seq<byte>, rest: seq<byte>)
    requires |s| < 0x1_0000_0000
    ensures PullString(PutUint32(|s|) + (s + rest)) == Some(Pulled(rest, s))
  {
    PullUint32Iff(PutUint32(|s|) + (s + rest), |s|, s + rest);
    assert (s + rest)[..|s|] == s && (s + rest)[|s|..] == rest;
  }

  lemma StringRead(stream: seq<byte>)
    requires PullString(stream).Some?
    ensures var (rest, s) := (PullString(stream).value.rest, PullString(stream).value.value);
      |s| < 0x1_0000_0000 && stream == PutUint32(|s|) + (s + rest)
  {
    var p, q := PullUint32(stream).value, PullString(stream).value;
    PullUint32Iff(stream, p.value, p.rest);
    assert p.rest == q.value + q.rest;
  }

  lemma PullStringIff(stream: seq<byte>, s: seq<byte>, rest: seq<byte>)
    ensures PullString(stream) == Some(Pulled(rest, s)) <==>
      |s| < 0x1_0000_0000 && stream == PutUint32(|s|) + (s + rest)
  {
    if |s| < 0x1_0000_0000 && stream == PutUint32(|s|) + (s + rest) {
      StringPulled(s, rest);
    } else if PullString(stream).Some? {
      StringRead(stream);
    }
  }

  /** Any word but 0 reads as true. */
  lemma PullBoolIff(stream: seq<byte>, b: bool, rest: seq<byte>)
    ensures PullBool(stream) == Some(Pulled(rest, b)) <==>
      exists word: uint32 :: (word != 0) == b && stream == PutUint32(word) + rest
  {
    if word: uint32 :| (word != 0) == b && stream == PutUint32(word) + rest {
      PullUint32Iff(stream, word, rest);
    }
    if PullBool(stream) == Some(Pulled(rest, b)) {
      PullUint32Iff(stream, Uint32(stream), rest);
    }
  }

  /* ---------------- the new-session message ---------------- */

  datatype NewSession = NewSession(
    msgType: uint32, requestId: uint32, reserved: seq<byte>,
    wantTTY: bool, wantX11: bool, wantAgent: bool, subsystem: bool,
    escapeChar: uint32, terminalType: seq<byte>, command: seq<byte>)

  /** The words a client chose for the four booleans. */
  datatype Words = Words(tty: uint32, x11: uint32, agent: uint32, subsystem: uint32)

  predicate Means(f: Words, m: NewSession) {
    && (f.tty != 0) == m.wantTTY && (f.x11 != 0) == m.wantX11
    && (f.agent != 0) == m.wantAgent && (f.subsystem != 0) == m.subsystem
  }

  predicate Fits(m: NewSession) {
    |m.reserved| < 0x1_0000_0000 && |m.terminalType| < 0x1_0000_0000 && |m.command| < 0x1_0000_0000
  }

  /** The four words, and what follows them. */
  function PutFlags(f: Words, rest: seq<byte>): seq<byte> {
    PutUint32(f.tty) + (PutUint32(f.x11) + (PutUint32(f.agent) + (PutUint32(f.subsystem) + rest)))
  }

  /** The message as PROTOCOL.mux lays it out, followed by `tail`. */
  function Encode(m: NewSession, f: Words, tail: seq<byte>): seq<byte>
    requires Fits(m)
  {
    PutUint32(m.msgType) + (PutUint32(m.requestId) + (PutUint32(|m.reserved|) + (m.reserved + PutFlags(f, EncodeRest(m, tail)))))
  }

  function EncodeRest(m: NewSession, tail: seq<byte>): seq<byte>
    requires Fits(m)
  {
    PutUint32(m.escapeChar)
    + (PutUint32(|m.terminalType|) + (m.terminalType + (PutUint32(|m.command|) + (m.command + tail))))
  }

  lemma TailComesLast(m: NewSession, f: Words, tail: seq<byte>)
    requires Fits(m)
    ensures Encode(m, f, tail) == Encode(m, f, []) + tail
  {
    assert EncodeRest(m, tail) == EncodeRest(m, []) + tail;
    assert PutFlags(f, EncodeRest(m, tail)) == PutFlags(f, EncodeRest(m, [])) + tail;
  }

  /** Somebody's new-session message is at the front of the stream. */
  ghost predicate Carries(stream: seq<byte>, m: NewSession) {
    Fits(m) && exists f, tail :: Means(f, m) && stream == Encode(m, f, []) + tail
  }

  /** The bytes pulled off so far, and what they mean. */
  function Parsed(stream: seq<byte>): Option<(NewSession, seq<byte>)> {
    match PullUint32(stream) case None => None case Some(msgType) =>
    match PullUint32(msgType.rest) case None => None case Some(requestId) =>
    match PullString(requestId.rest) case None => None case Some(reserved) =>
    match ParsedFlags(reserved.rest) case None => None case Some((tty, x11, agent, subsystem, afterFlags)) =>
    match ParsedRest(afterFlags) case None => None case Some((escapeChar, term, command, tail)) =>
    Some((NewSession(msgType.value, requestId.value, reserved.value, tty, x11, agent, subsystem, escapeChar, term, command), tail))
  }

  function ParsedFlags(stream: seq<byte>): Option<(bool, bool, bool, bool, seq<byte>)> {
    match PullBool(stream) case None => None case Some(a) =>
    match PullBool(a.rest) case None => None case Some(b) =>
    match PullBool(b.rest) case None => None case Some(c) =>
    match PullBool(c.rest) case None => None case Some(d) =>
    Some((a.value, b.value, c.value, d.value, d.rest))
  }

  function ParsedRest(stream: seq<byte>): Option<(uint32, seq<byte>, seq<byte>, seq<byte>)> {
    match PullUint32(stream) case None => None case Some(escapeChar) =>
    match PullString(escapeChar.rest) case None => None case Some(term) =>
    match PullString(term.rest) case None => None case Some(command) =>
    Some((escapeChar.value, term.value, command.value, command.rest))
  }

  lemma FlagsParsed(f: Words, rest: seq<byte>)
    ensures ParsedFlags(PutFlags(f, rest)) == Some((f.tty != 0, f.x11 != 0, f.agent != 0, f.subsystem != 0, rest))
  {
    var s3 := PutUint32(f.subsystem) + rest;
    var s2 := PutUint32(f.agent) + s3;
    var s1 := PutUint32(f.x11) + s2;
    Uint32OfPut(f.tty, s1);
    Uint32OfPut(f.x11, s2);
    Uint32OfPut(f.agent, s3);
    Uint32OfPut(f.subsystem, rest);
  }

  lemma BoolAt(stream: seq<byte>)
    requires PullBool(stream).Some?
    ensures PullBool(stream) == Some(Pulled(stream[4..], stream[..4] != [0, 0, 0, 0]))
  {
    PutOfUint32(stream);
    BigEndianIff(Uint32(stream), 0, 0, 0, 0);
  }

  lemma FlagsAt(s: seq<byte>)
    requires ParsedFlags(s).Some?
    ensures |s| >= 16
    ensures ParsedFlags(s) == Some((s[..4] != [0, 0, 0, 0], s[4..8] != [0, 0, 0, 0],
                                    s[8..12] != [0, 0, 0, 0], s[12..16] != [0, 0, 0, 0], s[16..]))
  {
    BoolAt(s);
    BoolAt(s[4..]);
    BoolAt(s[4..][4..]);
    BoolAt(s[4..][4..][4..]);
    assert s[4..][4..] == s[8..] && s[8..][4..] == s[12..] && s[12..][4..] == s[16..];
    assert s[4..][..4] == s[4..8] && s[8..][..4] == s[8..12] && s[12..][..4] == s[12..16];
  }

  function FlagWords(stream: seq<byte>): Words
    requires |stream| >= 16
  {
    Words(Uint32(stream), Uint32(stream[4..]), Uint32(stream[8..]), Uint32(stream[12..]))
  }

  lemma WordInFront(stream: seq<byte>, rest: seq<byte>)
    requires |stream| >= 4 && rest == stream[4..]
    ensures PutUint32(Uint32(stream)) + rest == stream
  {
    PutOfUint32(stream);
  }

  lemma FlagsRead(stream: seq<byte>)
    requires |stream| >= 16
    ensures PutFlags(FlagWords(stream), stream[16..]) == stream
  {
    WordInFront(stream, stream[4..]);
    WordInFront(stream[4..], stream[8..]);
    WordInFront(stream[8..], stream[12..]);
    WordInFront(stream[12..], stream[16..]);
  }

  lemma FlagsMean(stream: seq<byte>)
    requires ParsedFlags(stream).Some?
    ensures |stream| >= 16
    ensures var f := FlagWords(stream);
      ParsedFlags(stream) == Some((f.tty != 0, f.x11 != 0, f.agent != 0, f.subsystem != 0, stream[16..]))
  {
    assert stream[4..][4..] == stream[8..] && stream[8..][4..] == stream[12..] && stream[12..][4..] == stream[16..];
  }

  lemma RestParsed(m: NewSession, tail: seq<byte>)
    requires Fits(m)
    ensures ParsedRest(EncodeRest(m, tail)) == Some((m.escapeChar, m.terminalType, m.command, tail))
  {
    var s2 := PutUint32(|m.command|) + (m.command + tail);
    var s1 := PutUint32(|m.terminalType|) + (m.terminalType + s2);
    PullUint32Iff(EncodeRest(m, tail), m.escapeChar, s1);
    PullStringIff(s1, m.terminalType, s2);
    PullStringIff(s2, m.command, tail);
  }

  lemma RestAt(s: seq<byte>)
    requires ParsedRest(s).Some?
    ensures var (escapeChar, term, command, tail) := ParsedRest(s).value;
      && |s| >= 4 && escapeChar == Uint32(s) && |term| < 0x1_0000_0000 && |command| < 0x1_0000_0000
      && s[4..] == PutUint32(|term|) + (term + (PutUint32(|command|) + (command + tail)))
  {
    StringRead(s[4..]);
    StringRead(PullString(s[4..]).value.rest);
  }

  /** The fields before the booleans. */
  lemma HeadParsed(msgType: uint32, requestId: uint32, reserved: seq<byte>, rest: seq<byte>)
    requires |reserved| < 0x1_0000_0000
    ensures var (s2, s1) := (PutUint32(|reserved|) + (reserved + rest), PutUint32(requestId) + (PutUint32(|reserved|) + (reserved + rest)));
      && PullUint32(PutUint32(msgType) + s1) == Some(Pulled(s1, msgType))
      && PullUint32(s1) == Some(Pulled(s2, requestId))
      && PullString(s2) == Some(Pulled(rest, reserved))
  {
    var s2 := PutUint32(|reserved|) + (reserved + rest);
    var s1 := PutUint32(requestId) + s2;
    PullUint32Iff(PutUint32(msgType) + s1, msgType, s1);
    PullUint32Iff(s1, requestId, s2);
    StringPulled(reserved, rest);
  }

  /** Putting the parts together. */
  lemma PartsParsed(stream: seq<byte>, m: NewSession, s1: seq<byte>, s2: seq<byte>, s3: seq<byte>, s4: seq<byte>, tail: seq<byte>)
    requires PullUint32(stream) == Some(Pulled(s1, m.msgType)) && PullUint32(s1) == Some(Pulled(s2, m.requestId))
    requires PullString(s2) == Some(Pulled(s3, m.reserved))
    requires ParsedFlags(s3) == Some((m.wantTTY, m.wantX11, m.wantAgent, m.subsystem, s4))
    requires ParsedRest(s4) == Some((m.escapeChar, m.terminalType, m.command, tail))
    ensures Parsed(stream) == Some((m, tail))
  {
  }

  /** The server reads a client's message back, whatever follows it and whatever non-zero words the
      client wrote for "true". */
  lemma ParsedOfEncoded(m: NewSession, f: Words, tail: seq<byte>)
    requires Fits(m) && Means(f, m)
    ensures Parsed(Encode(m, f, tail)) == Some((m, tail))
  {
    var s4 := EncodeRest(m, tail);
    var s3 := PutFlags(f, s4);
    var s2 := PutUint32(|m.reserved|) + (m.reserved + s3);
    var s1 := PutUint32(m.requestId) + s2;
    HeadParsed(m.msgType, m.requestId, m.reserved, s3);
    FlagsParsed(f, s4);
    RestParsed(m, tail);
    PartsParsed(Encode(m, f, tail), m, s1, s2, s3, s4, tail);
  }

  /** Whatever the server reads without slicing out of range is the encoding of the result, up to the
      words that stood for the booleans. */
  lemma EncodedOfParsed(stream: seq<byte>) returns (f: Words)
    requires Parsed(stream).Some?
    ensures var (m, tail) := Parsed(stream).value;
      Fits(m) && Means(f, m) && stream == Encode(m, f, tail)
  {
    var (m, tail) := Parsed(stream).value;
    var p := PullUint32(stream).value;
    var q := PullUint32(p.rest).value;
    var r := PullString(q.rest).value;
    PullUint32Iff(stream, p.value, p.rest);
    PullUint32Iff(p.rest, q.value, q.rest);
    PullStringIff(q.rest, r.value, r.rest);
    FlagsMean(r.rest);
    f := FlagWords(r.rest);
    FlagsRead(r.rest);
    RestAt(r.rest[16..]);
    WordInFront(r.rest[16..], r.rest[16..][4..]);
  }

  /** The booleans as 0 and 1. */
  function Normal(m: NewSession): Words {
    Words(if m.wantTTY then 1 else 0, if m.wantX11 then 1 else 0, if m.wantAgent then 1 else 0, if m.subsystem then 1 else 0)
  }

  /** A stream starts with just one message: the one that is parsed. */
  lemma ParsedIff(stream: seq<byte>, m: NewSession)
    ensures Carries(stream, m) <==> Parsed(stream).Some? && Parsed(stream).value.0 == m
  {
    if Carries(stream, m) {
      var f, tail :| Means(f, m) && stream == Encode(m, f, []) + tail;
      TailComesLast(m, f, tail);
      ParsedOfEncoded(m, f, tail);
    }
    if Parsed(stream).Some? && Parsed(stream).value.0 == m {
      var f := EncodedOfParsed(stream);
      TailComesLast(m, f, Parsed(stream).value.1);
    }
  }

  /** Reading what was read, re-encoded with booleans 0 and 1, gives the same message. */
  lemma NormalFormIsStable(stream: seq<byte>)
    requires Parsed(stream).Some?
    ensures var m := Parsed(stream).value.0; Fits(m) && Parsed(Encode(m, Normal(m), [])) == Some((m, []))
  {
    var f := EncodedOfParsed(stream);
    ParsedOfEncoded(Parsed(stream).value.0, Normal(Parsed(stream).value.0), []);
  }

  lemma HeadAt(stream: seq<byte>)
    requires |stream| >= 12 && PullString(stream[8..]).Some?
    ensures var r := PullString(stream[8..]).value;
      |r.value| == Uint32(stream[8..]) && |stream| >= 12 + |r.value|
      && r.value == stream[12..12 + |r.value|] && r.rest == stream[12 + |r.value|..]
  {
    assert stream[8..][4..] == stream[12..];
  }

  /** Where each field stands in the stream: the four booleans in the order tty, X11, agent, subsystem, in the words
      behind the reserved string, then the escape character and the two strings. */
  lemma FieldsAt(stream: seq<byte>)
    requires Parsed(stream).Some?
    ensures var (m, tail) := Parsed(stream).value; var at := 12 + |m.reserved|;
      && |stream| >= at + 20 && m.reserved == stream[12..at]
      && m.msgType == Uint32(stream) && m.requestId == Uint32(stream[4..]) && |m.reserved| == Uint32(stream[8..])
      && var s := stream[at..];
      && m.wantTTY == (s[..4] != [0, 0, 0, 0]) && m.wantX11 == (s[4..8] != [0, 0, 0, 0])
      && m.wantAgent == (s[8..12] != [0, 0, 0, 0]) && m.subsystem == (s[12..16] != [0, 0, 0, 0])
      && m.escapeChar == Uint32(s[16..]) && Fits(m)
      && s[16..][4..] == PutUint32(|m.terminalType|) + (m.terminalType + (PutUint32(|m.command|) + (m.command + tail)))
  {
    var m := Parsed(stream).value.0;
    assert stream[4..][4..] == stream[8..];
    HeadAt(stream);
    var s := stream[12 + |m.reserved|..];
    FlagsAt(s);
    RestAt(s[16..]);
  }

  /** `parseNewSession`: the cursor moves through the stream field by field; None is a panic. */
  method ParseNewSession(bytes: seq<byte>) returns (r: Option<NewSession>)
    ensures if r.Some? then Parsed(bytes).Some? && Parsed(bytes).value.0 == r.value else Parsed(bytes).None?
  {
    var msgType := PullUint32(bytes);
    if msgType.None? { return None; }
    var stream := msgType.value.rest;
    var requestId := PullUint32(stream);
    if requestId.None? { return None; }
    stream := requestId.value.rest;
    var reserved := PullString(stream);
    if reserved.None? { return None; }
    stream := reserved.value.rest;
    var flags := ParseFlags(stream);
    if flags.None? { return None; }
    var (wantTTY, wantX11, wantAgent, subsystem, afterFlags) := flags.value;
    stream := afterFlags;
    var escapeChar := PullUint32(stream);
    if escapeChar.None? { return None; }
    stream := escapeChar.value.rest;
    var terminalType := PullString(stream);
    if terminalType.None? { return None; }
    stream := terminalType.value.rest;
    var command := PullString(stream);
    if command.None? { return None; }
    r := Some(NewSession(msgType.value.value, requestId.value.value, reserved.value.value,
                         wantTTY, wantX11, wantAgent, subsystem,
                         escapeChar.value.value, terminalType.value.value, command.value.value));
  }

  /** The four booleans in the middle of it. */
  method ParseFlags(bytes: seq<byte>) returns (r: Option<(bool, bool, bool, bool, seq<byte>)>)
    ensures r == ParsedFlags(bytes)
  {
    var wantTTY := PullBool(bytes);
    if wantTTY.None? { return None; }
    var stream := wantTTY.value.rest;
    var wantX11 := PullBool(stream);
    if wantX11.None? { return None; }
    stream := wantX11.value.rest;
    var wantAgent := PullBool(stream);
    if wantAgent.None? { return None; }
    stream := wantAgent.value.rest;
    var subsystem := PullBool(stream);
    if subsystem.None? { return None; }
    stream := subsystem.value.rest;
    r := Some((wantTTY.value.value, wantX11.value.value, wantAgent.value.value, subsystem.value.value, stream));
  }

  /* ---------------- frames ---------------- */

  /** `uint32(n)`. */
  function Word(n: nat): uint32 { n % 0x1_0000_0000 }

  lemma SmallWord(n: nat)
    ensures Word(n) == n <==> n < 0x1_0000_0000
    ensures Word(n) <= n
  {
  }

  /** What one `sendMsg` writes: the length, cut to 32 bits, and the data. */
  function Frame(data: seq<byte>): seq<byte> { PutUint32(Word(|data|)) + data }

  /** What one `readMsg` makes of the bytes that arrive, when each read gets all it asks for: there are
      too few, the buffer is too small for a type word (a panic), or a message and the bytes after it. */
  datatype Reading = Short | Panic | Got(msgType: uint32, data: seq<byte>, rest: seq<byte>)

  function ReadMsg(arriving: seq<byte>): Reading {
    if |arriving| < 4 then Short
    else
      var moreBytes := Uint32(arriving);
      if |arriving| - 4 < moreBytes then Short
      else if moreBytes < 4 then Panic
      else
        var buf := arriving[4..4 + moreBytes];
        Got(Uint32(buf), buf, arriving[4 + moreBytes..])
  }

  /** A frame is at the front. */
  ghost predicate FrameArrived(arriving: seq<byte>) {
    exists data, rest :: |data| < 0x1_0000_0000 && arriving == Frame(data) + rest
  }

  lemma ArrivedIff(arriving: seq<byte>)
    ensures FrameArrived(arriving) <==> |arriving| >= 4 && |arriving| - 4 >= Uint32(arriving)
  {
    if data, rest :| |data| < 0x1_0000_0000 && arriving == Frame(data) + rest {
      SmallWord(|data|);
      assert arriving == PutUint32(|data|) + (data + rest);
      Uint32OfPut(|data|, data + rest);
    }
    if |arriving| >= 4 && |arriving| - 4 >= Uint32(arriving) {
      FrameInFront(arriving, Uint32(arriving));
    }
  }

  lemma FrameInFront(arriving: seq<byte>, n: uint32)
    requires |arriving| >= 4 + n && Uint32(arriving) == n
    ensures FrameArrived(arriving)
  {
    var data, rest := arriving[4..4 + n], arriving[4 + n..];
    SmallWord(n);
    PutOfUint32(arriving);
    assert arriving == Frame(data) + rest;
  }

  /** The reader goes without a message exactly if not even one whole frame has arrived, and panics exactly if one
      has, with fewer than four bytes. */
  lemma ShortIff(arriving: seq<byte>)
    ensures ReadMsg(arriving).Short? <==> !FrameArrived(arriving)
    ensures ReadMsg(arriving).Panic? <==> FrameArrived(arriving) && Uint32(arriving) < 4
  {
    ArrivedIff(arriving);
  }

  /** Reading a header and `n` more bytes, whatever the header's bytes are. */
  lemma ReadIs(header: seq<byte>, n: uint32, data: seq<byte>, rest: seq<byte>)
    requires |header| == 4 && Uint32(header + (data + rest)) == n == |data|
    ensures ReadMsg(header + (data + rest)) == if n < 4 then Panic else Got(Uint32(data), data, rest)
  {
    var all := header + (data + rest);
    assert all[4..4 + n] == data && all[4 + n..] == rest;
  }

  lemma ReadOfFrameIs(data: seq<byte>, rest: seq<byte>)
    ensures ReadMsg(Frame(data) + rest) ==
      var n := Word(|data|);
      if n < 4 then Panic else Got(Uint32(data[..n]), data[..n], data[n..] + rest)
  {
    var n := Word(|data|);
    SmallWord(|data|);
    assert Frame(data) + rest == PutUint32(n) + (data[..n] + (data[n..] + rest));
    Uint32OfPut(n, data[..n] + (data[n..] + rest));
    ReadIs(PutUint32(n), n, data[..n], data[n..] + rest);
  }

  /** A frame is read back as it was sent exactly if its message has room for a type word and its
      length fits the header. */
  lemma ReadOfFrameIff(data: seq<byte>, rest: seq<byte>)
    ensures |data| >= 4 ==> (ReadMsg(Frame(data) + rest) == Got(Uint32(data), data, rest) <==> |data| < 0x1_0000_0000)
    ensures |data| < 4 ==> ReadMsg(Frame(data) + rest) == Panic
  {
    ReadOfFrameIs(data, rest);
    SmallWord(|data|);
    if |data| < 0x1_0000_0000 {
      assert data[..|data|] == data && data[|data|..] + rest == rest;
    }
  }

  lemma ReadParts(arriving: seq<byte>)
    requires ReadMsg(arriving).Got?
    ensures var g := ReadMsg(arriving);
      4 <= |g.data| < 0x1_0000_0000 && |g.data| == Uint32(arriving) && g.msgType == Uint32(g.data)
      && arriving[..4] + g.data + g.rest == arriving
  {
    assert arriving[4..] == ReadMsg(arriving).data + ReadMsg(arriving).rest;
  }

  /** Whatever is read was framed. */
  lemma FrameOfRead(arriving: seq<byte>)
    requires ReadMsg(arriving).Got?
    ensures var g := ReadMsg(arriving);
      4 <= |g.data| < 0x1_0000_0000 && g.msgType == Uint32(g.data) && arriving == Frame(g.data) + g.rest
  {
    ReadParts(arriving);
    SmallWord(|ReadMsg(arriving).data|);
    PutOfUint32(arriving);
  }

  function Frames(messages: seq<seq<byte>>): seq<byte> {
    if messages == [] then [] else Frame(messages[0]) + Frames(messages[1..])
  }

  /** Repeated reads up to the first that does not yield a message. */
  function ReadAll(arriving: seq<byte>): (messages: seq<seq<byte>>)
    decreases |arriving|
  {
    var g := ReadMsg(arriving);
    if g.Got? then [g.data] + ReadAll(g.rest) else []
  }

  /** A list of messages sent frame by frame is read back as that list. */
  lemma {:induction false} ReadAllOfFrames(messages: seq<seq<byte>>)
    requires forall i :: 0 <= i < |messages| ==> 4 <= |messages[i]| < 0x1_0000_0000
    ensures ReadAll(Frames(messages)) == messages
  {
    if messages != [] {
      ReadOfFrameIff(messages[0], Frames(messages[1..]));
      ReadAllOfFrames(messages[1..]);
      assert messages == [messages[0]] + messages[1..];
    }
  }

  /* ---------------- terminal sizes ---------------- */

  /** `parseDims`: width, then height; None is a panic. */
  function ParseDims(b: seq<byte>): Option<(uint32, uint32)> {
    if |b| < 8 then None else Some((Uint32(b), Uint32(b[4..])))
  }

  /** The `pty-req` branch: only the last byte of TERM's length is used, and adding 4 to it wraps. */
  function PtyDims(payload: seq<byte>): Option<(uint32, uint32)> {
    if |payload| < 4 then None
    else
      var from := (payload[3] as int + 4) % 0x100;
      if from > |payload| then None else ParseDims(payload[from..])
  }

  /** Section 6.7 of RFC 4254; `rest` holds the sizes in pixels. */
  function WindowChange(width: uint32, height: uint32, rest: seq<byte>): seq<byte> {
    PutUint32(width) + (PutUint32(height) + rest)
  }

  /** Section 6.2 of RFC 4254; `rest` holds the sizes in pixels and the modes. */
  function PtyRequest(term: seq<byte>, width: uint32, height: uint32, rest: seq<byte>): seq<byte>
    requires |term| < 0x1_0000_0000
  {
    PutString(term) + WindowChange(width, height, rest)
  }

  lemma WindowChangeDims(width: uint32, height: uint32, rest: seq<byte>)
    ensures ParseDims(WindowChange(width, height, rest)) == Some((width, height))
  {
    Uint32OfPut(width, PutUint32(height) + rest);
    Uint32OfPut(height, rest);
  }

  lemma TermPart(term: seq<byte>, rest: seq<byte>)
    requires |term| < 0x1_0000_0000
    ensures (PutString(term) + rest)[3] == |term| % 0x100
    ensures (PutString(term) + rest)[4 + |term|..] == rest
  {
    assert (PutString(term) + rest)[3] == PutUint32(|term|)[3];
  }

  lemma ShortTermDims(term: seq<byte>, width: uint32, height: uint32, rest: seq<byte>)
    requires |term| <= 251
    ensures PtyDims(PtyRequest(term, width, height, rest)) == Some((width, height))
  {
    TermPart(term, WindowChange(width, height, rest));
    WindowChangeDims(width, height, rest);
  }

  /** With a longer TERM the dimensions are read from the length word or from TERM itself. */
  lemma LongTermIgnoresDims(term: seq<byte>, width: uint32, height: uint32, rest: seq<byte>)
    requires 251 < |term| < 0x1_0000_0000
    ensures PtyDims(PtyRequest(term, width, height, rest)) == PtyDims(PutString(term))
  {
    var payload, named := PtyRequest(term, width, height, rest), PutString(term);
    var from := (|term| % 0x100 + 4) % 0x100;
    TermPart(term, WindowChange(width, height, rest));
    TermPart(term, []);
    assert named + [] == named && from + 8 <= |named|;
    assert payload == named + WindowChange(width, height, rest);
    assert payload[from..][..4] == named[from..][..4];
    assert payload[from..][4..][..4] == named[from..][4..][..4];
  }

  /** The dimensions of a pty request are read as they were sent, whatever they are, exactly if TERM has
      at most 251 bytes. */
  lemma PtyDimsRightIff(term: seq<byte>, rest: seq<byte>)
    requires |term| < 0x1_0000_0000
    ensures |term| <= 251 <==>
      forall w: uint32, h: uint32 :: PtyDims(PtyRequest(term, w, h, rest)) == Some((w, h))
  {
    if |term| <= 251 {
      forall w: uint32, h: uint32 ensures PtyDims(PtyRequest(term, w, h, rest)) == Some((w, h)) {
        ShortTermDims(term, w, h, rest);
      }
    } else {
      LongTermIgnoresDims(term, 0, 0, rest);
      LongTermIgnoresDims(term, 1, 0, rest);
      assert PtyDims(PtyRequest(term, 0, 0, rest)) == PtyDims(PtyRequest(term, 1, 0, rest));
    }
  }
}
