/** The ControlMaster server (controlmux.go): connections, each looked after by one goroutine at a
    time, and one handler goroutine through which all their messages go. */
module Mux {
  import opened Prelude
  import opened Wire

  const HELLO: uint32 := 0x00000001
  const NEW_SESSION: uint32 := 0x10000002
  const ALIVE_CHECK: uint32 := 0x10000004
  const EXIT_MESSAGE: uint32 := 0x80000004
  const ALIVE: uint32 := 0x80000005
  const SESSION_OPENED: uint32 := 0x80000006

  /* ---------------- one message ---------------- */

  datatype Reply =
    | Hello(version: uint32)
    | Alive(requestId: uint32, pid: uint32)
    | Opened(requestId: uint32, sessionId: uint32)
    | Exit(sessionId: uint32, code: uint32)

  /** `binary.Write` of the reply's struct. */
  function Packed(r: Reply): seq<byte> {
    match r
    case Hello(version) => PutUint32(HELLO) + PutUint32(version)
    case Alive(id, pid) => PutUint32(ALIVE) + (PutUint32(id) + PutUint32(pid))
    case Opened(id, sid) => PutUint32(SESSION_OPENED) + (PutUint32(id) + PutUint32(sid))
    case Exit(sid, code) => PutUint32(EXIT_MESSAGE) + (PutUint32(sid) + PutUint32(code))
  }

  /** What the handler makes of a message: a hello or alive check with all its fields, or too short for
      them; a session request, or one that slices out of range; anything else. */
  datatype Message =
    | HelloMsg(version: uint32)
    | AliveMsg(requestId: uint32)
    | Truncated
    | SessionMsg(requestId: uint32)
    | OutOfRange
    | Unhandled

  function Decoded(data: seq<byte>): Message
    requires |data| >= 4
  {
    var msgType := Uint32(data);
    if msgType == HELLO then
      if |data| < 8 then Truncated else HelloMsg(Uint32(data[4..]))
    else if msgType == ALIVE_CHECK then
      if |data| < 8 then Truncated else AliveMsg(Uint32(data[4..]))
    else if msgType == NEW_SESSION then
      if Parsed(data).None? then OutOfRange else SessionMsg(Parsed(data).value.0.requestId)
    else Unhandled
  }

  /** What the handler does with a message up to the point where it has replied. */
  datatype Reaction = Panics | Closes | Ignores | Replies(reply: Reply)

  /** `sessionOK`: the SSH client gives a session. */
  function React(m: Message, counter: uint32, pid: uint32, sessionOK: bool): Reaction {
    match m
    case HelloMsg(version) => Replies(Hello(version))
    case AliveMsg(id) => Replies(Alive(id, pid))
    case Truncated => Closes
    case SessionMsg(id) => if sessionOK then Replies(Opened(id, counter)) else Closes
    case OutOfRange => Panics
    case Unhandled => Ignores
  }

  /** The reply answers this message: the right kind, with the message's own version or request id. */
  predicate Answers(r: Reply, m: Message) {
    match r
    case Hello(version) => m == HelloMsg(version)
    case Alive(id, _) => m == AliveMsg(id)
    case Opened(id, _) => m == SessionMsg(id)
    case Exit(_, _) => false
  }

  /* ---------------- all connections ---------------- */

  /** `handled`: the messages the handler has received from it; `sent`: the replies written to it. */
  datatype Conn = Conn(isOpen: bool, handled: seq<Message>, sent: seq<Reply>)

  /** A goroutine, and the connection it looks after: reading a message, blocked on handing it over,
      handling it, opening a session for it (with so many file descriptors asked for), waiting for
      the session to end. */
  datatype Holder =
    | Gone
    | Reading(c: nat)
    | Blocked(c: nat, data: seq<byte>)
    | Handling(c: nat, m: Message)
    | Opening(c: nat, sid: uint32, fds: nat)
    | Waiting(c: nat, sid: uint32)

  /** `sessions`: the connection of the n-th session opened. The handler is idle when it is `Gone`. */
  datatype System = System(
    conns: seq<Conn>, procs: seq<Holder>, handler: Holder, stopped: bool,
    counter: uint32, sessions: seq<nat>, crashed: bool)

  datatype Step =
    | Accept
    | Read(p: nat, data: seq<byte>)
    | ReadFails(p: nat)
    | Receive(p: nat)
    | Handle(sessionOK: bool, pid: uint32)
    | GetFd(ok: bool)
    | Launch(ok: bool)
    | End(p: nat, code: uint32)
    | Kill

  predicate Enabled(s: System, step: Step) {
    !s.crashed && match step
      case Accept => !s.stopped
      case Read(p, data) => p < |s.procs| && s.procs[p].Reading? && s.procs[p].c < |s.conns| && |data| < 0x1_0000_0000
      case ReadFails(p) => p < |s.procs| && s.procs[p].Reading?
      case Receive(p) => p < |s.procs| && s.procs[p].Blocked? && s.procs[p].c < |s.conns| && |s.procs[p].data| >= 4
                         && s.handler.Gone? && !s.stopped
      case Handle(_, _) => s.handler.Handling? && s.handler.c < |s.conns|
      case GetFd(_) => s.handler.Opening? && s.handler.fds < 3 && s.handler.c < |s.conns|
      case Launch(_) => s.handler.Opening? && s.handler.fds == 3 && s.handler.c < |s.conns|
      case End(p, _) => p < |s.procs| && s.procs[p].Waiting? && s.procs[p].c < |s.conns|
      case Kill => s.handler.Gone? && !s.stopped
  }

  /** Writes to a closed connection fail and are only logged. */
  function Send(k: Conn, r: Reply): Conn { if k.isOpen then k.(sent := k.sent + [r]) else k }

  function Put(s: System, c: nat, k: Conn): System
    requires c < |s.conns|
  {
    s.(conns := s.conns[c := k])
  }

  /** The handler has dealt with its message in one of four ways. */
  function Reacted(s: System, reaction: Reaction): System
    requires !s.handler.Gone? && s.handler.c < |s.conns|
  {
    var c, k := s.handler.c, s.conns[s.handler.c];
    match reaction
    case Panics => s.(crashed := true)
    case Closes => Put(s, c, k.(isOpen := false)).(handler := Gone)
    case Ignores => s.(handler := Gone)
    case Replies(r) =>
      if r.Opened?
      then Put(s, c, Send(k, r)).(
             handler := Opening(c, r.sessionId, 0), counter := Word(s.counter + 1), sessions := s.sessions + [c])
      else Put(s, c, Send(k, r)).(handler := Gone, procs := s.procs + [Reading(c)])
  }

  function Next(s: System, step: Step): System
    requires Enabled(s, step)
  {
    match step
    case Accept =>
      s.(conns := s.conns + [Conn(true, [], [])], procs := s.procs + [Reading(|s.conns|)])
    case Read(p, data) =>
      if |data| < 4 then s.(crashed := true) else s.(procs := s.procs[p := Blocked(s.procs[p].c, data)])
    case ReadFails(p) => s.(procs := s.procs[p := Gone])
    case Receive(p) =>
      var c, m := s.procs[p].c, Decoded(s.procs[p].data);
      Put(s, c, s.conns[c].(handled := s.conns[c].handled + [m])).(procs := s.procs[p := Gone], handler := Handling(c, m))
    case Handle(sessionOK, pid) =>
      Reacted(s, React(s.handler.m, s.counter, pid, sessionOK))
    case GetFd(ok) =>
      var c, k := s.handler.c, s.conns[s.handler.c];
      Put(s, c, k.(isOpen := k.isOpen && ok)).(handler := s.handler.(fds := s.handler.fds + 1))
    case Launch(ok) =>
      var c, k := s.handler.c, s.conns[s.handler.c];
      if ok then s.(handler := Gone, procs := s.procs + [Waiting(c, s.handler.sid)])
      else Put(s, c, k.(isOpen := false)).(handler := Gone)
    case End(p, code) =>
      var c, k := s.procs[p].c, s.conns[s.procs[p].c];
      Put(s, c, Send(k, Exit(s.procs[p].sid, code)).(isOpen := false)).(procs := s.procs[p := Gone])
    case Kill => s.(stopped := true)
  }

  const START := System([], [], Gone, false, 0, [], false)

  ghost predicate Legal(steps: seq<Step>)
    decreases |steps|, 0
  {
    steps == [] || (Legal(steps[..|steps| - 1]) && Enabled(After(steps[..|steps| - 1]), steps[|steps| - 1]))
  }

  ghost function After(steps: seq<Step>): System
    requires Legal(steps)
    decreases |steps|, 1
  {
    if steps == [] then START else Next(After(steps[..|steps| - 1]), steps[|steps| - 1])
  }

  /* ---------------- what holds of one connection ---------------- */

  predicate Chat(r: Reply) { r.Hello? || r.Alive? }

  /** The replies but for the exit message at the end. */
  function Answering(sent: seq<Reply>): seq<Reply> {
    if sent != [] && sent[|sent| - 1].Exit? then sent[..|sent| - 1] else sent
  }

  function Last(sent: seq<Reply>): Reply
    requires sent != []
  {
    sent[|sent| - 1]
  }

  /** The replies answer the messages handled, in order; all but the last are hellos and alives. */
  ghost predicate Replied(handled: seq<Message>, replies: seq<Reply>) {
    && |replies| <= |handled|
    && (forall i :: 0 <= i < |replies| ==> Answers(replies[i], handled[i]))
    && (forall i :: 0 <= i < |replies| - 1 ==> Chat(replies[i]))
  }

  /** What a connection has been through: at most the last message handled is unanswered, and that only
      if no session has been opened; an exit message is about the session opened last. */
  ghost predicate Lawful(k: Conn) {
    var replies := Answering(k.sent);
    && Replied(k.handled, replies)
    && |k.handled| <= |replies| + 1
    && (replies != [] && Last(replies).Opened? ==> |k.handled| == |replies|)
    && (k.sent != replies ==>
          replies != [] && Last(replies).Opened? && Last(replies).sessionId == Last(k.sent).sessionId)
  }

  /** Messages have been answered by hellos and alives so far. */
  ghost predicate Chatting(k: Conn) {
    k.isOpen && |k.sent| == |k.handled| && Replied(k.handled, k.sent) && forall i :: 0 <= i < |k.sent| ==> Chat(k.sent[i])
  }

  /** A session has been opened for the last message, and not ended. */
  ghost predicate InSession(k: Conn, sid: uint32) {
    && k.sent != [] && |k.sent| == |k.handled| && Replied(k.handled, k.sent)
    && Last(k.sent).Opened? && Last(k.sent).sessionId == sid
  }

  /** What the holder relies on. */
  ghost predicate Stage(h: Holder, k: Conn) {
    match h
    case Gone => true
    case Reading(_) => Chatting(k)
    case Blocked(_, data) => Chatting(k) && |data| >= 4
    case Handling(_, m) =>
      && k.handled != [] && k.handled[|k.handled| - 1] == m
      && Chatting(k.(handled := k.handled[..|k.handled| - 1]))
    case Opening(_, sid, fds) => InSession(k, sid) && fds <= 3
    case Waiting(_, sid) => InSession(k, sid)
  }

  lemma StageIsLawful(h: Holder, k: Conn)
    requires !h.Gone? && Stage(h, k)
    ensures Lawful(k)
  {
    if k.sent != [] {
      var i := |k.sent| - 1;
      assert h.Handling? ==> Answers(k.sent[i], k.handled[..|k.handled| - 1][i]);
      assert Answers(k.sent[i], k.handled[i]);
    }
  }

  /* ---------------- what holds of the whole ---------------- */

  /** No two goroutines look after the same connection. */
  ghost predicate Single(procs: seq<Holder>, handler: Holder) {
    && (forall p, q :: 0 <= p < q < |procs| && !procs[p].Gone? && !procs[q].Gone? ==> procs[p].c != procs[q].c)
    && (forall p :: 0 <= p < |procs| && !handler.Gone? && !procs[p].Gone? ==> procs[p].c != handler.c)
  }

  predicate ProcKind(h: Holder) { !h.Handling? && !h.Opening? }

  predicate HandlerKind(h: Holder) { h.Gone? || h.Handling? || h.Opening? }

  ghost predicate Holds(stage: (Holder, Conn) -> bool, conns: seq<Conn>, h: Holder) {
    !h.Gone? ==> h.c < |conns| && stage(h, conns[h.c])
  }

  ghost predicate Held(stage: (Holder, Conn) -> bool, conns: seq<Conn>, procs: seq<Holder>, handler: Holder) {
    && Single(procs, handler)
    && (forall p :: 0 <= p < |procs| ==> ProcKind(procs[p]) && Holds(stage, conns, procs[p]))
    && HandlerKind(handler) && Holds(stage, conns, handler)
  }

  ghost const STAGE := (h: Holder, k: Conn) => Stage(h, k)

  /** Every connection is looked after by at most one goroutine, and is at the stage that one relies on. */
  ghost predicate Owned(s: System) { Held(STAGE, s.conns, s.procs, s.handler) }

  /** The session opened on a connection. */
  function SessionOf(k: Conn): Option<uint32> {
    var replies := Answering(k.sent);
    if replies != [] && Last(replies).Opened? then Some(Last(replies).sessionId) else None
  }

  /** Sessions are numbered in the order in which they were opened, and no connection has two. */
  ghost predicate NumberedBy(f: Conn -> Option<uint32>, conns: seq<Conn>, sessions: seq<nat>) {
    && NoDup(sessions)
    && (forall n :: 0 <= n < |sessions| ==> sessions[n] < |conns| && f(conns[sessions[n]]) == Some(Word(n)))
    && (forall c :: 0 <= c < |conns| && f(conns[c]).Some? ==> c in sessions)
  }

  ghost const SESSION := (k: Conn) => SessionOf(k)

  ghost predicate Numbered(s: System) {
    s.counter == Word(|s.sessions|) && NumberedBy(SESSION, s.conns, s.sessions)
  }

  ghost predicate Inv(s: System) {
    Owned(s) && Numbered(s) && forall c :: 0 <= c < |s.conns| ==> Lawful(s.conns[c])
  }

  /* ---------------- ownership moves along ---------------- */

  /** A goroutine goes on with its connection, or leaves it. */
  lemma ProcMoves(f: (Holder, Conn) -> bool, conns: seq<Conn>, procs: seq<Holder>, handler: Holder, p: nat, h: Holder, k: Conn)
    requires Held(f, conns, procs, handler) && p < |procs| && !procs[p].Gone?
    requires ProcKind(h) && (h.Gone? || (h.c == procs[p].c && f(h, k)))
    ensures procs[p].c < |conns| && Held(f, conns[procs[p].c := k], procs[p := h], handler)
  {
    assert Holds(f, conns, procs[p]) && Holds(f, conns, handler);
    var after := procs[p := h];
    forall q | 0 <= q < |after| ensures Holds(f, conns[procs[p].c := k], after[q]) {
      assert Holds(f, conns, procs[q]);
    }
  }

  /** A goroutine hands its connection over to the idle handler. */
  lemma ProcHandsOver(f: (Holder, Conn) -> bool, conns: seq<Conn>, procs: seq<Holder>, p: nat, h: Holder, k: Conn)
    requires Held(f, conns, procs, Gone) && p < |procs| && !procs[p].Gone?
    requires (h.Handling? || h.Opening?) && h.c == procs[p].c && f(h, k)
    ensures procs[p].c < |conns| && Held(f, conns[procs[p].c := k], procs[p := Gone], h)
  {
    ProcMoves(f, conns, procs, Gone, p, Gone, k);
  }

  /** The handler goes on with its connection, or leaves it. */
  lemma HandlerMoves(f: (Holder, Conn) -> bool, conns: seq<Conn>, procs: seq<Holder>, handler: Holder, h: Holder, k: Conn)
    requires Held(f, conns, procs, handler) && !handler.Gone?
    requires HandlerKind(h) && (h.Gone? || (h.c == handler.c && f(h, k)))
    ensures handler.c < |conns| && Held(f, conns[handler.c := k], procs, h)
  {
    assert Holds(f, conns, handler);
    forall q | 0 <= q < |procs| ensures Holds(f, conns[handler.c := k], procs[q]) {
      assert Holds(f, conns, procs[q]);
    }
  }

  /** The handler leaves its connection to a new goroutine. */
  lemma HandlerSpawns(f: (Holder, Conn) -> bool, conns: seq<Conn>, procs: seq<Holder>, handler: Holder, h: Holder, k: Conn)
    requires Held(f, conns, procs, handler) && !handler.Gone?
    requires ProcKind(h) && !h.Gone? && h.c == handler.c && f(h, k)
    ensures handler.c < |conns| && Held(f, conns[handler.c := k], procs + [h], Gone)
  {
    HandlerMoves(f, conns, procs, handler, Gone, k);
    forall q | 0 <= q < |procs + [h]| ensures ProcKind((procs + [h])[q]) && Holds(f, conns[handler.c := k], (procs + [h])[q]) {
      assert q < |procs| ==> Holds(f, conns[handler.c := k], procs[q]);
    }
  }

  lemma Accepted(f: (Holder, Conn) -> bool, conns: seq<Conn>, procs: seq<Holder>, handler: Holder, k: Conn)
    requires Held(f, conns, procs, handler) && f(Reading(|conns|), k)
    ensures Held(f, conns + [k], procs + [Reading(|conns|)], handler)
  {
    var all := procs + [Reading(|conns|)];
    assert Holds(f, conns, handler);
    forall q | 0 <= q < |all| ensures ProcKind(all[q]) && Holds(f, conns + [k], all[q]) {
      assert q < |procs| ==> Holds(f, conns, procs[q]);
    }
    forall p | 0 <= p < |procs| && !procs[p].Gone? ensures procs[p].c < |conns| {
      assert Holds(f, conns, procs[p]);
    }
  }

  lemma AcceptKeeps(s: System)
    requires Inv(s) && Enabled(s, Accept)
    ensures Inv(Next(s, Accept))
  {
    var t := Next(s, Accept);
    Accepted(STAGE, s.conns, s.procs, s.handler, Conn(true, [], []));
    assert Numbered(t) by { assert Numbered(s); }
  }

  /* ---------------- every step keeps the invariant ---------------- */

  /** One connection has changed, but not its session. */
  lemma ConnChanges(s: System, t: System, c: nat, k: Conn)
    requires Inv(s) && Owned(t) && c < |s.conns| && t.conns == s.conns[c := k]
    requires Lawful(k) && SessionOf(k) == SessionOf(s.conns[c])
    requires t.counter == s.counter && t.sessions == s.sessions
    ensures Inv(t)
  {
  }

  /** A session has been opened on a connection that had none. */
  lemma SessionAdded(s: System, t: System, c: nat, k: Conn)
    requires Inv(s) && Owned(t) && c < |s.conns| && t.conns == s.conns[c := k]
    requires Lawful(k) && SessionOf(k) == Some(s.counter) && SessionOf(s.conns[c]).None?
    requires t.counter == Word(|t.sessions|) && t.sessions == s.sessions + [c]
    ensures Inv(t)
  {
    OneMoreNumber(SESSION, s.conns, s.sessions, c, k);
  }

  lemma OneMoreNumber(f: Conn -> Option<uint32>, conns: seq<Conn>, sessions: seq<nat>, c: nat, k: Conn)
    requires NumberedBy(f, conns, sessions) && c < |conns| && f(conns[c]).None? && f(k) == Some(Word(|sessions|))
    ensures NumberedBy(f, conns[c := k], sessions + [c])
  {
    var more := sessions + [c];
    assert forall n :: 0 <= n < |sessions| ==> sessions[n] in sessions && sessions[n] != c;
    assert more[|sessions|] == c;
    assert forall d :: d in sessions ==> d in more;
  }

  lemma NextWord(n: nat)
    ensures Word(Word(n) + 1) == Word(n + 1)
  {
  }

  lemma TakenIsStaged(k: Conn, c: nat, m: Message)
    requires Chatting(k)
    ensures var k' := k.(handled := k.handled + [m]);
      Stage(Handling(c, m), k') && SessionOf(k') == SessionOf(k)
  {
    assert (k.handled + [m])[..|k.handled|] == k.handled;
    assert k.(handled := k.handled) == k;
  }

  lemma ReceiveKeeps(s: System, p: nat)
    requires Inv(s) && Enabled(s, Receive(p))
    ensures Inv(Next(s, Receive(p)))
  {
    var t, c, m := Next(s, Receive(p)), s.procs[p].c, Decoded(s.procs[p].data);
    assert Holds(STAGE, s.conns, s.procs[p]);
    var k := s.conns[c].(handled := s.conns[c].handled + [m]);
    TakenIsStaged(s.conns[c], c, m);
    ProcHandsOver(STAGE, s.conns, s.procs, p, Handling(c, m), k);
    StageIsLawful(Handling(c, m), k);
    ConnChanges(s, t, c, k);
  }

  lemma ReadKeeps(s: System, p: nat, data: seq<byte>)
    requires Inv(s) && Enabled(s, Read(p, data)) && |data| >= 4
    ensures Inv(Next(s, Read(p, data)))
  {
    var t, c := Next(s, Read(p, data)), s.procs[p].c;
    assert Holds(STAGE, s.conns, s.procs[p]);
    ProcMoves(STAGE, s.conns, s.procs, s.handler, p, Blocked(c, data), s.conns[c]);
    ConnChanges(s, t, c, s.conns[c]);
  }

  lemma ReadFailsKeeps(s: System, p: nat)
    requires Inv(s) && Enabled(s, ReadFails(p))
    ensures Inv(Next(s, ReadFails(p)))
  {
    var t, c := Next(s, ReadFails(p)), s.procs[p].c;
    assert Holds(STAGE, s.conns, s.procs[p]);
    ProcMoves(STAGE, s.conns, s.procs, s.handler, p, Gone, s.conns[c]);
    ConnChanges(s, t, c, s.conns[c]);
  }

  lemma EndKeeps(s: System, p: nat, code: uint32)
    requires Inv(s) && Enabled(s, End(p, code))
    ensures Inv(Next(s, End(p, code)))
  {
    var t, c := Next(s, End(p, code)), s.procs[p].c;
    assert Holds(STAGE, s.conns, s.procs[p]);
    var k := s.conns[c];
    var k' := Send(k, Exit(s.procs[p].sid, code)).(isOpen := false);
    StageIsLawful(s.procs[p], k);
    assert k.isOpen ==> Answering(k'.sent) == k.sent;
    ProcMoves(STAGE, s.conns, s.procs, s.handler, p, Gone, k');
    ConnChanges(s, t, c, k');
  }

  /** A reply to the message being handled. */
  lemma ReplyIsLawful(m: Message, k: Conn, c: nat, r: Reply)
    requires Stage(Handling(c, m), k) && Answers(r, m)
    ensures var k' := Send(k, r);
      && Lawful(k') && SessionOf(k).None?
      && (Chat(r) ==> Chatting(k') && SessionOf(k').None?)
      && (r.Opened? ==> InSession(k', r.sessionId) && SessionOf(k') == Some(r.sessionId))
  {
    var k', front := Send(k, r), k.handled[..|k.handled| - 1];
    OneMoreReply(front, k.handled, k.sent, r);
    assert k.sent != [] ==> Chat(Last(k.sent));
    assert Answering(k'.sent) == k'.sent && Last(k'.sent) == r;
  }

  lemma OneMoreReply(front: seq<Message>, handled: seq<Message>, sent: seq<Reply>, r: Reply)
    requires handled != [] && front == handled[..|handled| - 1] && |sent| == |front|
    requires Replied(front, sent) && (forall i :: 0 <= i < |sent| ==> Chat(sent[i])) && Answers(r, handled[|handled| - 1])
    ensures Replied(handled, sent + [r])
  {
    forall i | 0 <= i < |sent + [r]| ensures Answers((sent + [r])[i], handled[i]) {
      assert i < |sent| ==> Answers(sent[i], front[i]);
    }
  }

  lemma SilentKeeps(s: System, reaction: Reaction)
    requires Inv(s) && s.handler.Handling? && s.handler.c < |s.conns| && (reaction.Closes? || reaction.Ignores?)
    ensures Inv(Reacted(s, reaction))
  {
    var t, c, k := Reacted(s, reaction), s.handler.c, s.conns[s.handler.c];
    assert Holds(STAGE, s.conns, s.handler);
    StageIsLawful(s.handler, k);
    var k' := if reaction.Closes? then k.(isOpen := false) else k;
    HandlerMoves(STAGE, s.conns, s.procs, s.handler, Gone, k');
    ConnChanges(s, t, c, k');
  }

  lemma ChatKeeps(s: System, t: System, k: Conn)
    requires Inv(s) && s.handler.Handling? && s.handler.c < |s.conns|
    requires t.conns == s.conns[s.handler.c := k] && t.procs == s.procs + [Reading(s.handler.c)] && t.handler == Gone
    requires t.counter == s.counter && t.sessions == s.sessions
    requires Chatting(k) && Lawful(k) && SessionOf(k) == SessionOf(s.conns[s.handler.c])
    ensures Inv(t)
  {
    HandlerSpawns(STAGE, s.conns, s.procs, s.handler, Reading(s.handler.c), k);
    ConnChanges(s, t, s.handler.c, k);
  }

  lemma OpenKeeps(s: System, t: System, k: Conn)
    requires Inv(s) && s.handler.Handling? && s.handler.c < |s.conns|
    requires t.conns == s.conns[s.handler.c := k] && t.procs == s.procs && t.handler == Opening(s.handler.c, s.counter, 0)
    requires t.counter == Word(|t.sessions|) && t.sessions == s.sessions + [s.handler.c]
    requires InSession(k, s.counter) && Lawful(k)
    requires SessionOf(k) == Some(s.counter) && SessionOf(s.conns[s.handler.c]).None?
    ensures Inv(t)
  {
    HandlerMoves(STAGE, s.conns, s.procs, s.handler, t.handler, k);
    SessionAdded(s, t, s.handler.c, k);
  }

  lemma ReplyKeeps(s: System, r: Reply)
    requires Inv(s) && s.handler.Handling? && s.handler.c < |s.conns| && Answers(r, s.handler.m)
    requires Chat(r) || (r.Opened? && r.sessionId == s.counter)
    ensures Inv(Reacted(s, Replies(r)))
  {
    var t, c := Reacted(s, Replies(r)), s.handler.c;
    var k := Send(s.conns[c], r);
    assert Holds(STAGE, s.conns, s.handler);
    ReplyIsLawful(s.handler.m, s.conns[c], c, r);
    if r.Opened? {
      NextWord(|s.sessions|);
      OpenKeeps(s, t, k);
    } else {
      ChatKeeps(s, t, k);
    }
  }

  lemma HandleKeeps(s: System, sessionOK: bool, pid: uint32)
    requires Inv(s) && Enabled(s, Handle(sessionOK, pid))
    ensures Inv(Next(s, Handle(sessionOK, pid)))
  {
    var reaction := React(s.handler.m, s.counter, pid, sessionOK);
    match reaction {
      case Panics => OnlyFlags(s, Reacted(s, reaction));
      case Replies(r) => ReplyKeeps(s, r);
      case _ => SilentKeeps(s, reaction);
    }
  }

  lemma GetFdKeeps(s: System, ok: bool)
    requires Inv(s) && Enabled(s, GetFd(ok))
    ensures Inv(Next(s, GetFd(ok)))
  {
    var t, c, h := Next(s, GetFd(ok)), s.handler.c, s.handler;
    var k := s.conns[c].(isOpen := s.conns[c].isOpen && ok);
    assert Holds(STAGE, s.conns, h);
    StageIsLawful(h, s.conns[c]);
    HandlerMoves(STAGE, s.conns, s.procs, s.handler, h.(fds := h.fds + 1), k);
    ConnChanges(s, t, c, k);
  }

  lemma LaunchKeeps(s: System, ok: bool)
    requires Inv(s) && Enabled(s, Launch(ok))
    ensures Inv(Next(s, Launch(ok)))
  {
    var t, c, h := Next(s, Launch(ok)), s.handler.c, s.handler;
    var k := s.conns[c];
    assert Holds(STAGE, s.conns, h);
    StageIsLawful(h, k);
    if ok {
      HandlerSpawns(STAGE, s.conns, s.procs, s.handler, Waiting(c, h.sid), k);
      ConnChanges(s, t, c, k);
    } else {
      HandlerMoves(STAGE, s.conns, s.procs, s.handler, Gone, k.(isOpen := false));
      ConnChanges(s, t, c, k.(isOpen := false));
    }
  }

  lemma StepKeeps(s: System, step: Step)
    requires Inv(s) && Enabled(s, step)
    ensures Inv(Next(s, step))
  {
    match step
    case Accept => AcceptKeeps(s);
    case Read(p, data) => if |data| >= 4 { ReadKeeps(s, p, data); } else { OnlyFlags(s, Next(s, step)); }
    case ReadFails(p) => ReadFailsKeeps(s, p);
    case Receive(p) => ReceiveKeeps(s, p);
    case Handle(sessionOK, pid) => HandleKeeps(s, sessionOK, pid);
    case GetFd(ok) => GetFdKeeps(s, ok);
    case Launch(ok) => LaunchKeeps(s, ok);
    case End(p, code) => EndKeeps(s, p, code);
    case Kill => OnlyFlags(s, Next(s, step));
  }

  lemma OnlyFlags(s: System, t: System)
    requires Inv(s) && t == s.(stopped := t.stopped, crashed := t.crashed)
    ensures Inv(t)
  {
  }

  lemma {:induction false} RunsKeepInv(steps: seq<Step>)
    requires Legal(steps)
    ensures Inv(After(steps))
  {
    if steps != [] {
      var n := |steps| - 1;
      RunsKeepInv(steps[..n]);
      StepKeeps(After(steps[..n]), steps[n]);
    }
  }

  /* ---------------- what every run satisfies ---------------- */

  predicate Cares(h: Holder, c: nat) { !h.Gone? && h.c == c }

  /** A connection never has two of: a goroutine reading from it, a message of its own waiting to be
      handled, the handler, a session waiter. */
  lemma OneOwner(steps: seq<Step>, p: nat, q: nat, c: nat)
    requires Legal(steps) && p < |After(steps).procs| && q < |After(steps).procs|
    requires Cares(After(steps).procs[p], c)
    ensures Cares(After(steps).procs[q], c) ==> p == q
    ensures !Cares(After(steps).handler, c)
  {
    RunsKeepInv(steps);
  }

  /** A session request is the last message of its connection to be handled, and none is read after it. */
  lemma NothingAfterSession(steps: seq<Step>, c: nat, i: nat)
    requires Legal(steps) && c < |After(steps).conns| && i < |After(steps).conns[c].handled|
    requires After(steps).conns[c].handled[i].SessionMsg?
    ensures i == |After(steps).conns[c].handled| - 1
    ensures forall p :: 0 <= p < |After(steps).procs| && Cares(After(steps).procs[p], c) ==> After(steps).procs[p].Waiting?
  {
    RunsKeepInv(steps);
    var s := After(steps);
    var k := s.conns[c];
    assert Lawful(k);
    SessionIsLast(k, i);
    if Chatting(k) {
      ChatterAsksNoSession(k, i);
    }
    forall p | 0 <= p < |s.procs| && Cares(s.procs[p], c) ensures s.procs[p].Waiting? {
      assert Holds(STAGE, s.conns, s.procs[p]);
    }
  }

  lemma ChatterAsksNoSession(k: Conn, i: nat)
    requires i < |k.handled| && Chatting(k)
    ensures !k.handled[i].SessionMsg?
  {
    assert Answers(k.sent[i], k.handled[i]);
  }

  lemma SessionIsLast(k: Conn, i: nat)
    requires Lawful(k) && i < |k.handled| && k.handled[i].SessionMsg?
    ensures i == |k.handled| - 1
  {
    var replies := Answering(k.sent);
    if i < |replies| {
      assert Answers(replies[i], k.handled[i]);
      assert replies[i].Opened?;
    }
  }

  /** (Hello | Alive)* (Opened Exit?)?, the exit being that of the session opened. */
  ghost predicate InGrammar(sent: seq<Reply>) {
    exists n: nat :: n <= |sent| && (forall i :: 0 <= i < n ==> Chat(sent[i])) && SessionPart(sent[n..])
  }

  predicate SessionPart(sent: seq<Reply>) {
    || sent == []
    || (sent[0].Opened? && (|sent| == 1 || (|sent| == 2 && sent[1].Exit? && sent[1].sessionId == sent[0].sessionId)))
  }

  lemma LawfulIsInGrammar(k: Conn)
    requires Lawful(k)
    ensures InGrammar(k.sent)
  {
    var replies := Answering(k.sent);
    if replies == [] || Chat(Last(replies)) {
      assert k.sent == replies && k.sent[|k.sent|..] == [];
    } else {
      var n := |replies| - 1;
      assert Answers(replies[n], k.handled[n]);
      assert k.sent[n..] == if k.sent == replies then [Last(replies)] else [Last(replies), Last(k.sent)];
      assert SessionPart(k.sent[n..]);
    }
  }

  lemma LawfulAnswers(k: Conn, i: nat)
    requires Lawful(k) && i < |k.sent| && !k.sent[i].Exit?
    ensures i < |k.handled| && Answers(k.sent[i], k.handled[i])
  {
    assert Answering(k.sent)[i] == k.sent[i];
  }

  /** In every reachable state, what has been written to a connection obeys the grammar; its i-th reply
      answers the i-th message handled, echoing its version or request id. */
  lemma RepliesAnswer(steps: seq<Step>, c: nat)
    requires Legal(steps) && c < |After(steps).conns|
    ensures InGrammar(After(steps).conns[c].sent)
    ensures var k := After(steps).conns[c];
      forall i :: 0 <= i < |k.sent| && !k.sent[i].Exit? ==> i < |k.handled| && Answers(k.sent[i], k.handled[i])
  {
    RunsKeepInv(steps);
    var k := After(steps).conns[c];
    assert Lawful(k);
    LawfulIsInGrammar(k);
    forall i | 0 <= i < |k.sent| && !k.sent[i].Exit? ensures i < |k.handled| && Answers(k.sent[i], k.handled[i]) {
      LawfulAnswers(k, i);
    }
  }

  /** The step a reply comes from: a turn of the handler, with its process id if that is what the reply states, or the
      end of the session that the exit message names, with the code it ended with. */
  predicate Writes(s: System, step: Step, r: Reply) {
    match r
    case Alive(_, pid) => step.Handle? && step.pid == pid
    case Exit(sid, code) =>
      step.End? && step.code == code && step.p < |s.procs| && s.procs[step.p].Waiting? && s.procs[step.p].sid == sid
    case _ => step.Handle?
  }

  ghost predicate Written(steps: seq<Step>, r: Reply)
    requires Legal(steps)
  {
    steps != []
    && var (front, last) := (steps[..|steps| - 1], steps[|steps| - 1]);
       Writes(After(front), last, r) || Written(front, r)
  }

  /** A step writes at most one reply to a connection. */
  lemma StepWrites(s: System, step: Step, c: nat)
    requires Enabled(s, step) && c < |Next(s, step).conns|
    ensures var (before, after) := (if c < |s.conns| then s.conns[c].sent else [], Next(s, step).conns[c].sent);
      after == before
      || (|after| == |before| + 1 && after[..|before|] == before && Writes(s, step, Last(after)))
  {
  }

  /** Every reply was written by such a step of the run. */
  lemma {:induction false} RepliesAreSigned(steps: seq<Step>, c: nat, i: nat)
    requires Legal(steps) && c < |After(steps).conns| && i < |After(steps).conns[c].sent|
    ensures Written(steps, After(steps).conns[c].sent[i])
  {
    if steps != [] {
      var n := |steps| - 1;
      var s := After(steps[..n]);
      StepWrites(s, steps[n], c);
      if c < |s.conns| && i < |s.conns[c].sent| {
        RepliesAreSigned(steps[..n], c, i);
      }
    }
  }

  /* ---------------- connections nobody looks after ---------------- */

  ghost predicate Tended(s: System, c: nat) {
    Cares(s.handler, c) || exists p :: 0 <= p < |s.procs| && Cares(s.procs[p], c)
  }

  ghost predicate Abandoned(s: System, c: nat) {
    c < |s.conns| && s.conns[c].isOpen && !Tended(s, c)
  }

  /** The handler is through with the connection's last message, which is of a type it does not know. */
  predicate Ignored(s: System, c: nat) {
    c < |s.conns| && !Cares(s.handler, c) && var handled := s.conns[c].handled;
      handled != [] && handled[|handled| - 1].Unhandled?
  }

  /** A read from the connection fails in this step. */
  predicate FailsOn(s: System, step: Step, c: nat) {
    step.ReadFails? && step.p < |s.procs| && Cares(s.procs[step.p], c)
  }

  /** A read from the connection has failed in the run. */
  ghost predicate ReadFailed(steps: seq<Step>, c: nat)
    requires Legal(steps)
  {
    steps != []
    && (ReadFailed(steps[..|steps| - 1], c) || FailsOn(After(steps[..|steps| - 1]), steps[|steps| - 1], c))
  }

  /** Who is looked after has not been ignored. */
  lemma TendedIsNotIgnored(s: System, c: nat)
    requires Inv(s) && Tended(s, c)
    ensures c < |s.conns| && !Ignored(s, c)
  {
    assert Holds(STAGE, s.conns, s.handler);
    if !Cares(s.handler, c) {
      var p :| 0 <= p < |s.procs| && Cares(s.procs[p], c);
      assert Holds(STAGE, s.conns, s.procs[p]);
      if s.conns[c].handled != [] {
        StageAnswersLast(s.procs[p], s.conns[c]);
      }
    }
  }

  lemma StageAnswersLast(h: Holder, k: Conn)
    requires !h.Gone? && !h.Handling? && Stage(h, k) && k.handled != []
    ensures !k.handled[|k.handled| - 1].Unhandled?
  {
    var i := |k.handled| - 1;
    assert Answers(k.sent[i], k.handled[i]);
  }

  /** What a step changes of the goroutines other than the handler: the one that moves, if any, keeps its
      connection or drops it; a new one takes over the handler's connection or a new one. */
  predicate MovesAt(step: Step, p: nat) {
    (step.Read? && step.p == p) || (step.ReadFails? && step.p == p) || (step.Receive? && step.p == p) || (step.End? && step.p == p)
  }

  ghost predicate ProcsShape(s: System, t: System, step: Step) {
    && |s.procs| <= |t.procs| <= |s.procs| + 1
    && (forall p :: 0 <= p < |s.procs| && !MovesAt(step, p) ==> t.procs[p] == s.procs[p])
    && (forall p :: 0 <= p < |s.procs| && MovesAt(step, p) ==>
          t.procs[p].Gone? || (step.Read? && !s.procs[p].Gone? && t.procs[p].c == s.procs[p].c))
    && (|t.procs| > |s.procs| ==>
          && !t.procs[|s.procs|].Gone?
          && if step.Accept? then t.procs[|s.procs|].c == |s.conns| else !s.handler.Gone? && t.procs[|s.procs|].c == s.handler.c)
  }

  lemma ReactedShape(s: System, reaction: Reaction)
    requires s.handler.Handling? && s.handler.c < |s.conns|
    ensures var t := Reacted(s, reaction);
      && (t.procs == s.procs || t.procs == s.procs + [Reading(s.handler.c)])
      && |t.conns| == |s.conns| && (forall c :: 0 <= c < |s.conns| && c != s.handler.c ==> t.conns[c] == s.conns[c])
      && (t.handler.Gone? || (!t.handler.Gone? && t.handler.c == s.handler.c))
  {
  }

  lemma NextShape(s: System, step: Step)
    requires Enabled(s, step)
    ensures ProcsShape(s, Next(s, step), step)
  {
    if step.Handle? {
      ReactedShape(s, React(s.handler.m, s.counter, step.pid, step.sessionOK));
    }
  }

  /** The connection a step is about. */
  function About(s: System, step: Step): Option<nat>
    requires Enabled(s, step)
  {
    match step
    case Read(p, _) => Some(s.procs[p].c)
    case ReadFails(p) => Some(s.procs[p].c)
    case Receive(p) => Some(s.procs[p].c)
    case End(p, _) => Some(s.procs[p].c)
    case Handle(_, _) => Some(s.handler.c)
    case GetFd(_) => Some(s.handler.c)
    case Launch(_) => Some(s.handler.c)
    case _ => None
  }

  lemma NextConns(s: System, step: Step, c: nat)
    requires Enabled(s, step) && c < |s.conns| && About(s, step) != Some(c)
    ensures var t := Next(s, step);
      c < |t.conns| && t.conns[c] == s.conns[c] && (Cares(t.handler, c) ==> Cares(s.handler, c))
  {
    if step.Handle? {
      ReactedShape(s, React(s.handler.m, s.counter, step.pid, step.sessionOK));
    }
  }

  /** Nobody comes back to a connection that nobody looks after. */
  lemma UntendedStays(s: System, step: Step, c: nat)
    requires Enabled(s, step) && c < |s.conns| && !Tended(s, c)
    ensures var t := Next(s, step);
      c < |t.conns| && t.conns[c] == s.conns[c] && !Tended(t, c) && !FailsOn(s, step, c)
  {
    NextShape(s, step);
    assert forall p :: 0 <= p < |s.procs| ==> !Cares(s.procs[p], c);
    NextConns(s, step, c);
  }

  /** The only steps by which a connection loses the goroutine that looks after it. */
  predicate LetsGo(s: System, step: Step, c: nat) {
    match step
    case ReadFails(p) => FailsOn(s, step, c)
    case Handle(_, _) => Cares(s.handler, c)
    case Launch(ok) => !ok && Cares(s.handler, c)
    case End(p, _) => p < |s.procs| && Cares(s.procs[p], c)
    case _ => false
  }

  lemma HandlerStays(s: System, step: Step, c: nat)
    requires Enabled(s, step) && Cares(s.handler, c) && !LetsGo(s, step, c)
    ensures Tended(Next(s, step), c)
  {
    if step.Launch? {
      assert Cares(Next(s, step).procs[|s.procs|], c);
    }
  }

  lemma ProcStays(s: System, step: Step, p: nat, c: nat)
    requires Enabled(s, step) && p < |s.procs| && Cares(s.procs[p], c) && !LetsGo(s, step, c)
    ensures Tended(Next(s, step), c)
  {
    NextShape(s, step);
    var t := Next(s, step);
    if step.Receive? && step.p == p {
      assert Cares(t.handler, c);
    } else {
      assert Cares(t.procs[p], c);
    }
  }

  lemma TendedUnlessLetGo(s: System, step: Step, c: nat)
    requires Enabled(s, step) && Tended(s, c) && !LetsGo(s, step, c)
    ensures Tended(Next(s, step), c) && !FailsOn(s, step, c)
  {
    if Cares(s.handler, c) {
      HandlerStays(s, step, c);
    } else {
      var p :| 0 <= p < |s.procs| && Cares(s.procs[p], c);
      ProcStays(s, step, p, c);
    }
  }

  lemma ReadFailsAbandons(s: System, p: nat, c: nat)
    requires Inv(s) && Enabled(s, ReadFails(p)) && Cares(s.procs[p], c)
    ensures Abandoned(Next(s, ReadFails(p)), c) && FailsOn(s, ReadFails(p), c)
  {
    assert Holds(STAGE, s.conns, s.procs[p]);
  }

  lemma EndCloses(s: System, p: nat, code: uint32, c: nat)
    requires Inv(s) && Enabled(s, End(p, code)) && Cares(s.procs[p], c)
    ensures var t := Next(s, End(p, code)); c < |t.conns| && !t.conns[c].isOpen && !Ignored(t, c)
  {
    assert Holds(STAGE, s.conns, s.procs[p]);
    StageAnswersLast(s.procs[p], s.conns[c]);
  }

  lemma LaunchCloses(s: System, c: nat)
    requires Inv(s) && Enabled(s, Launch(false)) && Cares(s.handler, c)
    ensures var t := Next(s, Launch(false)); c < |t.conns| && !t.conns[c].isOpen && !Ignored(t, c)
  {
    assert Holds(STAGE, s.conns, s.handler);
    StageAnswersLast(s.handler, s.conns[c]);
  }

  /** A turn of the handler that leaves the connection open and alone is one that ignored its message. */
  lemma HandleAbandonsIff(s: System, sessionOK: bool, pid: uint32, c: nat)
    requires Inv(s) && Enabled(s, Handle(sessionOK, pid)) && Cares(s.handler, c)
    ensures var t := Next(s, Handle(sessionOK, pid)); c < |t.conns| && (Abandoned(t, c) <==> Ignored(t, c))
  {
    var t := Next(s, Handle(sessionOK, pid));
    assert Holds(STAGE, s.conns, s.handler);
    HandleKeeps(s, sessionOK, pid);
    ReactedShape(s, React(s.handler.m, s.counter, pid, sessionOK));
    if Tended(t, c) {
      TendedIsNotIgnored(t, c);
    } else {
      HandleLeaves(s, React(s.handler.m, s.counter, pid, sessionOK));
    }
  }

  lemma HandleLeaves(s: System, reaction: Reaction)
    requires s.handler.Handling? && s.handler.c < |s.conns| && Stage(s.handler, s.conns[s.handler.c])
    requires (reaction.Ignores? <==> s.handler.m.Unhandled?) && !Tended(Reacted(s, reaction), s.handler.c)
    ensures var (t, c) := (Reacted(s, reaction), s.handler.c);
      c < |t.conns| && (t.conns[c].isOpen <==> Ignored(t, c))
  {
    ChatIsTended(s, reaction);
  }

  lemma ChatIsTended(s: System, reaction: Reaction)
    requires s.handler.Handling? && s.handler.c < |s.conns|
    ensures reaction.Panics? || reaction.Replies? ==> Tended(Reacted(s, reaction), s.handler.c)
  {
    if reaction.Replies? && !reaction.reply.Opened? {
      assert Cares(Reacted(s, reaction).procs[|s.procs|], s.handler.c);
    }
  }

  lemma AbandonedStep(s: System, step: Step, c: nat, failed: bool)
    requires Inv(s) && Enabled(s, step)
    requires Abandoned(s, c) <==> failed || Ignored(s, c)
    ensures var t := Next(s, step);
      Abandoned(t, c) <==> failed || FailsOn(s, step, c) || Ignored(t, c)
  {
    var t := Next(s, step);
    if Tended(s, c) {
      TendedIsNotIgnored(s, c);
      if !LetsGo(s, step, c) {
        TendedUnlessLetGo(s, step, c);
        StepKeeps(s, step);
        TendedIsNotIgnored(t, c);
      } else {
        match step {
          case ReadFails(p) => ReadFailsAbandons(s, p, c);
          case Handle(sessionOK, pid) => HandleAbandonsIff(s, sessionOK, pid, c);
          case Launch(_) => LaunchCloses(s, c);
          case End(p, code) => EndCloses(s, p, code, c);
          case _ =>
        }
      }
    } else if c < |s.conns| {
      UntendedStays(s, step, c);
    } else {
      NewcomerIsTended(s, step, c);
    }
  }

  lemma NewcomerIsTended(s: System, step: Step, c: nat)
    requires Inv(s) && Enabled(s, step) && c >= |s.conns|
    ensures !Abandoned(Next(s, step), c) && !FailsOn(s, step, c) && !Ignored(Next(s, step), c)
  {
    var t := Next(s, step);
    if step.Accept? {
      assert Cares(t.procs[|s.procs|], |s.conns|);
    }
    if step.ReadFails? {
      assert Holds(STAGE, s.conns, s.procs[step.p]);
    }
  }

  /** In every reachable state, a connection is open with nobody to look after it exactly if a read from it has
      failed, or the handler is through with a message of unknown type from it. */
  lemma {:induction false} AbandonedIff(steps: seq<Step>, c: nat)
    requires Legal(steps)
    ensures Abandoned(After(steps), c) <==> ReadFailed(steps, c) || Ignored(After(steps), c)
  {
    if steps != [] {
      var n := |steps| - 1;
      AbandonedIff(steps[..n], c);
      RunsKeepInv(steps[..n]);
      AbandonedStep(After(steps[..n]), steps[n], c, ReadFailed(steps[..n], c));
    }
  }

  /* ---------------- after the kill message ---------------- */

  /** The connection is open, and whoever looks after it, if anybody does, is blocked on a handler that has
      stopped. */
  ghost predicate Deserted(s: System, c: nat) {
    && c < |s.conns| && s.conns[c].isOpen && !Cares(s.handler, c)
    && forall p :: 0 <= p < |s.procs| && Cares(s.procs[p], c) ==> s.stopped && s.procs[p].Blocked?
  }

  /** A message of the connection was waiting when the handler stopped, or came later. */
  ghost predicate Stranded(s: System, c: nat) {
    s.stopped && exists p :: 0 <= p < |s.procs| && Cares(s.procs[p], c) && s.procs[p].Blocked?
  }

  lemma {:induction false} StoppedIsIdle(steps: seq<Step>)
    requires Legal(steps)
    ensures After(steps).stopped ==> After(steps).handler.Gone?
  {
    if steps != [] {
      StoppedIsIdle(steps[..|steps| - 1]);
    }
  }

  lemma StrandedIsDeserted(s: System, c: nat)
    requires Inv(s) && s.handler.Gone? && Stranded(s, c)
    ensures Deserted(s, c)
  {
    var p :| 0 <= p < |s.procs| && Cares(s.procs[p], c) && s.procs[p].Blocked?;
    assert Holds(STAGE, s.conns, s.procs[p]);
  }

  lemma DesertedHow(s: System, c: nat)
    requires Inv(s) && (s.stopped ==> s.handler.Gone?)
    ensures Deserted(s, c) <==> Abandoned(s, c) || Stranded(s, c)
  {
    if Stranded(s, c) {
      StrandedIsDeserted(s, c);
    }
  }

  /** In every reachable state: the kill message is the third and last way to leave an open connection alone. */
  lemma DesertedIff(steps: seq<Step>, c: nat)
    requires Legal(steps)
    ensures Deserted(After(steps), c) <==>
      ReadFailed(steps, c) || Ignored(After(steps), c) || Stranded(After(steps), c)
  {
    AbandonedIff(steps, c);
    StoppedIsIdle(steps);
    RunsKeepInv(steps);
    DesertedHow(After(steps), c);
  }

  lemma DesertedStep(s: System, step: Step, c: nat)
    requires Inv(s) && Enabled(s, step) && Deserted(s, c)
    ensures Deserted(Next(s, step), c)
  {
    if Tended(s, c) {
      var p :| 0 <= p < |s.procs| && Cares(s.procs[p], c);
      BlockedStays(s, step, c, p);
    } else {
      UntendedStays(s, step, c);
      var t := Next(s, step);
      assert forall p :: 0 <= p < |t.procs| ==> !Cares(t.procs[p], c);
    }
  }

  lemma BlockedRemain(s: System, step: Step, c: nat, q: nat)
    requires Enabled(s, step) && Deserted(s, c) && c < |s.conns|
    requires q < |Next(s, step).procs| && Cares(Next(s, step).procs[q], c)
    ensures Next(s, step).stopped && Next(s, step).procs[q].Blocked?
  {
    NextShape(s, step);
    assert q < |s.procs| ==> Cares(s.procs[q], c);
  }

  lemma BlockedStays(s: System, step: Step, c: nat, p: nat)
    requires Inv(s) && Enabled(s, step) && Deserted(s, c) && p < |s.procs| && Cares(s.procs[p], c)
    ensures Deserted(Next(s, step), c)
  {
    var t := Next(s, step);
    forall q | 0 <= q < |t.procs| && Cares(t.procs[q], c) ensures t.stopped && t.procs[q].Blocked? {
      BlockedRemain(s, step, c, q);
    }
    assert Holds(STAGE, s.conns, s.handler);
    assert About(s, step) != Some(c);
    NextConns(s, step, c);
  }

  /** And it stays alone for ever. */
  lemma {:induction false} DesertedForEver(steps: seq<Step>, n: nat, c: nat)
    requires Legal(steps) && n <= |steps| && Legal(steps[..n]) && Deserted(After(steps[..n]), c)
    ensures Deserted(After(steps), c)
  {
    if n < |steps| {
      var front := steps[..|steps| - 1];
      assert front[..n] == steps[..n];
      DesertedForEver(front, n, c);
      RunsKeepInv(front);
      DesertedStep(After(front), steps[|steps| - 1], c);
    } else {
      assert steps[..n] == steps;
    }
  }

  /* ---------------- descriptors that do not arrive ---------------- */

  /** A descriptor asked for on the connection does not arrive in this step. */
  predicate FdFails(s: System, step: Step, c: nat) { step == GetFd(false) && Cares(s.handler, c) }

  ghost predicate FdFailed(steps: seq<Step>, c: nat)
    requires Legal(steps)
  {
    steps != []
    && (FdFailed(steps[..|steps| - 1], c) || FdFails(After(steps[..|steps| - 1]), steps[|steps| - 1], c))
  }

  /** A goroutine that leaves its connection leaves it to nobody. */
  lemma LeftAlone(s: System, t: System, c: nat)
    requires Inv(s) && (forall p :: 0 <= p < |t.procs| && Cares(t.procs[p], c) ==> p < |s.procs| && s.procs[p] == t.procs[p])
    requires !Cares(t.handler, c)
    requires Cares(s.handler, c) || exists p :: 0 <= p < |s.procs| && Cares(s.procs[p], c) && p < |t.procs| && t.procs[p].Gone?
    ensures !Tended(t, c)
  {
  }

  /** Which of its connection's goroutines a step lets go of for good. */
  lemma LetGoIsUntended(s: System, step: Step, c: nat)
    requires Inv(s) && Enabled(s, step) && (step.ReadFails? || step.End? || step == Launch(false)) && About(s, step) == Some(c)
    ensures !Tended(Next(s, step), c)
  {
    var t := Next(s, step);
    if step.Launch? {
      LeftAlone(s, t, c);
    } else {
      assert t.procs[step.p].Gone? && Cares(s.procs[step.p], c);
      LeftAlone(s, t, c);
    }
  }

  lemma ClosingIsUntended(s: System, reaction: Reaction)
    requires Inv(s) && s.handler.Handling? && s.handler.c < |s.conns| && (reaction.Closes? || reaction.Ignores?)
    ensures !Tended(Reacted(s, reaction), s.handler.c)
  {
    LeftAlone(s, Reacted(s, reaction), s.handler.c);
  }

  lemma StepFds(s: System, step: Step, c: nat, failed: bool)
    requires Inv(s) && Enabled(s, step)
    requires if c < |s.conns| then Tended(s, c) ==> (s.conns[c].isOpen <==> !failed) else !failed
    ensures var (t, failed') := (Next(s, step), failed || FdFails(s, step, c));
      if c < |t.conns| then Tended(t, c) ==> (t.conns[c].isOpen <==> !failed') else !failed'
  {
    assert Holds(STAGE, s.conns, s.handler);
    if c < |s.conns| {
      if !Tended(s, c) {
        UntendedStays(s, step, c);
      } else if About(s, step) != Some(c) {
        NextConns(s, step, c);
      } else if step.Handle? {
        HandleFds(s, React(s.handler.m, s.counter, step.pid, step.sessionOK));
      } else if step.ReadFails? || step.End? || step == Launch(false) {
        LetGoIsUntended(s, step, c);
      }
    }
  }

  lemma HandleFds(s: System, reaction: Reaction)
    requires Inv(s) && s.handler.Handling? && s.handler.c < |s.conns|
    ensures var (t, c) := (Reacted(s, reaction), s.handler.c);
      c < |t.conns| && (Tended(t, c) ==> t.conns[c].isOpen == s.conns[c].isOpen)
  {
    if reaction.Closes? || reaction.Ignores? {
      ClosingIsUntended(s, reaction);
    }
  }

  lemma {:induction false} RunFds(steps: seq<Step>, c: nat)
    requires Legal(steps)
    ensures var s := After(steps);
      if c < |s.conns| then Tended(s, c) ==> (s.conns[c].isOpen <==> !FdFailed(steps, c)) else !FdFailed(steps, c)
  {
    if steps != [] {
      var n := |steps| - 1;
      RunFds(steps[..n], c);
      RunsKeepInv(steps[..n]);
      StepFds(After(steps[..n]), steps[n], c, FdFailed(steps[..n], c));
    }
  }

  /** In every reachable state, the connection of a session that goes on is closed exactly if one of the
      descriptors asked for did not arrive; then its exit message will not be written. */
  lemma WaiterClosedIff(steps: seq<Step>, p: nat)
    requires Legal(steps) && p < |After(steps).procs| && After(steps).procs[p].Waiting?
    ensures var (s, c) := (After(steps), After(steps).procs[p].c);
      c < |s.conns| && (!s.conns[c].isOpen <==> FdFailed(steps, c))
  {
    RunsKeepInv(steps);
    var s, c := After(steps), After(steps).procs[p].c;
    assert Holds(STAGE, s.conns, s.procs[p]) && Cares(s.procs[p], c);
    RunFds(steps, c);
  }

  lemma Extend(steps: seq<Step>, step: Step) returns (longer: seq<Step>)
    requires Legal(steps) && Enabled(After(steps), step)
    ensures Legal(longer) && After(longer) == Next(After(steps), step) && longer == steps + [step]
  {
    longer := steps + [step];
    assert longer[..|steps|] == steps;
  }

  const ZEROS: seq<byte> := [0, 0, 0, 0]

  lemma ZerosAreUnknown()
    ensures Decoded(ZEROS) == Unhandled
  {
    ValueOfFour(0, 0, 0, 0);
    assert ZEROS[..4] == ZEROS;
  }

  /** Both happen: with any message of unknown type (such as `ZEROS`), and with a read that fails at once. */
  lemma BothAbandon(data: seq<byte>) returns (unknown: seq<Step>, failed: seq<Step>)
    requires 4 <= |data| < 0x1_0000_0000 && Decoded(data).Unhandled?
    ensures Legal(unknown) && Abandoned(After(unknown), 0) && Ignored(After(unknown), 0)
    ensures Legal(failed) && Abandoned(After(failed), 0) && ReadFailed(failed, 0)
  {
    var accepted := Extend([], Accept);
    failed := Extend(accepted, ReadFails(0));
    assert failed[..1] == accepted;
    unknown := Extend(accepted, Read(0, data));
    unknown := Extend(unknown, Receive(0));
    unknown := Extend(unknown, Handle(true, 0));
  }

  /** The n-th session opened has the id n modulo 2^32; so as long as no more than 2^32 sessions have
      been opened, no two connections have the same session id. */
  lemma SessionIds(steps: seq<Step>, n: nat)
    requires Legal(steps) && n < |After(steps).sessions|
    ensures var s := After(steps);
      && s.sessions[n] < |s.conns| && SessionOf(s.conns[s.sessions[n]]) == Some(Word(n))
      && (n < 0x1_0000_0000 ==> Word(n) == n)
  {
    RunsKeepInv(steps);
    SmallWord(n);
  }

  lemma SessionIdsDiffer(steps: seq<Step>, c: nat, d: nat)
    requires Legal(steps) && c < |After(steps).conns| && d < |After(steps).conns| && c != d
    requires |After(steps).sessions| <= 0x1_0000_0000
    requires SessionOf(After(steps).conns[c]).Some?
    ensures SessionOf(After(steps).conns[c]) != SessionOf(After(steps).conns[d])
  {
    RunsKeepInv(steps);
    var s := After(steps);
    if SessionOf(s.conns[d]).Some? {
      var m :| 0 <= m < |s.sessions| && s.sessions[m] == c;
      var n :| 0 <= n < |s.sessions| && s.sessions[n] == d;
      SmallWord(m);
      SmallWord(n);
    }
  }

  /* ---------------- the bytes ---------------- */

  lemma PackedSize(r: Reply)
    ensures |Packed(r)| == if r.Hello? then 8 else 12
  {
  }

  /** The reply that a client reads out of a message. */
  function Unpacked(data: seq<byte>): Option<Reply> {
    if |data| == 8 && Uint32(data) == HELLO then Some(Hello(Uint32(data[4..])))
    else if |data| != 12 then None
    else
      var a, b := Uint32(data[4..]), Uint32(data[4..][4..]);
      var msgType := Uint32(data);
      if msgType == ALIVE then Some(Alive(a, b))
      else if msgType == SESSION_OPENED then Some(Opened(a, b))
      else if msgType == EXIT_MESSAGE then Some(Exit(a, b))
      else None
  }

  lemma UnpackedOfPacked(r: Reply)
    ensures Unpacked(Packed(r)) == Some(r)
  {
    match r
    case Hello(v) => Words2(HELLO, v, []);
    case Alive(a, b) => Words2(ALIVE, a, PutUint32(b)); Words1(b);
    case Opened(a, b) => Words2(SESSION_OPENED, a, PutUint32(b)); Words1(b);
    case Exit(a, b) => Words2(EXIT_MESSAGE, a, PutUint32(b)); Words1(b);
  }

  lemma Words2(a: uint32, b: uint32, rest: seq<byte>)
    ensures var all := PutUint32(a) + (PutUint32(b) + rest);
      Uint32(all) == a && Uint32(all[4..]) == b && all[4..][4..] == rest
    ensures rest == [] ==> PutUint32(a) + PutUint32(b) == PutUint32(a) + (PutUint32(b) + rest)
  {
    Uint32OfPut(a, PutUint32(b) + rest);
    Uint32OfPut(b, rest);
  }

  lemma Words1(a: uint32)
    ensures Uint32(PutUint32(a)) == a
  {
    Uint32OfPut(a, []);
    assert PutUint32(a) + [] == PutUint32(a);
  }

  function PackedAll(replies: seq<Reply>): (data: seq<seq<byte>>)
    ensures |data| == |replies| && forall i :: 0 <= i < |replies| ==> data[i] == Packed(replies[i])
  {
    seq(|replies|, i requires 0 <= i < |replies| => Packed(replies[i]))
  }

  /** Reading the bytes written to a connection gives back the replies, one frame each. */
  lemma ClientReadsReplies(replies: seq<Reply>)
    ensures var read := ReadAll(Frames(PackedAll(replies)));
      |read| == |replies| && forall i :: 0 <= i < |replies| ==> Unpacked(read[i]) == Some(replies[i])
  {
    forall i | 0 <= i < |replies| ensures 4 <= |PackedAll(replies)[i]| < 0x1_0000_0000 {
      PackedSize(replies[i]);
    }
    ReadAllOfFrames(PackedAll(replies));
    forall i | 0 <= i < |replies| ensures Unpacked(PackedAll(replies)[i]) == Some(replies[i]) {
      UnpackedOfPacked(replies[i]);
    }
  }

  /** The server understands a client's session request, whatever follows it in the message. */
  lemma SessionRequestDecoded(m: NewSession, f: Words, tail: seq<byte>)
    requires Fits(m) && Means(f, m) && m.msgType == NEW_SESSION
    ensures |Encode(m, f, tail)| >= 4 && Decoded(Encode(m, f, tail)) == SessionMsg(m.requestId)
  {
    ParsedOfEncoded(m, f, tail);
    TypeComesFirst(m, f, tail);
  }

  lemma TypeComesFirst(m: NewSession, f: Words, tail: seq<byte>)
    requires Fits(m)
    ensures |Encode(m, f, tail)| >= 4 && Uint32(Encode(m, f, tail)) == m.msgType
  {
    Uint32OfPut(m.msgType,
      PutUint32(m.requestId) + (PutUint32(|m.reserved|) + (m.reserved + PutFlags(f, EncodeRest(m, tail)))));
  }

  /* ---------------- the type words, and what messages of each type are taken for ---------------- */

  lemma TypeBytes()
    ensures PutUint32(HELLO) == [0, 0, 0, 1]
    ensures PutUint32(NEW_SESSION) == [0x10, 0, 0, 2] && PutUint32(ALIVE_CHECK) == [0x10, 0, 0, 4]
    ensures PutUint32(EXIT_MESSAGE) == [0x80, 0, 0, 4] && PutUint32(ALIVE) == [0x80, 0, 0, 5]
    ensures PutUint32(SESSION_OPENED) == [0x80, 0, 0, 6]
  {
    BigEndianIff(HELLO, 0, 0, 0, 1);
    BigEndianIff(NEW_SESSION, 0x10, 0, 0, 2);
    BigEndianIff(ALIVE_CHECK, 0x10, 0, 0, 4);
    BigEndianIff(EXIT_MESSAGE, 0x80, 0, 0, 4);
    BigEndianIff(ALIVE, 0x80, 0, 0, 5);
    BigEndianIff(SESSION_OPENED, 0x80, 0, 0, 6);
  }

  /** A word is told from others by its bytes. */
  lemma WordIff(data: seq<byte>, x: uint32)
    requires |data| >= 4
    ensures Uint32(data) == x <==> data[..4] == PutUint32(x)
  {
    PutOfUint32(data);
    Words1(x);
    assert PutUint32(x)[..4] == PutUint32(x);
  }

  predicate Starts(data: seq<byte>, typeWord: seq<byte>) { |data| >= 4 && data[..4] == typeWord }

  lemma TypeIff(data: seq<byte>)
    requires |data| >= 4
    ensures Uint32(data) == HELLO <==> Starts(data, [0, 0, 0, 1])
    ensures Uint32(data) == NEW_SESSION <==> Starts(data, [0x10, 0, 0, 2])
    ensures Uint32(data) == ALIVE_CHECK <==> Starts(data, [0x10, 0, 0, 4])
  {
    TypeBytes();
    WordIff(data, HELLO);
    WordIff(data, NEW_SESSION);
    WordIff(data, ALIVE_CHECK);
  }

  lemma TwoWordsRead(typeWord: seq<byte>, x: uint32, tail: seq<byte>)
    requires |typeWord| == 4
    ensures var data := typeWord + (PutUint32(x) + tail);
      |data| >= 8 && Starts(data, typeWord) && Uint32(data[4..]) == x
  {
    Uint32OfPut(x, tail);
    assert (typeWord + (PutUint32(x) + tail))[4..] == PutUint32(x) + tail;
  }

  lemma TwoWordsFound(data: seq<byte>, typeWord: seq<byte>)
    requires |data| >= 8 && Starts(data, typeWord)
    ensures data == typeWord + (PutUint32(Uint32(data[4..])) + data[8..])
  {
    WordCopied(data[4..]);
    assert data[4..][..4] == data[4..8];
  }

  /** Two words and any bytes after them. */
  lemma TwoWordsIff(data: seq<byte>, typeWord: seq<byte>, x: uint32)
    requires |typeWord| == 4
    ensures (exists tail :: data == typeWord + (PutUint32(x) + tail))
       <==> |data| >= 8 && Starts(data, typeWord) && Uint32(data[4..]) == x
  {
    if tail :| data == typeWord + (PutUint32(x) + tail) {
      TwoWordsRead(typeWord, x, tail);
    }
    if |data| >= 8 && Starts(data, typeWord) {
      TwoWordsFound(data, typeWord);
    }
  }

  /** A message is a hello with a version exactly if it is the hello word, the version's word and anything after
      them; likewise an alive check with its request id. */
  lemma HelloDecodedIff(data: seq<byte>, version: uint32)
    requires |data| >= 4
    ensures Decoded(data) == HelloMsg(version) <==> exists tail :: data == [0, 0, 0, 1] + (PutUint32(version) + tail)
  {
    TypeIff(data);
    TwoWordsIff(data, [0, 0, 0, 1], version);
  }

  lemma AliveDecodedIff(data: seq<byte>, requestId: uint32)
    requires |data| >= 4
    ensures Decoded(data) == AliveMsg(requestId) <==> exists tail :: data == [0x10, 0, 0, 4] + (PutUint32(requestId) + tail)
  {
    TypeIff(data);
    TwoWordsIff(data, [0x10, 0, 0, 4], requestId);
  }

  ghost predicate CarriesSession(data: seq<byte>) { exists m :: Carries(data, m) }

  ghost predicate CarriesRequest(data: seq<byte>, requestId: uint32) {
    exists m :: Carries(data, m) && m.requestId == requestId
  }

  lemma CarriedIs(data: seq<byte>)
    ensures CarriesSession(data) <==> Parsed(data).Some?
    ensures forall id: uint32 :: CarriesRequest(data, id) <==> Parsed(data).Some? && Parsed(data).value.0.requestId == id
  {
    forall m ensures Carries(data, m) <==> Parsed(data).Some? && Parsed(data).value.0 == m {
      ParsedIff(data, m);
    }
    if Parsed(data).Some? {
      assert Carries(data, Parsed(data).value.0);
    }
  }

  /** It is a session request exactly if it carries a whole new-session message with that request id. */
  lemma SessionDecodedIff(data: seq<byte>, requestId: uint32)
    requires |data| >= 4
    ensures Decoded(data) == SessionMsg(requestId) <==>
      Starts(data, [0x10, 0, 0, 2]) && CarriesRequest(data, requestId)
  {
    TypeIff(data);
    CarriedIs(data);
  }

  /** The rest: too short for its second word, a session request without a whole message, any other type. */
  lemma OthersDecodedIff(data: seq<byte>)
    requires |data| >= 4
    ensures Decoded(data).Truncated? <==> |data| < 8 && (Starts(data, [0, 0, 0, 1]) || Starts(data, [0x10, 0, 0, 4]))
    ensures Decoded(data).OutOfRange? <==> Starts(data, [0x10, 0, 0, 2]) && !CarriesSession(data)
    ensures Decoded(data).Unhandled? <==>
      !Starts(data, [0, 0, 0, 1]) && !Starts(data, [0x10, 0, 0, 4]) && !Starts(data, [0x10, 0, 0, 2])
  {
    TypeIff(data);
    CarriedIs(data);
  }

  /** The second word of a message is what a reply echoes. */
  function SecondWord(m: Message): Option<uint32> {
    match m
    case HelloMsg(version) => Some(version)
    case AliveMsg(id) => Some(id)
    case SessionMsg(id) => Some(id)
    case _ => None
  }

  lemma SecondWordIs(data: seq<byte>)
    requires |data| >= 4 && SecondWord(Decoded(data)).Some?
    ensures |data| >= 8 && SecondWord(Decoded(data)).value == Uint32(data[4..])
  {
    if Decoded(data).SessionMsg? {
      FieldsAt(data);
    }
  }

  lemma EchoedWord(data: seq<byte>)
    requires |data| >= 4 && SecondWord(Decoded(data)).Some?
    ensures |data| >= 8 && PutUint32(SecondWord(Decoded(data)).value) == data[4..8]
  {
    SecondWordIs(data);
    WordCopied(data[4..]);
    assert data[4..][..4] == data[4..8];
  }

  lemma WordCopied(data: seq<byte>)
    requires |data| >= 4
    ensures PutUint32(Uint32(data)) == data[..4]
  {
    PutOfUint32(data);
  }

  /** The bytes of each reply, header included. */
  lemma FrameBytes(r: Reply)
    ensures Frame(Packed(r)) == match r
      case Hello(version) => [0, 0, 0, 8] + ([0, 0, 0, 1] + PutUint32(version))
      case Alive(id, pid) => [0, 0, 0, 12] + ([0x80, 0, 0, 5] + (PutUint32(id) + PutUint32(pid)))
      case Opened(id, sid) => [0, 0, 0, 12] + ([0x80, 0, 0, 6] + (PutUint32(id) + PutUint32(sid)))
      case Exit(sid, code) => [0, 0, 0, 12] + ([0x80, 0, 0, 4] + (PutUint32(sid) + PutUint32(code)))
  {
    TypeBytes();
    PackedSize(r);
    SmallWord(|Packed(r)|);
    BigEndianIff(8, 0, 0, 0, 8);
    BigEndianIff(12, 0, 0, 0, 12);
  }

  /* ---------------- the server itself ---------------- */

  /** A turn of the handler in bytes: a reply is written, and a session opened or the connection read from again;
      the connection is closed; the program comes down; nothing happens. */
  datatype Turn = Answered(bytes: seq<byte>, opens: bool) | ClosedOff | CameDown | PassedOver

  /** The protocol in bytes. A hello is sent back; an alive check is answered with its own request id and the
      process id, a session request with its own request id and the session's number. */
  ghost function TurnOf(data: seq<byte>, sesscounter: uint32, pid: uint32, sessionOK: bool): Turn {
    if Starts(data, [0, 0, 0, 1]) then
      if |data| < 8 then ClosedOff else Answered([0, 0, 0, 8] + ([0, 0, 0, 1] + data[4..8]), false)
    else if Starts(data, [0x10, 0, 0, 4]) then
      if |data| < 8 then ClosedOff
      else Answered([0, 0, 0, 12] + ([0x80, 0, 0, 5] + (data[4..8] + PutUint32(pid))), false)
    else if Starts(data, [0x10, 0, 0, 2]) then
      if |data| < 8 || !CarriesSession(data) then CameDown
      else if !sessionOK then ClosedOff
      else Answered([0, 0, 0, 12] + ([0x80, 0, 0, 6] + (data[4..8] + PutUint32(sesscounter))), true)
    else PassedOver
  }

  function InBytes(reaction: Reaction): Turn {
    match reaction
    case Panics => CameDown
    case Closes => ClosedOff
    case Ignores => PassedOver
    case Replies(r) => Answered(Frame(Packed(r)), r.Opened?)
  }

  lemma HelloTurn(data: seq<byte>, sesscounter: uint32, pid: uint32, sessionOK: bool)
    requires Starts(data, [0, 0, 0, 1])
    ensures InBytes(React(Decoded(data), sesscounter, pid, sessionOK)) == TurnOf(data, sesscounter, pid, sessionOK)
  {
    TypeIff(data);
    if |data| >= 8 {
      EchoedWord(data);
      FrameBytes(Hello(Uint32(data[4..])));
    }
  }

  lemma AliveTurn(data: seq<byte>, sesscounter: uint32, pid: uint32, sessionOK: bool)
    requires Starts(data, [0x10, 0, 0, 4])
    ensures InBytes(React(Decoded(data), sesscounter, pid, sessionOK)) == TurnOf(data, sesscounter, pid, sessionOK)
  {
    TypeIff(data);
    if |data| >= 8 {
      EchoedWord(data);
      FrameBytes(Alive(Uint32(data[4..]), pid));
    }
  }

  lemma SessionTurn(data: seq<byte>, m: Message, sesscounter: uint32, pid: uint32, sessionOK: bool)
    requires Starts(data, [0x10, 0, 0, 2]) && (m.SessionMsg? || m.OutOfRange?)
    requires m.SessionMsg? <==> CarriesSession(data)
    requires m.SessionMsg? ==> |data| >= 8 && PutUint32(m.requestId) == data[4..8]
    ensures InBytes(React(m, sesscounter, pid, sessionOK)) == TurnOf(data, sesscounter, pid, sessionOK)
  {
    if m.SessionMsg? {
      FrameBytes(Opened(m.requestId, sesscounter));
    }
  }

  lemma SessionEcho(data: seq<byte>)
    requires |data| >= 4
    ensures Decoded(data).SessionMsg? ==> |data| >= 8 && PutUint32(Decoded(data).requestId) == data[4..8]
  {
    if Decoded(data).SessionMsg? {
      EchoedWord(data);
    }
  }

  lemma SessionOrNot(data: seq<byte>)
    requires Starts(data, [0x10, 0, 0, 2])
    ensures Decoded(data).SessionMsg? || Decoded(data).OutOfRange?
  {
    TypeIff(data);
  }

  /** What the handler does with a message is what the protocol says of its bytes. */
  lemma ReactsInBytes(data: seq<byte>, sesscounter: uint32, pid: uint32, sessionOK: bool)
    requires |data| >= 4
    ensures InBytes(React(Decoded(data), sesscounter, pid, sessionOK)) == TurnOf(data, sesscounter, pid, sessionOK)
  {
    if Starts(data, [0, 0, 0, 1]) {
      HelloTurn(data, sesscounter, pid, sessionOK);
    } else if Starts(data, [0x10, 0, 0, 4]) {
      AliveTurn(data, sesscounter, pid, sessionOK);
    } else if Starts(data, [0x10, 0, 0, 2]) {
      OthersDecodedIff(data);
      SessionOrNot(data);
      SessionEcho(data);
      SessionTurn(data, Decoded(data), sesscounter, pid, sessionOK);
    } else {
      OthersDecodedIff(data);
    }
  }

  class UnixConn {
    var isOpen: bool
    var incoming: seq<byte>
    var outgoing: seq<byte>

    constructor ()
      ensures isOpen && incoming == [] && outgoing == []
    {
      isOpen, incoming, outgoing := true, [], [];
    }
  }

  /** What becomes of the connection once its message has been handled: a goroutine reads the next
      message, or waits for the session, or nobody looks after it, or the program crashes. */
  datatype Fate = ReadsOn | Waits(sid: uint32) | Left | Crashed

  class Server {
    var sesscounter: uint32
    const pid: uint32

    constructor (pid: uint32)
      ensures sesscounter == 0 && this.pid == pid
    {
      sesscounter, this.pid := 0, pid;
    }

    /** `readMsg`, with full reads. */
    method ReadMsg(conn: UnixConn) returns (r: Reading)
      modifies conn`incoming
      ensures r == Wire.ReadMsg(old(conn.incoming))
      ensures r.Got? ==> conn.incoming == r.rest
    {
      if |conn.incoming| < 4 {
        return Short;
      }
      var moreBytes := Uint32(conn.incoming);
      conn.incoming := conn.incoming[4..];
      if |conn.incoming| < moreBytes {
        return Short;
      }
      var buf := conn.incoming[..moreBytes];
      assert buf == old(conn.incoming)[4..4 + moreBytes];
      conn.incoming := conn.incoming[moreBytes..];
      if |buf| < 4 {
        return Panic;
      }
      r := Got(Uint32(buf), buf, conn.incoming);
    }

    /** `sendMsg`: nothing is written once the connection is closed. */
    method SendMsg(conn: UnixConn, data: seq<byte>)
      modifies conn`outgoing
      ensures conn.outgoing == old(conn.outgoing) + (if conn.isOpen then Frame(data) else [])
    {
      var headerBuf := PutUint32(Word(|data|));
      if !conn.isOpen {
        return;
      }
      conn.outgoing := conn.outgoing + headerBuf;
      conn.outgoing := conn.outgoing + data;
    }

    /** What one turn of `handleControlMaster` makes of the connection and the counter. */
    twostate predicate Handled(conn: UnixConn, m: Message, sessionOK: bool, allFds: bool, launchOK: bool, next: Fate)
      reads this, conn
    {
      match React(m, old(sesscounter), pid, sessionOK)
      case Panics => next == Crashed && unchanged(this) && unchanged(conn)
      case Closes => next == Left && !conn.isOpen && unchanged(this) && unchanged(conn`outgoing)
      case Ignores => next == Left && unchanged(this) && unchanged(conn)
      case Replies(r) =>
        && conn.outgoing == old(conn.outgoing) + (if old(conn.isOpen) then Frame(Packed(r)) else [])
        && if r.Opened? then
             && sesscounter == Word(old(sesscounter) + 1)
             && next == (if launchOK then Waits(r.sessionId) else Left)
             && conn.isOpen == (old(conn.isOpen) && allFds && launchOK)
           else
             next == ReadsOn && unchanged(this) && conn.isOpen == old(conn.isOpen)
    }

    /** The same, in bytes. */
    twostate predicate Turned(conn: UnixConn, turn: Turn, allFds: bool, launchOK: bool, next: Fate)
      reads this, conn
    {
      match turn
      case CameDown => next == Crashed && unchanged(this) && unchanged(conn)
      case ClosedOff => next == Left && !conn.isOpen && unchanged(this) && unchanged(conn`outgoing)
      case PassedOver => next == Left && unchanged(this) && unchanged(conn)
      case Answered(bytes, opens) =>
        && conn.outgoing == old(conn.outgoing) + (if old(conn.isOpen) then bytes else [])
        && if opens then
             && sesscounter == Word(old(sesscounter) + 1)
             && next == (if launchOK then Waits(old(sesscounter)) else Left)
             && conn.isOpen == (old(conn.isOpen) && allFds && launchOK)
           else
             next == ReadsOn && unchanged(this) && conn.isOpen == old(conn.isOpen)
    }

    /** One turn of `handleControlMaster` with a message. `fds` says which of the three descriptors
        arrive; a missing one closes the connection but does not end the turn. */
    method HandleMessage(conn: UnixConn, data: seq<byte>, sessionOK: bool, fds: seq<bool>, launchOK: bool) returns (next: Fate)
      requires |data| >= 4 && |fds| == 3
      modifies this`sesscounter, conn`isOpen, conn`outgoing
      ensures Handled(conn, Decoded(data), sessionOK, fds == [true, true, true], launchOK, next)
      ensures Turned(conn, TurnOf(data, old(sesscounter), pid, sessionOK), fds == [true, true, true], launchOK, next)
    {
      ReactsInBytes(data, sesscounter, pid, sessionOK);
      next := Respond(conn, Decoded(data), sessionOK, fds, launchOK);
    }

    /** The switch over the message's type. */
    method Respond(conn: UnixConn, m: Message, sessionOK: bool, fds: seq<bool>, launchOK: bool) returns (next: Fate)
      requires |fds| == 3
      modifies this`sesscounter, conn`isOpen, conn`outgoing
      ensures Handled(conn, m, sessionOK, fds == [true, true, true], launchOK, next)
    {
      match m {
        case HelloMsg(version) =>
          SendMsg(conn, Packed(Hello(version)));
          next := ReadsOn;
        case AliveMsg(requestId) =>
          SendMsg(conn, Packed(Alive(requestId, pid)));
          next := ReadsOn;
        case SessionMsg(requestId) =>
          next := OpenSession(conn, requestId, sessionOK, fds, launchOK);
        case Truncated =>
          conn.isOpen := false;
          next := Left;
        case OutOfRange =>
          next := Crashed;
        case Unhandled =>
          next := Left;
      }
    }

    /** The branch for a new session, after the message has been parsed. */
    method OpenSession(conn: UnixConn, requestId: uint32, sessionOK: bool, fds: seq<bool>, launchOK: bool) returns (next: Fate)
      requires |fds| == 3
      modifies this`sesscounter, conn`isOpen, conn`outgoing
      ensures !sessionOK ==> next == Left && !conn.isOpen && unchanged(this) && unchanged(conn`outgoing)
      ensures sessionOK ==>
        && sesscounter == Word(old(sesscounter) + 1)
        && conn.outgoing == old(conn.outgoing)
             + (if old(conn.isOpen) then Frame(Packed(Opened(requestId, old(sesscounter)))) else [])
        && next == (if launchOK then Waits(old(sesscounter)) else Left)
        && conn.isOpen == (old(conn.isOpen) && fds == [true, true, true] && launchOK)
    {
      if !sessionOK {
        conn.isOpen := false;
        return Left;
      }
      var sid := sesscounter;
      sesscounter := Word(sesscounter + 1);
      SendMsg(conn, Packed(Opened(requestId, sid)));
      for i := 0 to 3
        invariant conn.isOpen == (old(conn.isOpen) && forall j :: 0 <= j < i ==> fds[j])
        invariant sesscounter == Word(old(sesscounter) + 1)
        invariant conn.outgoing == old(conn.outgoing)
          + (if old(conn.isOpen) then Frame(Packed(Opened(requestId, old(sesscounter)))) else [])
      {
        if !fds[i] {
          conn.isOpen := false;
          continue;
        }
      }
      if !launchOK {
        conn.isOpen := false;
        return Left;
      }
      next := Waits(sid);
    }

    /** `waiter`, after the session has ended. */
    method Waiter(conn: UnixConn, sid: uint32, exitCode: uint32)
      modifies conn`isOpen, conn`outgoing
      ensures !conn.isOpen
      ensures conn.outgoing == old(conn.outgoing) + (if old(conn.isOpen) then Frame(Packed(Exit(sid, exitCode))) else [])
      ensures old(conn.isOpen) ==>
        conn.outgoing == old(conn.outgoing) + ([0, 0, 0, 12] + ([0x80, 0, 0, 4] + (PutUint32(sid) + PutUint32(exitCode))))
    {
      FrameBytes(Exit(sid, exitCode));
      SendMsg(conn, Packed(Exit(sid, exitCode)));
      conn.isOpen := false;
    }
  }
}
