/** What the order of accepted requests (`History`) says of the contents of the state serializer's maps (state.go),
    field by field, and so of its answers: a field holds what the last request that writes it wrote. */
module Records {
  import opened Prelude
  import opened State
  import opened History
  import Serializer

  /* ---------------- targets and waiters ---------------- */

  /** The fields of targets and waiters, grouped by the requests that write them. */
  datatype Column =
    | Origin
    | Password
    | ConnStatus
    | RunStatus
    | LastError
    | ConnWaitStart
    | ConnWaitState
    | RunWaitStart
    | RunWaitState

  datatype Value =
    | Given(hostName: string, ipAddress: string, chain: seq<string>)
    | Needed(requiresPw: bool)
    | Connecting(connectedOK: bool, connectTime: nat)
    | Running(runOK: bool, runOnce: bool, runTime: nat)
    | Failure(lastError: Option<string>)
    | Started(hostName: string, startTime: nat)
    | InState(state: string)

  function TableOf(col: Column): Table {
    match col
    case ConnWaitStart => ConnWaits
    case ConnWaitState => ConnWaits
    case RunWaitStart => RunWaits
    case RunWaitState => RunWaits
    case _ => Targets
  }

  function OfHost(hi: HostInfo, col: Column): Value
    requires TableOf(col).Targets?
  {
    match col
    case Origin => Given(hi.hostName, hi.ipAddress, hi.chain)
    case Password => Needed(hi.requiresPw)
    case ConnStatus => Connecting(hi.connectedOK, hi.connectTime)
    case RunStatus => Running(hi.runOK, hi.runOnce, hi.runTime)
    case LastError => Failure(hi.lastError)
  }

  function OfWaiter(wi: WaitInfo, col: Column): Value {
    if col.ConnWaitState? || col.RunWaitState? then InState(wi.state) else Started(wi.hostName, wi.startTime)
  }

  /** What the entry of h holds. */
  function Held(s: Store, col: Column, h: string): Value
    requires Has(s, TableOf(col), h)
  {
    match TableOf(col)
    case Targets => OfHost(s.targets[h], col)
    case ConnWaits => OfWaiter(s.connWaiters[h], col)
    case RunWaits => OfWaiter(s.runWaiters[h], col)
  }

  /** What the request is to make the entry of h hold. The last error is written by both statuses. */
  function Wanted(r: Request, col: Column, h: string): Option<Value> {
    match r
    case SetHostInfo(hi) => if TableOf(col).Targets? && hi.hostName == h then Some(OfHost(hi, col)) else None
    case SetConnWaitInfo(wi) => if TableOf(col).ConnWaits? && wi.hostName == h then Some(OfWaiter(wi, col)) else None
    case SetRunWaitInfo(wi) => if TableOf(col).RunWaits? && wi.hostName == h then Some(OfWaiter(wi, col)) else None
    case SetRequiresPw(g) => if g == h && col.Password? then Some(Needed(true)) else None
    case SetConnectionStatus(g, ok, t, err) =>
      if g != h then None
      else if col.ConnStatus? then Some(Connecting(ok, t))
      else if col.LastError? then Some(Failure(err))
      else None
    case SetRunStatus(g, ok, once, t, err) =>
      if g != h then None
      else if col.RunStatus? then Some(Running(ok, once, t))
      else if col.LastError? then Some(Failure(err))
      else None
    case SetConnWaitState(g, st) => if g == h && col.ConnWaitState? then Some(InState(st)) else None
    case SetRunWaitState(g, st) => if g == h && col.RunWaitState? then Some(InState(st)) else None
    case _ => None
  }

  /** The i-th request is the last that writes the field. */
  ghost predicate LastWrite(log: Log, i: nat, col: Column, h: string) {
    && i < |log| && Wanted(log[i].request, col, h).Some?
    && forall j :: i < j < |log| ==> Wanted(log[j].request, col, h).None?
  }

  predicate SetsStatus(r: Request) { r.SetConnectionStatus? || r.SetRunStatus? }

  predicate SetsTarget(r: Request) { r.SetHostInfo? || r.SetRequiresPw? }

  lemma StatusSet(s: Store, r: Request, col: Column, h: string)
    requires SetsStatus(r) && TableOf(col).Targets? && h in Apply(s, r).store.targets
    ensures var after := OfHost(Apply(s, r).store.targets[h], col);
      if Wanted(r, col, h).Some? then after == Wanted(r, col, h).value
      else h in s.targets && after == OfHost(s.targets[h], col)
  {
  }

  lemma TargetSet(s: Store, r: Request, col: Column, h: string)
    requires SetsTarget(r) && Apply(s, r).Served? && TableOf(col).Targets? && h in Apply(s, r).store.targets
    ensures var after := OfHost(Apply(s, r).store.targets[h], col);
      if Wanted(r, col, h).Some? then after == Wanted(r, col, h).value
      else h in s.targets && after == OfHost(s.targets[h], col)
  {
  }

  lemma TargetsKept(s: Store, r: Request, h: string)
    requires !SetsStatus(r) && !SetsTarget(r) && Apply(s, r).Served? && h in Apply(s, r).store.targets
    ensures h in s.targets && Apply(s, r).store.targets[h] == s.targets[h]
  {
  }

  predicate SetsWaiter(r: Request) { r.SetConnWaitInfo? || r.SetConnWaitState? || r.SetRunWaitInfo? || r.SetRunWaitState? }

  lemma WaiterSet(s: Store, r: Request, col: Column, h: string)
    requires SetsWaiter(r) && !TableOf(col).Targets? && Has(Apply(s, r).store, TableOf(col), h)
    ensures var after := Held(Apply(s, r).store, col, h);
      if Wanted(r, col, h).Some? then after == Wanted(r, col, h).value
      else Has(s, TableOf(col), h) && after == Held(s, col, h)
  {
  }

  lemma WaitersKept(s: Store, r: Request, col: Column, h: string)
    requires !SetsWaiter(r) && Apply(s, r).Served? && !TableOf(col).Targets? && Has(Apply(s, r).store, TableOf(col), h)
    ensures Has(s, TableOf(col), h) && Held(Apply(s, r).store, col, h) == Held(s, col, h)
  {
  }

  /** A request writes the fields it wants to write, of entries that are there, and leaves all others alone. */
  lemma ServeField(s: Store, r: Request, col: Column, h: string)
    requires Apply(s, r).Served? && Has(Apply(s, r).store, TableOf(col), h)
    ensures var after := Held(Apply(s, r).store, col, h);
      if Wanted(r, col, h).Some? then after == Wanted(r, col, h).value
      else Has(s, TableOf(col), h) && after == Held(s, col, h)
  {
    if !TableOf(col).Targets? {
      if SetsWaiter(r) {
        WaiterSet(s, r, col, h);
      } else {
        WaitersKept(s, r, col, h);
      }
    } else if SetsStatus(r) {
      StatusSet(s, r, col, h);
    } else if SetsTarget(r) {
      TargetSet(s, r, col, h);
    } else {
      TargetsKept(s, r, h);
    }
  }

  lemma OneLaterWrite(log: Log, i: nat, col: Column, h: string)
    requires log != [] && LastWrite(log[..|log| - 1], i, col, h) && Wanted(log[|log| - 1].request, col, h).None?
    ensures LastWrite(log, i, col, h)
  {
    var n := |log| - 1;
    assert forall j :: 0 <= j < n ==> log[..n][j] == log[j];
  }

  /** While the serializer is up, every field of every target and waiter that stands in the log holds what the last
      request that writes this field of this entry wrote. */
  lemma {:induction false} FieldIs(log: Log, col: Column, h: string) returns (i: nat)
    requires After(log).Up? && Standing(log, TableOf(col), h)
    ensures LastWrite(log, i, col, h)
    ensures Has(After(log).store, TableOf(col), h)
      && Held(After(log).store, col, h) == Wanted(log[i].request, col, h).value
  {
    var n := |log| - 1;
    var s, r := After(log[..n]).store, log[n].request;
    HasIff(log, TableOf(col), h);
    ServeField(s, r, col, h);
    if Wanted(r, col, h).Some? {
      i := n;
    } else {
      HasIff(log[..n], TableOf(col), h);
      i := FieldIs(log[..n], col, h);
      OneLaterWrite(log, i, col, h);
    }
  }

  /* ---------------- connections ---------------- */

  /** The i-th request made the entry: it put it when there was none, and none has dropped it since. */
  ghost predicate MadeBy(log: Log, i: nat, h: string) {
    StandsSince(log, i, Conns, h) && !Standing(log[..i], Conns, h)
  }

  /** How many clients have been counted on h since the i-th request. */
  function Counted(log: Log, i: nat, h: string): nat {
    if |log| <= i then 0
    else Counted(log[..|log| - 1], i, h) + (if log[|log| - 1].request == IncProxyCount(h) then 1 else 0)
  }

  lemma ServeConnEntry(s: Store, r: Request, h: string)
    requires Apply(s, r).Served? && h in Apply(s, r).store.conn
    ensures var after := Apply(s, r).store.conn[h];
      if h !in s.conn then r == SetConnInfo(after) && after.hostName == h
      else after == s.conn[h].(proxyCount := s.conn[h].proxyCount + (if r == IncProxyCount(h) then 1 else 0))
  {
  }

  lemma StillMade(log: Log, i: nat, h: string)
    requires log != [] && MadeBy(log[..|log| - 1], i, h) && !Drops(log[|log| - 1].request, Conns, h)
    ensures MadeBy(log, i, h)
  {
    var n := |log| - 1;
    assert log[..n][..i] == log[..i];
    assert forall j :: 0 <= j < n ==> log[..n][j] == log[j];
  }

  /** The connection that stands in the log is the one first set since it was last deleted, with one proxy client more
      for each that was counted on it. */
  lemma {:induction false} ConnectionIs(log: Log, h: string) returns (i: nat)
    requires After(log).Up? && Standing(log, Conns, h)
    ensures MadeBy(log, i, h) && h in After(log).store.conn
    ensures var ci := log[i].request.ci;
      After(log).store.conn[h] == ci.(proxyCount := ci.proxyCount + Counted(log, i + 1, h))
  {
    var n := |log| - 1;
    var s, r := After(log[..n]).store, log[n].request;
    HasIff(log, Conns, h);
    HasIff(log[..n], Conns, h);
    ServeConnEntry(s, r, h);
    StandingStep(log, Conns, h);
    if h in s.conn {
      i := ConnectionIs(log[..n], h);
      ServeConn(s, r, h);
      StillMade(log, i, h);
      assert log[..n][i] == log[i];
    } else {
      i := n;
      assert StandsSince(log, n, Conns, h);
    }
  }

  /* ---------------- reverse names and the password ---------------- */

  /** The i-th request is the last that gives a target this address. */
  ghost predicate LastNamed(log: Log, i: nat, a: string) {
    && i < |log| && Names(log[i].request, a)
    && forall j :: i < j < |log| ==> !Names(log[j].request, a)
  }

  predicate Names(r: Request, a: string) { r.SetHostInfo? && r.hi.ipAddress == a }

  ghost predicate NameRight(log: Log, a: string, name: string) {
    && (forall i: nat :: LastNamed(log, i, a) ==> name == log[i].request.hi.hostName)
    && ((forall i: nat :: i < |log| ==> !Names(log[i].request, a)) ==> name == a)
  }

  lemma ServeName(s: Store, r: Request, a: string)
    requires Apply(s, r).Served?
    ensures NameOf(Apply(s, r).store, a) == if Names(r, a) then r.hi.hostName else NameOf(s, a)
  {
  }

  lemma NameStep(log: Log, a: string, before: string, after: string)
    requires log != [] && NameRight(log[..|log| - 1], a, before)
    requires after == if Names(log[|log| - 1].request, a) then log[|log| - 1].request.hi.hostName else before
    ensures NameRight(log, a, after)
  {
    var n := |log| - 1;
    if !Names(log[n].request, a) {
      forall i: nat | LastNamed(log, i, a) ensures LastNamed(log[..n], i, a) {}
      assert forall i: nat :: i < n ==> log[..n][i] == log[i];
    }
  }

  /** GetPTR goes by the last target set with the address, whether or not that target is still there. */
  lemma {:induction false} NameIs(log: Log, a: string)
    requires After(log).Up?
    ensures NameRight(log, a, NameOf(After(log).store, a))
  {
    if log != [] {
      var n := |log| - 1;
      NameIs(log[..n], a);
      ServeName(After(log[..n]).store, log[n].request, a);
      NameStep(log, a, NameOf(After(log[..n]).store, a), NameOf(After(log).store, a));
    }
  }

  ghost predicate LastPass(log: Log, i: nat) {
    i < |log| && log[i].request.SetAuthPass? && forall j :: i < j < |log| ==> !log[j].request.SetAuthPass?
  }

  ghost predicate PassRight(log: Log, pass: string) {
    && (forall i: nat :: LastPass(log, i) ==> pass == log[i].request.sshAuthPass)
    && ((forall i: nat :: i < |log| ==> !log[i].request.SetAuthPass?) ==> pass == "")
  }

  lemma ServePass(s: Store, r: Request)
    requires Apply(s, r).Served?
    ensures Apply(s, r).store.sshAuthPass == if r.SetAuthPass? then r.sshAuthPass else s.sshAuthPass
  {
  }

  lemma PassStep(log: Log, before: string, after: string)
    requires log != [] && PassRight(log[..|log| - 1], before)
    requires var r := log[|log| - 1].request; after == if r.SetAuthPass? then r.sshAuthPass else before
    ensures PassRight(log, after)
  {
    var n := |log| - 1;
    if !log[n].request.SetAuthPass? {
      forall i: nat | LastPass(log, i) ensures LastPass(log[..n], i) {}
      assert forall i: nat :: i < n ==> log[..n][i] == log[i];
    }
  }

  lemma {:induction false} PassIs(log: Log)
    requires After(log).Up?
    ensures PassRight(log, After(log).store.sshAuthPass)
  {
    if log != [] {
      var n := |log| - 1;
      PassIs(log[..n]);
      ServePass(After(log[..n]).store, log[n].request);
      PassStep(log, After(log[..n]).store.sshAuthPass, After(log).store.sshAuthPass);
    }
  }

  /* ---------------- what is answered ---------------- */

  /** The record is the target's, in every field. */
  ghost predicate RecordRight(log: Log, h: string, hi: HostInfo) {
    forall col, i: nat :: TableOf(col).Targets? && LastWrite(log, i, col, h) ==>
      OfHost(hi, col) == Wanted(log[i].request, col, h).value
  }

  ghost predicate ConnectionRight(log: Log, h: string, ci: ConnInfo) {
    forall i: nat :: MadeBy(log, i, h) ==>
      ci == log[i].request.ci.(proxyCount := log[i].request.ci.proxyCount + Counted(log, i + 1, h))
  }

  /** The answer to a request accepted after those in the log says what the log says. */
  ghost predicate AnsweredRight(log: Log, r: Request, a: Option<Answer>) {
    if !Asks(r) then a.None?
    else
      && a.Some? && match r
      case GetHostKeys => a.value.Keys? && forall h :: h in a.value.keys <==> Standing(log, Targets, h)
      case GetConnKeys => a.value.Keys? && forall h :: h in a.value.keys <==> Standing(log, Conns, h)
      case HostExists(h) => a.value.Flag? && (a.value.flag <==> Standing(log, Targets, h))
      case ConnExists(h) => a.value.Flag? && (a.value.flag <==> Standing(log, Conns, h))
      case GetHostInfo(h) => a.value.Host? && RecordRight(log, h, a.value.hi)
      case GetConnInfo(h) => a.value.Conn? && ConnectionRight(log, h, a.value.ci)
      case GetPTR(ip) => a.value.Name? && NameRight(log, ip, a.value.name)
      case GetAuthPass => a.value.Name? && PassRight(log, a.value.name)
      case _ => a.value == Flag(true)
  }

  lemma RecordAnswered(log: Log, h: string)
    requires After(log).Up? && Standing(log, Targets, h)
    ensures h in After(log).store.targets && RecordRight(log, h, After(log).store.targets[h])
  {
    HasIff(log, Targets, h);
    var hi := After(log).store.targets[h];
    forall col, i: nat | TableOf(col).Targets? && LastWrite(log, i, col, h)
      ensures OfHost(hi, col) == Wanted(log[i].request, col, h).value
    {
      var j := FieldIs(log, col, h);
    }
  }

  lemma ConnectionAnswered(log: Log, h: string)
    requires After(log).Up? && Standing(log, Conns, h)
    ensures h in After(log).store.conn && ConnectionRight(log, h, After(log).store.conn[h])
  {
    var i := ConnectionIs(log, h);
    forall j: nat | MadeBy(log, j, h) ensures j == i {
      OneMaker(log, i, j, h);
    }
  }

  lemma OneMaker(log: Log, i: nat, j: nat, h: string)
    requires MadeBy(log, i, h) && MadeBy(log, j, h)
    ensures i == j
  {
    if i < j {
      assert StandsSince(log[..j], i, Conns, h);
    } else if j < i {
      assert StandsSince(log[..i], j, Conns, h);
    }
  }

  lemma KeysAnswered(log: Log, t: Table, keys: set<string>)
    requires After(log).Up? && forall h :: h in keys <==> Has(After(log).store, t, h)
    ensures forall h :: h in keys <==> Standing(log, t, h)
  {
    forall h ensures h in keys <==> Standing(log, t, h) {
      HasIff(log, t, h);
    }
  }

  /** Every request that is served is answered by what the log says: the names of the targets and of the connections
      are just those standing, a target's or a connection's fields are what was last written, and so on. */
  lemma AnswersAreRight(log: Log, j: nat)
    requires j < |log| && After(log[..j]).Up? && !Fatal(log, j)
    ensures AnsweredRight(log[..j], log[j].request, AnswerAt(log, j))
  {
    var front, r := log[..j], log[j].request;
    var s := After(front).store;
    match r
    case GetHostKeys => KeysAnswered(front, Targets, s.targets.Keys);
    case GetConnKeys => KeysAnswered(front, Conns, s.conn.Keys);
    case HostExists(h) => HasIff(front, Targets, h);
    case ConnExists(h) => HasIff(front, Conns, h);
    case GetHostInfo(h) => RecordAnswered(front, h);
    case GetConnInfo(h) => ConnectionAnswered(front, h);
    case GetPTR(ip) => NameIs(front, ip);
    case GetAuthPass => PassIs(front);
    case _ => OthersAnswered(log, j);
  }

  /** Deletes are confirmed; what asks for nothing is not answered. */
  lemma OthersAnswered(log: Log, j: nat)
    requires j < |log| && After(log[..j]).Up? && !Fatal(log, j)
    ensures !Asks(log[j].request) ==> AnswerAt(log, j).None?
    ensures log[j].request.DeleteHostInfo? || log[j].request.ClearHostInfo? || log[j].request.DeleteConnInfo? ==>
      AnswerAt(log, j) == Some(Flag(true))
  {
  }

  /* ---------------- every run ---------------- */

  /** In every run of any clients, as long as the serializer is up: the fields of targets and waiters. */
  lemma RunsKeepFields(clients: nat, steps: seq<Serializer.Step<Request>>, col: Column, h: string) returns (i: nat)
    requires Serializer.Legal(Serve, Serializer.Start<Server, Request, Answer>(Up(EMPTY), clients), steps)
    requires var m := Serializer.After(Serve, Serializer.Start<Server, Request, Answer>(Up(EMPTY), clients), steps);
      m.store.Up? && Standing(m.log, TableOf(col), h)
    ensures var m := Serializer.After(Serve, Serializer.Start<Server, Request, Answer>(Up(EMPTY), clients), steps);
      LastWrite(m.log, i, col, h)
      && Has(m.store.store, TableOf(col), h) && Held(m.store.store, col, h) == Wanted(m.log[i].request, col, h).value
  {
    Serializer.RunsAreSequential(Serve, Up(EMPTY), clients, steps);
    i := FieldIs(Serializer.After(Serve, Serializer.Start<Server, Request, Answer>(Up(EMPTY), clients), steps).log, col, h);
  }

  /** In every run of any clients: whoever has asked is told, or about to be told, what the requests accepted before
      its own say. */
  lemma RunsTellTheTruth(clients: nat, steps: seq<Serializer.Step<Request>>, j: nat)
    requires Serializer.Legal(Serve, Serializer.Start<Server, Request, Answer>(Up(EMPTY), clients), steps)
    requires var log := Serializer.After(Serve, Serializer.Start<Server, Request, Answer>(Up(EMPTY), clients), steps).log;
      j < |log| && log[j].client < clients && Asks(log[j].request) && After(log[..j]).Up? && !Fatal(log, j)
    ensures var m := Serializer.After(Serve, Serializer.Start<Server, Request, Answer>(Up(EMPTY), clients), steps);
      var (c, a) := (m.log[j].client, AnswerAt(m.log, j));
      && AnsweredRight(m.log[..j], m.log[j].request, a)
      && Told(m, c, |Serializer.Requests(m.log[..j], c)|, m.log[j].request, a.value)
  {
    Serializer.RunsAreSequential(Serve, Up(EMPTY), clients, steps);
    Serializer.ClientsStay(Serve, Up(EMPTY), clients, steps);
    var m := Serializer.After(Serve, Serializer.Start<Server, Request, Answer>(Up(EMPTY), clients), steps);
    AnswersAreRight(m.log, j);
    LinearTells(m, j);
  }
}
