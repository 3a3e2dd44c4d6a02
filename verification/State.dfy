/** The global program state (state.go): the maps, what each request does to them, and the object
    whose serializer goroutine is the only one to touch them. */
module State {
  import opened Prelude
  import Serializer

  datatype HostInfo = HostInfo(
    hostName: string, ipAddress: string, chain: seq<string>, requiresPw: bool,
    connectedOK: bool, connectTime: nat, runTime: nat, runOK: bool, runOnce: bool,
    lastError: Option<string>)

  /** Names a request channel by the resolve call and the hop of the chain that made it. */
  datatype Chan = Chan(call: nat, hop: nat)

  datatype ConnInfo = ConnInfo(hostName: string, isProxy: bool, isDirect: bool, proxyCount: nat, reqChan: Chan)

  datatype WaitInfo = WaitInfo(hostName: string, state: string, startTime: nat)

  datatype Store = Store(
    targets: map<string, HostInfo>,
    conn: map<string, ConnInfo>,
    ptr: map<string, string>,
    connWaiters: map<string, WaitInfo>,
    runWaiters: map<string, WaitInfo>,
    sshAuthPass: string)

  datatype Request =
    | DeleteConnWaitInfo(hostName: string)
    | DeleteRunWaitInfo(hostName: string)
    | SetConnWaitInfo(wi: WaitInfo)
    | SetRunWaitInfo(wi: WaitInfo)
    | SetConnWaitState(hostName: string, state: string)
    | SetRunWaitState(hostName: string, state: string)
    | SetRequiresPw(hostName: string)
    | GetPTR(hostName: string)
    | SetConnectionStatus(hostName: string, connectedOK: bool, connectTime: nat, lastError: Option<string>)
    | SetRunStatus(hostName: string, runOK: bool, runOnce: bool, runTime: nat, lastError: Option<string>)
    | IncProxyCount(hostName: string)
    | GetAuthPass
    | SetAuthPass(sshAuthPass: string)
    | SetHostInfo(hi: HostInfo)
    | SetConnInfo(ci: ConnInfo)
    | GetHostInfo(hostName: string)
    | DeleteHostInfo(hostName: string)
    | ClearHostInfo
    | HostExists(hostName: string)
    | GetConnInfo(hostName: string)
    | ConnExists(hostName: string)
    | DeleteConnInfo(hostName: string)
    | GetHostKeys
    | GetConnKeys

  datatype Answer =
    | Name(name: string)
    | Flag(flag: bool)
    | Host(hi: HostInfo)
    | Conn(ci: ConnInfo)
    | Keys(keys: set<string>)

  /** `Panic`: the branch dereferences a map entry that is not there. */
  datatype Result = Panic | Served(store: Store, answer: Option<Answer>)

  /** One iteration of the serializer. */
  function Apply(s: Store, r: Request): Result {
    match r
    case DeleteConnWaitInfo(h) => Served(s.(connWaiters := s.connWaiters - {h}), None)
    case DeleteRunWaitInfo(h) => Served(s.(runWaiters := s.runWaiters - {h}), None)
    case SetConnWaitInfo(wi) => Served(s.(connWaiters := s.connWaiters[wi.hostName := wi]), None)
    case SetRunWaitInfo(wi) => Served(s.(runWaiters := s.runWaiters[wi.hostName := wi]), None)
    case SetConnWaitState(h, st) =>
      if h in s.connWaiters
      then Served(s.(connWaiters := s.connWaiters[h := s.connWaiters[h].(state := st)]), None)
      else Served(s, None)
    case SetRunWaitState(h, st) =>
      if h in s.runWaiters
      then Served(s.(runWaiters := s.runWaiters[h := s.runWaiters[h].(state := st)]), None)
      else Served(s, None)
    case SetRequiresPw(h) =>
      if h in s.targets
      then Served(s.(targets := s.targets[h := s.targets[h].(requiresPw := true)]), None)
      else Panic
    case GetPTR(h) => Served(s, Some(Name(if h in s.ptr then s.ptr[h] else h)))
    case SetConnectionStatus(h, ok, t, err) =>
      if h in s.targets
      then Served(s.(targets := s.targets[h :=
             s.targets[h].(connectedOK := ok, connectTime := t, lastError := err)]), None)
      else Served(s, None)
    case SetRunStatus(h, ok, once, t, err) =>
      if h in s.targets
      then Served(s.(targets := s.targets[h :=
             s.targets[h].(runOK := ok, runOnce := once, runTime := t, lastError := err)]), None)
      else Served(s, None)
    case IncProxyCount(h) =>
      if h in s.conn
      then Served(s.(conn := s.conn[h := s.conn[h].(proxyCount := s.conn[h].proxyCount + 1)]), None)
      else Panic
    case GetAuthPass => Served(s, Some(Name(s.sshAuthPass)))
    case SetAuthPass(p) => Served(s.(sshAuthPass := p), None)
    case SetHostInfo(hi) =>
      Served(s.(targets := s.targets[hi.hostName := hi], ptr := s.ptr[hi.ipAddress := hi.hostName]), None)
    case SetConnInfo(ci) =>
      if ci.hostName in s.conn then Served(s, None)
      else Served(s.(conn := s.conn[ci.hostName := ci]), None)
    case GetHostInfo(h) => if h in s.targets then Served(s, Some(Host(s.targets[h]))) else Panic
    case DeleteHostInfo(h) => Served(s.(targets := s.targets - {h}), Some(Flag(true)))
    case ClearHostInfo => Served(s.(targets := map[]), Some(Flag(true)))
    case HostExists(h) => Served(s, Some(Flag(h in s.targets)))
    case GetConnInfo(h) => if h in s.conn then Served(s, Some(Conn(s.conn[h]))) else Panic
    case ConnExists(h) => Served(s, Some(Flag(h in s.conn)))
    case DeleteConnInfo(h) => Served(s.(conn := s.conn - {h}), Some(Flag(true)))
    case GetHostKeys => Served(s, Some(Keys(s.targets.Keys)))
    case GetConnKeys => Served(s, Some(Keys(s.conn.Keys)))
  }

  /** What GetPTR answers. */
  function NameOf(s: Store, h: string): string { if h in s.ptr then s.ptr[h] else h }

  /* ---------------- what every reachable store satisfies ---------------- */

  /** The requests the program issues: `LoadBlob` (json.go) is the only maker of host records, and
      run.go the only setter of run statuses. */
  predicate Issued(r: Request) {
    match r
    case SetHostInfo(hi) => hi.ipAddress == "" && !hi.runOK && !hi.runOnce
    case SetRunStatus(_, _, once, _, _) => once
    case _ => true
  }

  ghost predicate StoreInv(s: Store) {
    && (forall h :: h in s.targets ==> s.targets[h].hostName == h && (s.targets[h].runOK ==> s.targets[h].runOnce))
    && (forall h :: h in s.conn ==> s.conn[h].hostName == h)
    && (forall h :: h in s.ptr ==> h == "")
  }

  datatype Server = Up(store: Store) | Down

  /** The serializer goroutine, which takes the whole program down when it panics. */
  function Serve(x: Server, r: Request): (Server, Option<Answer>) {
    match x
    case Down => (Down, None)
    case Up(s) =>
      match Apply(s, r)
      case Panic => (Down, None)
      case Served(s', a) => (Up(s'), a)
  }

  ghost predicate ServerInv(x: Server) { x.Up? ==> StoreInv(x.store) }

  lemma ServeKeeps(x: Server, r: Request)
    requires ServerInv(x) && Issued(r)
    ensures ServerInv(Serve(x, r).0)
  {
  }

  const EMPTY := Store(map[], map[], map[], map[], map[], "")

  /** In every state that any number of concurrent clients can bring about, a host that ran
      successfully has run once, and GetPTR is the identity on every name but the empty one. */
  lemma ReachableStores(clients: nat, steps: seq<Serializer.Step<Request>>)
    requires Serializer.Legal(Serve, Serializer.Start<Server, Request, Answer>(Up(EMPTY), clients), steps)
    requires forall e :: e in Serializer.After(Serve, Serializer.Start<Server, Request, Answer>(Up(EMPTY), clients), steps).log
               ==> Issued(e.request)
    ensures var x := Serializer.After(Serve, Serializer.Start<Server, Request, Answer>(Up(EMPTY), clients), steps).store;
      x.Up? ==>
        && (forall h :: h in x.store.targets && x.store.targets[h].runOK ==> x.store.targets[h].runOnce)
        && (forall h :: h != "" ==> NameOf(x.store, h) == h)
  {
    forall x, r | ServerInv(x) && Issued(r) ensures ServerInv(Serve(x, r).0) {
      ServeKeeps(x, r);
    }
    Serializer.RunsKeep(Serve, Up(EMPTY), clients, steps, x => ServerInv(x), r => Issued(r));
  }

  /* ---------------- the object ---------------- */

  function SumWaits(w: map<string, WaitInfo>, clock: string -> nat, keys: seq<string>): nat
    requires forall k :: k in keys ==> k in w && w[k].startTime <= clock(k)
  {
    if keys == [] then 0
    else
      assert keys[|keys| - 1] in keys;
      SumWaits(w, clock, keys[..|keys| - 1]) + (clock(keys[|keys| - 1]) - w[keys[|keys| - 1]].startTime)
  }

  /** How often each state occurs among the listed waiters. */
  function StatesOf(w: map<string, WaitInfo>, keys: seq<string>): (bag: multiset<string>)
    requires forall k :: k in keys ==> k in w
    ensures |bag| == |keys|
  {
    if keys == [] then multiset{}
    else
      assert keys[|keys| - 1] in keys;
      StatesOf(w, keys[..|keys| - 1]) + multiset{w[keys[|keys| - 1]].state}
  }

  /** Those of the waiters that are in a state. */
  ghost function InState(w: map<string, WaitInfo>, among: set<string>, st: string): set<string>
    requires among <= w.Keys
  {
    set k | k in among && w[k].state == st
  }

  lemma OneMoreInState(w: map<string, WaitInfo>, among: set<string>, k: string, st: string)
    requires among <= w.Keys && k in w && k !in among
    ensures |InState(w, among + {k}, st)| == |InState(w, among, st)| + (if w[k].state == st then 1 else 0)
  {
    var before, after := InState(w, among, st), InState(w, among + {k}, st);
    assert after == if w[k].state == st then before + {k} else before;
  }

  /** A state occurs as often as there are waiters in it. */
  lemma {:induction false} StatesOfCounts(w: map<string, WaitInfo>, keys: seq<string>, among: set<string>, st: string)
    requires Enumerates(keys, among) && among <= w.Keys
    ensures StatesOf(w, keys)[st] == |InState(w, among, st)|
  {
    if keys == [] {
      assert InState(w, among, st) == {};
    } else {
      var n := |keys| - 1;
      var front, k := keys[..n], keys[n];
      assert k in keys && k !in front && forall x :: x in keys <==> x in front || x == k;
      StatesOfCounts(w, front, among - {k}, st);
      OneMoreInState(w, among - {k}, k, st);
      assert among - {k} + {k} == among;
    }
  }

  lemma {:induction false} SumWaitsBetween(w: map<string, WaitInfo>, clock: string -> nat, keys: seq<string>, lo: nat, hi: nat)
    requires forall k :: k in keys ==> k in w && w[k].startTime <= clock(k) && lo <= clock(k) - w[k].startTime <= hi
    ensures |keys| * lo <= SumWaits(w, clock, keys) <= |keys| * hi
  {
    if keys != [] {
      var n := |keys| - 1;
      assert keys[n] in keys;
      SumWaitsBetween(w, clock, keys[..n], lo, hi);
      assert |keys| * lo == n * lo + lo && |keys| * hi == n * hi + hi;
    }
  }

  function Average(total: nat, n: nat): nat { if n > 0 then total / n else 0 }

  /** The average wait lies between the shortest and the longest. */
  lemma AverageBetween(w: map<string, WaitInfo>, clock: string -> nat, keys: seq<string>, lo: nat, hi: nat)
    requires keys != []
    requires forall k :: k in keys ==> k in w && w[k].startTime <= clock(k) && lo <= clock(k) - w[k].startTime <= hi
    ensures lo <= Average(SumWaits(w, clock, keys), |keys|) <= hi
  {
    SumWaitsBetween(w, clock, keys, lo, hi);
    QuotientBetween(SumWaits(w, clock, keys), |keys|, lo, hi);
  }

  lemma QuotientBetween(total: nat, n: nat, lo: nat, hi: nat)
    requires n > 0 && n * lo <= total <= n * hi
    ensures lo <= total / n <= hi
  {
    var q := total / n;
    if q < lo {
      MulMonotone(n, q + 1, lo);
    }
  }

  lemma MulMonotone(n: nat, a: nat, b: nat)
    requires a <= b
    ensures n * a <= n * b
  {
    assert n * (b - a) >= 0;
  }

  class State {
    var targets: map<string, HostInfo>
    var conn: map<string, ConnInfo>
    var ptr: map<string, string>
    var connWaiters: map<string, WaitInfo>
    var runWaiters: map<string, WaitInfo>
    var sshAuthPass: string

    function Contents(): Store
      reads this
    {
      Store(targets, conn, ptr, connWaiters, runWaiters, sshAuthPass)
    }

    constructor ()
      ensures Contents() == EMPTY
    {
      targets, conn, ptr, connWaiters, runWaiters, sshAuthPass := map[], map[], map[], map[], map[], "";
    }

    method GetPTR(ip: string) returns (name: string)
      ensures Apply(Contents(), Request.GetPTR(ip)) == Served(Contents(), Some(Name(name)))
    {
      if ip in ptr {
        name := ptr[ip];
      } else {
        name := ip;
      }
    }

    method HostExists(hostName: string) returns (exists_: bool)
      ensures Apply(Contents(), Request.HostExists(hostName)) == Served(Contents(), Some(Flag(exists_)))
    {
      exists_ := hostName in targets;
    }

    /** Asks whether the host exists, then asks for it; None is the error return. */
    method GetHostInfo(hostName: string) returns (hi: Option<HostInfo>)
      ensures hi.None? <==> hostName !in targets
      ensures hi.Some? ==> Apply(Contents(), Request.GetHostInfo(hostName)) == Served(Contents(), Some(Host(hi.value)))
    {
      var found := HostExists(hostName);
      if !found {
        return None;
      }
      hi := Some(targets[hostName]);
    }

    method SetHostInfo(hi: HostInfo)
      modifies this
      ensures Apply(old(Contents()), Request.SetHostInfo(hi)) == Served(Contents(), None)
    {
      targets := targets[hi.hostName := hi];
      ptr := ptr[hi.ipAddress := hi.hostName];
    }

    method ConnExists(hostName: string) returns (exists_: bool)
      ensures Apply(Contents(), Request.ConnExists(hostName)) == Served(Contents(), Some(Flag(exists_)))
    {
      exists_ := hostName in conn;
    }

    method GetConnInfo(hostName: string) returns (ci: Option<ConnInfo>)
      ensures ci.None? <==> hostName !in conn
      ensures ci.Some? ==> Apply(Contents(), Request.GetConnInfo(hostName)) == Served(Contents(), Some(Conn(ci.value)))
    {
      var found := ConnExists(hostName);
      if !found {
        return None;
      }
      ci := Some(conn[hostName]);
    }

    /** Looks the name up first, so the entry is made under the host's name. */
    method SetConnInfo(ci: ConnInfo)
      modifies this`conn
      ensures Apply(old(Contents()), Request.SetConnInfo(ci.(hostName := NameOf(old(Contents()), ci.hostName))))
              == Served(Contents(), None)
    {
      var name := GetPTR(ci.hostName);
      if name !in conn {
        conn := conn[name := ci.(hostName := name)];
      }
    }

    /** False stands for the panic on a missing entry. */
    method IncProxyCount(hostName: string) returns (ok: bool)
      modifies this`conn
      ensures ok ==> Apply(old(Contents()), Request.IncProxyCount(hostName)) == Served(Contents(), None)
      ensures !ok ==> Apply(old(Contents()), Request.IncProxyCount(hostName)) == Panic && Contents() == old(Contents())
    {
      if hostName !in conn {
        return false;
      }
      conn := conn[hostName := conn[hostName].(proxyCount := conn[hostName].proxyCount + 1)];
      ok := true;
    }

    method DeleteConnInfo(hostName: string)
      modifies this`conn
      ensures Apply(old(Contents()), Request.DeleteConnInfo(hostName)) == Served(Contents(), Some(Flag(true)))
    {
      conn := conn - {hostName};
    }

    method GetHostKeys() returns (keys: seq<string>)
      ensures Enumerates(keys, targets.Keys)
    {
      keys := ListKeys(targets.Keys);
    }

    method GetConnKeys() returns (keys: seq<string>)
      ensures Enumerates(keys, conn.Keys)
    {
      keys := ListKeys(conn.Keys);
    }

    /** The `getWaiterInfo` branch. The clocks say what time it is when each waiter is looked at. */
    method GetWaiterInfo(connClock: string -> nat, runClock: string -> nat)
      returns (info: WaiterInfo, ghost connKeys: seq<string>, ghost runKeys: seq<string>)
      requires forall k :: k in connWaiters ==> connWaiters[k].startTime <= connClock(k)
      requires forall k :: k in runWaiters ==> runWaiters[k].startTime <= runClock(k)
      ensures CountsRight(connWaiters, info.connWaiters, info.connStates)
      ensures CountsRight(runWaiters, info.runWaiters, info.runStates)
      ensures Enumerates(connKeys, connWaiters.Keys) && info.connAvgWait == Average(SumWaits(connWaiters, connClock, connKeys), |connKeys|)
      ensures Enumerates(runKeys, runWaiters.Keys) && info.runAvgWait == Average(SumWaits(runWaiters, runClock, runKeys), |runKeys|)
    {
      var conns := ListKeys(connWaiters.Keys);
      EnumerationSize(conns, connWaiters.Keys);
      var connStates, totalConnSince := Tally(connWaiters, connClock, conns);
      TallyCounts(connWaiters, conns, connStates);
      var runs := ListKeys(runWaiters.Keys);
      EnumerationSize(runs, runWaiters.Keys);
      var runStates, totalRunSince := Tally(runWaiters, runClock, runs);
      TallyCounts(runWaiters, runs, runStates);
      connKeys, runKeys := conns, runs;
      info := WaiterInfo(|connWaiters|, |runWaiters|,
                         Average(totalConnSince, |connWaiters|), Average(totalRunSince, |runWaiters|), connStates, runStates);
    }
  }

  datatype WaiterInfo = WaiterInfo(
    connWaiters: nat, runWaiters: nat, connAvgWait: nat, runAvgWait: nat,
    connStates: map<string, nat>, runStates: map<string, nat>)

  /** The number of waiters, and for every state the number of waiters in it. */
  ghost predicate CountsRight(w: map<string, WaitInfo>, waiters: nat, states: map<string, nat>) {
    waiters == |w| && forall st :: (if st in states then states[st] else 0) == |InState(w, w.Keys, st)|
  }

  lemma TallyCounts(w: map<string, WaitInfo>, keys: seq<string>, states: map<string, nat>)
    requires Enumerates(keys, w.Keys) && Tallied(w, keys, states)
    ensures CountsRight(w, |w|, states)
  {
    forall st ensures (if st in states then states[st] else 0) == |InState(w, w.Keys, st)| {
      StatesOfCounts(w, keys, w.Keys, st);
    }
  }

  /** The per-state counts of the listed waiters. */
  ghost predicate Tallied(w: map<string, WaitInfo>, keys: seq<string>, states: map<string, nat>)
    requires forall k :: k in keys ==> k in w
  {
    forall st :: StatesOf(w, keys)[st] == if st in states then states[st] else 0
  }

  lemma OneMoreWaiter(w: map<string, WaitInfo>, clock: string -> nat, keys: seq<string>, states: map<string, nat>)
    requires keys != [] && forall k :: k in keys ==> k in w && w[k].startTime <= clock(k)
    requires forall k :: k in keys[..|keys| - 1] ==> k in keys
    requires Tallied(w, keys[..|keys| - 1], states)
    ensures keys[|keys| - 1] in keys
    ensures SumWaits(w, clock, keys) == SumWaits(w, clock, keys[..|keys| - 1]) + (clock(keys[|keys| - 1]) - w[keys[|keys| - 1]].startTime)
    ensures var st := w[keys[|keys| - 1]].state;
      Tallied(w, keys, states[st := (if st in states then states[st] else 0) + 1])
  {
    assert keys[|keys| - 1] in keys;
  }

  /** The loop over one waiter map. */
  method Tally(w: map<string, WaitInfo>, clock: string -> nat, keys: seq<string>) returns (states: map<string, nat>, total: nat)
    requires forall k :: k in keys ==> k in w && w[k].startTime <= clock(k)
    ensures total == SumWaits(w, clock, keys)
    ensures Tallied(w, keys, states)
  {
    total := 0;
    states := map[];
    for i := 0 to |keys|
      invariant total == SumWaits(w, clock, keys[..i])
      invariant Tallied(w, keys[..i], states)
    {
      assert keys[i] in keys;
      assert keys[..i + 1][..i] == keys[..i];
      OneMoreWaiter(w, clock, keys[..i + 1], states);
      var st := w[keys[i]].state;
      states := states[st := (if st in states then states[st] else 0) + 1];
      total := total + (clock(keys[i]) - w[keys[i]].startTime);
    }
    assert keys[..|keys|] == keys;
  }

  /** A Go `range` over a map: each key once, in no particular order. */
  method ListKeys(s: set<string>) returns (keys: seq<string>)
    ensures Enumerates(keys, s)
  {
    keys := [];
    var rest := s;
    while rest != {}
      invariant rest <= s && NoDup(keys)
      invariant forall k :: k in keys <==> k in s - rest
    {
      var k :| k in rest;
      assert forall i :: 0 <= i < |keys| ==> keys[i] in keys;
      keys := keys + [k];
      rest := rest - {k};
    }
  }
}
