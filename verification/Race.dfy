/** The life of a dial or run request: `proxyConnect` (proxy.go), `runCmd` (run.go) and the
    `timeoutWaiters` branch of the state serializer (state.go).

    Any number of requests share one serializer. A request has four goroutines: the selector
    (the function itself), the worker (dial or remote command), the sleeper (timeout) and a drainer
    that the selector leaves behind. The sleeper and the abort sweep both send on the
    request's timeout channel, which has one slot; the worker's channel has none. */
module Race {
  import opened Prelude

  datatype Kind = Conn | Run

  /** What the requester is told. */
  datatype Outcome = Reply(ok: bool) | TimedOut | Aborted

  /** Where the request function is. `Naming` and `Renaming` are the GetPTR round trips that come
      before the waiter entry is set and deleted. */
  datatype Selector =
    | Naming
    | Registering
    | Starting
    | Selecting
    | Responding(outcome: Outcome)
    | Spawning
    | Renaming
    | Unregistering
    | Returned

  /** `calls` counts the serializer round trips the worker still makes before it delivers. */
  datatype Worker = Unstarted | Working(calls: nat) | Delivering | Delivered

  datatype Sleeper = Unborn | Asleep | Slept

  datatype Drainer = Unspawned | Draining | Drained

  /** Which branch of the select was taken. */
  datatype Source = Undecided | FromWorker | FromTimeout

  /** `buffer` is the timeout channel's slot: true from the sleeper, false from an abort. `sent`
      counts aborts put on the channel, `hits` the sweeps that listed this request. */
  datatype Request = Request(
    kind: Kind, host: string, calls: nat, ok: bool,
    selector: Selector, worker: Worker, sleeper: Sleeper, drainer: Drainer,
    source: Source, buffer: Option<bool>, responses: seq<Outcome>,
    sent: nat, hits: nat)

  /** `Sweeping(todo)`: the serializer is inside the `timeoutWaiters` branch and still has to send
      to `todo`, in this order; it blocks on the first one. */
  datatype Serializer = Idle | Sweeping(todo: seq<nat>)

  /** `aborts` is how many times TimeoutWaiters is still going to be called. */
  datatype System = System(
    reqs: seq<Request>,
    connWaiters: map<string, nat>,
    runWaiters: map<string, nat>,
    serializer: Serializer,
    aborts: nat)

  datatype Move =
    | Name | Register | Start | TakeReply | TakeTimeout | Respond | Spawn | Rename | Unregister
    | Call | Compute | Wake | DrainTimeout | DrainReply

  datatype Step =
    | Local(i: nat, move: Move)
    | BeginSweep(connKeys: seq<string>, runKeys: seq<string>)
    | SweepSend
    | EndSweep

  /* ---------------- one request ---------------- */

  function Fresh(kind: Kind, host: string, calls: nat, ok: bool): Request {
    Request(kind, host, calls, ok, Naming, Unstarted, Unborn, Unspawned, Undecided, None, [], 0, 0)
  }

  /** These moves are a rendezvous with the serializer, so they wait until it is idle. */
  predicate NeedsSerializer(m: Move) {
    m.Name? || m.Register? || m.Rename? || m.Unregister? || m.Call?
  }

  predicate CanMove(r: Request, m: Move) {
    match m
    case Name => r.selector.Naming?
    case Register => r.selector.Registering?
    case Start => r.selector.Starting?
    case TakeReply => r.selector.Selecting? && r.worker.Delivering?
    case TakeTimeout => r.selector.Selecting? && r.buffer.Some?
    case Respond => r.selector.Responding? && r.responses == []
    case Spawn => r.selector.Spawning?
    case Rename => r.selector.Renaming?
    case Unregister => r.selector.Unregistering?
    case Call => r.worker.Working? && r.worker.calls > 0
    case Compute => r.worker.Working? && r.worker.calls == 0
    case Wake => r.sleeper.Asleep? && r.buffer.None?
    case DrainTimeout => r.drainer.Draining? && r.source.FromWorker? && r.buffer.Some?
    case DrainReply => r.drainer.Draining? && r.source.FromTimeout? && r.worker.Delivering?
  }

  function Moved(r: Request, m: Move): Request
    requires CanMove(r, m)
  {
    match m
    case Name => r.(selector := Registering)
    case Register => r.(selector := Starting)
    case Start => r.(selector := Selecting, worker := Working(r.calls), sleeper := Asleep)
    case TakeReply => r.(selector := Responding(Reply(r.ok)), worker := Delivered, source := FromWorker)
    case TakeTimeout =>
      r.(selector := Responding(if r.buffer.value then TimedOut else Aborted),
         buffer := None, source := FromTimeout)
    case Respond => r.(selector := Spawning, responses := r.responses + [r.selector.outcome])
    case Spawn => r.(selector := Renaming, drainer := Draining)
    case Rename => r.(selector := Unregistering)
    case Unregister => r.(selector := Returned)
    case Call => r.(worker := Working(r.worker.calls - 1))
    case Compute => r.(worker := Delivering)
    case Wake => r.(sleeper := Slept, buffer := Some(true))
    case DrainTimeout => r.(drainer := Drained, buffer := None)
    case DrainReply => r.(drainer := Drained, worker := Delivered)
  }

  predicate Early(r: Request) {
    r.selector.Naming? || r.selector.Registering? || r.selector.Starting?
  }

  /** The request's waiter entry has been set and not yet deleted by the request itself. */
  predicate Registered(r: Request) {
    !r.selector.Naming? && !r.selector.Registering? && !r.selector.Returned?
  }

  predicate Answered(r: Request) {
    r.selector.Spawning? || r.selector.Renaming? || r.selector.Unregistering? || r.selector.Returned?
  }

  function One(b: bool): nat { if b then 1 else 0 }

  /** Values received from the timeout channel so far. */
  function Taken(r: Request): nat {
    One(r.source.FromTimeout? || (r.source.FromWorker? && r.drainer.Drained?))
  }

  /** What every step keeps for one request; `swept` says that a sweep still has to send to it. The
      fourth line is the token count of the timeout channel: in the slot + received = sent. */
  ghost predicate RequestInv(r: Request, swept: bool) {
    && r.hits == r.sent + One(swept)
    && (swept ==> Registered(r))
    && (r.hits > 0 ==> !r.selector.Naming? && !r.selector.Registering?)
    && One(r.buffer.Some?) + Taken(r) == One(r.sleeper.Slept?) + r.sent
    && (r.worker.Unstarted? <==> Early(r))
    && (r.sleeper.Unborn? <==> Early(r))
    && (r.source.Undecided? <==> Early(r) || r.selector.Selecting?)
    && (r.drainer.Unspawned? <==> Early(r) || r.selector.Selecting? || r.selector.Responding? || r.selector.Spawning?)
    && (r.worker.Delivered? <==> r.source.FromWorker? || (r.source.FromTimeout? && r.drainer.Drained?))
    && |r.responses| == One(Answered(r))
    && (r.buffer == Some(false) ==> r.sent > 0)
    && (r.buffer == Some(true) ==> r.sleeper.Slept?)
    && (r.selector.Responding? ==> Truthful(r, r.selector.outcome))
    && (Answered(r) ==> Truthful(r, r.responses[0]))
  }

  /** A reply carries the worker's own result, and "aborted" is said only of a request that a sweep hit. */
  predicate Truthful(r: Request, o: Outcome) {
    match o
    case Reply(ok) => r.source.FromWorker? && ok == r.ok
    case TimedOut => r.source.FromTimeout? && r.sleeper.Slept?
    case Aborted => r.source.FromTimeout? && r.sent > 0
  }

  /** Every goroutine of the request has returned and it has been answered once. */
  predicate Finished(r: Request) {
    r.selector.Returned? && r.worker.Delivered? && r.sleeper.Slept? && r.drainer.Drained? && |r.responses| == 1
  }

  function Weight(r: Request): nat {
    (match r.selector
     case Naming => 8
     case Registering => 7
     case Starting => 6
     case Selecting => 5
     case Responding(_) => 4
     case Spawning => 3
     case Renaming => 2
     case Unregistering => 1
     case Returned => 0)
    + (match r.worker
       case Unstarted => r.calls + 3
       case Working(c) => c + 2
       case Delivering => 1
       case Delivered => 0)
    + (match r.sleeper case Unborn => 2 case Asleep => 1 case Slept => 0)
    + (match r.drainer case Unspawned => 2 case Draining => 1 case Drained => 0)
  }

  predicate IsSelectorMove(m: Move) {
    m.Name? || m.Register? || m.Start? || m.Respond? || m.Spawn? || m.Rename? || m.Unregister?
  }

  lemma SelectorMoveKeeps(r: Request, m: Move, swept: bool)
    requires RequestInv(r, swept) && CanMove(r, m) && (swept ==> !NeedsSerializer(m)) && IsSelectorMove(m)
    ensures RequestInv(Moved(r, m), swept)
  {
    assert m.Respond? ==> Moved(r, m).responses == [r.selector.outcome];
  }

  lemma OtherMoveKeeps(r: Request, m: Move, swept: bool)
    requires RequestInv(r, swept) && CanMove(r, m) && (swept ==> !NeedsSerializer(m)) && !IsSelectorMove(m)
    ensures RequestInv(Moved(r, m), swept)
  {
  }

  lemma MoveShrinks(r: Request, m: Move, swept: bool)
    requires RequestInv(r, swept) && CanMove(r, m)
    ensures Weight(Moved(r, m)) < Weight(r)
  {
  }

  lemma MoveKeeps(r: Request, m: Move, swept: bool)
    requires RequestInv(r, swept) && CanMove(r, m) && (swept ==> !NeedsSerializer(m))
    ensures RequestInv(Moved(r, m), swept) && Weight(Moved(r, m)) < Weight(r)
  {
    MoveShrinks(r, m, swept);
    if IsSelectorMove(m) {
      SelectorMoveKeeps(r, m, swept);
    } else {
      OtherMoveKeeps(r, m, swept);
    }
  }

  /** A request that is not finished and has been hit at most once can always take a step, except
      that it may have to wait for the serializer. */
  lemma NextMove(r: Request, swept: bool) returns (m: Move)
    requires RequestInv(r, swept) && r.hits <= 1 && !Finished(r)
    ensures CanMove(r, m)
  {
    match r.selector {
      case Naming => m := Name;
      case Registering => m := Register;
      case Starting => m := Start;
      case Responding(_) => m := Respond;
      case Spawning => m := Spawn;
      case Renaming => m := Rename;
      case Unregistering => m := Unregister;
      case _ =>
        if r.worker.Working? {
          m := if r.worker.calls > 0 then Call else Compute;
        } else if r.selector.Selecting? {
          m := TakeReply;
        } else if r.drainer.Draining? && r.source.FromTimeout? {
          m := DrainReply;
        } else if r.drainer.Draining? && r.buffer.Some? {
          m := DrainTimeout;
        } else {
          m := Wake;
        }
    }
  }

  /** If the sweep is blocked on a request hit only once, that request itself makes room. */
  lemma Unblocks(r: Request) returns (m: Move)
    requires RequestInv(r, true) && r.hits <= 1 && r.buffer.Some?
    ensures CanMove(r, m) && !NeedsSerializer(m)
  {
    if r.selector.Selecting? {
      m := TakeTimeout;
    } else if r.selector.Responding? {
      m := Respond;
    } else if r.selector.Spawning? {
      m := Spawn;
    } else {
      m := DrainTimeout;
    }
  }

  /* ---------------- all requests and the serializer ---------------- */

  function Waiters(s: System, k: Kind): map<string, nat> {
    if k.Conn? then s.connWaiters else s.runWaiters
  }

  function SetWaiters(s: System, k: Kind, w: map<string, nat>): System {
    if k.Conn? then s.(connWaiters := w) else s.(runWaiters := w)
  }

  function Lookup(keys: seq<string>, m: map<string, nat>): (ids: seq<nat>)
    requires forall k :: k in keys ==> k in m
    ensures |ids| == |keys| && forall j :: 0 <= j < |keys| ==> ids[j] == m[keys[j]]
  {
    seq(|keys|, j requires 0 <= j < |keys| => assert keys[j] in keys; m[keys[j]])
  }

  /** A sweep has listed the requests in `todo`. */
  function Listed(reqs: seq<Request>, todo: seq<nat>): (hit: seq<Request>)
    ensures |hit| == |reqs| && forall i :: 0 <= i < |reqs| ==>
      hit[i] == if i in todo then reqs[i].(hits := reqs[i].hits + 1) else reqs[i]
  {
    seq(|reqs|, i requires 0 <= i < |reqs| => if i in todo then reqs[i].(hits := reqs[i].hits + 1) else reqs[i])
  }

  ghost predicate Enabled(s: System, step: Step) {
    match step
    case Local(i, m) =>
      i < |s.reqs| && CanMove(s.reqs[i], m) && (NeedsSerializer(m) ==> s.serializer.Idle?)
    case BeginSweep(connKeys, runKeys) =>
      s.serializer.Idle? && s.aborts > 0
      && Enumerates(connKeys, s.connWaiters.Keys) && Enumerates(runKeys, s.runWaiters.Keys)
      && forall k :: (k in s.connWaiters ==> s.connWaiters[k] < |s.reqs|)
                     && (k in s.runWaiters ==> s.runWaiters[k] < |s.reqs|)
    case SweepSend =>
      s.serializer.Sweeping? && s.serializer.todo != []
      && s.serializer.todo[0] < |s.reqs| && s.reqs[s.serializer.todo[0]].buffer.None?
    case EndSweep => s.serializer == Sweeping([])
  }

  ghost function Next(s: System, step: Step): System
    requires Enabled(s, step)
  {
    match step
    case Local(i, m) =>
      var r := s.reqs[i];
      var s1 := s.(reqs := s.reqs[i := Moved(r, m)]);
      if m.Register? then SetWaiters(s1, r.kind, Waiters(s, r.kind)[r.host := i])
      else if m.Unregister? then SetWaiters(s1, r.kind, Waiters(s, r.kind) - {r.host})
      else s1
    case BeginSweep(connKeys, runKeys) =>
      var todo := Lookup(connKeys, s.connWaiters) + Lookup(runKeys, s.runWaiters);
      s.(serializer := Sweeping(todo), aborts := s.aborts - 1,
         reqs := Listed(s.reqs, todo))
    case SweepSend =>
      var i := s.serializer.todo[0];
      var r := s.reqs[i];
      s.(serializer := Sweeping(s.serializer.todo[1..]),
         reqs := s.reqs[i := r.(buffer := Some(false), sent := r.sent + 1)])
    case EndSweep => s.(serializer := Idle)
  }

  ghost predicate Init(s: System) {
    s.connWaiters == map[] && s.runWaiters == map[] && s.serializer.Idle?
    && forall i :: 0 <= i < |s.reqs| ==>
         s.reqs[i] == Fresh(s.reqs[i].kind, s.reqs[i].host, s.reqs[i].calls, s.reqs[i].ok)
  }

  /** A run: every step is enabled where it is taken. */
  ghost predicate Legal(s: System, steps: seq<Step>)
    decreases |steps|, 0
  {
    steps == [] || (Legal(s, steps[..|steps| - 1]) && Enabled(After(s, steps[..|steps| - 1]), steps[|steps| - 1]))
  }

  ghost function After(s: System, steps: seq<Step>): System
    requires Legal(s, steps)
    decreases |steps|, 1
  {
    if steps == [] then s else Next(After(s, steps[..|steps| - 1]), steps[|steps| - 1])
  }

  ghost predicate Stuck(s: System) {
    forall step :: !Enabled(s, step)
  }

  /** No goroutine is left, no waiter entry is left, every request was answered once. */
  ghost predicate Clean(s: System) {
    s.serializer.Idle? && s.aborts == 0 && s.connWaiters == map[] && s.runWaiters == map[]
    && forall i :: 0 <= i < |s.reqs| ==> Finished(s.reqs[i])
  }

  ghost predicate HitAtMostOnce(s: System) {
    forall i :: 0 <= i < |s.reqs| ==> s.reqs[i].hits <= 1
  }

  predicate Swept(s: System, i: nat) {
    s.serializer.Sweeping? && i in s.serializer.todo
  }

  /** Every waiter entry is that of a request which has registered and not yet unregistered. */
  ghost predicate WaitersLive(s: System) {
    forall k, h :: h in Waiters(s, k) ==>
      var i := Waiters(s, k)[h];
      i < |s.reqs| && s.reqs[i].kind == k && s.reqs[i].host == h && Registered(s.reqs[i])
  }

  ghost predicate SweepValid(s: System) {
    s.serializer.Sweeping? ==>
      NoDup(s.serializer.todo) && forall i :: i in s.serializer.todo ==> i < |s.reqs|
  }

  ghost predicate Inv(s: System) {
    WaitersLive(s) && SweepValid(s)
    && forall i :: 0 <= i < |s.reqs| ==> RequestInv(s.reqs[i], Swept(s, i))
  }

  function Weights(reqs: seq<Request>): (w: seq<nat>)
    ensures |w| == |reqs|
  {
    seq(|reqs|, i requires 0 <= i < |reqs| => Weight(reqs[i]))
  }

  /** A sweep over n requests takes at most n + 2 steps. */
  function SweepCost(aborts: nat, n: nat): nat {
    if aborts == 0 then 0 else SweepCost(aborts - 1, n) + n + 2
  }

  lemma {:induction false} SweepCostIs(aborts: nat, n: nat)
    ensures SweepCost(aborts, n) == aborts * (n + 2)
  {
    if aborts > 0 {
      SweepCostIs(aborts - 1, n);
      assert aborts * (n + 2) == (aborts - 1) * (n + 2) + n + 2;
    }
  }

  /** Bounds the number of steps still to come. */
  function Measure(s: System): nat {
    Sum(Weights(s.reqs)) + SweepCost(s.aborts, |s.reqs|)
    + (if s.serializer.Sweeping? then |s.serializer.todo| + 1 else 0)
  }

  /** Replacing one request keeps the invariant and lowers the measure if it does so for that request. */
  lemma ReplaceKeeps(s: System, t: System, i: nat, r: Request)
    requires Inv(s) && i < |s.reqs|
    requires t.reqs == s.reqs[i := r] && t.serializer == s.serializer && t.aborts == s.aborts
    requires RequestInv(r, Swept(s, i)) && Weight(r) < Weight(s.reqs[i])
    requires WaitersLive(t)
    ensures Inv(t) && Measure(t) < Measure(s)
  {
    assert Weights(t.reqs) == Weights(s.reqs)[i := Weight(r)];
    SumUpdate(Weights(s.reqs), i, Weight(r));
  }

  lemma MovedSame(r: Request, m: Move)
    requires CanMove(r, m)
    ensures Moved(r, m).kind == r.kind && Moved(r, m).host == r.host
    ensures m.Register? || (Registered(r) && !m.Unregister?) ==> Registered(Moved(r, m))
  {
  }

  lemma WaitersStayLive(s: System, i: nat, m: Move)
    requires WaitersLive(s) && Enabled(s, Local(i, m))
    ensures WaitersLive(Next(s, Local(i, m)))
  {
    var r, t := s.reqs[i], Next(s, Local(i, m));
    MovedSame(r, m);
    forall k, h | h in Waiters(t, k)
      ensures var j := Waiters(t, k)[h];
        j < |t.reqs| && t.reqs[j].kind == k && t.reqs[j].host == h && Registered(t.reqs[j])
    {
      assert h in Waiters(s, k) || (m.Register? && k == r.kind && h == r.host);
    }
  }

  lemma LocalKeeps(s: System, i: nat, m: Move)
    requires Inv(s) && Enabled(s, Local(i, m))
    ensures Inv(Next(s, Local(i, m)))
    ensures Measure(Next(s, Local(i, m))) < Measure(s)
  {
    MoveKeeps(s.reqs[i], m, Swept(s, i));
    WaitersStayLive(s, i, m);
    ReplaceKeeps(s, Next(s, Local(i, m)), i, Moved(s.reqs[i], m));
  }

  /** A sweep lists distinct, registered requests of the map's kind. */
  lemma LookupValid(s: System, k: Kind, keys: seq<string>)
    requires WaitersLive(s) && Enumerates(keys, Waiters(s, k).Keys)
    ensures var ids := Lookup(keys, Waiters(s, k));
      NoDup(ids) && forall x :: x in ids ==> x < |s.reqs| && s.reqs[x].kind == k && Registered(s.reqs[x])
  {
    var ids := Lookup(keys, Waiters(s, k));
    assert forall j :: 0 <= j < |keys| ==> keys[j] in Waiters(s, k);
  }

  /** The targets of a sweep, connection waiters first. */
  lemma TargetsValid(s: System, a: seq<nat>, b: seq<nat>)
    requires NoDup(a) && forall x :: x in a ==> x < |s.reqs| && s.reqs[x].kind.Conn? && Registered(s.reqs[x])
    requires NoDup(b) && forall x :: x in b ==> x < |s.reqs| && s.reqs[x].kind.Run? && Registered(s.reqs[x])
    ensures NoDup(a + b) && forall x :: x in a + b ==> x < |s.reqs| && Registered(s.reqs[x])
  {
    forall i, j | 0 <= i < j < |a + b|
      ensures (a + b)[i] != (a + b)[j]
    {
      if i < |a| <= j {
        assert a[i] in a && b[j - |a|] in b;
      }
    }
  }

  lemma HitKeeps(r: Request, listed: bool)
    requires RequestInv(r, false) && (listed ==> Registered(r))
    ensures RequestInv(if listed then r.(hits := r.hits + 1) else r, listed)
  {
  }

  /** The waiter maps stay live when they and what they say of the requests stay the same. */
  lemma SameWaiters(s: System, t: System)
    requires WaitersLive(s) && t.connWaiters == s.connWaiters && t.runWaiters == s.runWaiters && |t.reqs| == |s.reqs|
    requires forall i :: 0 <= i < |s.reqs| ==>
      t.reqs[i].kind == s.reqs[i].kind && t.reqs[i].host == s.reqs[i].host && t.reqs[i].selector == s.reqs[i].selector
    ensures WaitersLive(t)
  {
    forall k, h | h in Waiters(t, k)
      ensures var i := Waiters(t, k)[h];
        i < |t.reqs| && t.reqs[i].kind == k && t.reqs[i].host == h && Registered(t.reqs[i])
    {
      assert h in Waiters(s, k) && Waiters(t, k)[h] == Waiters(s, k)[h];
    }
  }

  /** Starting a sweep over distinct registered requests keeps the invariant. */
  lemma SweepStarts(s: System, t: System, todo: seq<nat>)
    requires Inv(s) && s.serializer.Idle? && s.aborts > 0
    requires NoDup(todo) && forall x :: x in todo ==> x < |s.reqs| && Registered(s.reqs[x])
    requires t == System(Listed(s.reqs, todo), s.connWaiters, s.runWaiters, Sweeping(todo), s.aborts - 1)
    ensures Inv(t)
  {
    forall i | 0 <= i < |s.reqs|
      ensures RequestInv(t.reqs[i], Swept(t, i))
    {
      HitKeeps(s.reqs[i], i in todo);
    }
    SameWaiters(s, t);
  }

  lemma SweepUsesUpAnAbort(s: System, t: System, todo: seq<nat>)
    requires s.serializer.Idle? && s.aborts > 0
    requires NoDup(todo) && forall x :: x in todo ==> x < |s.reqs|
    requires t == System(Listed(s.reqs, todo), s.connWaiters, s.runWaiters, Sweeping(todo), s.aborts - 1)
    ensures Measure(t) < Measure(s)
  {
    var n := |s.reqs|;
    assert |todo| <= n by { NoDupBound(todo, n); }
    assert Weights(t.reqs) == Weights(s.reqs) by { HitsWeighNothing(s.reqs, todo); }
    assert |t.reqs| == n;
    assert SweepCost(s.aborts, n) == SweepCost(t.aborts, n) + n + 2;
  }

  lemma HitsWeighNothing(reqs: seq<Request>, todo: seq<nat>)
    ensures Weights(Listed(reqs, todo)) == Weights(reqs)
  {
    var hit := Listed(reqs, todo);
    forall i | 0 <= i < |reqs| ensures Weights(hit)[i] == Weights(reqs)[i] {
      HitWeighsNothing(reqs[i], i in todo);
    }
  }

  lemma HitWeighsNothing(r: Request, listed: bool)
    ensures Weight(if listed then r.(hits := r.hits + 1) else r) == Weight(r)
  {
  }

  lemma BeginSweepKeeps(s: System, connKeys: seq<string>, runKeys: seq<string>)
    requires Inv(s) && Enabled(s, BeginSweep(connKeys, runKeys))
    ensures Inv(Next(s, BeginSweep(connKeys, runKeys)))
    ensures Measure(Next(s, BeginSweep(connKeys, runKeys))) < Measure(s)
  {
    var a, b := Lookup(connKeys, s.connWaiters), Lookup(runKeys, s.runWaiters);
    LookupValid(s, Conn, connKeys);
    LookupValid(s, Run, runKeys);
    TargetsValid(s, a, b);
    SweepStarts(s, Next(s, BeginSweep(connKeys, runKeys)), a + b);
    SweepUsesUpAnAbort(s, Next(s, BeginSweep(connKeys, runKeys)), a + b);
  }

  lemma SendKeeps(r: Request)
    requires RequestInv(r, true) && r.buffer.None?
    ensures RequestInv(r.(buffer := Some(false), sent := r.sent + 1), false)
    ensures Weight(r.(buffer := Some(false), sent := r.sent + 1)) == Weight(r)
  {
  }

  lemma SweepSendKeeps(s: System)
    requires Inv(s) && Enabled(s, SweepSend)
    ensures Inv(Next(s, SweepSend))
    ensures Measure(Next(s, SweepSend)) < Measure(s)
  {
    var t := Next(s, SweepSend);
    var todo := s.serializer.todo;
    assert Swept(s, todo[0]) && forall x :: x in todo[1..] ==> x in todo;
    SendKeeps(s.reqs[todo[0]]);
    assert Weights(t.reqs) == Weights(s.reqs);
    SameWaiters(s, t);
    forall i | 0 <= i < |s.reqs|
      ensures RequestInv(t.reqs[i], Swept(t, i))
    {
      assert i in todo <==> i == todo[0] || i in todo[1..];
    }
  }

  lemma StepKeeps(s: System, step: Step)
    requires Inv(s) && Enabled(s, step)
    ensures Inv(Next(s, step))
    ensures Measure(Next(s, step)) < Measure(s)
  {
    match step
    case Local(i, m) => LocalKeeps(s, i, m);
    case BeginSweep(ck, rk) => BeginSweepKeeps(s, ck, rk);
    case SweepSend => SweepSendKeeps(s);
    case EndSweep => SameWaiters(s, Next(s, step));
  }

  /** Every run keeps the invariant, and no run is longer than the measure of its first state. */
  lemma {:induction false} RunsAreSafeAndBounded(s: System, steps: seq<Step>)
    requires Init(s) && Legal(s, steps)
    ensures Inv(After(s, steps))
    ensures |steps| + Measure(After(s, steps)) <= Measure(s)
  {
    if steps != [] {
      var n := |steps| - 1;
      RunsAreSafeAndBounded(s, steps[..n]);
      StepKeeps(After(s, steps[..n]), steps[n]);
    }
  }

  lemma Extend(s: System, steps: seq<Step>, step: Step) returns (longer: seq<Step>)
    requires Legal(s, steps) && Enabled(After(s, steps), step)
    ensures Legal(s, longer) && After(s, longer) == Next(After(s, steps), step)
  {
    longer := steps + [step];
    assert longer[..|steps|] == steps;
  }

  /* ---------------- what runs end in ---------------- */

  /** While no request has been hit twice, some goroutine can step unless all have returned; in
      particular a blocked sweep is always waited for by someone who can move. */
  lemma Progress(s: System) returns (step: Step)
    requires Inv(s) && HitAtMostOnce(s) && !Clean(s)
    ensures Enabled(s, step)
  {
    if s.serializer.Sweeping? {
      if s.serializer.todo == [] {
        step := EndSweep;
      } else {
        var i := s.serializer.todo[0];
        assert Swept(s, i);
        if s.reqs[i].buffer.None? {
          step := SweepSend;
        } else {
          var m := Unblocks(s.reqs[i]);
          step := Local(i, m);
        }
      }
    } else if i :| 0 <= i < |s.reqs| && !Finished(s.reqs[i]) {
      var m := NextMove(s.reqs[i], Swept(s, i));
      step := Local(i, m);
    } else {
      NoWaitersLeft(s);
      step := BeginSweep([], []);
    }
  }

  lemma NotStuck(s: System)
    requires Inv(s) && HitAtMostOnce(s) && !Clean(s)
    ensures !Stuck(s)
  {
    var step := Progress(s);
    assert Enabled(s, step);
  }

  /** Once every request has returned, both waiter maps are empty. */
  lemma NoWaitersLeft(s: System)
    requires WaitersLive(s) && forall i :: 0 <= i < |s.reqs| ==> s.reqs[i].selector.Returned?
    ensures s.connWaiters == map[] && s.runWaiters == map[]
  {
    assert WaitersLive(s);
    assert Waiters(s, Conn) == s.connWaiters && Waiters(s, Run) == s.runWaiters;
    assert s.connWaiters.Keys == {} && s.runWaiters.Keys == {};
  }

  lemma SecondHitLeaks(s: System, i: nat)
    requires Inv(s) && i < |s.reqs| && s.reqs[i].hits >= 2
    ensures !s.reqs[i].sleeper.Slept? || Swept(s, i)
  {
    assert RequestInv(s.reqs[i], Swept(s, i));
  }

  lemma {:induction false} LegalPrefix(s: System, steps: seq<Step>, n: nat)
    requires Legal(s, steps) && n <= |steps|
    ensures Legal(s, steps[..n])
  {
    if n < |steps| {
      LegalPrefix(s, steps[..|steps| - 1], n);
      assert steps[..|steps| - 1][..n] == steps[..n];
    } else {
      assert steps[..n] == steps;
    }
  }

  /** Sweeps are not forgotten, and each uses up an abort. */
  lemma StepHits(s: System, step: Step, i: nat)
    requires Enabled(s, step) && i < |s.reqs|
    ensures |Next(s, step).reqs| == |s.reqs| && s.reqs[i].hits <= Next(s, step).reqs[i].hits
    ensures Next(s, step).reqs[i].hits + Next(s, step).aborts <= s.reqs[i].hits + s.aborts
  {
  }

  lemma {:induction false} HitsGrow(s: System, steps: seq<Step>, n: nat, i: nat)
    requires Legal(s, steps) && n <= |steps| && i < |s.reqs|
    ensures Legal(s, steps[..n]) && |After(s, steps[..n]).reqs| == |After(s, steps).reqs| == |s.reqs|
    ensures After(s, steps[..n]).reqs[i].hits <= After(s, steps).reqs[i].hits
    ensures After(s, steps).reqs[i].hits + After(s, steps).aborts
         <= After(s, steps[..n]).reqs[i].hits + After(s, steps[..n]).aborts
  {
    LegalPrefix(s, steps, n);
    RequestsPersist(s, steps);
    if n < |steps| {
      var front := steps[..|steps| - 1];
      HitsGrow(s, front, n, i);
      assert front[..n] == steps[..n];
      StepHits(After(s, front), steps[|steps| - 1], i);
    } else {
      assert steps[..n] == steps;
    }
  }

  /** From a request's second hit on, in every continuation of the run, either its sleeper has not got its
      value out, or the serializer is still to send to it: the run never ends cleanly. */
  lemma SecondHitLeaksASender(s: System, steps: seq<Step>, n: nat, i: nat)
    requires Init(s) && Legal(s, steps) && n <= |steps| && i < |s.reqs|
    requires Legal(s, steps[..n]) && i < |After(s, steps[..n]).reqs| && After(s, steps[..n]).reqs[i].hits >= 2
    ensures i < |After(s, steps).reqs|
    ensures !After(s, steps).reqs[i].sleeper.Slept? || Swept(After(s, steps), i)
    ensures !Clean(After(s, steps))
  {
    HitsGrow(s, steps, n, i);
    RunsAreSafeAndBounded(s, steps);
    SecondHitLeaks(After(s, steps), i);
  }

  /** A run that cannot go on has ended cleanly (every goroutine gone, one answer each, no waiter
      entry, serializer idle) exactly when no request was hit by two sweeps. */
  lemma MaximalRunIsCleanIff(s: System, steps: seq<Step>)
    requires Init(s) && Legal(s, steps) && Stuck(After(s, steps))
    ensures Clean(After(s, steps)) <==> HitAtMostOnce(After(s, steps))
  {
    RunsAreSafeAndBounded(s, steps);
    var t := After(s, steps);
    if HitAtMostOnce(t) && !Clean(t) {
      NotStuck(t);
    }
    if Clean(t) {
      forall i | 0 <= i < |t.reqs|
        ensures t.reqs[i].hits <= 1
      {
        assert RequestInv(t.reqs[i], Swept(t, i));
      }
    }
  }

  /** With no more than one abort every run that cannot go on has ended cleanly. */
  lemma OneAbortIsHarmless(s: System, steps: seq<Step>)
    requires Init(s) && s.aborts <= 1 && Legal(s, steps) && Stuck(After(s, steps))
    ensures Clean(After(s, steps))
  {
    RequestsPersist(s, steps);
    forall i | 0 <= i < |s.reqs| ensures After(s, steps).reqs[i].hits <= 1 {
      HitsGrow(s, steps, 0, i);
    }
    MaximalRunIsCleanIff(s, steps);
  }

  /** In every reachable state a request has had at most one answer; the answer is the worker's own
      result, a timeout, only if the sleeper has fired, or, only if a sweep sent to this request, an abort. */
  lemma AnswersAreSingleAndTrue(s: System, steps: seq<Step>, i: nat)
    requires Init(s) && Legal(s, steps) && i < |s.reqs|
    ensures |After(s, steps).reqs| == |s.reqs|
    ensures var r := After(s, steps).reqs[i];
      |r.responses| <= 1
      && (Reply(!s.reqs[i].ok) !in r.responses)
      && (TimedOut in r.responses ==> r.sleeper.Slept?)
      && (Aborted in r.responses ==> r.hits > 0)
  {
    RunsAreSafeAndBounded(s, steps);
    RequestsPersist(s, steps);
    AnswerIsTrue(After(s, steps).reqs[i], Swept(After(s, steps), i));
  }

  lemma AnswerIsTrue(r: Request, swept: bool)
    requires RequestInv(r, swept)
    ensures |r.responses| <= 1 && Reply(!r.ok) !in r.responses && (Aborted in r.responses ==> r.hits > 0)
    ensures TimedOut in r.responses ==> r.sleeper.Slept?
  {
    assert Answered(r) ==> r.responses == [r.responses[0]];
  }

  /** The same requests, however far they have come. */
  ghost predicate SameRequests(s: System, t: System) {
    |t.reqs| == |s.reqs| && forall i :: 0 <= i < |s.reqs| ==>
      t.reqs[i].ok == s.reqs[i].ok && t.reqs[i].kind == s.reqs[i].kind && t.reqs[i].host == s.reqs[i].host
  }

  lemma StepPersists(s: System, step: Step)
    requires Enabled(s, step)
    ensures SameRequests(s, Next(s, step))
  {
  }

  lemma {:induction false} RequestsPersist(s: System, steps: seq<Step>)
    requires Legal(s, steps)
    ensures SameRequests(s, After(s, steps))
  {
    if steps != [] {
      RequestsPersist(s, steps[..|steps| - 1]);
      StepPersists(After(s, steps[..|steps| - 1]), steps[|steps| - 1]);
    }
  }

  /** The number of steps of any run is bounded by what the requests and aborts bring with them. */
  function Budget(reqs: seq<Request>): nat {
    if reqs == [] then 0 else Budget(reqs[..|reqs| - 1]) + reqs[|reqs| - 1].calls + 15
  }

  lemma {:induction false} BudgetIsInitialWeight(reqs: seq<Request>)
    requires forall i :: 0 <= i < |reqs| ==> reqs[i] == Fresh(reqs[i].kind, reqs[i].host, reqs[i].calls, reqs[i].ok)
    ensures Sum(Weights(reqs)) == Budget(reqs)
  {
    if reqs != [] {
      var n := |reqs| - 1;
      BudgetIsInitialWeight(reqs[..n]);
      assert Weights(reqs)[..n] == Weights(reqs[..n]);
      assert Weights(reqs)[n] == reqs[n].calls + 15;
    }
  }

  lemma RunLength(s: System, steps: seq<Step>)
    requires Init(s) && Legal(s, steps)
    ensures |steps| <= Budget(s.reqs) + s.aborts * (|s.reqs| + 2)
  {
    RunsAreSafeAndBounded(s, steps);
    BudgetIsInitialWeight(s.reqs);
    SweepCostIs(s.aborts, |s.reqs|);
  }

  /** Every waiter entry, in every reachable state, is that of a request in flight, even when
      requests for one host overlap and overwrite or delete each other's entry. */
  lemma WaiterEntriesAreInFlight(s: System, steps: seq<Step>, k: Kind, h: string)
    requires Init(s) && Legal(s, steps) && h in Waiters(After(s, steps), k)
    ensures var t := After(s, steps); var i := Waiters(t, k)[h];
      i < |t.reqs| && t.reqs[i].kind == k && t.reqs[i].host == h && Registered(t.reqs[i])
  {
    RunsAreSafeAndBounded(s, steps);
  }

  /** The converse needs requests of one kind to have different hosts. */
  ghost predicate DistinctHosts(s: System) {
    forall i, j :: 0 <= i < j < |s.reqs| && s.reqs[i].kind == s.reqs[j].kind ==> s.reqs[i].host != s.reqs[j].host
  }

  ghost predicate Covered(s: System) {
    forall i :: 0 <= i < |s.reqs| && Registered(s.reqs[i]) ==>
      s.reqs[i].host in Waiters(s, s.reqs[i].kind) && Waiters(s, s.reqs[i].kind)[s.reqs[i].host] == i
  }

  /** With different hosts every request in flight has its entry, so an abort reaches all of them. */
  lemma {:induction false} InFlightIsCovered(s: System, steps: seq<Step>)
    requires Init(s) && Legal(s, steps) && DistinctHosts(s)
    ensures Covered(After(s, steps))
  {
    if steps != [] {
      var n := |steps| - 1;
      InFlightIsCovered(s, steps[..n]);
      RequestsPersist(s, steps[..n]);
      StepCovers(After(s, steps[..n]), steps[n]);
    }
  }

  /** Of two requests of one kind for one host, the one that registers second hides the other. */
  lemma OverlapHides(s: System, i: nat, j: nat) returns (steps: seq<Step>)
    requires Init(s) && i < j < |s.reqs| && s.reqs[i].kind == s.reqs[j].kind && s.reqs[i].host == s.reqs[j].host
    ensures Legal(s, steps) && !Covered(After(s, steps))
  {
    steps := Registers(s, [], i);
    steps := Registers(s, steps, j);
    assert After(s, steps).reqs[i].selector.Starting?;
  }

  lemma Registers(s: System, steps: seq<Step>, i: nat) returns (longer: seq<Step>)
    requires Legal(s, steps)
    requires var t := After(s, steps); i < |t.reqs| && t.reqs[i].selector.Naming? && t.serializer.Idle?
    ensures Legal(s, longer)
    ensures var (t, u) := (After(s, steps), After(s, longer));
      var r := t.reqs[i];
      && u == SetWaiters(t.(reqs := t.reqs[i := r.(selector := Starting)]), r.kind, Waiters(t, r.kind)[r.host := i])
  {
    var t := After(s, steps);
    var r := t.reqs[i];
    longer := Extend(s, steps, Local(i, Name));
    longer := Extend(s, longer, Local(i, Register));
    assert t.reqs[i := r.(selector := Registering)][i := r.(selector := Starting)] == t.reqs[i := r.(selector := Starting)];
  }

  /** So aborts reach every request in flight, in every run, exactly if requests of one kind are for
      different hosts. */
  lemma InFlightIsCoveredIff(s: System)
    requires Init(s)
    ensures DistinctHosts(s) <==> forall steps :: Legal(s, steps) ==> Covered(After(s, steps))
  {
    if DistinctHosts(s) {
      forall steps | Legal(s, steps) ensures Covered(After(s, steps)) {
        InFlightIsCovered(s, steps);
      }
    } else {
      var i, j :| 0 <= i < j < |s.reqs| && s.reqs[i].kind == s.reqs[j].kind && s.reqs[i].host == s.reqs[j].host;
      var steps := OverlapHides(s, i, j);
      assert Legal(s, steps) && !Covered(After(s, steps));
    }
  }

  lemma SameCovered(s: System, t: System)
    requires Covered(s) && t.connWaiters == s.connWaiters && t.runWaiters == s.runWaiters && |t.reqs| == |s.reqs|
    requires forall i :: 0 <= i < |s.reqs| ==>
      t.reqs[i].kind == s.reqs[i].kind && t.reqs[i].host == s.reqs[i].host && t.reqs[i].selector == s.reqs[i].selector
    ensures Covered(t)
  {
    forall i | 0 <= i < |t.reqs| && Registered(t.reqs[i])
      ensures t.reqs[i].host in Waiters(t, t.reqs[i].kind) && Waiters(t, t.reqs[i].kind)[t.reqs[i].host] == i
    {
      assert Registered(s.reqs[i]) && Waiters(t, t.reqs[i].kind) == Waiters(s, s.reqs[i].kind);
    }
  }

  lemma StepCovers(s: System, step: Step)
    requires Covered(s) && DistinctHosts(s) && Enabled(s, step)
    ensures Covered(Next(s, step))
  {
    if step.Local? {
      LocalCovers(s, step.i, step.move);
    } else {
      SameCovered(s, Next(s, step));
    }
  }

  lemma LocalCovers(s: System, i: nat, m: Move)
    requires Covered(s) && DistinctHosts(s) && Enabled(s, Local(i, m))
    ensures Covered(Next(s, Local(i, m)))
  {
    var r, t := s.reqs[i], Next(s, Local(i, m));
    assert Registered(t.reqs[i]) ==> Registered(r) || m.Register?;
    forall j | 0 <= j < |s.reqs| && Registered(t.reqs[j])
      ensures t.reqs[j].host in Waiters(t, t.reqs[j].kind) && Waiters(t, t.reqs[j].kind)[t.reqs[j].host] == j
    {
      if j != i {
        assert s.reqs[j].kind != r.kind || s.reqs[j].host != r.host by {
          if j < i {} else {}
        }
      }
    }
  }
}
