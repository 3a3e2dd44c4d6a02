/** `disconnectEverywhere` (connect.go) and the cleanup branch of `remoteHost` (remotehost.go): in
    which order connections are closed, when the teardown gets through, what it leaves behind. */
module Teardown {
  import opened Prelude
  import opened State
  import opened Resolve
  import opened Carrier

  /** `Blocked`: a cleanup request is sent on a channel on which nobody listens any more.
      `Panicked`: `m.Close()` is called on the mux of a program that is not a server and has none. */
  datatype Outcome = Finished | Blocked | Panicked

  /** The phase in which an entry is closed: non-proxies, indirect proxies, direct proxies. */
  function Phase(ci: ConnInfo): nat {
    if !ci.isProxy then 0 else if !ci.isDirect then 1 else 2
  }

  /** How many cleanup requests an entry of a phase is sent. */
  function Times(phase: nat, bastionConns: nat): nat { if phase == 2 then bastionConns else 1 }

  function Left(n: Net, c: Chan): nat { if c in n.listeners then n.listeners[c].size else 0 }

  /** One cleanup request: one listener answers and returns. */
  function Cleanup(n: Net, ci: ConnInfo, server: bool): (Outcome, Net) {
    var c := ci.reqChan;
    if Left(n, c) == 0 then (Blocked, n)
    else if !ci.isProxy && !server then (Panicked, n)
    else if Left(n, c) == 1 then (Finished, n.(listeners := n.listeners - {c}))
    else (Finished, n.(listeners := n.listeners[c := n.listeners[c].(size := n.listeners[c].size - 1)]))
  }

  function Cleanups(n: Net, ci: ConnInfo, times: nat, server: bool): (Outcome, Net) {
    if times == 0 then (Finished, n)
    else
      var (r, m) := Cleanups(n, ci, times - 1, server);
      if r.Finished? then Cleanup(m, ci, server) else (r, m)
  }

  function Forget(n: Net, h: string): Net {
    n.(store := Apply(n.store, DeleteConnInfo(h)).store, carrier := n.carrier - {h})
  }

  /** What is left of the loop over `keys` in one phase; `trace` lists the hosts closed so far. */
  function Sweep(n: Net, keys: seq<string>, i: nat, phase: nat, times: nat, server: bool, trace: seq<string>)
    : (Outcome, Net, seq<string>)
    requires i <= |keys|
    decreases |keys| - i
  {
    if i == |keys| then (Finished, n, trace)
    else if !Connected(n, keys[i]) || Phase(n.store.conn[keys[i]]) != phase then
      Sweep(n, keys, i + 1, phase, times, server, trace)
    else
      var (r, m) := Cleanups(n, n.store.conn[keys[i]], times, server);
      if !r.Finished? then (r, m, trace)
      else Sweep(Forget(m, keys[i]), keys, i + 1, phase, times, server, trace + [keys[i]])
  }

  /** The three phases, each over its own enumeration of the connections there are by then. */
  function Torn(n: Net, orders: (seq<string>, seq<string>, seq<string>), bastionConns: nat, server: bool)
    : (Outcome, Net, seq<string>)
  {
    var (r0, n0, t0) := Sweep(n, orders.0, 0, 0, 1, server, []);
    if !r0.Finished? then (r0, n0, t0)
    else
      var (r1, n1, t1) := Sweep(n0, orders.1, 0, 1, 1, server, t0);
      if !r1.Finished? then (r1, n1, t1)
      else Sweep(n1, orders.2, 0, 2, bastionConns, server, t1)
  }

  /* ---------------- when a phase gets through, and what it does ---------------- */

  /** Different entries have different channels. */
  ghost predicate Apart(n: Net) {
    forall h, g :: h in n.store.conn && g in n.store.conn && h != g ==>
      n.store.conn[h].reqChan != n.store.conn[g].reqChan
  }

  /** The goroutines of h can answer all the cleanups of its phase. */
  predicate ReadyHost(n: Net, h: string, times: nat, server: bool)
    requires Connected(n, h)
  {
    times == 0 || (Left(n, n.store.conn[h].reqChan) >= times && (n.store.conn[h].isProxy || server))
  }

  predicate Due(n: Net, h: string, phase: nat) {
    Connected(n, h) && Phase(n.store.conn[h]) == phase
  }

  function Pick(n: Net, keys: seq<string>, phase: nat): seq<string> {
    if keys == [] then []
    else (if Due(n, keys[0], phase) then [keys[0]] else []) + Pick(n, keys[1..], phase)
  }

  lemma {:induction false} CleanupsEffect(n: Net, ci: ConnInfo, times: nat, server: bool)
    ensures var (r, m) := Cleanups(n, ci, times, server);
      && (r.Finished? <==> times == 0 || (Left(n, ci.reqChan) >= times && (ci.isProxy || server)))
      && m.store == n.store && m.carrier == n.carrier && m.calls == n.calls
      && (forall c :: c != ci.reqChan ==> Left(m, c) == Left(n, c))
      && (r.Finished? ==> Left(n, ci.reqChan) >= times && Left(m, ci.reqChan) == Left(n, ci.reqChan) - times)
      && (r.Blocked? ==> Left(m, ci.reqChan) == 0 && Left(n, ci.reqChan) < times)
      && (r.Panicked? <==> times > 0 && Left(n, ci.reqChan) > 0 && !ci.isProxy && !server)
  {
    if times > 0 {
      CleanupsEffect(n, ci, times - 1, server);
    }
  }

  lemma {:induction false} PickMembers(n: Net, keys: seq<string>, phase: nat)
    ensures forall h :: h in Pick(n, keys, phase) <==> h in keys && Due(n, h, phase)
    ensures NoDup(keys) ==> NoDup(Pick(n, keys, phase))
  {
    if keys != [] {
      PickMembers(n, keys[1..], phase);
    }
  }

  lemma {:induction false} PickSame(n: Net, m: Net, keys: seq<string>, phase: nat)
    requires forall h :: h in keys ==> (Due(n, h, phase) <==> Due(m, h, phase))
    ensures Pick(n, keys, phase) == Pick(m, keys, phase)
  {
    if keys != [] {
      PickSame(n, m, keys[1..], phase);
    }
  }

  /** Closed by what is left of a phase. */
  predicate Closes(n: Net, keys: seq<string>, i: nat, phase: nat, h: string)
    requires i <= |keys|
  {
    Due(n, h, phase) && h in keys[i..]
  }

  ghost predicate AllReady(n: Net, keys: seq<string>, i: nat, phase: nat, times: nat, server: bool)
    requires i <= |keys|
  {
    forall h :: Closes(n, keys, i, phase, h) ==> ReadyHost(n, h, times, server)
  }

  /** A phase that got through: just the due entries are gone, each with `times` of its listeners. */
  ghost predicate Swept(n: Net, m: Net, keys: seq<string>, i: nat, phase: nat, times: nat)
    requires i <= |keys|
  {
    && (forall h :: Connected(m, h) <==> Connected(n, h) && !Closes(n, keys, i, phase, h))
    && (forall h :: Connected(m, h) ==> m.store.conn[h] == n.store.conn[h])
    && (forall h :: h in m.carrier <==> h in n.carrier && !Closes(n, keys, i, phase, h))
    && (forall h :: h in m.carrier ==> m.carrier[h] == n.carrier[h])
    && (forall h :: Closes(n, keys, i, phase, h) ==>
          Left(n, n.store.conn[h].reqChan) == Left(m, n.store.conn[h].reqChan) + times)
    && (forall c :: !ClosesChan(n, keys, i, phase, c) ==> Left(n, c) == Left(m, c))
  }

  ghost predicate ClosesChan(n: Net, keys: seq<string>, i: nat, phase: nat, c: Chan)
    requires i <= |keys|
  {
    exists h :: Closes(n, keys, i, phase, h) && n.store.conn[h].reqChan == c
  }

  /** What closing one host does to the net. */
  ghost predicate ClosedOne(n: Net, m: Net, h: string, times: nat) {
    && Connected(n, h)
    && m.store.conn == n.store.conn - {h} && m.carrier == n.carrier - {h}
    && (forall c :: Left(n, c) == Left(m, c) + (if c == n.store.conn[h].reqChan then times else 0))
  }

  lemma CloseOne(n: Net, h: string, times: nat, server: bool)
    requires Apart(n) && Connected(n, h)
    ensures var (r, m) := Cleanups(n, n.store.conn[h], times, server);
      && (r.Finished? <==> ReadyHost(n, h, times, server))
      && (r.Finished? ==> ClosedOne(n, Forget(m, h), h, times) && Apart(Forget(m, h)))
  {
    CleanupsEffect(n, n.store.conn[h], times, server);
  }

  lemma SweptStep(n: Net, n1: Net, m: Net, keys: seq<string>, i: nat, phase: nat, times: nat)
    requires i < |keys| && NoDup(keys) && Apart(n) && Due(n, keys[i], phase)
    requires ClosedOne(n, n1, keys[i], times) && Swept(n1, m, keys, i + 1, phase, times)
    ensures Swept(n, m, keys, i, phase, times)
  {
    var h := keys[i];
    assert keys[i..] == [h] + keys[i + 1..];
    assert h !in keys[i + 1..];
    forall g ensures Closes(n, keys, i, phase, g) <==> g == h || Closes(n1, keys, i + 1, phase, g) {
    }
    assert !ClosesChan(n1, keys, i + 1, phase, n.store.conn[h].reqChan);
    forall g | Closes(n, keys, i, phase, g)
      ensures Left(n, n.store.conn[g].reqChan) == Left(m, n.store.conn[g].reqChan) + times
    {
    }
    forall c | !ClosesChan(n, keys, i, phase, c) ensures Left(n, c) == Left(m, c) {
      assert Closes(n, keys, i, phase, h);
      assert !ClosesChan(n1, keys, i + 1, phase, c) by {
        forall g | Closes(n1, keys, i + 1, phase, g) ensures n1.store.conn[g].reqChan != c {
          assert Closes(n, keys, i, phase, g);
        }
      }
    }
  }

  /** The loop of one phase gets through exactly if the goroutines of every due host can answer its
      cleanups; then it closes just the due hosts, in the order of the enumeration. */
  ghost predicate SweepResult(n: Net, keys: seq<string>, i: nat, phase: nat, times: nat, server: bool, trace: seq<string>,
                              result: (Outcome, Net, seq<string>))
    requires i <= |keys|
  {
    && (result.0.Finished? <==> AllReady(n, keys, i, phase, times, server))
    && (result.0.Finished? ==>
          Swept(n, result.1, keys, i, phase, times) && Apart(result.1) && result.2 == trace + Pick(n, keys[i..], phase))
  }

  lemma {:induction false} SweepEffect(n: Net, keys: seq<string>, i: nat, phase: nat, times: nat, server: bool, trace: seq<string>)
    requires i <= |keys| && NoDup(keys) && Apart(n)
    ensures SweepResult(n, keys, i, phase, times, server, trace, Sweep(n, keys, i, phase, times, server, trace))
    decreases |keys| - i
  {
    if i < |keys| {
      var h := keys[i];
      if !Due(n, h, phase) {
        SweepEffect(n, keys, i + 1, phase, times, server, trace);
        SkipStep(n, keys, i, phase, times, server);
      } else {
        CloseOne(n, h, times, server);
        var (r, m) := Cleanups(n, n.store.conn[h], times, server);
        if r.Finished? {
          SweepEffect(Forget(m, h), keys, i + 1, phase, times, server, trace + [h]);
          CloseStep(n, Forget(m, h), keys, i, phase, times, server, trace,
                    Sweep(Forget(m, h), keys, i + 1, phase, times, server, trace + [h]));
        } else {
          assert Closes(n, keys, i, phase, h);
        }
      }
    }
  }

  lemma CloseStep(n: Net, n1: Net, keys: seq<string>, i: nat, phase: nat, times: nat, server: bool, trace: seq<string>,
                  result: (Outcome, Net, seq<string>))
    requires i < |keys| && NoDup(keys) && Apart(n) && Due(n, keys[i], phase)
    requires ClosedOne(n, n1, keys[i], times) && ReadyHost(n, keys[i], times, server)
    requires SweepResult(n1, keys, i + 1, phase, times, server, trace + [keys[i]], result)
    ensures SweepResult(n, keys, i, phase, times, server, trace, result)
  {
    ReadyStep(n, n1, keys, i, phase, times, server);
    if result.0.Finished? {
      SweptStep(n, n1, result.1, keys, i, phase, times);
      assert keys[i] !in keys[i + 1..];
      PickSame(n, n1, keys[i + 1..], phase);
      assert keys[i..][1..] == keys[i + 1..];
    }
  }

  lemma SkipStep(n: Net, keys: seq<string>, i: nat, phase: nat, times: nat, server: bool)
    requires i < |keys| && !Due(n, keys[i], phase)
    ensures AllReady(n, keys, i, phase, times, server) <==> AllReady(n, keys, i + 1, phase, times, server)
    ensures forall m :: Swept(n, m, keys, i, phase, times) <==> Swept(n, m, keys, i + 1, phase, times)
    ensures Pick(n, keys[i..], phase) == Pick(n, keys[i + 1..], phase)
  {
    assert keys[i..] == [keys[i]] + keys[i + 1..];
    assert forall g :: Closes(n, keys, i, phase, g) <==> Closes(n, keys, i + 1, phase, g);
    assert keys[i..][1..] == keys[i + 1..];
    assert forall c :: ClosesChan(n, keys, i, phase, c) <==> ClosesChan(n, keys, i + 1, phase, c);
  }

  lemma ReadyStep(n: Net, n1: Net, keys: seq<string>, i: nat, phase: nat, times: nat, server: bool)
    requires i < |keys| && NoDup(keys) && Apart(n) && Due(n, keys[i], phase)
    requires ClosedOne(n, n1, keys[i], times) && ReadyHost(n, keys[i], times, server)
    ensures AllReady(n, keys, i, phase, times, server) <==> AllReady(n1, keys, i + 1, phase, times, server)
  {
    var h := keys[i];
    assert keys[i..] == [h] + keys[i + 1..];
    assert h !in keys[i + 1..];
    assert forall g :: Closes(n, keys, i, phase, g) <==> g == h || Closes(n1, keys, i + 1, phase, g);
    assert forall g :: Closes(n1, keys, i + 1, phase, g) ==>
      (ReadyHost(n, g, times, server) <==> ReadyHost(n1, g, times, server));
  }

  /* ---------------- the whole teardown ---------------- */

  /** The entries still there when a phase begins. */
  ghost function Remaining(n: Net, phase: nat): set<string> {
    set h | h in n.store.conn && Phase(n.store.conn[h]) >= phase
  }

  /** What the three GetConnKeys calls of a teardown may return. */
  ghost predicate ValidOrders(n: Net, orders: (seq<string>, seq<string>, seq<string>)) {
    Enumerates(orders.0, Remaining(n, 0)) && Enumerates(orders.1, Remaining(n, 1)) && Enumerates(orders.2, Remaining(n, 2))
  }

  /** Every entry has the listeners its cleanups need, and a non-proxy is only closed by a server. */
  ghost predicate Ready(n: Net, bastionConns: nat, server: bool) {
    forall h :: Connected(n, h) ==> ReadyHost(n, h, Times(Phase(n.store.conn[h]), bastionConns), server)
  }

  function ClosingOrder(n: Net, orders: (seq<string>, seq<string>, seq<string>)): seq<string> {
    Pick(n, orders.0, 0) + Pick(n, orders.1, 1) + Pick(n, orders.2, 2)
  }

  /** Between two phases: the entries of the lower phases are gone, the others as they were. */
  ghost predicate Between(n: Net, m: Net, phase: nat) {
    && Apart(m)
    && (forall h :: Connected(m, h) <==> h in Remaining(n, phase))
    && (forall h :: Connected(m, h) ==> m.store.conn[h] == n.store.conn[h])
    && (forall h :: h in m.carrier ==> h in n.carrier && (Connected(n, h) ==> Connected(m, h)))
    && (forall h :: Connected(m, h) ==> Left(m, n.store.conn[h].reqChan) == Left(n, n.store.conn[h].reqChan))
  }

  lemma PhaseAdvances(n: Net, m: Net, l: Net, keys: seq<string>, phase: nat, times: nat)
    requires Apart(n) && Between(n, m, phase) && Enumerates(keys, Remaining(n, phase))
    requires Swept(m, l, keys, 0, phase, times) && Apart(l)
    ensures Between(n, l, phase + 1)
    ensures forall h :: Due(n, h, phase) ==> Left(n, n.store.conn[h].reqChan) == Left(l, n.store.conn[h].reqChan) + times
    ensures forall h :: Connected(n, h) && !Due(n, h, phase) ==> Left(l, n.store.conn[h].reqChan) == Left(m, n.store.conn[h].reqChan)
  {
    assert keys[0..] == keys;
    assert forall h :: Closes(m, keys, 0, phase, h) <==> Due(n, h, phase);
    forall h | Connected(n, h) && !Due(n, h, phase)
      ensures Left(l, n.store.conn[h].reqChan) == Left(m, n.store.conn[h].reqChan)
    {
      assert !ClosesChan(m, keys, 0, phase, n.store.conn[h].reqChan);
    }
  }

  ghost predicate PhaseReady(n: Net, phase: nat, times: nat, server: bool) {
    forall h :: Due(n, h, phase) ==> ReadyHost(n, h, times, server)
  }

  /** The listeners of the due hosts that a phase takes away, and the others', which it does not touch. */
  ghost predicate PhaseTakes(n: Net, m: Net, l: Net, phase: nat, times: nat) {
    && (forall h :: Due(n, h, phase) ==> Left(n, n.store.conn[h].reqChan) == Left(l, n.store.conn[h].reqChan) + times)
    && (forall h :: Connected(n, h) && !Due(n, h, phase) ==>
          Left(l, n.store.conn[h].reqChan) == Left(m, n.store.conn[h].reqChan))
  }

  /** One phase, seen from the start of the teardown. */
  lemma PhaseResult(n: Net, m: Net, keys: seq<string>, phase: nat, times: nat, server: bool, trace: seq<string>)
    requires Apart(n) && Between(n, m, phase) && Enumerates(keys, Remaining(n, phase))
    ensures var (r, l, t) := Sweep(m, keys, 0, phase, times, server, trace);
      && (r.Finished? <==> PhaseReady(n, phase, times, server))
      && (r.Finished? ==> Between(n, l, phase + 1) && t == trace + Pick(n, keys, phase) && PhaseTakes(n, m, l, phase, times))
  {
    SweepEffect(m, keys, 0, phase, times, server, trace);
    var (r, l, t) := Sweep(m, keys, 0, phase, times, server, trace);
    assert keys[0..] == keys;
    assert forall h :: Closes(m, keys, 0, phase, h) <==> Due(n, h, phase);
    assert forall h :: Due(n, h, phase) ==> (ReadyHost(n, h, times, server) <==> ReadyHost(m, h, times, server));
    if r.Finished? {
      PhaseAdvances(n, m, l, keys, phase, times);
      PickSame(n, m, keys, phase);
    }
  }

  lemma ReadyByPhase(n: Net, bastionConns: nat, server: bool)
    ensures Ready(n, bastionConns, server) <==>
      PhaseReady(n, 0, 1, server) && PhaseReady(n, 1, 1, server) && PhaseReady(n, 2, bastionConns, server)
  {
    assert forall h :: Connected(n, h) <==> Due(n, h, 0) || Due(n, h, 1) || Due(n, h, 2);
  }

  /** What still listens afterwards: what each host's goroutines were too many. */
  ghost predicate LeftOver(n: Net, m: Net, bastionConns: nat) {
    forall h :: Connected(n, h) ==>
      Left(n, n.store.conn[h].reqChan)
      == Left(m, n.store.conn[h].reqChan) + Times(Phase(n.store.conn[h]), bastionConns)
  }

  lemma TakesAddUp(n: Net, n0: Net, n1: Net, n2: Net, bastionConns: nat)
    requires PhaseTakes(n, n, n0, 0, 1) && PhaseTakes(n, n0, n1, 1, 1) && PhaseTakes(n, n1, n2, 2, bastionConns)
    ensures LeftOver(n, n2, bastionConns)
  {
    assert forall h :: Connected(n, h) <==> Due(n, h, 0) || Due(n, h, 1) || Due(n, h, 2);
  }

  lemma BetweenStarts(n: Net)
    requires Apart(n)
    ensures Between(n, n, 0)
  {
  }

  /** The last phase, after two that got through. */
  lemma TornLast(n: Net, n0: Net, n1: Net, orders: (seq<string>, seq<string>, seq<string>),
                 bastionConns: nat, server: bool, trace: seq<string>)
    requires Apart(n) && Between(n, n1, 2) && Enumerates(orders.2, Remaining(n, 2))
    requires PhaseTakes(n, n, n0, 0, 1) && PhaseTakes(n, n0, n1, 1, 1)
    ensures var (r, m, t) := Sweep(n1, orders.2, 0, 2, bastionConns, server, trace);
      && (r.Finished? <==> PhaseReady(n, 2, bastionConns, server))
      && (r.Finished? ==> (forall h :: !Connected(m, h)) && t == trace + Pick(n, orders.2, 2) && LeftOver(n, m, bastionConns))
  {
    PhaseResult(n, n1, orders.2, 2, bastionConns, server, trace);
    var (r, m, t) := Sweep(n1, orders.2, 0, 2, bastionConns, server, trace);
    if r.Finished? {
      TakesAddUp(n, n0, n1, m, bastionConns);
      NothingRemains(n, m);
    }
  }

  /** For every enumeration order: the teardown gets through exactly if every entry has enough
      listeners and every non-proxy a mux; then no connection is left, each was closed once, and what
      still listens is what each host's goroutines were too many. */
  lemma TornEffect(n: Net, orders: (seq<string>, seq<string>, seq<string>), bastionConns: nat, server: bool)
    requires Apart(n) && ValidOrders(n, orders)
    ensures var (r, m, t) := Torn(n, orders, bastionConns, server);
      && (r.Finished? <==> Ready(n, bastionConns, server))
      && (r.Finished? ==> (forall h :: !Connected(m, h)) && t == ClosingOrder(n, orders) && LeftOver(n, m, bastionConns))
      && Halted(n, m, ClosingOrder(n, orders), t, bastionConns, server, r)
    ensures Enumerates(ClosingOrder(n, orders), n.store.conn.Keys)
  {
    TornHalts(n, orders, bastionConns, server);
    ReadyByPhase(n, bastionConns, server);
    ClosingOrderEnumerates(n, orders);
    TornStages(n, orders, bastionConns, server);
  }

  lemma TornStages(n: Net, orders: (seq<string>, seq<string>, seq<string>), bastionConns: nat, server: bool)
    requires Apart(n) && ValidOrders(n, orders)
    ensures var (r, m, t) := Torn(n, orders, bastionConns, server);
      && (r.Finished? <==> PhaseReady(n, 0, 1, server) && PhaseReady(n, 1, 1, server) && PhaseReady(n, 2, bastionConns, server))
      && (r.Finished? ==> (forall h :: !Connected(m, h)) && t == ClosingOrder(n, orders) && LeftOver(n, m, bastionConns))
  {
    BetweenStarts(n);
    PhaseResult(n, n, orders.0, 0, 1, server, []);
    var (r0, n0, t0) := Sweep(n, orders.0, 0, 0, 1, server, []);
    if r0.Finished? {
      assert t0 == Pick(n, orders.0, 0);
      TornRest(n, n0, orders, bastionConns, server, t0);
    }
  }

  lemma TornRest(n: Net, n0: Net, orders: (seq<string>, seq<string>, seq<string>),
                 bastionConns: nat, server: bool, trace: seq<string>)
    requires Apart(n) && ValidOrders(n, orders) && Between(n, n0, 1) && PhaseTakes(n, n, n0, 0, 1)
    ensures var (r1, n1, t1) := Sweep(n0, orders.1, 0, 1, 1, server, trace);
      var (r, m, t) := if r1.Finished? then Sweep(n1, orders.2, 0, 2, bastionConns, server, t1) else (r1, n1, t1);
      && (r.Finished? <==> PhaseReady(n, 1, 1, server) && PhaseReady(n, 2, bastionConns, server))
      && (r.Finished? ==>
            && (forall h :: !Connected(m, h))
            && t == trace + Pick(n, orders.1, 1) + Pick(n, orders.2, 2)
            && LeftOver(n, m, bastionConns))
  {
    PhaseResult(n, n0, orders.1, 1, 1, server, trace);
    var (r1, n1, t1) := Sweep(n0, orders.1, 0, 1, 1, server, trace);
    if r1.Finished? {
      TornLast(n, n0, n1, orders, bastionConns, server, t1);
    }
  }

  lemma NothingRemains(n: Net, m: Net)
    requires Between(n, m, 3)
    ensures forall h :: !Connected(m, h)
  {
  }

  lemma ClosingOrderEnumerates(n: Net, orders: (seq<string>, seq<string>, seq<string>))
    requires ValidOrders(n, orders)
    ensures Enumerates(ClosingOrder(n, orders), n.store.conn.Keys)
  {
    PickMembers(n, orders.0, 0);
    PickMembers(n, orders.1, 1);
    PickMembers(n, orders.2, 2);
    var a, b, c := Pick(n, orders.0, 0), Pick(n, orders.1, 1), Pick(n, orders.2, 2);
    assert forall h :: h in n.store.conn ==> h in Remaining(n, Phase(n.store.conn[h]));
    forall i, j | 0 <= i < j < |a + b + c| ensures (a + b + c)[i] != (a + b + c)[j] {
      assert (a + b + c)[i] in if i < |a| then a else if i < |a + b| then b else c;
      assert (a + b + c)[j] in if j < |a| then a else if j < |a + b| then b else c;
    }
  }

  /* ---------------- a teardown that stops half way ---------------- */

  /** Host g cannot be closed: it lacks a listener or a mux. The program panics just if it lacks a mux and has a
      listener to find that out; if a cleanup blocks instead, no listener is left. */
  ghost predicate StoppedAt(n: Net, m: Net, g: string, times: nat, server: bool, r: Outcome) {
    && Connected(n, g) && Connected(m, g) && !ReadyHost(n, g, times, server)
    && (r.Panicked? <==> Left(n, n.store.conn[g].reqChan) > 0 && !n.store.conn[g].isProxy && !server)
    && (r.Blocked? ==> Left(m, n.store.conn[g].reqChan) == 0)
  }

  /** What a loop that was to close the hosts in `due` has done, whether it got through or not: closed a first
      part of them, in that order, and nothing else. */
  ghost predicate Progressed(n: Net, m: Net, due: seq<string>, closed: seq<string>, times: nat, server: bool, r: Outcome) {
    && closed <= due
    && (forall h :: Connected(m, h) <==> Connected(n, h) && h !in closed)
    && (forall h :: Connected(m, h) ==> m.store.conn[h] == n.store.conn[h])
    && (r.Finished? ==> closed == due)
    && (!r.Finished? ==> |closed| < |due| && StoppedAt(n, m, due[|closed|], times, server, r))
  }

  ghost predicate SweepMade(n: Net, due: seq<string>, times: nat, server: bool, trace: seq<string>, closed: seq<string>,
                            result: (Outcome, Net, seq<string>)) {
    result.2 == trace + closed && Progressed(n, result.1, due, closed, times, server, result.0)
  }

  lemma {:induction false} SweepProgresses(n: Net, keys: seq<string>, i: nat, phase: nat, times: nat, server: bool, trace: seq<string>)
      returns (closed: seq<string>)
    requires i <= |keys| && NoDup(keys) && Apart(n)
    ensures SweepMade(n, Pick(n, keys[i..], phase), times, server, trace, closed, Sweep(n, keys, i, phase, times, server, trace))
    decreases |keys| - i
  {
    if i == |keys| {
      closed := [];
    } else if !Due(n, keys[i], phase) {
      closed := SweepProgresses(n, keys, i + 1, phase, times, server, trace);
      assert keys[i..][1..] == keys[i + 1..];
    } else {
      var h := keys[i];
      CloseOne(n, h, times, server);
      var (r, m) := Cleanups(n, n.store.conn[h], times, server);
      if r.Finished? {
        var rest := SweepProgresses(Forget(m, h), keys, i + 1, phase, times, server, trace + [h]);
        closed := [h] + rest;
        OneMoreClosed(n, Forget(m, h), keys, i, phase, times, server, trace, rest,
                      Sweep(Forget(m, h), keys, i + 1, phase, times, server, trace + [h]));
      } else {
        NoneClosed(n, keys, i, phase, times, server);
        closed := [];
      }
    }
  }

  lemma NoneClosed(n: Net, keys: seq<string>, i: nat, phase: nat, times: nat, server: bool)
    requires i < |keys| && Due(n, keys[i], phase) && !ReadyHost(n, keys[i], times, server)
    ensures var (r, m) := Cleanups(n, n.store.conn[keys[i]], times, server);
      !r.Finished? && Progressed(n, m, Pick(n, keys[i..], phase), [], times, server, r)
  {
    CleanupsEffect(n, n.store.conn[keys[i]], times, server);
  }

  lemma OneMoreClosed(n: Net, n1: Net, keys: seq<string>, i: nat, phase: nat, times: nat, server: bool, trace: seq<string>,
                      rest: seq<string>, result: (Outcome, Net, seq<string>))
    requires i < |keys| && NoDup(keys) && Apart(n) && Due(n, keys[i], phase) && ClosedOne(n, n1, keys[i], times)
    requires SweepMade(n1, Pick(n1, keys[i + 1..], phase), times, server, trace + [keys[i]], rest, result)
    ensures SweepMade(n, Pick(n, keys[i..], phase), times, server, trace, [keys[i]] + rest, result)
  {
    var h, due := keys[i], Pick(n, keys[i + 1..], phase);
    assert keys[i] !in keys[i + 1..];
    PickSame(n, n1, keys[i + 1..], phase);
    assert keys[i..][1..] == keys[i + 1..];
    assert Pick(n, keys[i..], phase) == [h] + due;
    if !result.0.Finished? {
      assert ([h] + due)[|[h] + rest|] == due[|rest|];
    }
  }

  /** The same, seen from the start of the teardown. */
  lemma PhaseProgresses(n: Net, m: Net, keys: seq<string>, phase: nat, times: nat, server: bool, trace: seq<string>)
      returns (closed: seq<string>)
    requires Apart(n) && Between(n, m, phase) && Enumerates(keys, Remaining(n, phase))
    ensures var (r, l, t) := Sweep(m, keys, 0, phase, times, server, trace);
      t == trace + closed && Progressed(m, l, Pick(n, keys, phase), closed, times, server, r)
      && (!r.Finished? ==> |closed| < |Pick(n, keys, phase)| && StoppedAt(n, l, Pick(n, keys, phase)[|closed|], times, server, r))
  {
    closed := SweepProgresses(m, keys, 0, phase, times, server, trace);
    PickSame(n, m, keys, phase);
    assert keys[0..] == keys;
  }

  /** However it ends, the teardown has closed a first part of the closing order and nothing else; if it has not
      got through, the next host in that order lacks a listener or a mux. */
  ghost predicate Halted(n: Net, m: Net, order: seq<string>, t: seq<string>, bastionConns: nat, server: bool, r: Outcome) {
    && t <= order
    && (forall h :: Connected(m, h) <==> Connected(n, h) && h !in t)
    && (!r.Finished? ==>
          && |t| < |order| && Connected(n, order[|t|])
          && StoppedAt(n, m, order[|t|], Times(Phase(n.store.conn[order[|t|]]), bastionConns), server, r))
  }

  lemma HaltedIn(n: Net, m: Net, l: Net, before: seq<string>, due: seq<string>, after: seq<string>, closed: seq<string>,
                 phase: nat, bastionConns: nat, server: bool, r: Outcome)
    requires forall h :: Connected(m, h) <==> Connected(n, h) && h !in before
    requires Progressed(m, l, due, closed, Times(phase, bastionConns), server, r)
    requires forall h :: h in due ==> Due(n, h, phase)
    requires r.Finished? || (|closed| < |due| && StoppedAt(n, l, due[|closed|], Times(phase, bastionConns), server, r))
    ensures Halted(n, l, before + due + after, before + closed, bastionConns, server, r)
  {
    if !r.Finished? {
      assert (before + due + after)[|before + closed|] == due[|closed|] && due[|closed|] in due;
    }
    assert (before + due + after)[..|before + closed|] == before + closed;
  }

  lemma TornHalts(n: Net, orders: (seq<string>, seq<string>, seq<string>), bastionConns: nat, server: bool)
    requires Apart(n) && ValidOrders(n, orders)
    ensures var (r, m, t) := Torn(n, orders, bastionConns, server);
      Halted(n, m, ClosingOrder(n, orders), t, bastionConns, server, r)
  {
    BetweenStarts(n);
    PhaseResult(n, n, orders.0, 0, 1, server, []);
    var closed := PhaseProgresses(n, n, orders.0, 0, 1, server, []);
    var (r0, n0, t0) := Sweep(n, orders.0, 0, 0, 1, server, []);
    assert t0 == closed;
    if r0.Finished? {
      RestHalts(n, n0, orders, bastionConns, server, t0);
    } else {
      FirstHalts(n, n0, orders, bastionConns, server, closed, r0);
    }
  }

  lemma FirstHalts(n: Net, m: Net, orders: (seq<string>, seq<string>, seq<string>), bastionConns: nat, server: bool,
                   closed: seq<string>, r: Outcome)
    requires Progressed(n, m, Pick(n, orders.0, 0), closed, 1, server, r) && !r.Finished?
    ensures Halted(n, m, ClosingOrder(n, orders), closed, bastionConns, server, r)
  {
    var a, b, c := Pick(n, orders.0, 0), Pick(n, orders.1, 1), Pick(n, orders.2, 2);
    PickMembers(n, orders.0, 0);
    HaltedIn(n, n, m, [], a, b + c, closed, 0, bastionConns, server, r);
    assert [] + a + (b + c) == a + b + c && [] + closed == closed;
  }

  lemma RestHalts(n: Net, n0: Net, orders: (seq<string>, seq<string>, seq<string>),
                  bastionConns: nat, server: bool, a: seq<string>)
    requires Apart(n) && ValidOrders(n, orders) && Between(n, n0, 1)
    requires forall h :: Connected(n0, h) <==> Connected(n, h) && h !in a
    ensures var (r1, n1, t1) := Sweep(n0, orders.1, 0, 1, 1, server, a);
      var (r, m, t) := if r1.Finished? then Sweep(n1, orders.2, 0, 2, bastionConns, server, t1) else (r1, n1, t1);
      Halted(n, m, a + Pick(n, orders.1, 1) + Pick(n, orders.2, 2), t, bastionConns, server, r)
  {
    var b := Pick(n, orders.1, 1);
    PickMembers(n, orders.1, 1);
    PhaseResult(n, n0, orders.1, 1, 1, server, a);
    var closed := PhaseProgresses(n, n0, orders.1, 1, 1, server, a);
    var (r1, n1, t1) := Sweep(n0, orders.1, 0, 1, 1, server, a);
    if r1.Finished? {
      assert t1 == a + b;
      LastHalts(n, n1, orders, bastionConns, server, t1);
    } else {
      HaltedIn(n, n0, n1, a, b, Pick(n, orders.2, 2), closed, 1, bastionConns, server, r1);
    }
  }

  lemma LastHalts(n: Net, n1: Net, orders: (seq<string>, seq<string>, seq<string>),
                  bastionConns: nat, server: bool, before: seq<string>)
    requires Apart(n) && ValidOrders(n, orders) && Between(n, n1, 2)
    requires forall h :: Connected(n1, h) <==> Connected(n, h) && h !in before
    ensures var (r, m, t) := Sweep(n1, orders.2, 0, 2, bastionConns, server, before);
      Halted(n, m, before + Pick(n, orders.2, 2), t, bastionConns, server, r)
  {
    var c := Pick(n, orders.2, 2);
    PickMembers(n, orders.2, 2);
    var last := PhaseProgresses(n, n1, orders.2, 2, bastionConns, server, before);
    var (r, m, t) := Sweep(n1, orders.2, 0, 2, bastionConns, server, before);
    HaltedIn(n, n1, m, before, c, [], last, 2, bastionConns, server, r);
    assert before + c + [] == before + c;
  }

  /* ---------------- the order of the teardown ---------------- */

  /** No connection is closed while another live one is tunnelled through it. */
  ghost predicate Safe(n: Net, t: seq<string>) {
    forall j, h :: 0 <= j < |t| && h in n.carrier && n.carrier[h] == t[j] ==> h in t[..j]
  }

  /** Whoever is carried is closed in an earlier phase than the carrier. */
  ghost predicate Layered(n: Net) {
    forall h :: h in n.carrier ==>
      Connected(n, h) && Connected(n, n.carrier[h]) && Phase(n.store.conn[h]) < Phase(n.store.conn[n.carrier[h]])
  }

  /** In the program's own terms: all carriers are proxies, and indirect proxies are carried by direct ones. */
  lemma LayeredIff(n: Net)
    requires Rooted(n)
    ensures Layered(n) <==> forall h {:trigger n.carrier[h]} :: h in n.carrier ==>
      && n.store.conn[n.carrier[h]].isProxy
      && (n.store.conn[h].isProxy ==> n.store.conn[n.carrier[h]].isDirect)
  {
  }

  lemma PhasesAscend(n: Net, orders: (seq<string>, seq<string>, seq<string>), i: nat, j: nat)
    requires i < j < |ClosingOrder(n, orders)|
    ensures var t := ClosingOrder(n, orders);
      Connected(n, t[i]) && Connected(n, t[j]) && Phase(n.store.conn[t[i]]) <= Phase(n.store.conn[t[j]])
  {
    PickMembers(n, orders.0, 0);
    PickMembers(n, orders.1, 1);
    PickMembers(n, orders.2, 2);
    var a, b, c := Pick(n, orders.0, 0), Pick(n, orders.1, 1), Pick(n, orders.2, 2);
    var t := a + b + c;
    assert t[i] in if i < |a| then a else if i < |a + b| then b else c;
    assert t[j] in if j < |a| then a else if j < |a + b| then b else c;
  }

  lemma LayeredIsSafe(n: Net, orders: (seq<string>, seq<string>, seq<string>))
    requires ValidOrders(n, orders) && Layered(n)
    ensures Safe(n, ClosingOrder(n, orders))
  {
    ClosingOrderEnumerates(n, orders);
    var t := ClosingOrder(n, orders);
    forall j, h | 0 <= j < |t| && h in n.carrier && n.carrier[h] == t[j]
      ensures h in t[..j]
    {
      assert h in t;
      var i :| 0 <= i < |t| && t[i] == h;
      if i > j {
        PhasesAscend(n, orders, j, i);
      }
      assert t[..j][i] == h;
    }
  }

  /** Every set can be enumerated, with any of its members first. */
  lemma {:induction false} SomeEnumeration(s: set<string>, first: string) returns (keys: seq<string>)
    ensures Enumerates(keys, s) && (first in s ==> keys != [] && keys[0] == first)
    decreases |s|
  {
    if s == {} {
      keys := [];
    } else {
      var k :| k in s && (first in s ==> k == first);
      var rest := SomeEnumeration(s - {k}, "");
      keys := [k] + rest;
      assert forall i :: 0 <= i < |rest| ==> rest[i] in rest;
    }
  }

  /** If somebody is carried by a host that is not closed in a later phase, some order is unsafe. */
  lemma UnsafeOrder(n: Net, h: string) returns (orders: (seq<string>, seq<string>, seq<string>))
    requires Rooted(n) && h in n.carrier
    requires Phase(n.store.conn[h]) >= Phase(n.store.conn[n.carrier[h]])
    ensures ValidOrders(n, orders) && !Safe(n, ClosingOrder(n, orders))
  {
    var c := n.carrier[h];
    var o0 := SomeEnumeration(Remaining(n, 0), c);
    var o1 := SomeEnumeration(Remaining(n, 1), c);
    var o2 := SomeEnumeration(Remaining(n, 2), c);
    orders := (o0, o1, o2);
    var a, b := Pick(n, o0, 0), Pick(n, o1, 1);
    var p := Phase(n.store.conn[c]);
    var j := if p == 0 then 0 else if p == 1 then |a| else |a + b|;
    var t := ClosingOrder(n, orders);
    PickMembers(n, o0, 0);
    PickMembers(n, o1, 1);
    assert c in Remaining(n, p);
    assert j < |t| && t[j] == c;
    assert t[..j] == if p == 0 then [] else if p == 1 then a else a + b;
    assert h !in t[..j];
  }

  /** The teardown is safe in every enumeration order exactly if the carriers are layered. */
  lemma SafeInEveryOrderIff(n: Net)
    requires Rooted(n)
    ensures Layered(n) <==> forall orders :: ValidOrders(n, orders) ==> Safe(n, ClosingOrder(n, orders))
  {
    if Layered(n) {
      forall orders | ValidOrders(n, orders) ensures Safe(n, ClosingOrder(n, orders)) {
        LayeredIsSafe(n, orders);
      }
    } else {
      var h :| h in n.carrier && Phase(n.store.conn[h]) >= Phase(n.store.conn[n.carrier[h]]);
      var orders := UnsafeOrder(n, h);
      assert ValidOrders(n, orders);
    }
  }

  lemma PrefixIsSafe(n: Net, order: seq<string>, k: nat)
    requires Safe(n, order) && k <= |order|
    ensures Safe(n, order[..k])
  {
    var t := order[..k];
    forall j, h | 0 <= j < |t| && h in n.carrier && n.carrier[h] == t[j] ensures h in t[..j] {
      assert order[j] == t[j] && order[..j] == t[..j];
    }
  }

  /** What has been closed, and also together with the host at which it stops, is safe. */
  ghost predicate SafeSoFar(n: Net, order: seq<string>, t: seq<string>, r: Outcome) {
    && t <= order && Safe(n, t)
    && (!r.Finished? ==> |t| < |order| && Safe(n, order[..|t| + 1]))
  }

  lemma HaltedIsSafe(n: Net, m: Net, order: seq<string>, t: seq<string>, bastionConns: nat, server: bool, r: Outcome)
    requires Safe(n, order) && Halted(n, m, order, t, bastionConns, server, r)
    ensures SafeSoFar(n, order, t, r)
  {
    PrefixIsSafe(n, order, |t|);
    if !r.Finished? {
      PrefixIsSafe(n, order, |t| + 1);
    }
  }

  /** With layered carriers no teardown closes a connection while another live one is tunnelled through it,
      whether it gets through, blocks or panics; nor does it close the clients of the host at which it stops. */
  lemma TornIsSafe(n: Net, orders: (seq<string>, seq<string>, seq<string>), bastionConns: nat, server: bool)
    requires Apart(n) && ValidOrders(n, orders) && Layered(n)
    ensures var (r, m, t) := Torn(n, orders, bastionConns, server);
      SafeSoFar(n, ClosingOrder(n, orders), t, r)
  {
    LayeredIsSafe(n, orders);
    TornHalts(n, orders, bastionConns, server);
    var (r, m, t) := Torn(n, orders, bastionConns, server);
    HaltedIsSafe(n, m, ClosingOrder(n, orders), t, bastionConns, server, r);
  }

  /** On nets that connects build, the teardown panics, in every enumeration order, exactly if the program is not
      a server and some non-proxy is connected. */
  lemma TornPanicsIff(n: Net, orders: (seq<string>, seq<string>, seq<string>), bastionConns: nat, server: bool)
    requires NoOrphans(n) && ValidOrders(n, orders)
    ensures Torn(n, orders, bastionConns, server).0.Panicked? <==>
      !server && exists h :: Connected(n, h) && !n.store.conn[h].isProxy
  {
    ReadyIfListening(n, bastionConns, server);
    TornHalts(n, orders, bastionConns, server);
    if h :| Connected(n, h) && !n.store.conn[h].isProxy && !server {
      NonProxyPanics(n, orders, bastionConns, h);
    }
  }

  lemma NonProxyPanics(n: Net, orders: (seq<string>, seq<string>, seq<string>), bastionConns: nat, h: string)
    requires NoOrphans(n) && Apart(n) && ValidOrders(n, orders) && Connected(n, h) && !n.store.conn[h].isProxy
    ensures Torn(n, orders, bastionConns, false).0.Panicked?
  {
    BetweenStarts(n);
    PickMembers(n, orders.0, 0);
    PhaseResult(n, n, orders.0, 0, 1, false, []);
    var closed := PhaseProgresses(n, n, orders.0, 0, 1, false, []);
    assert Due(n, h, 0) && !ReadyHost(n, h, 1, false);
    var g := Pick(n, orders.0, 0)[|closed|];
    assert g in Pick(n, orders.0, 0);
  }

  /** So does a program that is not a server after one direct connect to a host that is no proxy. */
  lemma ConnectThenPanic(orders: (seq<string>, seq<string>, seq<string>))
    requires ValidOrders(Resolved(NOTHING, ["a"], false, ALL_SUCCEED).0, orders)
    ensures Torn(Resolved(NOTHING, ["a"], false, ALL_SUCCEED).0, orders, 1, false).0.Panicked?
  {
    UnconnectedIsAForest(EMPTY);
    ResolvedGrown(NOTHING, ["a"], false, ALL_SUCCEED);
    NilConnects(NOTHING, ["a"], false, ALL_SUCCEED);
    assert Begin(NOTHING, ["a"], ALL_SUCCEED) == 0 && ["a"][0..] == ["a"] && "a" in ["a"];
    var m := Hop(NOTHING, 0, ["a"], 0, false, ALL_SUCCEED).value;
    assert Resolved(NOTHING, ["a"], false, ALL_SUCCEED).0 == m.(calls := 1);
    TornPanicsIff(Resolved(NOTHING, ["a"], false, ALL_SUCCEED).0, orders, 1, false);
  }

  /** Where the teardown gets through, it is safe in every enumeration order exactly if carriers are layered. */
  lemma TornIsSafeIff(n: Net, bastionConns: nat, server: bool)
    requires Apart(n) && Rooted(n) && Ready(n, bastionConns, server)
    ensures Layered(n) <==> forall orders :: ValidOrders(n, orders) ==> Safe(n, Torn(n, orders, bastionConns, server).2)
  {
    SafeInEveryOrderIff(n);
    forall orders | ValidOrders(n, orders) ensures Torn(n, orders, bastionConns, server).2 == ClosingOrder(n, orders) {
      TornEffect(n, orders, bastionConns, server);
    }
  }

  lemma RemainingKeys(n: Net, m: Net, phase: nat)
    requires Between(n, m, phase)
    ensures m.store.conn.Keys == Remaining(n, phase)
  {
  }

  /* ---------------- the function itself ---------------- */

  /** What `disconnectEverywhere` does, with or without the proxies. */
  function Disconnected(n: Net, orders: (seq<string>, seq<string>, seq<string>), proxies: bool, bastionConns: nat, server: bool)
    : (Outcome, Net, seq<string>)
  {
    if proxies then Torn(n, orders, bastionConns, server) else Sweep(n, orders.0, 0, 0, 1, server, [])
  }

  /** Without the proxies: it gets through exactly if every non-proxy has a listener and a mux, and then just
      the proxies are left, with all their listeners. */
  lemma ProxiesStay(n: Net, orders: (seq<string>, seq<string>, seq<string>), bastionConns: nat, server: bool)
    requires Apart(n) && ValidOrders(n, orders)
    ensures var (r, m, t) := Disconnected(n, orders, false, bastionConns, server);
      && (r.Finished? <==> PhaseReady(n, 0, 1, server))
      && t <= Pick(n, orders.0, 0)
      && (r.Finished? ==>
            && t == Pick(n, orders.0, 0)
            && (forall h :: Connected(m, h) <==> Connected(n, h) && n.store.conn[h].isProxy)
            && (forall h :: Connected(m, h) ==>
                  m.store.conn[h] == n.store.conn[h] && Left(m, n.store.conn[h].reqChan) == Left(n, n.store.conn[h].reqChan)))
  {
    BetweenStarts(n);
    PhaseResult(n, n, orders.0, 0, 1, server, []);
    var closed := PhaseProgresses(n, n, orders.0, 0, 1, server, []);
  }

  /** With or without the proxies: when it gets through; what is then left, and which listeners; in any case, which
      hosts have been closed and in what order, and that with layered carriers this was safe. */
  ghost predicate Cleared(n: Net, orders: (seq<string>, seq<string>, seq<string>), proxies: bool, bastionConns: nat, server: bool,
                          r: Outcome, m: Net, cleaned: seq<string>)
  {
    && (r.Finished? <==> if proxies then Ready(n, bastionConns, server) else PhaseReady(n, 0, 1, server))
    && (r.Finished? ==>
          && (forall h :: Connected(m, h) <==> Connected(n, h) && !proxies && n.store.conn[h].isProxy)
          && (forall h :: Connected(m, h) ==>
                m.store.conn[h] == n.store.conn[h] && Left(m, n.store.conn[h].reqChan) == Left(n, n.store.conn[h].reqChan))
          && cleaned == (if proxies then ClosingOrder(n, orders) else Pick(n, orders.0, 0))
          && (forall h :: Connected(n, h) && !Connected(m, h) ==>
                Left(n, n.store.conn[h].reqChan)
                == Left(m, n.store.conn[h].reqChan) + Times(Phase(n.store.conn[h]), bastionConns)))
    && Halted(n, m, ClosingOrder(n, orders), cleaned, bastionConns, server, r)
    && (Layered(n) ==> SafeSoFar(n, ClosingOrder(n, orders), cleaned, r))
  }

  lemma DisconnectedClears(n: Net, orders: (seq<string>, seq<string>, seq<string>), proxies: bool, bastionConns: nat, server: bool)
    requires Apart(n) && ValidOrders(n, orders)
    ensures var (r, m, t) := Disconnected(n, orders, proxies, bastionConns, server);
      Cleared(n, orders, proxies, bastionConns, server, r, m, t)
  {
    var (r, m, t) := Disconnected(n, orders, proxies, bastionConns, server);
    if proxies {
      TornEffect(n, orders, bastionConns, server);
    } else {
      ProxiesStay(n, orders, bastionConns, server);
      FirstPhaseHalts(n, orders, bastionConns, server);
    }
    if Layered(n) {
      LayeredIsSafe(n, orders);
      HaltedIsSafe(n, m, ClosingOrder(n, orders), t, bastionConns, server, r);
    }
  }

  /** The first loop, seen from the whole closing order. */
  lemma FirstPhaseHalts(n: Net, orders: (seq<string>, seq<string>, seq<string>), bastionConns: nat, server: bool)
    requires Apart(n) && ValidOrders(n, orders)
    ensures var (r, m, t) := Sweep(n, orders.0, 0, 0, 1, server, []);
      && Halted(n, m, ClosingOrder(n, orders), t, bastionConns, server, r)
      && (r.Finished? ==> PhaseTakes(n, n, m, 0, 1))
  {
    BetweenStarts(n);
    PhaseResult(n, n, orders.0, 0, 1, server, []);
    var closed := PhaseProgresses(n, n, orders.0, 0, 1, server, []);
    var (r, m, t) := Sweep(n, orders.0, 0, 0, 1, server, []);
    assert t == closed;
    if !r.Finished? {
      FirstHalts(n, m, orders, bastionConns, server, closed, r);
    }
  }

  /** `disconnectEverywhere` after the waiters have been timed out. `cleaned` lists the hosts in the order in
      which they were closed; the enumerations are those GetConnKeys happened to return (made up for phases
      that were not reached). */
  method DisconnectEverywhere(net: Network, proxies: bool, bastionConns: nat, server: bool)
    returns (r: Outcome, cleaned: seq<string>, ghost orders: (seq<string>, seq<string>, seq<string>))
    requires Apart(net.Value())
    modifies net, net.state`conn
    ensures ValidOrders(old(net.Value()), orders)
    ensures (r, net.Value(), cleaned) == Disconnected(old(net.Value()), orders, proxies, bastionConns, server)
    ensures Cleared(old(net.Value()), orders, proxies, bastionConns, server, r, net.Value(), cleaned)
  {
    r, cleaned, orders := CloseAll(net, proxies, bastionConns, server);
    DisconnectedClears(old(net.Value()), orders, proxies, bastionConns, server);
  }

  /** The body of it: the three loops, each over the connections there are by then. */
  method CloseAll(net: Network, proxies: bool, bastionConns: nat, server: bool)
    returns (r: Outcome, cleaned: seq<string>, ghost orders: (seq<string>, seq<string>, seq<string>))
    requires Apart(net.Value())
    modifies net, net.state`conn
    ensures ValidOrders(old(net.Value()), orders)
    ensures (r, net.Value(), cleaned) == Disconnected(old(net.Value()), orders, proxies, bastionConns, server)
  {
    ghost var n := net.Value();
    BetweenStarts(n);
    ghost var p0 := SomeEnumeration(Remaining(n, 0), "");
    ghost var p1 := SomeEnumeration(Remaining(n, 1), "");
    ghost var p2 := SomeEnumeration(Remaining(n, 2), "");
    cleaned := [];
    var ck := net.state.GetConnKeys();
    RemainingKeys(n, net.Value(), 0);
    orders := (ck, p1, p2);
    PhaseResult(n, net.Value(), ck, 0, 1, server, cleaned);
    r, cleaned := ClosePhase(net, ck, 0, 1, server, cleaned);
    if !r.Finished? || !proxies {
      return;
    }
    ck := net.state.GetConnKeys();
    RemainingKeys(n, net.Value(), 1);
    orders := (orders.0, ck, p2);
    PhaseResult(n, net.Value(), ck, 1, 1, server, cleaned);
    r, cleaned := ClosePhase(net, ck, 1, 1, server, cleaned);
    if !r.Finished? {
      return;
    }
    ck := net.state.GetConnKeys();
    RemainingKeys(n, net.Value(), 2);
    orders := (orders.0, orders.1, ck);
    r, cleaned := ClosePhase(net, ck, 2, bastionConns, server, cleaned);
  }

  /** One of the three loops over the connection keys. */
  method ClosePhase(net: Network, ck: seq<string>, phase: nat, times: nat, server: bool, before: seq<string>)
    returns (r: Outcome, cleaned: seq<string>)
    modifies net, net.state`conn
    ensures (r, net.Value(), cleaned) == Sweep(old(net.Value()), ck, 0, phase, times, server, before)
  {
    cleaned := before;
    for i := 0 to |ck|
      invariant Sweep(old(net.Value()), ck, 0, phase, times, server, before)
             == Sweep(net.Value(), ck, i, phase, times, server, cleaned)
    {
      var ci := net.state.GetConnInfo(ck[i]);
      if ci.Some? && Phase(ci.value) == phase {
        r := CleanUp(net, ci.value, times, server);
        if !r.Finished? {
          return;
        }
        net.state.DeleteConnInfo(ck[i]);
        net.carrier := net.carrier - {ck[i]};
        cleaned := cleaned + [ck[i]];
      }
    }
    r := Finished;
  }

  /** Sends the cleanup requests for one entry and waits for each answer. */
  method CleanUp(net: Network, ci: ConnInfo, times: nat, server: bool) returns (r: Outcome)
    modifies net`listeners
    ensures (r, net.Value()) == Cleanups(old(net.Value()), ci, times, server)
  {
    for i := 0 to times
      invariant Cleanups(old(net.Value()), ci, i, server) == (Finished, net.Value())
    {
      var listening := ci.reqChan in net.listeners && net.listeners[ci.reqChan].size > 0;
      if !listening {
        StoppedEarly(old(net.Value()), ci, i + 1, times, server);
        return Blocked;
      }
      if !ci.isProxy && !server {
        StoppedEarly(old(net.Value()), ci, i + 1, times, server);
        return Panicked;
      }
      var crew := net.listeners[ci.reqChan];
      net.listeners := if crew.size == 1 then net.listeners - {ci.reqChan}
        else net.listeners[ci.reqChan := crew.(size := crew.size - 1)];
    }
    r := Finished;
  }

  lemma {:induction false} StoppedEarly(n: Net, ci: ConnInfo, i: nat, times: nat, server: bool)
    requires i <= times && !Cleanups(n, ci, i, server).0.Finished?
    ensures Cleanups(n, ci, times, server) == Cleanups(n, ci, i, server)
  {
    if i < times {
      StoppedEarly(n, ci, i, times - 1, server);
    }
  }

  /* ---------------- teardown of what connects have built ---------------- */

  lemma ReadyIfListening(n: Net, bastionConns: nat, server: bool)
    requires NoOrphans(n)
    ensures Apart(n)
    ensures Ready(n, bastionConns, server) <==> Enough(n, bastionConns, server)
  {
  }

  /** There are no non-proxies or the program is a server, and every direct proxy has all of its listeners. */
  ghost predicate Enough(n: Net, bastionConns: nat, server: bool) {
    forall h :: Connected(n, h) ==>
      && (!n.store.conn[h].isProxy ==> server)
      && (n.store.conn[h].isProxy && n.store.conn[h].isDirect ==> Left(n, n.store.conn[h].reqChan) >= bastionConns)
  }

  /** After any serial run of connects, with whatever outcomes and in whatever enumeration orders: the teardown
      gets through exactly if there are no non-proxies or the program is a server, and every direct proxy got
      all of its BastionConns dials. */
  lemma TornAfterConnects(n: Net, calls: seq<Call>, orders: (seq<string>, seq<string>, seq<string>), bastionConns: nat, server: bool)
    requires Built(n, Chan(n.calls, 0)) && forall c :: c in calls ==> Plain(n, c.chain)
    requires ValidOrders(RunAll(n, calls), orders)
    ensures Torn(RunAll(n, calls), orders, bastionConns, server).0.Finished? <==> Enough(RunAll(n, calls), bastionConns, server)
  {
    SerialRunsBuildForests(n, calls);
    ReadyIfListening(RunAll(n, calls), bastionConns, server);
    TornEffect(RunAll(n, calls), orders, bastionConns, server);
  }

  /** `disconnectHost`: one cleanup, however many goroutines listen; None is the error return. */
  method DisconnectHost(net: Network, host: string, server: bool) returns (r: Option<Outcome>)
    requires Apart(net.Value())
    modifies net, net.state`conn
    ensures r.None? <==> !Connected(old(net.Value()), host)
    ensures r.Some? ==> (r.value.Finished? <==> ReadyHost(old(net.Value()), host, 1, server))
    ensures r.Some? ==> var ci := old(net.Value()).store.conn[host];
      && (r.value.Blocked? <==> Left(old(net.Value()), ci.reqChan) == 0)
      && (r.value.Panicked? <==> Left(old(net.Value()), ci.reqChan) > 0 && !ci.isProxy && !server)
    ensures r == Some(Finished) ==> ClosedOne(old(net.Value()), net.Value(), host, 1)
    ensures r != Some(Finished) ==> net.Value() == old(net.Value())
  {
    var ci := net.state.GetConnInfo(host);
    if ci.None? {
      return None;
    }
    CloseOne(net.Value(), host, 1, server);
    CleanupsEffect(net.Value(), ci.value, 1, server);
    var outcome := CleanUp(net, ci.value, 1, server);
    if outcome.Finished? {
      net.state.DeleteConnInfo(host);
      net.carrier := net.carrier - {host};
    }
    r := Some(outcome);
  }

  /** After a connection has been closed by one cleanup, as `disconnectHost` and the first phase do, some
      goroutine listens that nothing can reach any more exactly if more than one was listening before. */
  lemma OneCleanupOrphans(n: Net, host: string, server: bool)
    requires NoOrphans(n) && Connected(n, host) && ReadyHost(n, host, 1, server)
    ensures var (r, m) := Cleanups(n, n.store.conn[host], 1, server);
      r.Finished? && (NoOrphans(Forget(m, host)) <==> Left(n, n.store.conn[host].reqChan) == 1)
  {
    var ci := n.store.conn[host];
    assert Cleanups(n, ci, 1, server) == Cleanup(n, ci, server);
    var m := Forget(Cleanup(n, ci, server).1, host);
    if Left(n, ci.reqChan) == 1 {
      ClosingTheLast(n, m, host);
    } else {
      assert ci.reqChan in m.listeners && m.listeners[ci.reqChan].host == host;
    }
  }

  lemma ClosingTheLast(n: Net, m: Net, host: string)
    requires NoOrphans(n) && Connected(n, host)
    requires m.store.conn == n.store.conn - {host} && m.listeners == n.listeners - {n.store.conn[host].reqChan}
    ensures NoOrphans(m)
  {
  }

  /** Connecting directly to a host that is no proxy, with two dials that succeed, and then disconnecting it,
      leaves a goroutine behind. */
  lemma TwoDialsOneCleanup()
    ensures var n := Resolved(NOTHING, ["a"], false, Oracle(_ => 2, (_, _) => true)).0;
      && NoOrphans(n) && Connected(n, "a") && ReadyHost(n, "a", 1, true)
      && var (r, m) := Cleanups(n, n.store.conn["a"], 1, true); r.Finished? && !NoOrphans(Forget(m, "a"))
  {
    var o := Oracle(_ => 2, (_, _) => true);
    var c := Call(["a"], false, o);
    assert Hop(NOTHING, 0, ["a"], 0, false, o)
      == Some(Join(NOTHING, ConnInfo("a", false, true, 0, Chan(0, 0)), 2, None));
    var m := Join(NOTHING, ConnInfo("a", false, true, 0, Chan(0, 0)), 2, None);
    assert Walk(NOTHING, 0, ["a"], 0, false, o) == Walk(m, 0, ["a"], 1, false, o) == (m, None);
    var n := Resolved(NOTHING, ["a"], false, o).0;
    assert n.store.conn == map["a" := ConnInfo("a", false, true, 0, Chan(0, 0))];
    assert n.listeners == map[Chan(0, 0) := Crew("a", 2)];
    OneCleanupOrphans(n, "a", true);
  }
}
