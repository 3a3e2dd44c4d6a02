/** How a host is reached through its chain of links (resolve.go), hop by hop, and what a serial run
    of resolve calls leaves behind: which links are connected, who carries whom, how many
    goroutines listen on each request channel. */
module Resolve {
  import opened Prelude
  import opened State

  /** The outcomes of the network. `direct(link)` of the dials made to a direct link succeed in
      time; `tunnel(proxy, link)` says whether the proxy's answer carries a client. */
  datatype Oracle = Oracle(direct: string -> nat, tunnel: (string, string) -> bool)

  /** The `remoteHost` goroutines that listen on one request channel: whom they serve, how many. */
  datatype Crew = Crew(host: string, size: nat)

  /** The state together with what it does not record: who listens on each request channel, and the
      host each connection is tunnelled through. */
  datatype Net = Net(store: Store, listeners: map<Chan, Crew>, carrier: map<string, string>, calls: nat)

  predicate Connected(n: Net, h: string) { h in n.store.conn }

  /** `k` goroutines start listening on a new channel and SetConnInfo is called. */
  function Open(n: Net, ci: ConnInfo, k: nat): Net {
    var named := ci.(hostName := NameOf(n.store, ci.hostName));
    n.(store := Apply(n.store, SetConnInfo(named)).store,
       listeners := n.listeners[ci.reqChan := Crew(named.hostName, k)])
  }

  /** A client for `ci.hostName` has been obtained, through `proxy` if there is one: the listeners
      are started and the entry is set. An entry that exists stays as it is. */
  function Join(n: Net, ci: ConnInfo, k: nat, proxy: Option<string>): Net {
    var name := NameOf(n.store, ci.hostName);
    var m := Open(n, ci, k);
    if proxy.None? || Connected(n, name) then m else m.(carrier := m.carrier[name := proxy.value])
  }

  function Count(n: Net, proxy: string): Net
    requires Connected(n, proxy)
  {
    n.(store := Apply(n.store, IncProxyCount(proxy)).store)
  }

  /** One turn of the loop in `resolve`; None is the error return. */
  function Hop(n: Net, call: nat, chain: seq<string>, i: nat, isProxy: bool, o: Oracle): Option<Net>
    requires i < |chain|
  {
    var link := chain[i];
    var chan := Chan(call, i);
    if Connected(n, link) then Some(n)
    else if i == 0 then
      var k := o.direct(link);
      if k == 0 then Some(n)
      else Some(Join(n, ConnInfo(link, isProxy, true, 0, chan), k, None))
    else
      var proxy := chain[i - 1];
      if !Connected(n, proxy) then Some(n)
      else if !o.tunnel(proxy, link) then None
      else Some(Join(Count(n, proxy), ConnInfo(link, isProxy, false, 0, chan), 1, Some(proxy)))
  }

  /** The rest of the loop; the second result is the hop at which an error was returned. */
  function Walk(n: Net, call: nat, chain: seq<string>, i: nat, isProxy: bool, o: Oracle): (Net, Option<nat>)
    requires i <= |chain|
    decreases |chain| - i
  {
    if i == |chain| then (n, None)
    else
      match Hop(n, call, chain, i, isProxy, o)
      case None => (n, Some(i))
      case Some(m) => Walk(m, call, chain, i + 1, isProxy, o)
  }

  function Resolved(n: Net, chain: seq<string>, isProxy: bool, o: Oracle): (Net, Option<nat>) {
    var (m, err) := Walk(n, n.calls, chain, 0, isProxy, o);
    (m.(calls := m.calls + 1), err)
  }

  /** GetPTR leaves the links alone. It does so for all links but the empty one (`State.ReachableStores`), and
      for that one only if the target loaded last has no name. */
  predicate Kept(ptr: map<string, string>, chain: seq<string>) {
    forall link :: link in chain && link in ptr ==> ptr[link] == link
  }

  predicate Plain(n: Net, chain: seq<string>) { Kept(n.store.ptr, chain) }

  /* ---------------- what one call leaves connected ---------------- */

  lemma HopEffect(n: Net, call: nat, chain: seq<string>, i: nat, isProxy: bool, o: Oracle)
    requires i < |chain| && Plain(n, chain)
    ensures Hop(n, call, chain, i, isProxy, o).None? ==>
      i > 0 && Connected(n, chain[i - 1]) && !Connected(n, chain[i]) && !o.tunnel(chain[i - 1], chain[i])
    ensures Hop(n, call, chain, i, isProxy, o).Some? ==>
      var m := Hop(n, call, chain, i, isProxy, o).value;
      && m.store.ptr == n.store.ptr && m.calls == n.calls
      && (m.store.conn.Keys == n.store.conn.Keys || m.store.conn.Keys == n.store.conn.Keys + {chain[i]})
      && (i > 0 && Connected(n, chain[i - 1]) ==> Connected(m, chain[i]))
      && (i == 0 ==> (Connected(m, chain[0]) <==> Connected(n, chain[0]) || o.direct(chain[0]) > 0))
      && (!Connected(n, chain[i]) && (if i > 0 then !Connected(n, chain[i - 1]) else o.direct(chain[0]) == 0)
          ==> m == n)
  {
    assert chain[i] in chain;
  }

  /** The hop at which an error is returned, and what is connected around it. */
  predicate FailedAt(n: Net, chain: seq<string>, from: nat, hop: nat) {
    from <= hop < |chain| && hop > 0 && Connected(n, chain[hop - 1]) && !Connected(n, chain[hop])
  }

  lemma {:induction false} WalkGrows(n: Net, call: nat, chain: seq<string>, i: nat, isProxy: bool, o: Oracle)
    requires i <= |chain| && Plain(n, chain)
    ensures var (m, err) := Walk(n, call, chain, i, isProxy, o);
      && m.store.ptr == n.store.ptr && m.calls == n.calls
      && (forall h :: Connected(n, h) ==> Connected(m, h))
      && (forall h :: Connected(m, h) ==> Connected(n, h) || h in chain[i..])
      && (err.Some? ==> FailedAt(m, chain, i, err.value))
    decreases |chain| - i
  {
    if i < |chain| {
      HopEffect(n, call, chain, i, isProxy, o);
      var hop := Hop(n, call, chain, i, isProxy, o);
      assert chain[i..] == [chain[i]] + chain[i + 1..];
      if hop.Some? {
        WalkGrows(hop.value, call, chain, i + 1, isProxy, o);
      }
    }
  }

  /** From a connected link on, a walk that returns nil connects the whole rest of the chain; the link may
      be the one before the hop that comes next. */
  lemma {:induction false} WalkReaches(n: Net, call: nat, chain: seq<string>, i: nat, isProxy: bool, o: Oracle, j: nat, k: nat)
    requires i <= j + 1 && j <= k < |chain| && Plain(n, chain) && Connected(n, chain[j])
    requires Walk(n, call, chain, i, isProxy, o).1.None?
    ensures Connected(Walk(n, call, chain, i, isProxy, o).0, chain[k])
    decreases |chain| - i
  {
    if j == k {
      WalkGrows(n, call, chain, i, isProxy, o);
    } else {
      HopEffect(n, call, chain, i, isProxy, o);
      WalkReaches(Hop(n, call, chain, i, isProxy, o).value, call, chain, i + 1, isProxy, o, if i <= j then j else i, k);
    }
  }

  /** An unconnected link is passed over when there is nothing to reach it through. */
  lemma IdleHop(n: Net, call: nat, chain: seq<string>, i: nat, isProxy: bool, o: Oracle)
    requires i < |chain| && Plain(n, chain) && !Connected(n, chain[i])
    requires if i > 0 then !Connected(n, chain[i - 1]) else o.direct(chain[0]) == 0
    ensures Walk(n, call, chain, i, isProxy, o) == Walk(n, call, chain, i + 1, isProxy, o)
  {
    HopEffect(n, call, chain, i, isProxy, o);
  }

  lemma {:induction false} WalkIdles(n: Net, call: nat, chain: seq<string>, i: nat, isProxy: bool, o: Oracle, p: nat)
    requires i <= p <= |chain| && Plain(n, chain) && (p > 0 ==> o.direct(chain[0]) == 0)
    requires forall k :: 0 <= k < p ==> !Connected(n, chain[k])
    ensures Walk(n, call, chain, i, isProxy, o) == Walk(n, call, chain, p, isProxy, o)
    decreases p - i
  {
    if i < p {
      IdleHop(n, call, chain, i, isProxy, o);
      WalkIdles(n, call, chain, i + 1, isProxy, o, p);
    }
  }

  function FirstUp(n: Net, chain: seq<string>, i: nat): (p: nat)
    requires i <= |chain|
    ensures i <= p <= |chain| && (p < |chain| ==> Connected(n, chain[p]))
    ensures forall k :: i <= k < p ==> !Connected(n, chain[k])
    decreases |chain| - i
  {
    if i == |chain| || Connected(n, chain[i]) then i else FirstUp(n, chain, i + 1)
  }

  /** Where connecting starts: at the first link if it can be dialed, otherwise at the first link that was
      connected before the call, if there is one. */
  function Begin(n: Net, chain: seq<string>, o: Oracle): (p: nat)
    ensures p <= |chain|
  {
    if chain != [] && o.direct(chain[0]) > 0 then 0 else FirstUp(n, chain, 0)
  }

  /** A hop from a connected link that is refused: its link was not connected before the walk came from link
      `from`, nor by it on the way. */
  predicate Refused(n: Net, chain: seq<string>, o: Oracle, from: nat, k: nat) {
    from <= k < |chain| && k > 0 && !Connected(n, chain[k]) && chain[k] !in chain[from..k] && !o.tunnel(chain[k - 1], chain[k])
  }

  ghost predicate RefusedFrom(n: Net, chain: seq<string>, o: Oracle, from: nat) {
    exists k: nat :: Refused(n, chain, o, from, k)
  }

  ghost predicate RefusedAfter(n: Net, chain: seq<string>, o: Oracle, p: nat) {
    exists k: nat :: k > p && Refused(n, chain, o, p, k)
  }

  lemma {:induction false} WalkErrIff(n: Net, call: nat, chain: seq<string>, i: nat, isProxy: bool, o: Oracle)
    requires 0 < i <= |chain| && Plain(n, chain) && Connected(n, chain[i - 1])
    ensures Walk(n, call, chain, i, isProxy, o).1.Some? <==> RefusedFrom(n, chain, o, i)
    decreases |chain| - i
  {
    if i < |chain| {
      HopEffect(n, call, chain, i, isProxy, o);
      var hop := Hop(n, call, chain, i, isProxy, o);
      if hop.None? {
        assert Refused(n, chain, o, i, i);
      } else {
        HopGoes(n, call, chain, i, isProxy, o);
        WalkErrIff(hop.value, call, chain, i + 1, isProxy, o);
        LaterRefused(n, hop.value, chain, o, i);
        assert RefusedFrom(n, chain, o, i) <==> RefusedAfter(n, chain, o, i) by {
          if k: nat :| Refused(n, chain, o, i, k) {
            assert k > i;
          }
        }
      }
    }
  }

  /** A hop that is not refused connects its link and nothing else. */
  lemma HopGoes(n: Net, call: nat, chain: seq<string>, i: nat, isProxy: bool, o: Oracle)
    requires 0 < i < |chain| && Plain(n, chain) && Connected(n, chain[i - 1]) && Hop(n, call, chain, i, isProxy, o).Some?
    ensures !Refused(n, chain, o, i, i)
    ensures var m := Hop(n, call, chain, i, isProxy, o).value;
      Plain(m, chain) && forall h :: Connected(m, h) <==> Connected(n, h) || h == chain[i]
  {
    HopEffect(n, call, chain, i, isProxy, o);
  }

  /** The call returns an error exactly if some proxy after the beginning refuses a link that is not connected
      by then. */
  lemma ErrorIff(n: Net, chain: seq<string>, isProxy: bool, o: Oracle)
    requires Plain(n, chain)
    ensures var p := Begin(n, chain, o);
      Resolved(n, chain, isProxy, o).1.Some? <==> RefusedAfter(n, chain, o, p)
  {
    var p := Begin(n, chain, o);
    if p == |chain| {
      WalkIdles(n, n.calls, chain, 0, isProxy, o, p);
    } else if Connected(n, chain[p]) {
      WalkToBegin(n, chain, isProxy, o);
      WalkErrIff(n, n.calls, chain, p + 1, isProxy, o);
      LaterRefused(n, n, chain, o, p);
    } else {
      HopEffect(n, n.calls, chain, 0, isProxy, o);
      var m := Hop(n, n.calls, chain, 0, isProxy, o).value;
      assert Connected(m, chain[0]) && forall h :: Connected(m, h) <==> Connected(n, h) || h == chain[0];
      WalkErrIff(m, n.calls, chain, 1, isProxy, o);
      LaterRefused(n, m, chain, o, 0);
    }
  }

  /** Once the link at the beginning is connected, only what comes after it counts. */
  lemma LaterRefused(n: Net, m: Net, chain: seq<string>, o: Oracle, p: nat)
    requires p < |chain| && Connected(m, chain[p]) && forall h :: Connected(m, h) <==> Connected(n, h) || h == chain[p]
    ensures RefusedFrom(m, chain, o, p + 1) <==> RefusedAfter(n, chain, o, p)
  {
    var next := p + 1;
    if k: nat :| Refused(m, chain, o, next, k) {
      assert chain[p..k] == [chain[p]] + chain[p + 1..k];
      assert Refused(n, chain, o, p, k);
    }
    if k: nat :| k > p && Refused(n, chain, o, p, k) {
      assert chain[p..k] == [chain[p]] + chain[p + 1..k];
      assert Refused(m, chain, o, p + 1, k);
    }
  }

  /** The hops before the first connected link, and that link itself, change nothing. */
  lemma WalkToBegin(n: Net, chain: seq<string>, isProxy: bool, o: Oracle)
    requires Plain(n, chain) && Begin(n, chain, o) < |chain| && Connected(n, chain[Begin(n, chain, o)])
    ensures var p := Begin(n, chain, o);
      Walk(n, n.calls, chain, 0, isProxy, o) == Walk(n, n.calls, chain, p + 1, isProxy, o)
  {
    WalkIdles(n, n.calls, chain, 0, isProxy, o, Begin(n, chain, o));
  }

  /** A call that returns nil has connected just the links from there on. */
  lemma NilConnects(n: Net, chain: seq<string>, isProxy: bool, o: Oracle)
    requires Plain(n, chain) && Resolved(n, chain, isProxy, o).1.None?
    ensures var (m, rest) := (Resolved(n, chain, isProxy, o).0, chain[Begin(n, chain, o)..]);
      forall h :: Connected(m, h) <==> Connected(n, h) || h in rest
  {
    var p, m := Begin(n, chain, o), Resolved(n, chain, isProxy, o).0;
    WalkIdles(n, n.calls, chain, 0, isProxy, o, p);
    WalkGrows(n, n.calls, chain, p, isProxy, o);
    forall k | p <= k < |chain| ensures Connected(m, chain[k]) {
      FromBegin(n, chain, isProxy, o, k);
    }
  }

  lemma FromBegin(n: Net, chain: seq<string>, isProxy: bool, o: Oracle, k: nat)
    requires Plain(n, chain) && Resolved(n, chain, isProxy, o).1.None? && Begin(n, chain, o) <= k < |chain|
    ensures Connected(Resolved(n, chain, isProxy, o).0, chain[k])
  {
    var p := Begin(n, chain, o);
    if Connected(n, chain[p]) {
      WalkReaches(n, n.calls, chain, 0, isProxy, o, p, k);
    } else {
      HopEffect(n, n.calls, chain, 0, isProxy, o);
      WalkReaches(Hop(n, n.calls, chain, 0, isProxy, o).value, n.calls, chain, 1, isProxy, o, 0, k);
    }
  }

  /** A connected link is followed by connected links only. */
  ghost predicate SuffixUp(n: Net, chain: seq<string>) {
    forall j, k :: 0 <= j <= k < |chain| && Connected(n, chain[j]) ==> Connected(n, chain[k])
  }

  /** A nil return leaves a suffix of the chain connected exactly if no link from the beginning on also
      occurs before a link that does not. */
  lemma SuffixIff(n: Net, chain: seq<string>, isProxy: bool, o: Oracle)
    requires Plain(n, chain) && Resolved(n, chain, isProxy, o).1.None?
    ensures SuffixUp(Resolved(n, chain, isProxy, o).0, chain) <==>
      var rest := chain[Begin(n, chain, o)..];
      forall j, k :: 0 <= j <= k < |chain| && chain[j] in rest ==> chain[k] in rest
  {
    NilConnects(n, chain, isProxy, o);
    var rest, m := chain[Begin(n, chain, o)..], Resolved(n, chain, isProxy, o).0;
    forall k | 0 <= k < |chain| ensures Connected(m, chain[k]) <==> chain[k] in rest {
      if Connected(n, chain[k]) {
        assert rest[k - Begin(n, chain, o)] == chain[k];
      }
    }
  }

  /** So it does on every chain of different links. An error at hop i means that chain[i-1] is connected and
      chain[i] is not, for any chain. */
  lemma ResolveLeavesSuffix(n: Net, chain: seq<string>, isProxy: bool, o: Oracle)
    requires Plain(n, chain)
    ensures var (m, err) := Resolved(n, chain, isProxy, o);
      && (err.None? && NoDup(chain) ==> SuffixUp(m, chain))
      && (err.Some? ==> FailedAt(m, chain, 0, err.value))
  {
    WalkGrows(n, n.calls, chain, 0, isProxy, o);
    var (m, err) := Resolved(n, chain, isProxy, o);
    if err.None? && NoDup(chain) {
      SuffixIff(n, chain, isProxy, o);
      var p := Begin(n, chain, o);
      forall j, k | 0 <= j <= k < |chain| && chain[j] in chain[p..] ensures chain[k] in chain[p..] {
        var i :| 0 <= i < |chain[p..]| && chain[p..][i] == chain[j];
        assert chain[p + i] == chain[j] && chain[p..][k - p] == chain[k];
      }
    }
  }

  /** A failed direct dial is not an error: a nil return means that the destination is connected
      exactly if some link was connected before the call or a direct dial succeeds. */
  lemma NilMeansConnectedIff(n: Net, chain: seq<string>, isProxy: bool, o: Oracle)
    requires Plain(n, chain) && chain != []
    requires Resolved(n, chain, isProxy, o).1.None?
    ensures Connected(Resolved(n, chain, isProxy, o).0, chain[|chain| - 1])
      <==> o.direct(chain[0]) > 0 || exists link :: link in chain && Connected(n, link)
  {
    NilConnects(n, chain, isProxy, o);
    var p := Begin(n, chain, o);
    if p < |chain| {
      assert chain[p..][|chain| - 1 - p] == chain[|chain| - 1] && chain[p] in chain;
    } else {
      assert chain[|chain| - 1] in chain;
    }
  }

  const NOTHING := Net(EMPTY, map[], map[], 0)

  /** Different links are needed: with a link named twice, a nil return can leave a connected link
      before an unconnected one. */
  lemma RepeatedLinkBreaksSuffix()
    ensures var o := Oracle(_ => 0, (_, _) => true);
      var n := NOTHING.(store := EMPTY.(conn := map["c" := ConnInfo("c", true, true, 0, Chan(0, 0))]), calls := 1);
      var (m, err) := Resolved(n, ["a", "b", "c", "a"], false, o);
      err.None? && Connected(m, "a") && !Connected(m, "b")
  {
    var o := Oracle(_ => 0, (_, _) => true);
    var n := NOTHING.(store := EMPTY.(conn := map["c" := ConnInfo("c", true, true, 0, Chan(0, 0))]), calls := 1);
    var chain := ["a", "b", "c", "a"];
    assert chain[0] == chain[3] == "a" && chain[1] == "b" && chain[2] == "c";
    IdleHop(n, 1, chain, 0, false, o);
    IdleHop(n, 1, chain, 1, false, o);
    assert Hop(n, 1, chain, 2, false, o) == Some(n);
    var m := Hop(n, 1, chain, 3, false, o).value;
    HopEffect(n, 1, chain, 3, false, o);
    assert Walk(n, 1, chain, 2, false, o) == Walk(n, 1, chain, 3, false, o) == Walk(m, 1, chain, 4, false, o);
  }

  /* ---------------- the function itself ---------------- */

  /** The program's state and the goroutines around it. */
  class Network {
    const state: State
    var listeners: map<Chan, Crew>
    var calls: nat
    ghost var carrier: map<string, string>

    ghost function Value(): Net
      reads this, state
    {
      Net(state.Contents(), listeners, carrier, calls)
    }

    constructor (state: State)
      ensures this.state == state && Value() == Net(state.Contents(), map[], map[], 0)
    {
      this.state := state;
      listeners, calls, carrier := map[], 0, map[];
    }

    /** `resolve` with no other goroutine changing connections meanwhile; the result is the hop whose
        error is returned. */
    method Resolve(chain: seq<string>, isProxy: bool, o: Oracle) returns (err: Option<nat>)
      modifies this, state`conn
      ensures (Value(), err) == Resolved(old(Value()), chain, isProxy, o)
    {
      err := None;
      for idx := 0 to |chain|
        invariant err.None? && calls == old(calls)
        invariant Walk(old(Value()), old(calls), chain, 0, isProxy, o) == Walk(Value(), old(calls), chain, idx, isProxy, o)
      {
        var ok := Visit(chain, idx, isProxy, o);
        if !ok {
          err := Some(idx);
          break;
        }
      }
      calls := calls + 1;
    }

    /** One turn of the loop; false stands for returning the proxy's error. */
    method Visit(chain: seq<string>, idx: nat, isProxy: bool, o: Oracle) returns (ok: bool)
      requires idx < |chain|
      modifies this`listeners, this`carrier, state`conn
      ensures Hop(old(Value()), calls, chain, idx, isProxy, o) == if ok then Some(Value()) else None
      ensures !ok ==> Value() == old(Value())
    {
      var link := chain[idx];
      var found := state.ConnExists(link);
      if found {
        return true;
      }
      if idx > 0 {
        var proxy := chain[idx - 1];
        var ci := state.GetConnInfo(proxy);
        if ci.None? {
          return true;
        }
        if !o.tunnel(proxy, link) {
          return false;
        }
        Tunnelled(proxy, link, isProxy, Chan(calls, idx));
      } else {
        Dial(link, isProxy, o, Chan(calls, 0));
      }
      ok := true;
    }

    /** The proxy has answered with a client for `link`. */
    method Tunnelled(proxy: string, link: string, isProxy: bool, chan: Chan)
      requires Connected(Value(), proxy)
      modifies this`listeners, this`carrier, state`conn
      ensures Value() == Join(Count(old(Value()), proxy), ConnInfo(link, isProxy, false, 0, chan), 1, Some(proxy))
    {
      var counted := state.IncProxyCount(proxy);
      ghost var name := NameOf(state.Contents(), link);
      if !(name in state.conn) {
        carrier := carrier[name := proxy];
      }
      var me := state.GetPTR(link);
      listeners := listeners[chan := Crew(me, 1)];
      state.SetConnInfo(ConnInfo(link, isProxy, false, 0, chan));
    }

    /** The dials of a direct link: each one that gets its client starts a listener and sets the entry. */
    method Dial(link: string, isProxy: bool, o: Oracle, chan: Chan)
      modifies this`listeners, state`conn
      ensures Value() == if o.direct(link) == 0 then old(Value())
        else Join(old(Value()), ConnInfo(link, isProxy, true, 0, chan), o.direct(link), None)
    {
      for id := 0 to o.direct(link)
        invariant Value() == if id == 0 then old(Value())
          else Join(old(Value()), ConnInfo(link, isProxy, true, 0, chan), id, None)
      {
        StartListener(ConnInfo(link, isProxy, true, 0, chan), id + 1);
      }
    }

    /** The `size`-th goroutine of a direct link starts to listen and sets the entry. */
    method StartListener(ci: ConnInfo, size: nat)
      modifies this`listeners, state`conn
      ensures Value() == Join(old(Value()), ci, size, None)
    {
      var me := state.GetPTR(ci.hostName);
      listeners := listeners[ci.reqChan := Crew(me, size)];
      state.SetConnInfo(ci);
    }
  }
}
