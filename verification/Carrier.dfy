/** The shape of the connections that a serial run of resolve calls builds up: a forest whose
    roots are direct connections, with exact proxy counts and no stray listener. */
module Carrier {
  import opened Prelude
  import opened State
  import opened Resolve

  /** Channels are made in this order. */
  predicate Before(a: Chan, b: Chan) {
    a.call < b.call || (a.call == b.call && a.hop < b.hop)
  }

  /** The connections tunnelled through p. */
  ghost function CarriedBy(carrier: map<string, string>, p: string): set<string> {
    set h | h in carrier && carrier[h] == p
  }

  ghost predicate Forest(n: Net) { Rooted(n) && Counted(n) }

  /** The tunnelled connections are those with a carrier, and a carrier was there first. */
  ghost predicate Rooted(n: Net) {
    && (forall h {:trigger h in n.carrier} :: h in n.carrier <==> h in n.store.conn && !n.store.conn[h].isDirect)
    && (forall h {:trigger n.carrier[h]} :: h in n.carrier ==>
          && n.carrier[h] in n.store.conn
          && Before(n.store.conn[n.carrier[h]].reqChan, n.store.conn[h].reqChan))
  }

  ghost predicate Counted(n: Net) {
    forall p :: p in n.store.conn ==> n.store.conn[p].proxyCount == |CarriedBy(n.carrier, p)|
  }

  /** Each entry has its own channel, on which its own goroutines listen: one if the connection is
      tunnelled, at least one if it is direct. Nobody listens on any other channel. */
  ghost predicate NoOrphans(n: Net) {
    && (forall h :: h in n.store.conn ==>
          && n.store.conn[h].reqChan in n.listeners
          && n.listeners[n.store.conn[h].reqChan].host == h
          && n.listeners[n.store.conn[h].reqChan].size > 0
          && (!n.store.conn[h].isDirect ==> n.listeners[n.store.conn[h].reqChan].size == 1))
    && (forall c :: c in n.listeners ==>
          n.listeners[c].host in n.store.conn && n.store.conn[n.listeners[c].host].reqChan == c)
  }

  /** Every entry so far was made before channel `c`. */
  ghost predicate AllBefore(n: Net, c: Chan) {
    forall h :: h in n.store.conn ==> Before(n.store.conn[h].reqChan, c)
  }

  /** No entry of n is lost, replaced or re-parented in m; only its proxy count may grow. */
  ghost predicate Extends(n: Net, m: Net) {
    && (forall h :: h in n.store.conn ==>
          && h in m.store.conn
          && m.store.conn[h].proxyCount >= n.store.conn[h].proxyCount
          && m.store.conn[h] == n.store.conn[h].(proxyCount := m.store.conn[h].proxyCount))
    && (forall h :: h in n.carrier ==> h in m.carrier && m.carrier[h] == n.carrier[h])
  }

  ghost predicate Built(n: Net, c: Chan) {
    Forest(n) && NoOrphans(n) && AllBefore(n, c)
  }

  /** What a hop that connects `link` changes: a new entry with a new channel and, if it is tunnelled,
      a carrier, one of whose proxy count goes up. */
  ghost predicate Joins(n: Net, m: Net, link: string, ci: ConnInfo, k: nat, proxy: Option<string>) {
    && !Connected(n, link)
    && ci.hostName == link && ci.proxyCount == 0 && ci.isDirect == proxy.None?
    && k > 0 && (proxy.Some? ==> k == 1 && Connected(n, proxy.value))
    && m.store.ptr == n.store.ptr && m.calls == n.calls
    && m.listeners == n.listeners[ci.reqChan := Crew(link, k)]
    && match proxy
       case None => m.store.conn == n.store.conn[link := ci] && m.carrier == n.carrier
       case Some(p) =>
         && m.store.conn == n.store.conn[p := n.store.conn[p].(proxyCount := n.store.conn[p].proxyCount + 1)][link := ci]
         && m.carrier == n.carrier[link := p]
  }

  lemma HopJoins(n: Net, call: nat, chain: seq<string>, i: nat, isProxy: bool, o: Oracle)
    returns (ci: ConnInfo, k: nat, proxy: Option<string>)
    requires i < |chain| && Plain(n, chain) && Hop(n, call, chain, i, isProxy, o).Some?
    ensures var m := Hop(n, call, chain, i, isProxy, o).value;
      m == n || (Joins(n, m, chain[i], ci, k, proxy) && ci.reqChan == Chan(call, i))
    ensures ci.isProxy == isProxy && proxy == if i == 0 then None else Some(chain[i - 1])
  {
    assert chain[i] in chain;
    ci := ConnInfo(chain[i], isProxy, i == 0, 0, Chan(call, i));
    k := if i == 0 then o.direct(chain[i]) else 1;
    proxy := if i == 0 then None else Some(chain[i - 1]);
  }

  lemma JoinKeepsRooted(n: Net, m: Net, link: string, ci: ConnInfo, k: nat, proxy: Option<string>)
    requires Rooted(n) && AllBefore(n, ci.reqChan) && Joins(n, m, link, ci, k, proxy)
    ensures Rooted(m)
  {
  }

  lemma OneMoreCarried(carrier: map<string, string>, link: string, proxy: string, p: string)
    requires link !in carrier
    ensures |CarriedBy(carrier[link := proxy], p)| == |CarriedBy(carrier, p)| + (if p == proxy then 1 else 0)
  {
    if p == proxy {
      assert CarriedBy(carrier[link := proxy], p) == CarriedBy(carrier, p) + {link};
    } else {
      assert CarriedBy(carrier[link := proxy], p) == CarriedBy(carrier, p);
    }
  }

  lemma JoinKeepsCounts(n: Net, m: Net, link: string, ci: ConnInfo, k: nat, proxy: Option<string>)
    requires Forest(n) && Joins(n, m, link, ci, k, proxy)
    ensures Counted(m)
  {
    forall p | p in m.store.conn
      ensures m.store.conn[p].proxyCount == |CarriedBy(m.carrier, p)|
    {
      if proxy.Some? {
        OneMoreCarried(n.carrier, link, proxy.value, p);
      }
      if p == link {
        NobodyCarriedBy(n, p);
      }
    }
  }

  lemma NobodyCarriedBy(n: Net, p: string)
    requires Rooted(n) && !Connected(n, p)
    ensures CarriedBy(n.carrier, p) == {}
  {
    forall h | h in n.carrier ensures n.carrier[h] != p {}
  }

  lemma JoinKeepsListeners(n: Net, m: Net, link: string, ci: ConnInfo, k: nat, proxy: Option<string>)
    requires NoOrphans(n) && AllBefore(n, ci.reqChan) && Joins(n, m, link, ci, k, proxy)
    ensures NoOrphans(m)
  {
    assert forall h :: h in n.store.conn ==> n.store.conn[h].reqChan != ci.reqChan;
  }

  lemma HopBuilds(n: Net, call: nat, chain: seq<string>, i: nat, isProxy: bool, o: Oracle)
    requires i < |chain| && Plain(n, chain) && Built(n, Chan(call, i))
    requires Hop(n, call, chain, i, isProxy, o).Some?
    ensures Built(Hop(n, call, chain, i, isProxy, o).value, Chan(call, i + 1))
  {
    var ci, k, proxy := HopJoins(n, call, chain, i, isProxy, o);
    var m := Hop(n, call, chain, i, isProxy, o).value;
    if m != n {
      JoinKeepsRooted(n, m, chain[i], ci, k, proxy);
      JoinKeepsCounts(n, m, chain[i], ci, k, proxy);
      JoinKeepsListeners(n, m, chain[i], ci, k, proxy);
    }
  }

  lemma JoinExtends(n: Net, m: Net, link: string, ci: ConnInfo, k: nat, proxy: Option<string>)
    requires Rooted(n) && Joins(n, m, link, ci, k, proxy)
    ensures Extends(n, m)
  {
    assert link !in n.carrier;
  }

  lemma HopExtends(n: Net, call: nat, chain: seq<string>, i: nat, isProxy: bool, o: Oracle)
    requires i < |chain| && Plain(n, chain) && Rooted(n) && Hop(n, call, chain, i, isProxy, o).Some?
    ensures Extends(n, Hop(n, call, chain, i, isProxy, o).value)
  {
    var ci, k, proxy := HopJoins(n, call, chain, i, isProxy, o);
    var m := Hop(n, call, chain, i, isProxy, o).value;
    if m != n {
      JoinExtends(n, m, chain[i], ci, k, proxy);
    }
  }

  /** What every hop keeps, a walk keeps. */
  lemma {:induction false} WalkKeeps(n: Net, call: nat, chain: seq<string>, i: nat, isProxy: bool, o: Oracle,
                                     inv: (Net, nat) -> bool)
      returns (j: nat)
    requires i <= |chain| && inv(n, i)
    requires forall m: Net, k: nat :: k < |chain| && inv(m, k) && Hop(m, call, chain, k, isProxy, o).Some? ==>
      inv(Hop(m, call, chain, k, isProxy, o).value, k + 1)
    ensures j <= |chain| && inv(Walk(n, call, chain, i, isProxy, o).0, j)
    decreases |chain| - i
  {
    if i < |chain| && Hop(n, call, chain, i, isProxy, o).Some? {
      j := WalkKeeps(Hop(n, call, chain, i, isProxy, o).value, call, chain, i + 1, isProxy, o, inv);
    } else {
      j := i;
    }
  }

  /** A net that was built up from `base`, with all channels made before `c`. */
  ghost predicate Grown(base: Net, n: Net, c: Chan) {
    n.store.ptr == base.store.ptr && Built(n, c) && Extends(base, n)
  }

  lemma HopGrows(base: Net, n: Net, call: nat, chain: seq<string>, i: nat, isProxy: bool, o: Oracle)
    requires i < |chain| && Plain(base, chain) && Grown(base, n, Chan(call, i)) && Hop(n, call, chain, i, isProxy, o).Some?
    ensures Grown(base, Hop(n, call, chain, i, isProxy, o).value, Chan(call, i + 1))
  {
    HopEffect(n, call, chain, i, isProxy, o);
    HopBuilds(n, call, chain, i, isProxy, o);
    HopExtends(n, call, chain, i, isProxy, o);
    ExtendsTransitive(base, n, Hop(n, call, chain, i, isProxy, o).value);
  }

  lemma WalkGrown(base: Net, n: Net, call: nat, chain: seq<string>, isProxy: bool, o: Oracle)
    requires Plain(base, chain) && Grown(base, n, Chan(call, 0))
    ensures Grown(base, Walk(n, call, chain, 0, isProxy, o).0, Chan(call + 1, 0))
  {
    forall m, i: nat | i < |chain| && Grown(base, m, Chan(call, i)) && Hop(m, call, chain, i, isProxy, o).Some?
      ensures Grown(base, Hop(m, call, chain, i, isProxy, o).value, Chan(call, i + 1))
    {
      HopGrows(base, m, call, chain, i, isProxy, o);
    }
    var j := WalkKeeps(n, call, chain, 0, isProxy, o, (m: Net, i: nat) => Grown(base, m, Chan(call, i)));
    LaterGrown(base, Walk(n, call, chain, 0, isProxy, o).0, Chan(call, j), Chan(call + 1, 0));
  }

  lemma LaterGrown(base: Net, n: Net, c: Chan, d: Chan)
    requires Grown(base, n, c) && (c == d || Before(c, d))
    ensures Grown(base, n, d)
  {
  }

  lemma ExtendsTransitive(n: Net, m: Net, l: Net)
    requires Extends(n, m) && Extends(m, l)
    ensures Extends(n, l)
  {
  }

  datatype Call = Call(chain: seq<string>, isProxy: bool, o: Oracle)

  /** Resolve calls one after the other, each with its own outcomes; a failed call keeps what it had
      connected before it failed. */
  function RunAll(n: Net, calls: seq<Call>): Net {
    if calls == [] then n
    else
      var m := RunAll(n, calls[..|calls| - 1]);
      var c := calls[|calls| - 1];
      Resolved(m, c.chain, c.isProxy, c.o).0
  }

  /** Every serial run of connects yields a forest rooted in direct connections, in which the proxy
      counts are the numbers of connections carried and nothing listens unseen; and no call of the run
      loses or re-parents what earlier calls made. */
  lemma {:induction false} SerialRunsBuildForests(n: Net, calls: seq<Call>)
    requires Built(n, Chan(n.calls, 0))
    requires forall c :: c in calls ==> Plain(n, c.chain)
    ensures Grown(n, RunAll(n, calls), Chan(RunAll(n, calls).calls, 0))
  {
    if calls != [] {
      var k := |calls| - 1;
      var c, m := calls[k], RunAll(n, calls[..k]);
      assert c in calls && forall d :: d in calls[..k] ==> d in calls;
      SerialRunsBuildForests(n, calls[..k]);
      WalkGrown(n, m, m.calls, c.chain, c.isProxy, c.o);
      WalkCalls(m, m.calls, c.chain, 0, c.isProxy, c.o);
      SameShape(n, Walk(m, m.calls, c.chain, 0, c.isProxy, c.o).0, RunAll(n, calls), Chan(m.calls + 1, 0));
    }
  }

  lemma {:induction false} WalkCalls(n: Net, call: nat, chain: seq<string>, i: nat, isProxy: bool, o: Oracle)
    requires i <= |chain|
    ensures Walk(n, call, chain, i, isProxy, o).0.calls == n.calls
    decreases |chain| - i
  {
    if i < |chain| && Hop(n, call, chain, i, isProxy, o).Some? {
      WalkCalls(Hop(n, call, chain, i, isProxy, o).value, call, chain, i + 1, isProxy, o);
    }
  }

  /** The number of calls so far is not part of the shape. */
  lemma SameShape(base: Net, n: Net, m: Net, c: Chan)
    requires m == n.(calls := m.calls) && Grown(base, n, c)
    ensures Grown(base, m, c)
  {
    assert Counted(m) by {
      assert forall p :: CarriedBy(n.carrier, p) == CarriedBy(m.carrier, p);
    }
    assert Rooted(m) by { assert Rooted(n); }
    assert NoOrphans(m) by { assert NoOrphans(n); }
    assert Extends(base, m) by { assert Extends(base, n); }
  }

  /** A program that has loaded its targets and not connected to anything yet. */
  function Unconnected(s: Store): Net { Net(s, map[], map[], 0) }

  lemma UnconnectedIsAForest(s: Store)
    requires s.conn == map[]
    ensures Built(Unconnected(s), Chan(0, 0))
  {
    assert forall p :: CarriedBy(Unconnected(s).carrier, p) == {};
  }

  /** So it is with every serial run after the targets have been loaded. */
  lemma RunsFromNothing(s: Store, calls: seq<Call>)
    requires s.conn == map[] && forall c :: c in calls ==> Kept(s.ptr, c.chain)
    ensures Forest(RunAll(Unconnected(s), calls)) && NoOrphans(RunAll(Unconnected(s), calls))
  {
    UnconnectedIsAForest(s);
    SerialRunsBuildForests(Unconnected(s), calls);
  }

  /* ---------------- links that GetPTR does not leave alone ---------------- */

  /** Somebody listens on a channel that is not the one of the host's entry. */
  predicate Stray(n: Net, c: Chan) {
    c in n.listeners && n.listeners[c].host in n.store.conn && n.store.conn[n.listeners[c].host].reqChan != c
  }

  /** Every dial succeeds. */
  const ALL_SUCCEED := Oracle(_ => 1, (_, _) => true)

  /** One direct connection, under a name of the reverse map. */
  function Lone(ptr: map<string, string>, x: string): Net {
    Net(EMPTY.(ptr := ptr, conn := map[x := ConnInfo(x, false, true, 0, Chan(0, 0))]), map[Chan(0, 0) := Crew(x, 1)], map[], 1)
  }

  lemma LoneIsBuilt(ptr: map<string, string>, x: string)
    ensures Built(Lone(ptr, x), Chan(1, 0))
  {
    assert forall p :: CarriedBy(Lone(ptr, x).carrier, p) == {};
  }

  lemma HopKeepsStray(n: Net, call: nat, chain: seq<string>, k: nat, isProxy: bool, o: Oracle, c: Chan)
    requires k < |chain| && Stray(n, c) && c != Chan(call, k) && Hop(n, call, chain, k, isProxy, o).Some?
    ensures Stray(Hop(n, call, chain, k, isProxy, o).value, c)
  {
  }

  /** Once a listener has gone astray, the walk does not get it back. */
  lemma {:induction false} WalkKeepsStray(n: Net, call: nat, chain: seq<string>, k: nat, isProxy: bool, o: Oracle, c: Chan)
    requires k <= |chain| && Stray(n, c) && c.hop < k
    ensures Stray(Walk(n, call, chain, k, isProxy, o).0, c)
    decreases |chain| - k
  {
    if k < |chain| && Hop(n, call, chain, k, isProxy, o).Some? {
      HopKeepsStray(n, call, chain, k, isProxy, o, c);
      WalkKeepsStray(Hop(n, call, chain, k, isProxy, o).value, call, chain, k + 1, isProxy, o, c);
    }
  }

  /** On the way to link i, the first that is not left alone: its predecessor is connected, and it is not. */
  ghost predicate OnTheWay(n: Net, ptr: map<string, string>, x: string, chain: seq<string>, k: nat, i: nat)
    requires k <= i < |chain|
  {
    && n.store.ptr == ptr && x in n.store.conn && n.store.conn[x].reqChan == Chan(0, 0)
    && !Connected(n, chain[i]) && (k > 0 ==> Connected(n, chain[k - 1]))
  }

  lemma OneMoreHop(n: Net, ptr: map<string, string>, x: string, chain: seq<string>, k: nat, i: nat)
    requires k < i < |chain| && OnTheWay(n, ptr, x, chain, k, i) && chain[k] != chain[i]
    requires chain[k] in ptr ==> ptr[chain[k]] == chain[k]
    ensures var hop := Hop(n, 1, chain, k, false, ALL_SUCCEED);
      hop.Some? && OnTheWay(hop.value, ptr, x, chain, k + 1, i)
  {
  }

  lemma LastHopStrays(n: Net, ptr: map<string, string>, x: string, chain: seq<string>, i: nat)
    requires i < |chain| && OnTheWay(n, ptr, x, chain, i, i) && chain[i] in ptr && ptr[chain[i]] == x
    ensures var hop := Hop(n, 1, chain, i, false, ALL_SUCCEED);
      hop.Some? && Stray(hop.value, Chan(1, i))
  {
  }

  lemma {:induction false} WalkStrays(n: Net, ptr: map<string, string>, x: string, chain: seq<string>, k: nat, i: nat)
    requires k <= i < |chain| && OnTheWay(n, ptr, x, chain, k, i) && chain[i] in ptr && ptr[chain[i]] == x
    requires forall j :: 0 <= j < i ==> chain[j] != chain[i] && (chain[j] in ptr ==> ptr[chain[j]] == chain[j])
    ensures Stray(Walk(n, 1, chain, k, false, ALL_SUCCEED).0, Chan(1, i))
    decreases i - k
  {
    if k < i {
      OneMoreHop(n, ptr, x, chain, k, i);
      WalkStrays(Hop(n, 1, chain, k, false, ALL_SUCCEED).value, ptr, x, chain, k + 1, i);
    } else {
      LastHopStrays(n, ptr, x, chain, i);
      WalkKeepsStray(Hop(n, 1, chain, i, false, ALL_SUCCEED).value, 1, chain, i + 1, false, ALL_SUCCEED, Chan(1, i));
    }
  }

  function FirstMoved(ptr: map<string, string>, chain: seq<string>, i: nat): (p: nat)
    requires i <= |chain|
    ensures i <= p <= |chain| && (p < |chain| ==> chain[p] in ptr && ptr[chain[p]] != chain[p])
    ensures forall k :: i <= k < p ==> chain[k] in ptr ==> ptr[chain[k]] == chain[k]
    decreases |chain| - i
  {
    if i == |chain| || (chain[i] in ptr && ptr[chain[i]] != chain[i]) then i else FirstMoved(ptr, chain, i + 1)
  }

  /** If some link is not left alone, resolving the chain can leave a listener that nothing can reach. */
  lemma MovedLinkStrays(ptr: map<string, string>, chain: seq<string>) returns (n: Net)
    requires !Kept(ptr, chain)
    ensures n.store.ptr == ptr && n.calls == 1 && Built(n, Chan(1, 0))
    ensures !NoOrphans(Resolved(n, chain, false, ALL_SUCCEED).0)
  {
    var i := FirstMoved(ptr, chain, 0);
    var x := ptr[chain[i]];
    n := Lone(ptr, x);
    LoneIsBuilt(ptr, x);
    WalkStrays(n, ptr, x, chain, 0, i);
    assert Stray(Resolved(n, chain, false, ALL_SUCCEED).0, Chan(1, i));
  }

  /** The reverse map as the program leaves it: at most the empty name leads anywhere (`State.ReachableStores`). */
  predicate OnlyEmpty(ptr: map<string, string>) { forall h :: h in ptr ==> h == "" }

  lemma JoinAdds(n: Net, ci: ConnInfo, k: nat, proxy: Option<string>)
    ensures var m := Join(n, ci, k, proxy);
      m.store.ptr == n.store.ptr && m.store.conn.Keys == n.store.conn.Keys + {NameOf(n.store, ci.hostName)}
  {
  }

  lemma CountAdds(n: Net, p: string)
    requires Connected(n, p)
    ensures Count(n, p).store.ptr == n.store.ptr && Count(n, p).store.conn.Keys == n.store.conn.Keys
  {
  }

  lemma HopStaysAway(n: Net, call: nat, chain: seq<string>, k: nat)
    requires k < |chain| && OnlyEmpty(n.store.ptr) && "" in n.store.ptr && n.store.ptr[""] != "" && !Connected(n, "")
    ensures var hop := Hop(n, call, chain, k, false, ALL_SUCCEED);
      && hop.Some? && hop.value.store.ptr == n.store.ptr && !Connected(hop.value, "")
      && forall h :: Connected(n, h) ==> Connected(hop.value, h)
  {
    var link := chain[k];
    assert NameOf(n.store, link) != "";
    if k == 0 {
      JoinAdds(n, ConnInfo(link, false, true, 0, Chan(call, 0)), 1, None);
    } else if Connected(n, chain[k - 1]) {
      CountAdds(n, chain[k - 1]);
      JoinAdds(Count(n, chain[k - 1]), ConnInfo(link, false, false, 0, Chan(call, k)), 1, Some(chain[k - 1]));
    }
  }

  /** With every dial succeeding there is no error, nothing is lost, and the empty name never gets an entry. */
  lemma {:induction false} WalkStaysAway(n: Net, call: nat, chain: seq<string>, k: nat)
    requires k <= |chain| && OnlyEmpty(n.store.ptr) && "" in n.store.ptr && n.store.ptr[""] != "" && !Connected(n, "")
    ensures var (m, err) := Walk(n, call, chain, k, false, ALL_SUCCEED);
      err.None? && !Connected(m, "") && forall h :: Connected(n, h) ==> Connected(m, h)
    decreases |chain| - k
  {
    if k < |chain| {
      HopStaysAway(n, call, chain, k);
      WalkStaysAway(Hop(n, call, chain, k, false, ALL_SUCCEED).value, call, chain, k + 1);
    }
  }

  lemma {:induction false} EmptyLinkStays(n: Net, ptr: map<string, string>, x: string, chain: seq<string>, k: nat, i: nat)
    requires k <= i < |chain| && 0 < i && OnTheWay(n, ptr, x, chain, k, i) && chain[i] == ""
    requires OnlyEmpty(ptr) && "" in ptr && ptr[""] == x != "" && forall j :: 0 <= j < i ==> chain[j] != ""
    ensures var (m, err) := Walk(n, 1, chain, k, false, ALL_SUCCEED);
      err.None? && Connected(m, chain[i - 1]) && !Connected(m, chain[i])
    decreases i - k
  {
    if k < i {
      OneMoreHop(n, ptr, x, chain, k, i);
      EmptyLinkStays(Hop(n, 1, chain, k, false, ALL_SUCCEED).value, ptr, x, chain, k + 1, i);
    } else {
      WalkStaysAway(n, 1, chain, i);
    }
  }

  /** A chain of different links that does not begin with the empty one: nil returns leave suffixes connected,
      from every net and with all outcomes, exactly if GetPTR leaves the chain's links alone. */
  lemma SuffixIffKept(ptr: map<string, string>, chain: seq<string>)
    requires OnlyEmpty(ptr) && NoDup(chain) && chain != [] && chain[0] != ""
    ensures Kept(ptr, chain) <==>
      forall n: Net, isProxy: bool, o: Oracle :: n.store.ptr == ptr && Resolved(n, chain, isProxy, o).1.None? ==>
        SuffixUp(Resolved(n, chain, isProxy, o).0, chain)
  {
    if Kept(ptr, chain) {
      forall n: Net, isProxy: bool, o: Oracle | n.store.ptr == ptr && Resolved(n, chain, isProxy, o).1.None?
        ensures SuffixUp(Resolved(n, chain, isProxy, o).0, chain)
      {
        ResolveLeavesSuffix(n, chain, isProxy, o);
      }
    } else {
      var i := FirstMoved(ptr, chain, 0);
      var x := ptr[chain[i]];
      EmptyLinkStays(Lone(ptr, x), ptr, x, chain, 0, i);
      var (m, err) := Resolved(Lone(ptr, x), chain, false, ALL_SUCCEED);
      assert Connected(m, chain[i - 1]) && !Connected(m, chain[i]);
      assert err.None? && !SuffixUp(m, chain);
    }
  }

  lemma ResolvedGrown(n: Net, chain: seq<string>, isProxy: bool, o: Oracle)
    requires Built(n, Chan(n.calls, 0)) && Plain(n, chain)
    ensures Grown(n, Resolved(n, chain, isProxy, o).0, Chan(n.calls + 1, 0))
  {
    WalkGrown(n, n, n.calls, chain, isProxy, o);
    SameShape(n, Walk(n, n.calls, chain, 0, isProxy, o).0, Resolved(n, chain, isProxy, o).0, Chan(n.calls + 1, 0));
  }

  /** Resolving a chain keeps the forest, its counts and its listeners, from every net and with all outcomes,
      exactly if GetPTR leaves the chain's links alone. */
  lemma BuiltIffKept(ptr: map<string, string>, chain: seq<string>)
    ensures Kept(ptr, chain) <==>
      forall n: Net, isProxy: bool, o: Oracle :: n.store.ptr == ptr && Built(n, Chan(n.calls, 0)) ==>
        Built(Resolved(n, chain, isProxy, o).0, Chan(n.calls + 1, 0))
  {
    if Kept(ptr, chain) {
      forall n: Net, isProxy: bool, o: Oracle | n.store.ptr == ptr && Built(n, Chan(n.calls, 0))
        ensures Built(Resolved(n, chain, isProxy, o).0, Chan(n.calls + 1, 0))
      {
        ResolvedGrown(n, chain, isProxy, o);
      }
    } else {
      var n := MovedLinkStrays(ptr, chain);
      assert !Built(Resolved(n, chain, false, ALL_SUCCEED).0, Chan(n.calls + 1, 0));
    }
  }

  /** The tunnel that leads to h: it starts at a direct connection and each host carries the next. */
  ghost function Route(n: Net, h: string): (r: seq<string>)
    requires Forest(n) && Connected(n, h)
    ensures r != [] && r[|r| - 1] == h
    ensures forall i :: 0 <= i < |r| ==> r[i] in n.store.conn
    ensures n.store.conn[r[0]].isDirect
    ensures forall i :: 0 < i < |r| ==> r[i] in n.carrier && n.carrier[r[i]] == r[i - 1]
    decreases n.store.conn[h].reqChan.call, n.store.conn[h].reqChan.hop
  {
    if n.store.conn[h].isDirect then [h] else Route(n, n.carrier[h]) + [h]
  }

  /** A tunnel never passes through the same host twice. */
  lemma RouteIsAcyclic(n: Net, h: string)
    requires Forest(n) && Connected(n, h)
    ensures NoDup(Route(n, h))
  {
    var r := Route(n, h);
    forall i, j | 0 <= i < j < |r| ensures r[i] != r[j] {
      RouteAscends(n, r, i, j);
    }
  }

  lemma {:induction false} RouteAscends(n: Net, r: seq<string>, i: nat, j: nat)
    requires Forest(n) && i < j < |r|
    requires forall k :: 0 <= k < |r| ==> r[k] in n.store.conn
    requires forall k :: 0 < k < |r| ==> r[k] in n.carrier && n.carrier[r[k]] == r[k - 1]
    ensures Before(n.store.conn[r[i]].reqChan, n.store.conn[r[j]].reqChan)
  {
    if i < j - 1 {
      RouteAscends(n, r, i, j - 1);
    }
    assert n.carrier[r[j]] == r[j - 1];
  }
}
