/** For which chains the program's own teardown is safe: whether the nets that the proxy phase
    (`resolveProxies`) and the parallel phase of `connectEverywhere` build are layered as
    `disconnectEverywhere` needs them to be. */
module Layers {
  import opened Prelude
  import opened State
  import opened Resolve
  import opened Carrier
  import opened Parallel
  import opened Confluence
  import Targets
  import Teardown

  /* ---------------- the parallel phase ---------------- */

  /** Every target that has been connected through a proxy was connected through one that is called a proxy. */
  ghost predicate ThroughProxies(w: World, r: set<nat>)
    requires Prepared(w) && Within(w, r)
  {
    forall g :: g in WinnersIn(w, r) && Tunnels(w, g) ==> Connected(w.net, Proxy(w, g)) && w.net.store.conn[Proxy(w, g)].isProxy
  }

  lemma OutcomeOld(w: World, r: set<nat>, h: string)
    requires Prepared(w) && Within(w, r) && Connected(w.net, h)
    ensures Connected(Outcome(w, r), h) && Teardown.Phase(Outcome(w, r).store.conn[h]) == Teardown.Phase(w.net.store.conn[h])
  {
  }

  lemma OutcomeNew(w: World, r: set<nat>, g: nat)
    requires Prepared(w) && Within(w, r) && g in WinnersIn(w, r)
    ensures Connected(Outcome(w, r), Last(w, g)) && Teardown.Phase(Outcome(w, r).store.conn[Last(w, g)]) == 0
    ensures Tunnels(w, g) ==> Last(w, g) in Outcome(w, r).carrier && Outcome(w, r).carrier[Last(w, g)] == Proxy(w, g)
  {
    OwnerIs(w, WinnersIn(w, r), g);
    if Tunnels(w, g) {
      OwnerIs(w, TunnelledOf(w, WinnersIn(w, r)), g);
    }
  }

  lemma OutcomeCarrier(w: World, r: set<nat>, h: string) returns (g: nat)
    requires Prepared(w) && Within(w, r) && h in Outcome(w, r).carrier && h !in w.net.carrier
    ensures g in WinnersIn(w, r) && Tunnels(w, g) && Last(w, g) == h && Outcome(w, r).carrier[h] == Proxy(w, g)
  {
    g := Owner(w, TunnelledOf(w, WinnersIn(w, r)), h);
  }

  lemma OutcomeKeepsCarrier(w: World, r: set<nat>, h: string)
    requires Prepared(w) && Within(w, r) && Rooted(w.net) && h in w.net.carrier
    ensures h in Outcome(w, r).carrier && Outcome(w, r).carrier[h] == w.net.carrier[h]
  {
    assert Connected(w.net, h);
  }

  /** The parallel phase keeps a net layered exactly if it connects through proxies only. */
  lemma OutcomeLayeredIff(w: World, r: set<nat>)
    requires Prepared(w) && Within(w, r) && Rooted(w.net)
    ensures Teardown.Layered(Outcome(w, r)) <==> Teardown.Layered(w.net) && ThroughProxies(w, r)
  {
    if Teardown.Layered(Outcome(w, r)) {
      StillLayered(w, r);
    } else if Teardown.Layered(w.net) && ThroughProxies(w, r) {
      NowLayered(w, r);
    }
  }

  lemma StillLayered(w: World, r: set<nat>)
    requires Prepared(w) && Within(w, r) && Rooted(w.net) && Teardown.Layered(Outcome(w, r))
    ensures Teardown.Layered(w.net) && ThroughProxies(w, r)
  {
    forall h | h in w.net.carrier
      ensures Connected(w.net, h) && Connected(w.net, w.net.carrier[h])
        && Teardown.Phase(w.net.store.conn[h]) < Teardown.Phase(w.net.store.conn[w.net.carrier[h]])
    {
      assert w.net.carrier[h] in w.net.store.conn;
      OutcomeKeepsCarrier(w, r, h);
      OutcomeOld(w, r, h);
      OutcomeOld(w, r, w.net.carrier[h]);
    }
    forall g | g in WinnersIn(w, r) && Tunnels(w, g)
      ensures Connected(w.net, Proxy(w, g)) && w.net.store.conn[Proxy(w, g)].isProxy
    {
      OutcomeNew(w, r, g);
      OutcomeOld(w, r, Proxy(w, g));
    }
  }

  lemma NowLayered(w: World, r: set<nat>)
    requires Prepared(w) && Within(w, r) && Rooted(w.net) && Teardown.Layered(w.net) && ThroughProxies(w, r)
    ensures Teardown.Layered(Outcome(w, r))
  {
    var m := Outcome(w, r);
    forall h | h in m.carrier
      ensures Connected(m, h) && Connected(m, m.carrier[h])
        && Teardown.Phase(m.store.conn[h]) < Teardown.Phase(m.store.conn[m.carrier[h]])
    {
      if h in w.net.carrier {
        OutcomeKeepsCarrier(w, r, h);
        OutcomeOld(w, r, h);
        OutcomeOld(w, r, w.net.carrier[h]);
      } else {
        var g := OutcomeCarrier(w, r, h);
        OutcomeNew(w, r, g);
        OutcomeOld(w, r, Proxy(w, g));
      }
    }
  }

  /* ---------------- the proxy phase ---------------- */

  /** The prefix is a proxy of the first tier, alone or with one that is not of that tier behind it. */
  predicate TwoTiers(p: seq<string>, tops: set<string>) {
    1 <= |p| <= 2 && p[0] in tops && (|p| == 2 ==> p[1] !in tops)
  }

  /** All connections are proxies; the first tier is connected directly, and carries all the others. */
  ghost predicate Tiered(n: Net, tops: set<string>) {
    && (forall h :: h in n.store.conn ==> n.store.conn[h].isProxy && (h in tops ==> n.store.conn[h].isDirect))
    && (forall h :: h in n.carrier ==> n.carrier[h] in tops)
  }

  lemma TieredIsLayered(n: Net, tops: set<string>)
    requires Tiered(n, tops) && Rooted(n)
    ensures Teardown.Layered(n)
  {
    Teardown.LayeredIff(n);
    forall h {:trigger n.carrier[h]} | h in n.carrier
      ensures n.store.conn[n.carrier[h]].isProxy && n.store.conn[n.carrier[h]].isDirect
    {
      assert n.carrier[h] in n.store.conn;
    }
  }

  lemma JoinTiers(n: Net, m: Net, link: string, ci: ConnInfo, k: nat, proxy: Option<string>, tops: set<string>)
    requires Tiered(n, tops) && Joins(n, m, link, ci, k, proxy) && ci.isProxy
    requires if proxy.Some? then proxy.value in tops && link !in tops else true
    ensures Tiered(m, tops)
  {
  }

  lemma HopTiers(n: Net, call: nat, p: seq<string>, i: nat, o: Oracle, tops: set<string>)
    requires i < |p| && TwoTiers(p, tops) && Plain(n, p) && Tiered(n, tops) && Hop(n, call, p, i, true, o).Some?
    ensures var m := Hop(n, call, p, i, true, o).value; Tiered(m, tops) && m.store.ptr == n.store.ptr
  {
    var ci, k, proxy := HopJoins(n, call, p, i, true, o);
    HopEffect(n, call, p, i, true, o);
    var m := Hop(n, call, p, i, true, o).value;
    if m != n {
      JoinTiers(n, m, p[i], ci, k, proxy, tops);
    }
  }

  lemma {:induction false} WalkTiers(n: Net, call: nat, p: seq<string>, i: nat, o: Oracle, tops: set<string>)
    requires i <= |p| && TwoTiers(p, tops) && Plain(n, p) && Tiered(n, tops)
    ensures Tiered(Walk(n, call, p, i, true, o).0, tops)
    decreases |p| - i
  {
    if i < |p| && Hop(n, call, p, i, true, o).Some? {
      HopTiers(n, call, p, i, o, tops);
      WalkTiers(Hop(n, call, p, i, true, o).value, call, p, i + 1, o, tops);
    }
  }

  lemma {:induction false} RunTiers(s: Store, ps: seq<seq<string>>, o: Oracle, tops: set<string>)
    requires s.conn == map[] && forall p :: p in ps ==> TwoTiers(p, tops) && Kept(s.ptr, p)
    ensures Tiered(RunAll(Unconnected(s), Targets.CallsOf(ps, o)), tops)
  {
    if ps != [] {
      var k := |ps| - 1;
      var calls := Targets.CallsOf(ps, o);
      assert calls[..k] == Targets.CallsOf(ps[..k], o) && ps[k] in ps && forall p :: p in ps[..k] ==> p in ps;
      RunTiers(s, ps[..k], o, tops);
      var m := RunAll(Unconnected(s), calls[..k]);
      UnconnectedIsAForest(s);
      SerialRunsBuildForests(Unconnected(s), calls[..k]);
      WalkTiers(m, m.calls, ps[k], 0, o, tops);
    }
  }

  /** If every prefix has two tiers, the proxy phase builds a layered net of proxies, with whatever outcomes. */
  lemma ProxyPhaseLayers(s: Store, ps: seq<seq<string>>, o: Oracle, tops: set<string>)
    requires s.conn == map[] && forall p :: p in ps ==> TwoTiers(p, tops) && Kept(s.ptr, p)
    ensures var n := RunAll(Unconnected(s), Targets.CallsOf(ps, o));
      Rooted(n) && Tiered(n, tops) && Teardown.Layered(n)
  {
    RunTiers(s, ps, o, tops);
    RunsFromNothing(s, Targets.CallsOf(ps, o));
    TieredIsLayered(RunAll(Unconnected(s), Targets.CallsOf(ps, o)), tops);
  }

  /** Chains of at most three links: a proxy of the first tier, one of the second, and the target. */
  predicate GoodChain(chain: seq<string>, tops: set<string>) {
    1 <= |chain| <= 3 && (|chain| > 1 ==> TwoTiers(chain[..|chain| - 1], tops))
  }

  /** After the targets of such chains have been connected, proxies first and then all in parallel, no teardown
      closes a connection while another live one is tunnelled through it. */
  lemma ProgramIsLayered(s: Store, hk: seq<string>, tops: set<string>, w: World, steps: seq<Step>)
    requires s.conn == map[] && Targets.Chains(s.targets) && forall h :: h in hk ==> h in s.targets
    requires forall h :: h in hk ==> Kept(s.ptr, s.targets[h].chain) && GoodChain(s.targets[h].chain, tops)
    requires Targets.AllDone(Unconnected(s), Targets.ProxyChains(s.targets, hk), w.o, w.net)
    requires Prepared(w) && DistinctNames(w) && w.limit > 0 && Complete(w, steps)
    ensures Teardown.Layered(After(w, steps).net)
  {
    PrefixesHaveTwoTiers(s, hk, tops);
    ProxyPhaseLayers(s, Targets.ProxyChains(s.targets, hk), w.o, tops);
    RunnersDecide(w, steps);
    ProxiesAreProxies(w, Runners(w, After(w, steps).pcs), tops);
    OutcomeLayeredIff(w, Runners(w, After(w, steps).pcs));
  }

  lemma PrefixesHaveTwoTiers(s: Store, hk: seq<string>, tops: set<string>)
    requires Targets.Chains(s.targets) && forall h :: h in hk ==> h in s.targets
    requires forall h :: h in hk ==> Kept(s.ptr, s.targets[h].chain) && GoodChain(s.targets[h].chain, tops)
    ensures forall p :: p in Targets.ProxyChains(s.targets, hk) ==> TwoTiers(p, tops) && Kept(s.ptr, p)
  {
    Targets.ProxyChainsAre(s.targets, hk);
    forall p | p in Targets.ProxyChains(s.targets, hk) ensures TwoTiers(p, tops) && Kept(s.ptr, p) {
      var h :| h in hk && Targets.Prefix(s.targets, h) == p;
      assert forall link :: link in p ==> link in s.targets[h].chain;
    }
  }

  lemma ProxiesAreProxies(w: World, r: set<nat>, tops: set<string>)
    requires Prepared(w) && Within(w, r) && Tiered(w.net, tops)
    ensures ThroughProxies(w, r)
  {
    forall g | g in WinnersIn(w, r) && Tunnels(w, g)
      ensures Connected(w.net, Proxy(w, g)) && w.net.store.conn[Proxy(w, g)].isProxy
    {
      assert w.targets[g].chain[|w.targets[g].chain| - 2] == Proxy(w, g);
    }
  }

  /** With three proxies in a row it is not: the teardown of what they make has an unsafe order. */
  lemma ThreeTiersAreNot(s: Store, p: seq<string>)
    requires s.conn == map[] && |p| == 3 && NoDup(p) && Kept(s.ptr, p)
    ensures !Teardown.Layered(Resolved(Unconnected(s), p, true, ALL_SUCCEED).0)
  {
    var n0 := Unconnected(s);
    var n1 := Hop(n0, 0, p, 0, true, ALL_SUCCEED).value;
    assert p[0] in p && p[1] in p && p[2] in p;
    assert n1.store.conn == map[p[0] := ConnInfo(p[0], true, true, 0, Chan(0, 0))];
    SecondHop(n1, p, 1);
    var n2 := Hop(n1, 0, p, 1, true, ALL_SUCCEED).value;
    SecondHop(n2, p, 2);
    var n3 := Hop(n2, 0, p, 2, true, ALL_SUCCEED).value;
    assert Walk(n0, 0, p, 0, true, ALL_SUCCEED) == Walk(n1, 0, p, 1, true, ALL_SUCCEED);
    assert Walk(n1, 0, p, 1, true, ALL_SUCCEED) == Walk(n2, 0, p, 2, true, ALL_SUCCEED);
    assert Walk(n2, 0, p, 2, true, ALL_SUCCEED) == Walk(n3, 0, p, 3, true, ALL_SUCCEED);
    var m := Resolved(n0, p, true, ALL_SUCCEED).0;
    assert m.carrier[p[2]] == p[1] && Teardown.Phase(m.store.conn[p[2]]) == Teardown.Phase(m.store.conn[p[1]]) == 1;
  }

  lemma SecondHop(n: Net, p: seq<string>, i: nat)
    requires 0 < i < |p| && Plain(n, p) && Connected(n, p[i - 1]) && !Connected(n, p[i])
    ensures var hop := Hop(n, 0, p, i, true, ALL_SUCCEED);
      && hop.Some? && hop.value.store.ptr == n.store.ptr
      && (forall h :: Connected(hop.value, h) <==> Connected(n, h) || h == p[i])
      && hop.value.carrier == n.carrier[p[i] := p[i - 1]]
      && hop.value.store.conn[p[i]].isProxy && !hop.value.store.conn[p[i]].isDirect
      && (forall h :: Connected(n, h) ==>
            hop.value.store.conn[h].isProxy == n.store.conn[h].isProxy && hop.value.store.conn[h].isDirect == n.store.conn[h].isDirect)
  {
    assert p[i] in p;
  }
}
