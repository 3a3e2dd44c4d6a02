/** Why the proxies are resolved first, one after the other (resolve.go, `resolveProxies`): once every
    proxy prefix is connected, the parallel phase of `connectEverywhere` has one outcome, whatever the
    interleaving, and it is that of resolving the targets serially. */
module Confluence {
  import opened Prelude
  import opened State
  import opened Resolve
  import opened Carrier
  import opened Parallel

  function Last(w: World, g: nat): string
    requires g < |w.targets| && w.targets[g].chain != []
  {
    w.targets[g].chain[|w.targets[g].chain| - 1]
  }

  predicate Tunnels(w: World, g: nat)
    requires g < |w.targets|
  {
    |w.targets[g].chain| > 1
  }

  function Proxy(w: World, g: nat): string
    requires g < |w.targets| && Tunnels(w, g)
  {
    w.targets[g].chain[|w.targets[g].chain| - 2]
  }

  /** Chains name at least one link, and links have names that GetPTR leaves alone. */
  ghost predicate GoodChains(w: World) {
    forall g :: 0 <= g < |w.targets| ==> w.targets[g].chain != [] && Plain(w.net, w.targets[g].chain)
  }

  /** Every link before the last is connected: what the serial proxy phase is to achieve. */
  ghost predicate PrefixesUp(w: World) {
    forall g, i :: 0 <= g < |w.targets| && 0 <= i < |w.targets[g].chain| - 1 ==>
      Connected(w.net, w.targets[g].chain[i])
  }

  /** The targets lead to different hosts. */
  ghost predicate DistinctLasts(w: World)
    requires GoodChains(w)
  {
    forall g, h :: 0 <= g < |w.targets| && 0 <= h < |w.targets| && Last(w, g) == Last(w, h) ==> g == h
  }

  ghost predicate Prepared(w: World) { GoodChains(w) && PrefixesUp(w) && DistinctLasts(w) }

  /** The targets to attempt: those whose name is not connected yet. */
  predicate Attempted(w: World, g: nat) {
    g < |w.targets| && !Connected(w.net, w.targets[g].name)
  }

  /** The goroutine for g will connect its target: the dial is needed, and succeeds. */
  predicate Wins(w: World, g: nat)
    requires g < |w.targets| && w.targets[g].chain != []
  {
    !Connected(w.net, Last(w, g))
    && if Tunnels(w, g) then w.o.tunnel(Proxy(w, g), Last(w, g)) else w.o.direct(Last(w, g)) > 0
  }

  function Entry(w: World, g: nat): ConnInfo
    requires g < |w.targets| && w.targets[g].chain != []
  {
    ConnInfo(Last(w, g), false, !Tunnels(w, g), 0, ChanOf(w, g, |w.targets[g].chain| - 1))
  }

  function Size(w: World, g: nat): nat
    requires g < |w.targets| && w.targets[g].chain != []
  {
    if Tunnels(w, g) then 1 else w.o.direct(Last(w, g))
  }

  /* ---------------- the net in closed form ---------------- */

  ghost predicate Within(w: World, s: set<nat>) { forall g :: g in s ==> g < |w.targets| }

  ghost function Lasts(w: World, p: set<nat>): set<string>
    requires GoodChains(w) && Within(w, p)
  {
    set g | g in p :: Last(w, g)
  }

  ghost function Owner(w: World, p: set<nat>, h: string): (g: nat)
    requires GoodChains(w) && Within(w, p) && h in Lasts(w, p)
    ensures g in p && Last(w, g) == h
  {
    var g :| g in p && Last(w, g) == h;
    g
  }

  /** The targets of c that are tunnelled through h. */
  ghost function Through(w: World, c: set<nat>, h: string): set<nat>
    requires Within(w, c)
  {
    set g | g in c && Tunnels(w, g) && Proxy(w, g) == h
  }

  ghost function ConnOf(w: World, c: set<nat>, p: set<nat>): map<string, ConnInfo>
    requires GoodChains(w) && Within(w, c) && Within(w, p)
  {
    map h | h in w.net.store.conn.Keys + Lasts(w, p) ::
      if h in w.net.store.conn
      then w.net.store.conn[h].(proxyCount := w.net.store.conn[h].proxyCount + |Through(w, c, h)|)
      else Entry(w, Owner(w, p, h))
  }

  ghost function TunnelledOf(w: World, p: set<nat>): (t: set<nat>)
    requires Within(w, p)
    ensures Within(w, t)
  {
    set g | g in p && Tunnels(w, g)
  }

  ghost function CarrierOf(w: World, p: set<nat>): map<string, string>
    requires GoodChains(w) && Within(w, p)
  {
    map h | h in w.net.carrier.Keys + Lasts(w, TunnelledOf(w, p)) ::
      if h in Lasts(w, TunnelledOf(w, p))
      then Proxy(w, Owner(w, TunnelledOf(w, p), h))
      else w.net.carrier[h]
  }

  ghost function Chans(w: World, p: set<nat>): set<Chan>
    requires GoodChains(w) && Within(w, p)
  {
    set g | g in p :: Entry(w, g).reqChan
  }

  ghost function ListenersOf(w: World, p: set<nat>): map<Chan, Crew>
    requires GoodChains(w) && Within(w, p)
  {
    map c | c in w.net.listeners.Keys + Chans(w, p) ::
      if c in Chans(w, p) then Crew(Last(w, c.call - w.net.calls), Size(w, c.call - w.net.calls))
      else w.net.listeners[c]
  }

  /** The net after the targets in c have been counted and those in p published. */
  ghost function Shape(w: World, c: set<nat>, p: set<nat>): Net
    requires GoodChains(w) && Within(w, c) && Within(w, p)
  {
    Net(w.net.store.(conn := ConnOf(w, c, p)), ListenersOf(w, p), CarrierOf(w, p), w.net.calls)
  }

  lemma OwnerIs(w: World, p: set<nat>, g: nat)
    requires GoodChains(w) && DistinctLasts(w) && Within(w, p) && g in p
    ensures Last(w, g) in Lasts(w, p) && Owner(w, p, Last(w, g)) == g
  {
  }

  lemma OwnersPersist(w: World, p: set<nat>, q: set<nat>, h: string)
    requires GoodChains(w) && DistinctLasts(w) && Within(w, p) && Within(w, q) && p <= q && h in Lasts(w, p)
    ensures h in Lasts(w, q) && Owner(w, q, h) == Owner(w, p, h)
  {
    OwnerIs(w, q, Owner(w, p, h));
  }

  lemma ThroughGrows(w: World, c: set<nat>, g: nat, h: string)
    requires Within(w, c) && g < |w.targets| && g !in c && Tunnels(w, g)
    ensures |Through(w, c + {g}, h)| == |Through(w, c, h)| + (if h == Proxy(w, g) then 1 else 0)
  {
    assert Through(w, c + {g}, h) == if h == Proxy(w, g) then Through(w, c, h) + {g} else Through(w, c, h);
  }

  lemma CountConn(w: World, c: set<nat>, p: set<nat>, g: nat)
    requires GoodChains(w) && Within(w, c) && Within(w, p)
    requires g < |w.targets| && g !in c && Tunnels(w, g) && Connected(w.net, Proxy(w, g))
    ensures var before := ConnOf(w, c, p);
      ConnOf(w, c + {g}, p) == before[Proxy(w, g) := before[Proxy(w, g)].(proxyCount := before[Proxy(w, g)].proxyCount + 1)]
  {
    var before, after := ConnOf(w, c, p), ConnOf(w, c + {g}, p);
    var proxy := Proxy(w, g);
    assert after.Keys == before.Keys;
    forall h | h in before
      ensures after[h] == if h == proxy then before[h].(proxyCount := before[h].proxyCount + 1) else before[h]
    {
      ThroughGrows(w, c, g, h);
    }
  }

  lemma LastsGrow(w: World, p: set<nat>, g: nat)
    requires GoodChains(w) && DistinctLasts(w) && Within(w, p) && g < |w.targets| && g !in p
    ensures Last(w, g) !in Lasts(w, p) && Lasts(w, p + {g}) == Lasts(w, p) + {Last(w, g)}
    ensures Owner(w, p + {g}, Last(w, g)) == g
    ensures forall h :: h in Lasts(w, p) ==> Owner(w, p + {g}, h) == Owner(w, p, h)
  {
    OwnerIs(w, p + {g}, g);
    forall h | h in Lasts(w, p) ensures h in Lasts(w, p + {g}) && Owner(w, p + {g}, h) == Owner(w, p, h) {
      OwnersPersist(w, p, p + {g}, h);
    }
  }

  lemma JoinConn(w: World, c: set<nat>, p: set<nat>, g: nat)
    requires GoodChains(w) && DistinctLasts(w) && Within(w, c) && Within(w, p)
    requires g < |w.targets| && g !in p && !Connected(w.net, Last(w, g))
    ensures Last(w, g) !in ConnOf(w, c, p)
    ensures ConnOf(w, c, p + {g}) == ConnOf(w, c, p)[Last(w, g) := Entry(w, g)]
  {
    var before, after := ConnOf(w, c, p), ConnOf(w, c, p + {g});
    JoinKeys(w, c, p, g);
    forall h | h in before ensures after[h] == before[h] {
      JoinConnAt(w, c, p, g, h);
    }
  }

  lemma JoinKeys(w: World, c: set<nat>, p: set<nat>, g: nat)
    requires GoodChains(w) && DistinctLasts(w) && Within(w, c) && Within(w, p)
    requires g < |w.targets| && g !in p && !Connected(w.net, Last(w, g))
    ensures Last(w, g) !in ConnOf(w, c, p)
    ensures ConnOf(w, c, p + {g}).Keys == ConnOf(w, c, p).Keys + {Last(w, g)}
    ensures Last(w, g) in ConnOf(w, c, p + {g}) && ConnOf(w, c, p + {g})[Last(w, g)] == Entry(w, g)
  {
    LastsGrow(w, p, g);
  }

  lemma JoinConnAt(w: World, c: set<nat>, p: set<nat>, g: nat, h: string)
    requires GoodChains(w) && DistinctLasts(w) && Within(w, c) && Within(w, p)
    requires g < |w.targets| && g !in p && h in ConnOf(w, c, p)
    ensures h in ConnOf(w, c, p + {g}) && ConnOf(w, c, p + {g})[h] == ConnOf(w, c, p)[h]
  {
    LastsGrow(w, p, g);
  }

  lemma JoinCarrier(w: World, p: set<nat>, g: nat)
    requires GoodChains(w) && DistinctLasts(w) && Within(w, p) && g < |w.targets| && g !in p
    ensures CarrierOf(w, p + {g}) == if Tunnels(w, g) then CarrierOf(w, p)[Last(w, g) := Proxy(w, g)] else CarrierOf(w, p)
  {
    var q, r := TunnelledOf(w, p), TunnelledOf(w, p + {g});
    if Tunnels(w, g) {
      assert r == q + {g};
      LastsGrow(w, q, g);
    } else {
      assert r == q;
    }
  }

  lemma JoinListeners(w: World, p: set<nat>, g: nat)
    requires GoodChains(w) && Within(w, p) && g < |w.targets| && g !in p
    ensures ListenersOf(w, p + {g}) == ListenersOf(w, p)[Entry(w, g).reqChan := Crew(Last(w, g), Size(w, g))]
  {
    var before, after := ListenersOf(w, p), ListenersOf(w, p + {g});
    var e := Entry(w, g).reqChan;
    assert Chans(w, p + {g}) == Chans(w, p) + {e};
    assert after.Keys == before.Keys + {e};
    forall c | c in before && c != e ensures after[c] == before[c] {
    }
    assert after[e] == Crew(Last(w, g), Size(w, g));
  }

  /* ---------------- where each goroutine can be ---------------- */

  predicate Needed(w: World, g: nat)
    requires g < |w.targets| && w.targets[g].chain != []
  {
    !Connected(w.net, Last(w, g))
  }

  /** The target's resolve will return an error: its one needed dial is refused by the proxy. */
  predicate Fails(w: World, g: nat)
    requires g < |w.targets| && w.targets[g].chain != []
  {
    Needed(w, g) && Tunnels(w, g) && !w.o.tunnel(Proxy(w, g), Last(w, g))
  }

  predicate Past(pc: Pc) { pc.Reporting? || pc.Finishing? || pc.Draining? || pc.Gone? }

  /** The goroutine dials nothing but the last link, and that only if it is needed. */
  predicate GoodPc(w: World, g: nat, pc: Pc)
    requires g < |w.targets| && w.targets[g].chain != []
  {
    var last := |w.targets[g].chain| - 1;
    match pc
    case Checking(i) => i <= last
    case LookingUp(i) => i == last && Tunnels(w, g) && Needed(w, g)
    case Dialing(i) => i == last && Needed(w, g)
    case Counting(i) => i == last && Tunnels(w, g) && Wins(w, g)
    case Publishing(i, k) => i == last && Wins(w, g) && k == Size(w, g)
    case Reporting(ok) => ok == !Fails(w, g)
    case Finishing(ok) => ok == !Fails(w, g)
    case Draining(ok) => ok == !Fails(w, g)
    case Gone(ok) => ok == !Fails(w, g)
    case _ => true
  }

  /** Target h comes earlier, will connect its last link, and that is the name of target g: if it is quick
      enough, the main loop takes g to be connected and passes it over. */
  predicate Overtakes(w: World, h: nat, g: nat)
    requires GoodChains(w)
  {
    h < g < |w.targets| && Attempted(w, h) && Wins(w, h) && w.targets[g].name == Last(w, h)
  }

  /** A target that is passed over was connected from the start or has been overtaken. */
  ghost predicate Chosen(w: World, g: nat, pc: Pc)
    requires GoodChains(w) && g < |w.targets|
  {
    && (pc.Skipped? ==> !Attempted(w, g) || exists h: nat :: Overtakes(w, h, g))
    && (!pc.Skipped? && !pc.Unspawned? ==> Attempted(w, g))
  }

  predicate Counted(w: World, g: nat, pc: Pc)
    requires g < |w.targets| && w.targets[g].chain != []
  {
    Tunnels(w, g) && Wins(w, g) && (pc.Publishing? || Past(pc))
  }

  predicate Published(w: World, g: nat, pc: Pc)
    requires g < |w.targets| && w.targets[g].chain != []
  {
    Wins(w, g) && Past(pc)
  }

  predicate HasDialed(w: World, g: nat, pc: Pc)
    requires g < |w.targets| && w.targets[g].chain != []
  {
    pc.Counting? || pc.Publishing? || (Past(pc) && Needed(w, g))
  }

  /** A step that leaves the net alone; what it sees of the net is that the prefix is connected, and the
      last link only if it was from the start or has been published by this goroutine. */
  lemma QuietAdvance(w: World, n: Net, g: nat, pc: Pc)
    requires GoodChains(w) && PrefixesUp(w) && g < |w.targets|
    requires forall h :: Connected(w.net, h) ==> Connected(n, h)
    requires Connected(n, Last(w, g)) <==> !Needed(w, g) || Published(w, g, pc)
    requires GoodPc(w, g, pc) && Runs(pc) && PcFits(w.targets[g], pc) && !pc.Counting? && !pc.Publishing?
    ensures var (m, pc') := Advance(w, n, g, pc);
      && m == n && GoodPc(w, g, pc')
      && (Counted(w, g, pc') <==> Counted(w, g, pc)) && (Published(w, g, pc') <==> Published(w, g, pc))
      && (HasDialed(w, g, pc') <==> HasDialed(w, g, pc) || pc.Dialing?)
  {
    var chain := w.targets[g].chain;
    assert pc.Checking? && pc.i < |chain| - 1 ==> Connected(w.net, chain[pc.i]);
    assert pc.LookingUp? ==> Connected(w.net, chain[pc.i - 1]);
  }

  /** The two steps that change the net, in terms of what they add to it. */
  lemma LoudAdvance(w: World, n: Net, g: nat, pc: Pc)
    requires GoodChains(w) && g < |w.targets|
    requires GoodPc(w, g, pc) && (pc.Counting? || pc.Publishing?) && PcFits(w.targets[g], pc)
    requires Tunnels(w, g) ==> Connected(n, Proxy(w, g))
    ensures pc.Counting? ==> Advance(w, n, g, pc) == (Count(n, Proxy(w, g)), Publishing(pc.i, 1))
    ensures pc.Publishing? ==>
      Advance(w, n, g, pc).0 == Join(n, Entry(w, g), Size(w, g), if Tunnels(w, g) then Some(Proxy(w, g)) else None)
      && Advance(w, n, g, pc).1 == Reporting(true)
  {
  }

  /** A reading of nets by the sets of targets counted and published so far. */
  type Form = (Net, set<nat>, set<nat>) -> bool

  /** The last link of one of these targets. */
  ghost predicate LastOf(w: World, p: set<nat>, x: string)
    requires GoodChains(w)
  {
    exists h: nat :: h in p && h < |w.targets| && Last(w, h) == x
  }

  /** What goroutine g sees of the net when the targets in p have been published. */
  ghost predicate Sees(w: World, n: Net, p: set<nat>, g: nat)
    requires GoodChains(w) && g < |w.targets|
  {
    && (forall h :: Connected(w.net, h) ==> Connected(n, h))
    && (Connected(n, Last(w, g)) <==> !Needed(w, g) || g in p)
    && (forall x :: Connected(n, x) ==> Connected(w.net, x) || LastOf(w, p, x))
    && (Tunnels(w, g) ==> Connected(n, Proxy(w, g)))
  }

  ghost predicate Shows(w: World, f: Form)
    requires GoodChains(w)
  {
    forall n: Net, c: set<nat>, p: set<nat>, g: nat {:trigger f(n, c, p), Needed(w, g)} ::
      f(n, c, p) && g < |w.targets| ==> Sees(w, n, p, g)
  }

  /** Counting the proxy of a target, and publishing a target, lead from one net of the form to another. */
  ghost predicate Grows(w: World, f: Form)
    requires GoodChains(w)
  {
    && (forall n: Net, c: set<nat>, p: set<nat>, g: nat {:trigger f(n, c, p), Needed(w, g)} ::
          f(n, c, p) && g < |w.targets| && g !in c && Tunnels(w, g) && Connected(n, Proxy(w, g)) ==>
            f(Count(n, Proxy(w, g)), c + {g}, p))
    && (forall n: Net, c: set<nat>, p: set<nat>, g: nat {:trigger f(n, c, p), Needed(w, g)} ::
          f(n, c, p) && g < |w.targets| && g !in p && Needed(w, g) ==>
            f(Join(n, Entry(w, g), Size(w, g), if Tunnels(w, g) then Some(Proxy(w, g)) else None), c, p + {g}))
  }

  /** The closed form. */
  ghost predicate Shaped(w: World, n: Net, c: set<nat>, p: set<nat>) {
    && GoodChains(w) && Within(w, c) && Within(w, p)
    && n.store == w.net.store.(conn := n.store.conn) && n.calls == w.net.calls
    && n.store.conn == ConnOf(w, c, p) && n.listeners == ListenersOf(w, p) && n.carrier == CarrierOf(w, p)
  }

  lemma ShapeStarts(w: World)
    requires GoodChains(w)
    ensures Shaped(w, w.net, {}, {})
  {
    assert forall h :: Through(w, {}, h) == {};
    assert ConnOf(w, {}, {}) == w.net.store.conn;
    assert TunnelledOf(w, {}) == {};
    assert CarrierOf(w, {}) == w.net.carrier;
    assert ListenersOf(w, {}) == w.net.listeners;
  }

  lemma ShapeShows(w: World, n: Net, c: set<nat>, p: set<nat>, g: nat)
    requires Prepared(w) && g < |w.targets| && Shaped(w, n, c, p)
    ensures Sees(w, n, p, g)
  {
    assert n.store.conn.Keys == w.net.store.conn.Keys + Lasts(w, p);
    if g in p {
      OwnerIs(w, p, g);
    }
    assert Tunnels(w, g) ==> Connected(w.net, Proxy(w, g));
  }

  lemma ShapeCounts(w: World, n: Net, c: set<nat>, p: set<nat>, g: nat)
    requires Prepared(w) && g < |w.targets| && Tunnels(w, g) && Shaped(w, n, c, p) && g !in c && Connected(n, Proxy(w, g))
    ensures Shaped(w, Count(n, Proxy(w, g)), c + {g}, p)
  {
    assert Connected(w.net, Proxy(w, g));
    CountConn(w, c, p, g);
    CountFields(n, Proxy(w, g));
  }

  lemma CountFields(n: Net, p: string)
    requires Connected(n, p)
    ensures var m := Count(n, p);
      && m.store.conn == n.store.conn[p := n.store.conn[p].(proxyCount := n.store.conn[p].proxyCount + 1)]
      && m == n.(store := n.store.(conn := m.store.conn))
  {
  }

  lemma ShapeJoins(w: World, n: Net, c: set<nat>, p: set<nat>, g: nat)
    requires Prepared(w) && g < |w.targets| && Needed(w, g) && Shaped(w, n, c, p) && g !in p
    ensures Shaped(w, Join(n, Entry(w, g), Size(w, g), if Tunnels(w, g) then Some(Proxy(w, g)) else None), c, p + {g})
  {
    JoinConn(w, c, p, g);
    JoinCarrier(w, p, g);
    JoinListeners(w, p, g);
    assert Last(w, g) in w.targets[g].chain;
    JoinFields(n, Entry(w, g), Size(w, g), if Tunnels(w, g) then Some(Proxy(w, g)) else None);
  }

  lemma JoinFields(n: Net, ci: ConnInfo, k: nat, proxy: Option<string>)
    requires NameOf(n.store, ci.hostName) == ci.hostName && !Connected(n, ci.hostName)
    ensures var m := Join(n, ci, k, proxy);
      && m.store == n.store.(conn := n.store.conn[ci.hostName := ci])
      && m.listeners == n.listeners[ci.reqChan := Crew(ci.hostName, k)]
      && m.carrier == (if proxy.Some? then n.carrier[ci.hostName := proxy.value] else n.carrier)
      && m.calls == n.calls
  {
  }

  /* ---------------- every run keeps the closed form ---------------- */

  ghost function CountedSet(w: World, pcs: seq<Pc>): (c: set<nat>)
    requires GoodChains(w) && |pcs| == |w.targets|
    ensures Within(w, c)
  {
    set g | 0 <= g < |pcs| && Counted(w, g, pcs[g])
  }

  ghost function PublishedSet(w: World, pcs: seq<Pc>): (p: set<nat>)
    requires GoodChains(w) && |pcs| == |w.targets|
    ensures Within(w, p)
  {
    set g | 0 <= g < |pcs| && Published(w, g, pcs[g])
  }

  /** Dials so far: none twice, and just the last links of the goroutines that are past their dial. */
  ghost predicate DialsRight(w: World, s: System)
    requires GoodChains(w) && |s.pcs| == |w.targets|
  {
    && NoDup(s.dialed)
    && (forall x :: x in s.dialed ==> exists g :: 0 <= g < |s.pcs| && Last(w, g) == x)
    && (forall g :: 0 <= g < |s.pcs| ==> (Last(w, g) in s.dialed <==> HasDialed(w, g, s.pcs[g])))
  }

  ghost predicate PcsRight(w: World, s: System)
    requires GoodChains(w) && |s.pcs| == |w.targets|
  {
    && (forall g :: 0 <= g < |s.pcs| ==> GoodPc(w, g, s.pcs[g]) && Chosen(w, g, s.pcs[g]))
    && (s.main.Acquiring? && s.main.j < |s.pcs| ==> Attempted(w, s.main.j))
  }

  ghost predicate NetRight(w: World, f: Form, s: System)
    requires GoodChains(w) && |s.pcs| == |w.targets|
  {
    f(s.net, CountedSet(w, s.pcs), PublishedSet(w, s.pcs))
  }

  /** What the main loop finds connected without being so from the start was published by an earlier target. */
  lemma FoundIsOvertaken(w: World, f: Form, s: System, j: nat)
    requires GoodChains(w) && Shows(w, f) && Inv(w, s) && PcsRight(w, s) && NetRight(w, f, s)
    requires j < |s.pcs| && s.main == Looping(j) && Connected(s.net, w.targets[j].name) && Attempted(w, j)
    ensures exists h: nat :: Overtakes(w, h, j)
  {
    var p := PublishedSet(w, s.pcs);
    assert Needed(w, j) || !Needed(w, j);
    assert Sees(w, s.net, p, j);
    var h: nat :| h in p && h < |w.targets| && Last(w, h) == w.targets[j].name;
    assert GoInv(w, s, h) && Chosen(w, h, s.pcs[h]);
    assert Overtakes(w, h, j);
  }

  lemma MainKeepsPcs(w: World, f: Form, s: System)
    requires GoodChains(w) && Shows(w, f)
    requires Inv(w, s) && PcsRight(w, s) && NetRight(w, f, s) && Enabled(w, s, Main)
    ensures PcsRight(w, Next(w, s, Main))
  {
    if s.main.Looping? && s.main.j < |s.pcs| {
      var j := s.main.j;
      assert GoInv(w, s, j);
      assert Needed(w, j) || !Needed(w, j);
      assert Sees(w, s.net, PublishedSet(w, s.pcs), j);
      if Connected(s.net, w.targets[j].name) && Attempted(w, j) {
        FoundIsOvertaken(w, f, s, j);
      }
    } else if s.main.Acquiring? {
      assert GoInv(w, s, s.main.j);
    }
  }

  lemma MainKeepsDials(w: World, s: System)
    requires GoodChains(w) && Inv(w, s) && DialsRight(w, s) && Enabled(w, s, Main)
    ensures DialsRight(w, Next(w, s, Main))
  {
    var t := Next(w, s, Main);
    forall g | 0 <= g < |s.pcs| ensures HasDialed(w, g, t.pcs[g]) <==> HasDialed(w, g, s.pcs[g]) {
      assert GoInv(w, s, g);
    }
  }

  lemma MainKeepsNet(w: World, f: Form, s: System)
    requires GoodChains(w) && Inv(w, s) && NetRight(w, f, s) && Enabled(w, s, Main)
    ensures NetRight(w, f, Next(w, s, Main))
  {
    var t := Next(w, s, Main);
    if t.pcs != s.pcs {
      assert GoInv(w, s, s.main.j);
      SetsStay(w, s.pcs, s.main.j, t.pcs[s.main.j]);
    }
  }

  lemma MainKeepsRight(w: World, f: Form, s: System)
    requires GoodChains(w) && Shows(w, f)
    requires Inv(w, s) && PcsRight(w, s) && NetRight(w, f, s) && DialsRight(w, s) && Enabled(w, s, Main)
    ensures var t := Next(w, s, Main); PcsRight(w, t) && NetRight(w, f, t) && DialsRight(w, t)
  {
    MainKeepsPcs(w, f, s);
    MainKeepsNet(w, f, s);
    MainKeepsDials(w, s);
  }

  lemma SetsStay(w: World, pcs: seq<Pc>, g: nat, pc: Pc)
    requires GoodChains(w) && |pcs| == |w.targets| && g < |pcs|
    requires pcs[g].Unspawned? && (pc.Unspawned? || pc.Skipped? || pc.Starting?)
    ensures CountedSet(w, pcs[g := pc]) == CountedSet(w, pcs) && PublishedSet(w, pcs[g := pc]) == PublishedSet(w, pcs)
  {
  }

  lemma SetsMove(w: World, pcs: seq<Pc>, g: nat, pc: Pc)
    requires GoodChains(w) && |pcs| == |w.targets| && g < |pcs|
    requires Counted(w, g, pcs[g]) ==> Counted(w, g, pc)
    requires Published(w, g, pcs[g]) ==> Published(w, g, pc)
    ensures CountedSet(w, pcs[g := pc]) == if Counted(w, g, pc) then CountedSet(w, pcs) + {g} else CountedSet(w, pcs)
    ensures PublishedSet(w, pcs[g := pc]) == if Published(w, g, pc) then PublishedSet(w, pcs) + {g} else PublishedSet(w, pcs)
    ensures Counted(w, g, pcs[g]) ==> CountedSet(w, pcs) + {g} == CountedSet(w, pcs)
    ensures Published(w, g, pcs[g]) ==> PublishedSet(w, pcs) + {g} == PublishedSet(w, pcs)
  {
  }

  /** What one step makes of a goroutine and of the net. */
  lemma GoAdvance(w: World, f: Form, n: Net, c: set<nat>, p: set<nat>, g: nat, pc: Pc)
    requires GoodChains(w) && PrefixesUp(w) && Shows(w, f) && Grows(w, f) && f(n, c, p) && g < |w.targets|
    requires (g in c <==> Counted(w, g, pc)) && (g in p <==> Published(w, g, pc))
    requires GoodPc(w, g, pc) && Runs(pc) && PcFits(w.targets[g], pc)
    requires pc.Counting? ==> Connected(n, w.targets[g].chain[pc.i - 1])
    ensures var (m, pc') := Advance(w, n, g, pc);
      && GoodPc(w, g, pc')
      && (HasDialed(w, g, pc') <==> HasDialed(w, g, pc) || pc.Dialing?)
      && (Counted(w, g, pc') <==> Counted(w, g, pc) || pc.Counting?)
      && (Published(w, g, pc') <==> Published(w, g, pc) || pc.Publishing?)
      && f(m, if pc.Counting? then c + {g} else c, if pc.Publishing? then p + {g} else p)
  {
    assert Needed(w, g) || !Needed(w, g);
    if pc.Counting? || pc.Publishing? {
      LoudAdvance(w, n, g, pc);
    } else {
      QuietAdvance(w, n, g, pc);
    }
  }

  lemma GoKeepsNet(w: World, f: Form, s: System, g: nat)
    requires GoodChains(w) && PrefixesUp(w) && Shows(w, f) && Grows(w, f)
    requires |s.pcs| == |w.targets| && PcsRight(w, s) && NetRight(w, f, s) && Enabled(w, s, Go(g))
    ensures var t := Next(w, s, Go(g)); PcsRight(w, t) && NetRight(w, f, t)
    ensures HasDialed(w, g, Next(w, s, Go(g)).pcs[g]) <==> HasDialed(w, g, s.pcs[g]) || s.pcs[g].Dialing?
  {
    var t, pc := Next(w, s, Go(g)), s.pcs[g];
    var c, p := CountedSet(w, s.pcs), PublishedSet(w, s.pcs);
    GoAdvance(w, f, s.net, c, p, g, pc);
    SetsMove(w, s.pcs, g, Advance(w, s.net, g, pc).1);
    assert t.pcs == s.pcs[g := Advance(w, s.net, g, pc).1];
    assert CountedSet(w, t.pcs) == if pc.Counting? then c + {g} else c;
    assert PublishedSet(w, t.pcs) == if pc.Publishing? then p + {g} else p;
  }

  lemma GoKeepsDials(w: World, s: System, g: nat)
    requires GoodChains(w) && DistinctLasts(w) && |s.pcs| == |w.targets| && Enabled(w, s, Go(g))
    requires PcsRight(w, s) && DialsRight(w, s)
    requires HasDialed(w, g, Next(w, s, Go(g)).pcs[g]) <==> HasDialed(w, g, s.pcs[g]) || s.pcs[g].Dialing?
    ensures DialsRight(w, Next(w, s, Go(g)))
  {
    var t, l := Next(w, s, Go(g)), Last(w, g);
    if s.pcs[g].Dialing? {
      assert t.dialed == s.dialed + [l] && l !in s.dialed;
      assert forall i :: 0 <= i < |s.dialed| ==> s.dialed[i] in s.dialed;
      assert forall x :: x in t.dialed <==> x in s.dialed || x == l;
    }
  }

  lemma {:induction false} RunsKeepForm(w: World, f: Form, steps: seq<Step>)
    requires GoodChains(w) && PrefixesUp(w) && DistinctLasts(w) && DistinctNames(w) && Shows(w, f) && Grows(w, f)
    requires f(w.net, {}, {}) && Legal(w, steps)
    ensures var s := After(w, steps); PcsRight(w, s) && NetRight(w, f, s) && DialsRight(w, s)
  {
    if steps == [] {
      assert CountedSet(w, Start(w).pcs) == {} && PublishedSet(w, Start(w).pcs) == {};
    } else {
      var n := |steps| - 1;
      var s := After(w, steps[..n]);
      RunsKeepForm(w, f, steps[..n]);
      RunsKeepInv(w, steps[..n]);
      match steps[n] {
        case Main => MainKeepsRight(w, f, s);
        case Go(g) =>
          GoKeepsNet(w, f, s, g);
          GoKeepsDials(w, s, g);
      }
    }
  }

  ghost function FormOf(w: World): Form { (n, c, p) => Shaped(w, n, c, p) }

  lemma FormShows(w: World)
    requires Prepared(w)
    ensures Shows(w, FormOf(w))
  {
    var f := FormOf(w);
    forall n: Net, c: set<nat>, p: set<nat>, g: nat | f(n, c, p) && g < |w.targets|
      ensures Sees(w, n, p, g)
    {
      ShapeShows(w, n, c, p, g);
    }
  }

  lemma FormGrows(w: World)
    requires Prepared(w)
    ensures Grows(w, FormOf(w))
  {
    var f := FormOf(w);
    forall n: Net, c: set<nat>, p: set<nat>, g: nat
        | f(n, c, p) && g < |w.targets| && g !in c && Tunnels(w, g) && Connected(n, Proxy(w, g))
      ensures f(Count(n, Proxy(w, g)), c + {g}, p)
    {
      ShapeCounts(w, n, c, p, g);
    }
    forall n: Net, c: set<nat>, p: set<nat>, g: nat | f(n, c, p) && g < |w.targets| && g !in p && Needed(w, g)
      ensures f(Join(n, Entry(w, g), Size(w, g), if Tunnels(w, g) then Some(Proxy(w, g)) else None), c, p + {g})
    {
      ShapeJoins(w, n, c, p, g);
    }
  }

  /** The closed form shows and grows as it should. */
  lemma TheForm(w: World) returns (f: Form)
    requires Prepared(w)
    ensures forall n, c, p :: f(n, c, p) ==> Shaped(w, n, c, p)
    ensures Shows(w, f) && Grows(w, f) && f(w.net, {}, {})
  {
    f := FormOf(w);
    FormShows(w);
    FormGrows(w);
    ShapeStarts(w);
  }

  /* ---------------- the one outcome ---------------- */

  ghost function WinnersIn(w: World, done: set<nat>): (s: set<nat>)
    requires GoodChains(w) && Within(w, done)
    ensures Within(w, s)
  {
    set g | g in done && Wins(w, g)
  }

  ghost function AllAttempted(w: World): (s: set<nat>)
    ensures Within(w, s)
  {
    set g | 0 <= g < |w.targets| && Attempted(w, g)
  }

  /** What resolving all of `done` leads to, in whatever order. */
  ghost function Outcome(w: World, done: set<nat>): Net
    requires GoodChains(w) && Within(w, done)
  {
    Shape(w, TunnelledOf(w, WinnersIn(w, done)), WinnersIn(w, done))
  }

  /** The targets that were attempted. */
  ghost function Runners(w: World, pcs: seq<Pc>): (r: set<nat>)
    requires |pcs| == |w.targets|
    ensures Within(w, r)
  {
    set g | 0 <= g < |pcs| && pcs[g].Gone?
  }

  /** All goroutines are through; whoever was to be attempted was, unless overtaken. */
  ghost predicate Settled(w: World, pcs: seq<Pc>)
    requires GoodChains(w)
  {
    |pcs| == |w.targets| && forall g :: 0 <= g < |pcs| ==> (pcs[g].Gone? || pcs[g].Skipped?) && Chosen(w, g, pcs[g])
  }

  lemma SettledSets(w: World, pcs: seq<Pc>)
    requires GoodChains(w) && Settled(w, pcs)
    ensures PublishedSet(w, pcs) == WinnersIn(w, Runners(w, pcs))
    ensures CountedSet(w, pcs) == TunnelledOf(w, PublishedSet(w, pcs))
  {
  }

  lemma StuckIsSettled(w: World, steps: seq<Step>)
    requires GoodChains(w) && DistinctNames(w) && w.limit > 0 && Complete(w, steps)
    requires PcsRight(w, After(w, steps))
    ensures Settled(w, After(w, steps).pcs)
    ensures forall g :: 0 <= g < |w.targets| ==> Reported(w, g, After(w, steps).pcs[g], After(w, steps).targets)
  {
    RunsKeepInv(w, steps);
    MaximalRunReturns(w, steps);
    var s := After(w, steps);
    forall g | 0 <= g < |s.pcs|
      ensures (s.pcs[g].Gone? || s.pcs[g].Skipped?) && Chosen(w, g, s.pcs[g]) && Reported(w, g, s.pcs[g], s.targets)
    {
      assert GoInv(w, s, g);
    }
  }

  /** What was dialed, and what was reported, when the targets in r were attempted. */
  ghost predicate DialsAndStatuses(w: World, s: System, r: set<nat>)
    requires GoodChains(w)
  {
    && NoDup(s.dialed)
    && (forall x :: x in s.dialed ==> exists g :: 0 <= g < |w.targets| && Last(w, g) == x)
    && (forall g :: 0 <= g < |w.targets| ==> (Last(w, g) in s.dialed <==> g in r && Needed(w, g)))
    && (forall g :: 0 <= g < |w.targets| && g in r ==> StatusSays(w, g, !Fails(w, g), s.targets))
  }

  lemma SettledDials(w: World, s: System)
    requires GoodChains(w) && Settled(w, s.pcs) && PcsRight(w, s) && DialsRight(w, s)
    requires forall g :: 0 <= g < |w.targets| ==> Reported(w, g, s.pcs[g], s.targets)
    ensures DialsAndStatuses(w, s, Runners(w, s.pcs))
  {
    var r := Runners(w, s.pcs);
    forall g | 0 <= g < |w.targets|
      ensures Last(w, g) in s.dialed <==> g in r && Needed(w, g)
      ensures g in r ==> StatusSays(w, g, !Fails(w, g), s.targets)
    {
      assert GoodPc(w, g, s.pcs[g]) && Reported(w, g, s.pcs[g], s.targets);
      assert Last(w, g) in s.dialed <==> HasDialed(w, g, s.pcs[g]);
    }
  }

  lemma RunnersChosen(w: World, pcs: seq<Pc>)
    requires GoodChains(w) && Settled(w, pcs)
    ensures Runners(w, pcs) <= AllAttempted(w)
    ensures forall g :: g in AllAttempted(w) - Runners(w, pcs) ==> exists h: nat :: Overtakes(w, h, g)
  {
    var r := Runners(w, pcs);
    forall g | g in r ensures Attempted(w, g) {
      assert Chosen(w, g, pcs[g]);
    }
    forall g | g in AllAttempted(w) - r ensures exists h: nat :: Overtakes(w, h, g) {
      assert Chosen(w, g, pcs[g]);
    }
  }

  /** Every complete interleaving of the parallel phase ends in the net that the targets attempted in it lead to.
      It has dialed only last links, each at most once, and of those targets just the ones not yet connected;
      each one's status is that its dial was not refused. Whoever was to be attempted was, unless overtaken. */
  lemma RunnersDecide(w: World, steps: seq<Step>)
    requires Prepared(w) && DistinctNames(w) && w.limit > 0 && Complete(w, steps)
    ensures var (s, r) := (After(w, steps), Runners(w, After(w, steps).pcs));
      && s.net == Outcome(w, r) && DialsAndStatuses(w, s, r) && Settled(w, s.pcs)
      && r <= AllAttempted(w) && forall g :: g in AllAttempted(w) - r ==> exists h: nat :: Overtakes(w, h, g)
  {
    var f := TheForm(w);
    RunsKeepForm(w, f, steps);
    StuckIsSettled(w, steps);
    SettledSets(w, After(w, steps).pcs);
    SettledDials(w, After(w, steps));
    RunnersChosen(w, After(w, steps).pcs);
  }

  /** No target can be passed over because of another. */
  ghost predicate NoneOvertaken(w: World)
    requires GoodChains(w)
  {
    forall h: nat, g: nat :: !Overtakes(w, h, g)
  }

  /** So if nobody can be overtaken, every interleaving has one and the same outcome: the net, the dials and the
      statuses are those of attempting all targets that were not connected. */
  lemma EveryInterleavingAgrees(w: World, steps: seq<Step>)
    requires Prepared(w) && NoneOvertaken(w)
    requires DistinctNames(w) && w.limit > 0 && Complete(w, steps)
    ensures Runners(w, After(w, steps).pcs) == AllAttempted(w)
    ensures After(w, steps).net == Outcome(w, AllAttempted(w))
    ensures DialsAndStatuses(w, After(w, steps), AllAttempted(w))
  {
    RunnersDecide(w, steps);
    assert AllAttempted(w) - Runners(w, After(w, steps).pcs) == {};
  }

  /* ---------------- serial runs ---------------- */

  /** One target's resolve, run alone. */
  function ResolveAlone(w: World, n: Net, g: nat): Net
    requires g < |w.targets|
  {
    Walk(n, w.net.calls + g, w.targets[g].chain, 0, false, w.o).0
  }

  function Serially(w: World, order: seq<nat>): Net
    requires forall g :: g in order ==> g < |w.targets|
  {
    if order == [] then w.net
    else
      var n := |order| - 1;
      assert order[n] in order && forall g :: g in order[..n] ==> g in order;
      ResolveAlone(w, Serially(w, order[..n]), order[n])
  }

  /** With its prefix connected, a resolve goes straight to the last link. */
  lemma {:induction false} WalkSkips(n: Net, call: nat, chain: seq<string>, i: nat, o: Oracle)
    requires i < |chain| && forall j :: 0 <= j < |chain| - 1 ==> Connected(n, chain[j])
    ensures Walk(n, call, chain, i, false, o) == Walk(n, call, chain, |chain| - 1, false, o)
    decreases |chain| - i
  {
    if i < |chain| - 1 {
      WalkSkips(n, call, chain, i + 1, o);
    }
  }

  lemma AloneIs(w: World, n: Net, g: nat)
    requires GoodChains(w) && g < |w.targets|
    requires forall j :: 0 <= j < |w.targets[g].chain| - 1 ==> Connected(n, w.targets[g].chain[j])
    requires Connected(n, Last(w, g)) <==> !Needed(w, g)
    ensures ResolveAlone(w, n, g) ==
      if !Wins(w, g) then n
      else if Tunnels(w, g) then Join(Count(n, Proxy(w, g)), Entry(w, g), 1, Some(Proxy(w, g)))
      else Join(n, Entry(w, g), Size(w, g), None)
  {
    var chain, call := w.targets[g].chain, w.net.calls + g;
    WalkSkips(n, call, chain, 0, w.o);
    var hop := Hop(n, call, chain, |chain| - 1, false, w.o);
    assert Walk(n, call, chain, |chain| - 1, false, w.o)
      == if hop.None? then (n, Some(|chain| - 1)) else Walk(hop.value, call, chain, |chain|, false, w.o);
  }

  ghost function Members(order: seq<nat>): set<nat> { set g | g in order }

  /** Resolving targets one after the other, in any order, leads to the outcome of that set of targets. */
  lemma {:induction false} SerialForm(w: World, f: Form, order: seq<nat>)
    requires GoodChains(w) && PrefixesUp(w) && Shows(w, f) && Grows(w, f) && f(w.net, {}, {})
    requires NoDup(order) && Within(w, Members(order)) && forall g :: g in order ==> g < |w.targets|
    ensures f(Serially(w, order), TunnelledOf(w, WinnersIn(w, Members(order))), WinnersIn(w, Members(order)))
  {
    if order == [] {
      assert WinnersIn(w, Members(order)) == {} && TunnelledOf(w, {}) == {};
    } else {
      var k := |order| - 1;
      var g, front := order[k], order[..k];
      assert g in order && g !in front && forall x :: x in front ==> x in order;
      SerialForm(w, f, front);
      SerialStep(w, f, Serially(w, front), Members(front), g);
      assert Members(order) == Members(front) + {g};
    }
  }

  lemma SerialStep(w: World, f: Form, n: Net, done: set<nat>, g: nat)
    requires GoodChains(w) && PrefixesUp(w) && Shows(w, f) && Grows(w, f)
    requires Within(w, done) && g < |w.targets| && g !in done
    requires f(n, TunnelledOf(w, WinnersIn(w, done)), WinnersIn(w, done))
    ensures Within(w, done + {g})
    ensures f(ResolveAlone(w, n, g), TunnelledOf(w, WinnersIn(w, done + {g})), WinnersIn(w, done + {g}))
  {
    var p := WinnersIn(w, done);
    var c := TunnelledOf(w, p);
    var p', c' := WinnersIn(w, done + {g}), TunnelledOf(w, WinnersIn(w, done + {g}));
    assert Needed(w, g) || !Needed(w, g);
    AloneIs(w, n, g);
    if Wins(w, g) {
      assert p' == p + {g};
      if Tunnels(w, g) {
        assert c' == c + {g};
        var counted := Count(n, Proxy(w, g));
        assert f(counted, c + {g}, p);
        assert f(Join(counted, Entry(w, g), Size(w, g), Some(Proxy(w, g))), c + {g}, p + {g});
      } else {
        assert c' == c;
      }
    } else {
      assert p' == p && c' == c;
    }
  }

  /** The parallel phase ends in the same net as resolving the targets attempted in it serially, in any order. */
  lemma ParallelIsSerial(w: World, steps: seq<Step>, order: seq<nat>)
    requires Prepared(w) && DistinctNames(w) && w.limit > 0 && Complete(w, steps)
    requires Enumerates(order, Runners(w, After(w, steps).pcs))
    ensures forall g :: g in order ==> g < |w.targets|
    ensures After(w, steps).net == Serially(w, order)
  {
    RunnersDecide(w, steps);
    var f := TheForm(w);
    assert Members(order) == Runners(w, After(w, steps).pcs);
    SerialForm(w, f, order);
  }

  function Ascending(w: World, r: set<nat>, k: nat): (order: seq<nat>)
    ensures forall g: nat :: g in order <==> g < k && g in r
    ensures NoDup(order)
  {
    if k == 0 then []
    else Ascending(w, r, k - 1) + (if k - 1 in r then [k - 1] else [])
  }

  /** What every single resolve keeps, the serial run keeps. */
  lemma {:induction false} SerialKeeps(w: World, r: set<nat>, k: nat, inv: (Net, nat) -> bool)
    requires k <= |w.targets| && inv(w.net, 0)
    requires forall n: Net, g: nat, h: nat :: inv(n, g) && h == g + 1 <= |w.targets| ==> inv(n, h)
    requires forall n: Net, g: nat {:trigger ResolveAlone(w, n, g)} :: g < |w.targets| && inv(n, g) ==>
      inv(ResolveAlone(w, n, g), g + 1)
    ensures inv(Serially(w, Ascending(w, r, k)), k)
  {
    if k > 0 {
      SerialKeeps(w, r, k - 1, inv);
      var next := ResolveAlone(w, Serially(w, Ascending(w, r, k - 1)), k - 1);
      assert inv(next, k);
      if k - 1 in r {
        assert Ascending(w, r, k)[..|Ascending(w, r, k)| - 1] == Ascending(w, r, k - 1);
      } else {
        assert Ascending(w, r, k) == Ascending(w, r, k - 1);
      }
    }
  }

  /** The net of a serial run that has come to target k. */
  ghost predicate GrownTo(w: World, n: Net, k: nat) { Grown(w.net, n, Chan(w.net.calls + k, 0)) }

  lemma AloneGrows(w: World, n: Net, g: nat)
    requires GoodChains(w) && g < |w.targets| && GrownTo(w, n, g)
    ensures GrownTo(w, ResolveAlone(w, n, g), g + 1)
  {
    WalkGrown(w.net, n, w.net.calls + g, w.targets[g].chain, false, w.o);
  }

  lemma SerialBuilds(w: World, r: set<nat>)
    requires GoodChains(w) && GrownTo(w, w.net, 0)
    ensures GrownTo(w, Serially(w, Ascending(w, r, |w.targets|)), |w.targets|)
  {
    forall n: Net, g: nat, h: nat | GrownTo(w, n, g) && h == g + 1 <= |w.targets| ensures GrownTo(w, n, h) {
      LaterGrown(w.net, n, Chan(w.net.calls + g, 0), Chan(w.net.calls + h, 0));
    }
    forall n: Net, g: nat | g < |w.targets| && GrownTo(w, n, g) ensures GrownTo(w, ResolveAlone(w, n, g), g + 1) {
      AloneGrows(w, n, g);
    }
    SerialKeeps(w, r, |w.targets|, (n: Net, g: nat) => GrownTo(w, n, g));
  }

  /** The outcome is again a forest with exact proxy counts and no orphan listener; no earlier entry has
      been lost or re-parented. */
  lemma ParallelBuilds(w: World, steps: seq<Step>)
    requires Prepared(w) && DistinctNames(w) && w.limit > 0 && Complete(w, steps)
    requires Built(w.net, Chan(w.net.calls, 0))
    ensures Grown(w.net, After(w, steps).net, Chan(w.net.calls + |w.targets|, 0))
  {
    var r := Runners(w, After(w, steps).pcs);
    ParallelIsSerial(w, steps, Ascending(w, r, |w.targets|));
    SerialBuilds(w, r);
  }

  /* ---------------- when nobody can be overtaken ---------------- */

  lemma Then(w: World, steps: seq<Step>, step: Step) returns (longer: seq<Step>)
    requires Legal(w, steps) && Enabled(w, After(w, steps), step)
    ensures longer == steps + [step] && Legal(w, longer) && After(w, longer) == Next(w, After(w, steps), step)
  {
    longer := steps + [step];
    assert longer[..|steps|] == steps;
  }

  /** Every run can be carried on until nothing can move. */
  lemma RunOn(w: World, steps: seq<Step>) returns (longer: seq<Step>)
    requires DistinctNames(w) && Legal(w, steps)
    ensures steps <= longer && Complete(w, longer)
    decreases Measure(w, After(w, steps))
  {
    if Stuck(w, After(w, steps)) {
      longer := steps;
    } else {
      var step :| Enabled(w, After(w, steps), step);
      RunsShrink(w, steps);
      RunsKeepInv(w, steps);
      StepShrinks(w, After(w, steps), step);
      longer := steps + [step];
      assert longer[..|steps|] == steps;
      longer := RunOn(w, longer);
    }
  }

  lemma {:induction false} SumBelow(s: seq<nat>, j: nat)
    requires j <= |s| && (forall g :: 0 <= g < |s| ==> s[g] <= 1) && forall g :: j <= g < |s| ==> s[g] == 0
    ensures Sum(s) <= j
  {
    if s != [] {
      SumBelow(s[..|s| - 1], if j == |s| then j - 1 else j);
    }
  }

  /** With room for all targets the main loop never waits at the limiter. */
  lemma Room(w: World, s: System)
    requires Inv(w, s) && s.main.Acquiring? && |w.targets| <= w.limit
    ensures Enabled(w, s, Main)
  {
    forall g | s.main.j <= g < |s.pcs| ensures Places(s.pcs)[g] == 0 {
      assert GoInv(w, s, g);
    }
    SumBelow(Places(s.pcs), s.main.j);
  }

  /** The main loop has come from target j to target k, and nobody else has moved. */
  ghost predicate Looped(s: System, t: System, w: World, j: nat, k: nat)
    requires j <= k <= |w.targets| == |s.pcs|
  {
    && t.main == Looping(k) && t.net == s.net && |t.pcs| == |s.pcs|
    && (forall g :: 0 <= g < j ==> t.pcs[g] == s.pcs[g])
    && (forall g :: j <= g < k ==> t.pcs[g] == if Connected(s.net, w.targets[g].name) then Skipped else Starting)
  }

  lemma LoopedOnce(s: System, t: System, w: World, j: nat)
    requires j < |w.targets| == |s.pcs| && t.main == Looping(j + 1) && t.net == s.net
    requires t.pcs == s.pcs[j := if Connected(s.net, w.targets[j].name) then Skipped else Starting]
    ensures Looped(s, t, w, j, j + 1)
  {
  }

  lemma MainOnce(w: World, steps: seq<Step>, j: nat) returns (longer: seq<Step>)
    requires DistinctNames(w) && |w.targets| <= w.limit && Legal(w, steps) && j < |w.targets|
    requires After(w, steps).main == Looping(j)
    ensures steps <= longer && Legal(w, longer) && Looped(After(w, steps), After(w, longer), w, j, j + 1)
  {
    var s := After(w, steps);
    longer := Then(w, steps, Main);
    if !Connected(s.net, w.targets[j].name) {
      assert After(w, longer) == s.(main := Acquiring(j));
      RunsKeepInv(w, longer);
      Room(w, After(w, longer));
      longer := Then(w, longer, Main);
    }
    LoopedOnce(s, After(w, longer), w, j);
  }

  lemma {:induction false} MainTo(w: World, steps: seq<Step>, j: nat, k: nat) returns (longer: seq<Step>)
    requires DistinctNames(w) && |w.targets| <= w.limit && Legal(w, steps) && j <= k <= |w.targets|
    requires After(w, steps).main == Looping(j)
    ensures steps <= longer && Legal(w, longer) && Looped(After(w, steps), After(w, longer), w, j, k)
    decreases k - j
  {
    if j == k {
      longer := steps;
    } else {
      longer := MainOnce(w, steps, j);
      longer := MainTo(w, longer, j + 1, k);
    }
  }

  /** Goroutine g goes on alone until it reports. */
  lemma {:induction false} GoAlone(w: World, steps: seq<Step>, g: nat) returns (longer: seq<Step>)
    requires Legal(w, steps) && g < |w.targets|
    requires var (s, pc) := (After(w, steps), After(w, steps).pcs[g]);
      Runs(pc) && !pc.Finishing? && !pc.Draining? && Parallel.Ready(w.targets[g], s.net, pc)
    ensures steps <= longer && Legal(w, longer)
    ensures var (s, t) := (After(w, steps), After(w, longer));
      var (net, ok) := Solo(w, s.net, g, s.pcs[g]);
      t.net == net && t.main == s.main && t.pcs == s.pcs[g := Reporting(ok)]
    decreases StepsLeft(w.targets[g], After(w, steps).pcs[g])
  {
    var s := After(w, steps);
    if s.pcs[g].Reporting? {
      longer := steps;
      assert s.pcs[g := s.pcs[g]] == s.pcs;
    } else {
      AdvanceShrinks(w, s.net, g, s.pcs[g]);
      AdvanceReady(w, s.net, g, s.pcs[g]);
      longer := Then(w, steps, Go(g));
      var t := After(w, longer);
      var (net, pc) := Advance(w, s.net, g, s.pcs[g]);
      assert t.net == net && t.pcs == s.pcs[g := pc] && t.main == s.main;
      longer := GoAlone(w, longer, g);
      Overwrite(s.pcs, g, pc, Reporting(Solo(w, net, g, pc).1));
    }
  }

  lemma Overwrite(pcs: seq<Pc>, g: nat, a: Pc, b: Pc)
    requires g < |pcs|
    ensures pcs[g := a][g := b] == pcs[g := b]
  {
  }

  lemma AdvanceReady(w: World, n: Net, g: nat, pc: Pc)
    requires g < |w.targets| && Runs(pc) && !pc.Finishing? && !pc.Draining? && !pc.Reporting? && Parallel.Ready(w.targets[g], n, pc)
    ensures var (m, pc') := Advance(w, n, g, pc);
      && Runs(pc') && !pc'.Finishing? && !pc'.Draining? && Parallel.Ready(w.targets[g], m, pc')
      && Solo(w, n, g, pc) == Solo(w, m, g, pc')
  {
    AdvanceGrows(w, n, g, pc);
  }

  /** Who has been passed over stays so, and who has been started is not passed over. */
  lemma {:induction false} ChoiceStays(w: World, steps: seq<Step>, n: nat, g: nat)
    requires DistinctNames(w) && Legal(w, steps) && n <= |steps| && g < |w.targets|
    ensures Legal(w, steps[..n])
    ensures !After(w, steps[..n]).pcs[g].Unspawned? ==>
      !After(w, steps).pcs[g].Unspawned? && (After(w, steps).pcs[g].Skipped? <==> After(w, steps[..n]).pcs[g].Skipped?)
  {
    if n < |steps| {
      var front := steps[..|steps| - 1];
      ChoiceStays(w, front, n, g);
      assert front[..n] == steps[..n];
      RunsKeepInv(w, front);
      if !After(w, front).pcs[g].Unspawned? {
        StepChoice(w, After(w, front), steps[|steps| - 1], g);
      }
    } else {
      assert steps[..n] == steps;
    }
  }

  lemma StepChoice(w: World, s: System, step: Step, g: nat)
    requires Inv(w, s) && Enabled(w, s, step) && g < |w.targets| && !s.pcs[g].Unspawned?
    ensures !Next(w, s, step).pcs[g].Unspawned? && (Next(w, s, step).pcs[g].Skipped? <==> s.pcs[g].Skipped?)
  {
    assert GoInv(w, s, g);
    if step.Go? {
      AdvanceGrows(w, s.net, step.g, s.pcs[step.g]);
    }
  }

  /** Alone and first, the goroutine of a target that wins connects its last link. */
  lemma WinnerConnects(w: World, h: nat)
    requires Prepared(w) && h < |w.targets| && Wins(w, h)
    ensures Connected(Solo(w, w.net, h, Starting).0, Last(w, h))
  {
    SoloIsWalk(w, w.net, h, 0);
    AloneConnects(w, h);
    assert Solo(w, w.net, h, Starting) == Solo(w, w.net, h, At(w.targets[h], 0));
  }

  lemma AloneConnects(w: World, h: nat)
    requires Prepared(w) && h < |w.targets| && Wins(w, h)
    ensures Connected(ResolveAlone(w, w.net, h), Last(w, h))
  {
    AloneIs(w, w.net, h);
    assert Last(w, h) in w.targets[h].chain;
  }

  /** A complete run in which an overtaken target is passed over. */
  lemma OvertakenRun(w: World, h: nat, g: nat) returns (steps: seq<Step>)
    requires Prepared(w) && DistinctNames(w) && |w.targets| <= w.limit && Overtakes(w, h, g)
    ensures Complete(w, steps) && After(w, steps).pcs[g].Skipped?
  {
    steps := MainTo(w, [], 0, h + 1);
    assert After(w, steps).pcs[h] == Starting;
    steps := GoAlone(w, steps, h);
    WinnerConnects(w, h);
    steps := MainTo(w, steps, h + 1, g + 1);
    var n := |steps|;
    assert After(w, steps).pcs[g].Skipped?;
    var front := steps;
    steps := RunOn(w, steps);
    assert steps[..n] == front;
    ChoiceStays(w, steps, n, g);
  }

  /** A complete run in which a target that is not connected from the start is attempted. */
  lemma AttemptedRun(w: World, g: nat) returns (steps: seq<Step>)
    requires Prepared(w) && DistinctNames(w) && |w.targets| <= w.limit && Attempted(w, g)
    ensures Complete(w, steps) && g in Runners(w, After(w, steps).pcs)
  {
    var front := MainTo(w, [], 0, g + 1);
    steps := RunOn(w, front);
    assert steps[..|front|] == front;
    ChoiceStays(w, steps, |front|, g);
    RunnersDecide(w, steps);
  }

  /** With room for all targets: the same targets are attempted in every complete run exactly if none can be
      overtaken. */
  lemma SameAttemptsIff(w: World)
    requires Prepared(w) && DistinctNames(w) && |w.targets| <= w.limit && w.limit > 0
    ensures NoneOvertaken(w) <==>
      forall steps :: Complete(w, steps) ==> Runners(w, After(w, steps).pcs) == AllAttempted(w)
  {
    if NoneOvertaken(w) {
      forall steps | Complete(w, steps) ensures Runners(w, After(w, steps).pcs) == AllAttempted(w) {
        EveryInterleavingAgrees(w, steps);
      }
    } else {
      var h: nat, g: nat :| Overtakes(w, h, g);
      var steps := OvertakenRun(w, h, g);
      assert g in AllAttempted(w) && g !in Runners(w, After(w, steps).pcs);
    }
  }

  lemma OutcomeHas(w: World, r: set<nat>, g: nat)
    requires Prepared(w) && Within(w, r) && g < |w.targets| && Wins(w, g)
    ensures Connected(Outcome(w, r), Last(w, g)) <==> g in r
  {
    if g in r {
      OwnerIs(w, WinnersIn(w, r), g);
    }
  }

  /** Nobody who would win can be overtaken. */
  ghost predicate NoWinnerOvertaken(w: World)
    requires GoodChains(w)
  {
    forall h: nat, g: nat :: Overtakes(w, h, g) ==> !Wins(w, g)
  }

  ghost predicate SameNet(w: World) {
    forall steps, others :: Complete(w, steps) && Complete(w, others) ==> After(w, steps).net == After(w, others).net
  }

  /** With room for all targets: every complete run ends in the same net exactly if nobody who would win can be
      overtaken. */
  lemma SameNetIff(w: World)
    requires Prepared(w) && DistinctNames(w) && |w.targets| <= w.limit && w.limit > 0
    ensures NoWinnerOvertaken(w) <==> SameNet(w)
  {
    if NoWinnerOvertaken(w) {
      NobodyMissed(w);
    } else {
      SomebodyMissed(w);
    }
  }

  lemma NobodyMissed(w: World)
    requires Prepared(w) && DistinctNames(w) && w.limit > 0 && NoWinnerOvertaken(w)
    ensures SameNet(w)
  {
    forall steps, others | Complete(w, steps) && Complete(w, others) ensures After(w, steps).net == After(w, others).net {
      SameWinners(w, steps);
      SameWinners(w, others);
    }
  }

  lemma SomebodyMissed(w: World)
    requires Prepared(w) && DistinctNames(w) && |w.targets| <= w.limit && w.limit > 0 && !NoWinnerOvertaken(w)
    ensures !SameNet(w)
  {
    var h: nat, g: nat :| Overtakes(w, h, g) && Wins(w, g);
    var steps, others := OutcomesDiffer(w, h, g);
    assert Complete(w, steps) && Complete(w, others) && After(w, steps).net != After(w, others).net;
  }

  lemma SameWinners(w: World, steps: seq<Step>)
    requires Prepared(w) && DistinctNames(w) && w.limit > 0 && Complete(w, steps) && NoWinnerOvertaken(w)
    ensures After(w, steps).net == Outcome(w, AllAttempted(w))
  {
    RunnersDecide(w, steps);
    assert WinnersIn(w, Runners(w, After(w, steps).pcs)) == WinnersIn(w, AllAttempted(w));
  }

  /** A target that would win and can be overtaken: whether it ends up connected depends on the run. */
  lemma OutcomesDiffer(w: World, h: nat, g: nat) returns (steps: seq<Step>, others: seq<Step>)
    requires Prepared(w) && DistinctNames(w) && |w.targets| <= w.limit && w.limit > 0
    requires Overtakes(w, h, g) && Wins(w, g)
    ensures Complete(w, steps) && Complete(w, others)
    ensures !Connected(After(w, steps).net, Last(w, g)) && Connected(After(w, others).net, Last(w, g))
  {
    steps := OvertakenRun(w, h, g);
    RunnersDecide(w, steps);
    OutcomeHas(w, Runners(w, After(w, steps).pcs), g);
    others := AttemptedRun(w, g);
    RunnersDecide(w, others);
    OutcomeHas(w, Runners(w, After(w, others).pcs), g);
  }

  /** It can happen: a target whose name is the last link of an earlier one. */
  function Namesake(): World {
    World(NOTHING, [Target("b", ["x"]), Target("x", ["a"])], Oracle(_ => 1, (_, _) => true), 2, _ => Report(0, ""))
  }

  lemma NamesakeOutcomesDiffer() returns (steps: seq<Step>, others: seq<Step>)
    ensures var w := Namesake();
      && Prepared(w) && DistinctNames(w)
      && Complete(w, steps) && Complete(w, others)
      && !Connected(After(w, steps).net, "a") && Connected(After(w, others).net, "a")
  {
    var w := Namesake();
    assert Last(w, 0) == "x" && Last(w, 1) == "a";
    steps, others := OutcomesDiffer(w, 0, 1);
  }

  /* ---------------- why the serial phase is needed ---------------- */

  /** Two targets behind the same proxy, with nothing connected. */
  function TwoBehind(): World {
    World(NOTHING, [Target("a", ["p", "a"]), Target("b", ["p", "b"])], Oracle(_ => 1, (_, _) => true), 2, _ => Report(0, ""))
  }

  /** The main loop has started both goroutines. */
  lemma BothStart() returns (steps: seq<Step>)
    ensures Legal(TwoBehind(), steps)
    ensures After(TwoBehind(), steps) == System(NOTHING, [Starting, Starting], Looping(2), 2, map[], [])
  {
    var w := TwoBehind();
    steps := Then(w, [], Main);
    steps := Then(w, steps, Main);
    assert After(w, steps).pcs == [Starting, Unspawned];
    steps := Then(w, steps, Main);
    steps := Then(w, steps, Main);
    assert After(w, steps).pcs == [Starting, Starting];
  }

  /** Goroutine g looks for the proxy, does not find it, and gets a client for it. */
  lemma ProxyAdvance(g: nat)
    requires g < 2
    ensures Advance(TwoBehind(), NOTHING, g, Starting) == (NOTHING, Checking(0))
    ensures Advance(TwoBehind(), NOTHING, g, Checking(0)) == (NOTHING, Dialing(0))
    ensures Advance(TwoBehind(), NOTHING, g, Dialing(0)) == (NOTHING, Publishing(0, 1))
    ensures TwoBehind().targets[g].chain != [] && TwoBehind().targets[g].chain[0] == "p"
  {
    var chain := TwoBehind().targets[g].chain;
    assert chain[0] == "p" && |chain| == 2;
  }

  lemma DialsProxy(steps: seq<Step>, g: nat) returns (longer: seq<Step>)
    requires Legal(TwoBehind(), steps) && g < 2
    requires var s := After(TwoBehind(), steps); s.net == NOTHING && s.pcs[g].Starting?
    ensures Legal(TwoBehind(), longer)
    ensures var (s, t) := (After(TwoBehind(), steps), After(TwoBehind(), longer));
      t.net == NOTHING && t.pcs == s.pcs[g := Publishing(0, 1)] && t.dialed == s.dialed + ["p"]
  {
    var w := TwoBehind();
    var s := After(w, steps);
    ProxyAdvance(g);
    longer := Then(w, steps, Go(g));
    assert After(w, longer).pcs == s.pcs[g := Checking(0)];
    longer := Then(w, longer, Go(g));
    Overwrite(s.pcs, g, Checking(0), Dialing(0));
    assert After(w, longer).pcs == s.pcs[g := Dialing(0)];
    longer := Then(w, longer, Go(g));
    Overwrite(s.pcs, g, Dialing(0), Publishing(0, 1));
  }

  /** The entry that goroutine g would make for the proxy. */
  function ProxyEntry(g: nat): ConnInfo { ConnInfo("p", false, true, 0, Chan(g, 0)) }

  function AfterFirst(): Net {
    Net(EMPTY.(conn := map["p" := ProxyEntry(0)]), map[Chan(0, 0) := Crew("p", 1)], map[], 0)
  }

  lemma FirstEntryCounts()
    ensures Join(NOTHING, ProxyEntry(0), 1, None) == AfterFirst()
    ensures Join(AfterFirst(), ProxyEntry(1), 1, None)
         == AfterFirst().(listeners := map[Chan(0, 0) := Crew("p", 1), Chan(1, 0) := Crew("p", 1)])
  {
    assert Apply(AfterFirst().store, SetConnInfo(ProxyEntry(1))).store == AfterFirst().store;
  }

  lemma PublishAdvance(n: Net, g: nat)
    requires g < 2
    ensures PcFits(TwoBehind().targets[g], Publishing(0, 1))
    ensures Advance(TwoBehind(), n, g, Publishing(0, 1)) == (Join(n, ProxyEntry(g), 1, None), Checking(1))
  {
    var chain := TwoBehind().targets[g].chain;
    assert chain[0] == "p" && |chain| == 2;
  }

  lemma Publishes(steps: seq<Step>, g: nat) returns (longer: seq<Step>)
    requires Legal(TwoBehind(), steps) && g < 2
    requires After(TwoBehind(), steps).pcs[g] == Publishing(0, 1)
    ensures Legal(TwoBehind(), longer)
    ensures var s, t := After(TwoBehind(), steps), After(TwoBehind(), longer);
      && t.net == Join(s.net, ProxyEntry(g), 1, None)
      && t.pcs == s.pcs[g := Checking(1)] && t.dialed == s.dialed
  {
    PublishAdvance(After(TwoBehind(), steps).net, g);
    longer := Then(TwoBehind(), steps, Go(g));
  }

  /** Without it, goroutines whose targets share a proxy both dial the proxy, and the listener of the
      one whose entry came second can never be reached. */
  lemma SharedProxyIsDialedTwice() returns (steps: seq<Step>)
    ensures Legal(TwoBehind(), steps)
    ensures var s := After(TwoBehind(), steps);
      s.dialed == ["p", "p"] && Chan(1, 0) in s.net.listeners && !NoOrphans(s.net)
  {
    steps := BothStart();
    steps := DialsProxy(steps, 0);
    steps := DialsProxy(steps, 1);
    assert After(TwoBehind(), steps).pcs == [Publishing(0, 1), Publishing(0, 1)];
    assert After(TwoBehind(), steps).dialed == ["p", "p"];
    steps := Publishes(steps, 0);
    steps := Publishes(steps, 1);
    FirstEntryCounts();
    assert After(TwoBehind(), steps).net.listeners[Chan(1, 0)].host == "p";
  }
}
