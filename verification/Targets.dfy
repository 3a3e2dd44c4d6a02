/** Where the targets come from and what is done with them first: `LoadBlob` (json.go) turns chain
    strings into lists of links, `resolveProxies` (resolve.go) connects every distinct proxy prefix,
    one after the other, telling prefixes apart by their joined strings. */
module Targets {
  import opened Prelude
  import opened State
  import opened Resolve
  import opened Carrier
  import opened Parallel
  import opened Confluence

  /* ---------------- chain strings ---------------- */

  /** `strings.Split(s, " ")`. */
  function Split(s: string): (links: seq<string>)
    ensures links != []
  {
    if s == "" then [""]
    else
      var rest := Split(s[1..]);
      if s[0] == ' ' then [""] + rest else [[s[0]] + rest[0]] + rest[1..]
  }

  /** `strings.Join(links, " ")`. */
  function Join(links: seq<string>): string {
    if links == [] then ""
    else if |links| == 1 then links[0]
    else links[0] + [' '] + Join(links[1..])
  }

  predicate SpaceFree(links: seq<string>) {
    forall i :: 0 <= i < |links| ==> ' ' !in links[i]
  }

  /** Splitting loses nothing, and leaves no space inside a link. */
  lemma {:induction false} JoinOfSplit(s: string)
    ensures Join(Split(s)) == s && SpaceFree(Split(s))
  {
    if s != "" {
      JoinOfSplit(s[1..]);
      var rest := Split(s[1..]);
      assert s == [s[0]] + s[1..];
      if s[0] == ' ' {
        assert ([""] + rest)[1..] == rest;
      } else {
        assert Split(s)[1..] == rest[1..];
        assert [s[0]] + Join(rest) == Join(Split(s));
      }
    }
  }

  lemma {:induction false} SplitOfLink(link: string, rest: string)
    requires ' ' !in link
    ensures Split(link) == [link]
    ensures Split(link + [' '] + rest) == [link] + Split(rest)
  {
    if link == "" {
      assert ([' '] + rest)[1..] == rest && "" + [' '] + rest == [' '] + rest;
    } else {
      SplitOfLink(link[1..], rest);
      assert (link + [' '] + rest)[1..] == link[1..] + [' '] + rest;
      assert link == [link[0]] + link[1..];
      assert ([link[1..]] + Split(rest))[1..] == Split(rest);
    }
  }

  /** Joining loses nothing either, for any non-empty list of space-free links. */
  lemma {:induction false} SplitOfJoin(links: seq<string>)
    requires links != [] && SpaceFree(links)
    ensures Split(Join(links)) == links
  {
    SplitOfLink(links[0], Join(links[1..]));
    if |links| > 1 {
      SplitOfJoin(links[1..]);
      assert links == [links[0]] + links[1..];
    } else {
      assert links == [links[0]];
    }
  }

  /** Two prefixes have the same key exactly if they are the same list of links. */
  lemma KeysCoincideIff(a: seq<string>, b: seq<string>)
    requires a != [] && b != [] && SpaceFree(a) && SpaceFree(b)
    ensures Join(a) == Join(b) <==> a == b
  {
    SplitOfJoin(a);
    SplitOfJoin(b);
  }

  /** A space at the end, or before another. */
  predicate GapAt(s: string, i: nat) { i < |s| && s[i] == ' ' && (i + 1 == |s| || s[i + 1] == ' ') }

  ghost predicate HasGap(s: string) { s == "" || s[0] == ' ' || exists i: nat :: GapAt(s, i) }

  lemma {:induction false} LaterEmptyLink(s: string)
    ensures Split(s)[0] == "" <==> s == "" || s[0] == ' '
    ensures "" in Split(s)[1..] <==> exists i: nat :: GapAt(s, i)
  {
    if s != "" {
      var rest := s[1..];
      LaterEmptyLink(rest);
      assert forall i: nat :: GapAt(rest, i) <==> GapAt(s, i + 1);
      assert forall i: nat :: i > 0 && GapAt(s, i) ==> GapAt(rest, i - 1);
      assert Split(s)[1..] == if s[0] == ' ' then Split(rest) else Split(rest)[1..];
      assert Split(rest) == [Split(rest)[0]] + Split(rest)[1..];
      assert s[0] == ' ' && (rest == "" || rest[0] == ' ') ==> GapAt(s, 0);
    }
  }

  /** A chain string has an empty link exactly if it is empty, begins or ends with a space, or has two spaces
      in a row. */
  lemma EmptyLinkIff(s: string)
    ensures "" in Split(s) <==> HasGap(s)
  {
    LaterEmptyLink(s);
    assert Split(s) == [Split(s)[0]] + Split(s)[1..];
  }

  /* ---------------- LoadBlob ---------------- */

  datatype Server = Server(name: string, chain: string)

  function Record(srv: Server): HostInfo {
    HostInfo(srv.name, "", Split(srv.chain), false, false, 0, 0, false, false, None)
  }

  /** What a list of servers makes of the store, and how many of them are counted. */
  function Loaded(s: Store, servers: seq<Server>): (Store, nat) {
    if servers == [] then (s, 0)
    else
      var (before, count) := Loaded(s, servers[..|servers| - 1]);
      var srv := servers[|servers| - 1];
      if srv.name in before.targets then (before, count)
      else (Apply(before, Request.SetHostInfo(Record(srv))).store, count + 1)
  }

  /** Server i is the first to bear its name. */
  predicate First(servers: seq<Server>, i: nat) {
    i < |servers| && forall j :: 0 <= j < i ==> servers[j].name != servers[i].name
  }

  /** Some server is the first to bear the name of server j. */
  lemma {:induction false} FirstExists(servers: seq<Server>, j: nat) returns (i: nat)
    requires j < |servers|
    ensures First(servers, i) && servers[i].name == servers[j].name
  {
    if First(servers, j) {
      i := j;
    } else {
      var k :| 0 <= k < j && servers[k].name == servers[j].name;
      i := FirstExists(servers, k);
    }
  }

  /** A target that was there stays as it was; every other name gets the record of the first server
      that bears it, and there are no other targets. */
  ghost predicate FirstWins(s: Store, servers: seq<Server>, t: Store) {
    && (forall h :: h in s.targets ==> h in t.targets && t.targets[h] == s.targets[h])
    && (forall i: nat :: First(servers, i) && servers[i].name !in s.targets ==>
          servers[i].name in t.targets && t.targets[servers[i].name] == Record(servers[i]))
    && (forall h :: h in t.targets && h !in s.targets ==> exists i: nat :: First(servers, i) && servers[i].name == h)
  }

  lemma {:induction false} LoadedFirst(s: Store, servers: seq<Server>)
    ensures FirstWins(s, servers, Loaded(s, servers).0)
  {
    if servers != [] {
      LoadedFirst(s, servers[..|servers| - 1]);
      LoadedStep(s, servers);
      OneMoreServer(s, servers, Loaded(s, servers[..|servers| - 1]).0, Loaded(s, servers).0);
    }
  }

  lemma LoadedStep(s: Store, servers: seq<Server>)
    requires servers != []
    ensures var (before, srv) := (Loaded(s, servers[..|servers| - 1]).0, servers[|servers| - 1]);
      Loaded(s, servers).0.targets == if srv.name in before.targets then before.targets else before.targets[srv.name := Record(srv)]
  {
  }

  lemma OneMoreServer(s: Store, servers: seq<Server>, before: Store, t: Store)
    requires servers != [] && FirstWins(s, servers[..|servers| - 1], before)
    requires var srv := servers[|servers| - 1];
      t.targets == if srv.name in before.targets then before.targets else before.targets[srv.name := Record(srv)]
    ensures FirstWins(s, servers, t)
  {
    var n := |servers| - 1;
    var front, srv := servers[..n], servers[n];
    forall i: nat ensures First(servers, i) && i < n <==> First(front, i) {}
    if First(servers, n) && srv.name !in s.targets {
      assert srv.name !in before.targets;
    }
    forall i: nat | First(servers, i) && servers[i].name !in s.targets
      ensures servers[i].name in t.targets && t.targets[servers[i].name] == Record(servers[i])
    {
      if i < n {
        assert First(front, i) && front[i].name == servers[i].name;
      }
    }
    forall h | h in t.targets && h !in s.targets ensures exists i: nat :: First(servers, i) && servers[i].name == h {
      if h in before.targets {
        var i: nat :| First(front, i) && front[i].name == h;
        assert First(servers, i);
      } else {
        var i := FirstExists(servers, n);
      }
    }
  }

  /** A record as it is made for a server: its own name, the links that its chain string joins, and nothing known yet. */
  predicate NewFor(hi: HostInfo, srv: Server) {
    && hi.hostName == srv.name && hi.ipAddress == ""
    && hi.chain != [] && SpaceFree(hi.chain) && Join(hi.chain) == srv.chain
    && !hi.requiresPw && !hi.connectedOK && !hi.runOK && !hi.runOnce
    && hi.connectTime == 0 && hi.runTime == 0 && hi.lastError.None?
  }

  lemma NewForIff(hi: HostInfo, srv: Server)
    ensures NewFor(hi, srv) <==> hi == Record(srv)
  {
    JoinOfSplit(srv.chain);
    if NewFor(hi, srv) {
      SplitOfJoin(hi.chain);
    }
  }

  /** So every name that was no target before now has a record made for the first server that bears it. */
  lemma LoadedAreNew(s: Store, servers: seq<Server>, h: string) returns (i: nat)
    requires h in Loaded(s, servers).0.targets && h !in s.targets
    ensures First(servers, i) && servers[i].name == h && NewFor(Loaded(s, servers).0.targets[h], servers[i])
  {
    LoadedFirst(s, servers);
    i :| First(servers, i) && servers[i].name == h;
    NewForIff(Loaded(s, servers).0.targets[h], servers[i]);
  }

  /** What changes when a server that is not yet a target is added. */
  lemma OneMoreTarget(s: Store, srv: Server)
    requires srv.name !in s.targets
    ensures var t := Apply(s, Request.SetHostInfo(Record(srv))).store;
      && t.targets == s.targets[srv.name := Record(srv)] && |t.targets| == |s.targets| + 1
      && t.ptr == s.ptr["" := srv.name]
      && t == s.(targets := t.targets, ptr := t.ptr)
  {
  }

  /** The count is the number of targets gained. */
  lemma {:induction false} LoadedSize(s: Store, servers: seq<Server>)
    ensures var (t, count) := Loaded(s, servers); |t.targets| == |s.targets| + count
  {
    if servers != [] {
      var before, srv := Loaded(s, servers[..|servers| - 1]).0, servers[|servers| - 1];
      LoadedSize(s, servers[..|servers| - 1]);
      if srv.name !in before.targets {
        OneMoreTarget(before, srv);
      }
    }
  }

  /** Only the targets and the reverse entries change. */
  lemma {:induction false} LoadedFrame(s: Store, servers: seq<Server>)
    ensures var t := Loaded(s, servers).0; t == s.(targets := t.targets, ptr := t.ptr)
  {
    if servers != [] {
      var before, srv := Loaded(s, servers[..|servers| - 1]).0, servers[|servers| - 1];
      LoadedFrame(s, servers[..|servers| - 1]);
      if srv.name !in before.targets {
        OneMoreTarget(before, srv);
      }
    }
  }

  /** The reverse entry of the empty address names one of the targets added; the others stay. */
  ghost predicate ReverseRight(s: Store, t: Store, count: nat) {
    if count == 0 then t.ptr == s.ptr
    else "" in t.ptr && t.ptr == s.ptr["" := t.ptr[""]] && t.ptr[""] in t.targets && t.ptr[""] !in s.targets
  }

  lemma {:induction false} LoadedReverse(s: Store, servers: seq<Server>)
    ensures var (t, count) := Loaded(s, servers);
      (forall h :: h in s.targets ==> h in t.targets) && ReverseRight(s, t, count)
  {
    if servers != [] {
      var (before, count) := Loaded(s, servers[..|servers| - 1]);
      var srv := servers[|servers| - 1];
      LoadedReverse(s, servers[..|servers| - 1]);
      if srv.name !in before.targets {
        OneMoreTarget(before, srv);
        var t := Apply(before, Request.SetHostInfo(Record(srv))).store;
        assert t.ptr == s.ptr["" := srv.name];
      }
    }
  }

  /** The count is the number of targets gained; nothing else changes but the reverse entry of the
      empty address, which names one of the targets added. */
  lemma LoadedCounts(s: Store, servers: seq<Server>)
    ensures var (t, count) := Loaded(s, servers);
      && |t.targets| == |s.targets| + count && t == s.(targets := t.targets, ptr := t.ptr)
      && (forall h :: h in s.targets ==> h in t.targets) && ReverseRight(s, t, count)
  {
    LoadedSize(s, servers);
    LoadedFrame(s, servers);
    LoadedReverse(s, servers);
  }

  /** Every chain names at least one link, and no link has a space in it. */
  ghost predicate Chains(targets: map<string, HostInfo>) {
    forall h :: h in targets ==> targets[h].chain != [] && SpaceFree(targets[h].chain)
  }

  lemma LoadedKeepsChains(s: Store, servers: seq<Server>)
    requires Chains(s.targets)
    ensures Chains(Loaded(s, servers).0.targets)
  {
    LoadedFirst(s, servers);
    var t := Loaded(s, servers).0;
    forall h | h in t.targets ensures t.targets[h].chain != [] && SpaceFree(t.targets[h].chain) {
      if h !in s.targets {
        var i: nat :| First(servers, i) && servers[i].name == h;
        assert t.targets[servers[i].name] == Record(servers[i]);
        JoinOfSplit(servers[i].chain);
      }
    }
  }

  /** GetPTR leaves the links of a loaded chain alone exactly if the chain has no empty link or the target loaded
      last, which the empty address leads to, has no name. */
  lemma LoadedKeptIff(servers: seq<Server>, h: string)
    requires h in Loaded(EMPTY, servers).0.targets
    ensures var t := Loaded(EMPTY, servers).0;
      Kept(t.ptr, t.targets[h].chain) <==> "" !in t.targets[h].chain || NameOf(t, "") == ""
  {
    LoadedCounts(EMPTY, servers);
  }

  /** Nothing but such links goes wrong: a server whose chain string ends with a space. */
  const GAPPED: seq<Server> := [Server("b", "a ")]

  lemma GappedLoads()
    ensures var t := Loaded(EMPTY, GAPPED).0;
      && t == EMPTY.(targets := map["b" := Record(GAPPED[0])], ptr := map["" := "b"])
      && t.targets["b"].chain == ["a", ""]
  {
    SplitOfLink("a", "");
    assert "a" + [' '] + "" == "a " && Split("") == [""];
    assert GAPPED[..0] == [];
    assert Loaded(EMPTY, GAPPED[..0]) == (EMPTY, 0);
  }

  /** Both hosts are connected directly. */
  function BothDirect(s: Store): Net {
    Net(s.(conn := map["a" := ConnInfo("a", true, true, 0, Chan(0, 0)), "b" := ConnInfo("b", false, true, 0, Chan(1, 0))]),
        map[Chan(0, 0) := Crew("a", 1), Chan(1, 0) := Crew("b", 1)], map[], 2)
  }

  function AfterGap(s: Store): Net {
    Net(s.(conn := map["a" := ConnInfo("a", true, true, 1, Chan(0, 0)), "b" := ConnInfo("b", false, true, 0, Chan(1, 0))]),
        map[Chan(0, 0) := Crew("a", 1), Chan(1, 0) := Crew("b", 1), Chan(2, 1) := Crew("b", 1)], map[], 2)
  }

  lemma GapHops(s: Store)
    requires s.ptr == map["" := "b"]
    ensures Hop(BothDirect(s), 2, ["a", ""], 0, false, ALL_SUCCEED) == Some(BothDirect(s))
    ensures Hop(BothDirect(s), 2, ["a", ""], 1, false, ALL_SUCCEED) == Some(AfterGap(s))
  {
    var n, chain := BothDirect(s), ["a", ""];
    assert chain[0] == "a" && chain[1] == "" && "" !in n.store.conn;
    var m := Hop(n, 2, chain, 1, false, ALL_SUCCEED).value;
    assert m.store.conn == AfterGap(s).store.conn;
    assert m.listeners == AfterGap(s).listeners;
  }

  lemma GapWalk(s: Store)
    requires s.ptr == map["" := "b"]
    ensures Resolved(BothDirect(s), ["a", ""], false, ALL_SUCCEED) == (AfterGap(s).(calls := 3), None)
  {
    var n, chain := BothDirect(s), ["a", ""];
    GapHops(s);
    assert Walk(n, 2, chain, 1, false, ALL_SUCCEED) == Walk(AfterGap(s), 2, chain, 2, false, ALL_SUCCEED);
  }

  lemma AfterGapIsBroken(s: Store)
    ensures !SuffixUp(AfterGap(s), ["a", ""]) && !Carrier.Counted(AfterGap(s)) && !NoOrphans(AfterGap(s))
  {
    var m := AfterGap(s);
    assert CarriedBy(m.carrier, "a") == {} && m.store.conn["a"].proxyCount == 1;
    assert Stray(m, Chan(2, 1));
    assert Connected(m, ["a", ""][0]) && !Connected(m, ["a", ""][1]);
  }

  lemma BothDirectIsBuilt(s: Store)
    ensures Built(BothDirect(s), Chan(2, 0))
  {
    assert forall p :: CarriedBy(BothDirect(s).carrier, p) == {};
  }

  /** With its chain of two different links, a nil return leaves the first connected and the second not; the
      proxy count is off, and a goroutine listens that nothing can reach. */
  lemma EmptyLinkBreaks()
    ensures var n := BothDirect(Loaded(EMPTY, GAPPED).0);
      var chain := n.store.targets["b"].chain;
      var (m, err) := Resolved(n, chain, false, ALL_SUCCEED);
      && Built(n, Chan(2, 0)) && NoDup(chain) && err.None?
      && !SuffixUp(m, chain) && !Carrier.Counted(m) && !NoOrphans(m)
  {
    GappedLoads();
    var s, chain := Loaded(EMPTY, GAPPED).0, ["a", ""];
    GapWalk(s);
    AfterGapIsBroken(s);
    BothDirectIsBuilt(s);
    NotMended(AfterGap(s), AfterGap(s).(calls := 3), chain);
  }

  lemma NotMended(n: Net, m: Net, chain: seq<string>)
    requires m == n.(calls := m.calls) && !SuffixUp(n, chain) && !Carrier.Counted(n) && !NoOrphans(n)
    ensures !SuffixUp(m, chain) && !Carrier.Counted(m) && !NoOrphans(m)
  {
    assert forall p :: CarriedBy(n.carrier, p) == CarriedBy(m.carrier, p);
  }

  /** The loop of `LoadBlob`, after the JSON has been decoded. */
  method LoadBlob(state: State, servers: seq<Server>) returns (count: nat)
    modifies state
    ensures (state.Contents(), count) == Loaded(old(state.Contents()), servers)
  {
    count := 0;
    for i := 0 to |servers|
      invariant (state.Contents(), count) == Loaded(old(state.Contents()), servers[..i])
    {
      assert servers[..i + 1][..i] == servers[..i];
      var srv := servers[i];
      var exists_ := state.HostExists(srv.name);
      if exists_ {
        continue;
      }
      state.SetHostInfo(HostInfo(srv.name, "", Split(srv.chain), false, false, 0, 0, false, false, None));
      count := count + 1;
    }
    assert servers[..|servers|] == servers;
  }

  /* ---------------- resolveProxies ---------------- */

  /** The links before the last. */
  function Prefix(targets: map<string, HostInfo>, h: string): seq<string>
    requires h in targets && targets[h].chain != []
  {
    targets[h].chain[..|targets[h].chain| - 1]
  }

  /** The proxy prefixes of the listed hosts, each where it first occurs. */
  ghost function ProxyChains(targets: map<string, HostInfo>, hk: seq<string>): seq<seq<string>>
    requires Chains(targets) && forall h :: h in hk ==> h in targets
  {
    if hk == [] then []
    else
      var n := |hk| - 1;
      assert hk[n] in hk && forall h :: h in hk[..n] ==> h in hk;
      var ps := ProxyChains(targets, hk[..n]);
      if Prefix(targets, hk[n]) == [] || Prefix(targets, hk[n]) in ps then ps else ps + [Prefix(targets, hk[n])]
  }

  /** Every prefix that leads through a proxy is there, once. */
  lemma {:induction false} ProxyChainsAre(targets: map<string, HostInfo>, hk: seq<string>)
    requires Chains(targets) && forall h :: h in hk ==> h in targets
    ensures NoDup(ProxyChains(targets, hk))
    ensures forall p :: p in ProxyChains(targets, hk) ==> p != [] && SpaceFree(p) && exists h :: h in hk && Prefix(targets, h) == p
    ensures forall h :: h in hk && Prefix(targets, h) != [] ==> Prefix(targets, h) in ProxyChains(targets, hk)
  {
    if hk != [] {
      var n := |hk| - 1;
      assert hk[n] in hk && forall h :: h in hk[..n] ==> h in hk;
      ProxyChainsAre(targets, hk[..n]);
      var ps := ProxyChains(targets, hk[..n]);
      assert forall i :: 0 <= i < |ps| ==> ps[i] in ps;
      assert forall h :: h in hk ==> h == hk[n] || h in hk[..n];
    }
  }

  function CallsOf(ps: seq<seq<string>>, o: Oracle): (calls: seq<Call>)
    ensures |calls| == |ps| && forall k :: 0 <= k < |ps| ==> calls[k] == Call(ps[k], true, o)
  {
    seq(|ps|, k requires 0 <= k < |ps| => Call(ps[k], true, o))
  }

  /** The k-th of a series of resolve calls. */
  function ErrorOf(n: Net, calls: seq<Call>, k: nat): Option<nat>
    requires k < |calls|
  {
    Resolved(RunAll(n, calls[..k]), calls[k].chain, calls[k].isProxy, calls[k].o).1
  }

  ghost predicate AllNil(n: Net, calls: seq<Call>) {
    forall k :: 0 <= k < |calls| ==> ErrorOf(n, calls, k).None?
  }

  lemma OneMoreCall(n: Net, calls: seq<Call>, c: Call)
    ensures RunAll(n, calls + [c]) == Resolved(RunAll(n, calls), c.chain, c.isProxy, c.o).0
    ensures ErrorOf(n, calls + [c], |calls|) == Resolved(RunAll(n, calls), c.chain, c.isProxy, c.o).1
    ensures forall k :: 0 <= k < |calls| ==> ErrorOf(n, calls + [c], k) == ErrorOf(n, calls, k)
  {
    assert (calls + [c])[..|calls|] == calls;
    assert forall k :: 0 <= k < |calls| ==> (calls + [c])[..k] == calls[..k];
  }

  /** The net after the prefixes in `done` have all been resolved without an error. */
  ghost predicate AllDone(n: Net, done: seq<seq<string>>, o: Oracle, m: Net) {
    m == RunAll(n, CallsOf(done, o)) && AllNil(n, CallsOf(done, o))
  }

  /** The last prefix in `done` could not be resolved. */
  ghost predicate LastFailed(n: Net, done: seq<seq<string>>, o: Oracle, m: Net) {
    && done != [] && m == RunAll(n, CallsOf(done, o))
    && AllNil(n, CallsOf(done[..|done| - 1], o)) && ErrorOf(n, CallsOf(done, o), |done| - 1).Some?
  }

  lemma OneMoreDone(n: Net, done: seq<seq<string>>, p: seq<string>, o: Oracle, m: Net, l: Net, err: Option<nat>)
    requires AllDone(n, done, o, m) && (l, err) == Resolved(m, p, true, o)
    ensures if err.None? then AllDone(n, done + [p], o, l) else LastFailed(n, done + [p], o, l)
  {
    OneMoreCall(n, CallsOf(done, o), Call(p, true, o));
    assert CallsOf(done + [p], o) == CallsOf(done, o) + [Call(p, true, o)];
    assert (done + [p])[..|done|] == done;
  }

  lemma {:induction false} ProxyChainsGrow(targets: map<string, HostInfo>, hk: seq<string>, j: nat)
    requires Chains(targets) && j <= |hk| && forall h :: h in hk ==> h in targets
    ensures (forall h :: h in hk[..j] ==> h in hk) && ProxyChains(targets, hk[..j]) <= ProxyChains(targets, hk)
  {
    if j < |hk| {
      ProxyChainsGrow(targets, hk[..|hk| - 1], j);
      assert hk[..|hk| - 1][..j] == hk[..j];
    } else {
      assert hk[..j] == hk;
    }
  }

  /** The keys of the program's map are the joined prefixes resolved so far. */
  ghost predicate KeysOf(chainMap: map<string, nat>, ps: seq<seq<string>>) {
    && (forall p :: p in ps ==> Join(p) in chainMap)
    && (forall k :: k in chainMap ==> exists p :: p in ps && Join(p) == k)
  }

  lemma KnownKey(chainMap: map<string, nat>, ps: seq<seq<string>>, p: seq<string>)
    requires KeysOf(chainMap, ps) && p != [] && SpaceFree(p) && forall q :: q in ps ==> q != [] && SpaceFree(q)
    ensures Join(p) in chainMap <==> p in ps
  {
    if Join(p) in chainMap {
      var q :| q in ps && Join(q) == Join(p);
      KeysCoincideIff(p, q);
    }
  }

  lemma KeysExtend(chainMap: map<string, nat>, ps: seq<seq<string>>, p: seq<string>, count: nat)
    requires KeysOf(chainMap, ps)
    ensures KeysOf(chainMap[Join(p) := count], if p in ps then ps else ps + [p])
  {
    var qs := if p in ps then ps else ps + [p];
    assert p in qs && forall q :: q in ps ==> q in qs;
    forall k | k in chainMap ensures exists q :: q in qs && Join(q) == k {
      var q :| q in ps && Join(q) == k;
      assert q in qs;
    }
  }

  /** What the loop does for host j: nothing, count, or resolve. */
  lemma NextPrefix(targets: map<string, HostInfo>, hk: seq<string>, j: nat)
    requires Chains(targets) && j < |hk| && forall h :: h in hk ==> h in targets
    ensures hk[j] in targets && SpaceFree(Prefix(targets, hk[j])) && forall h :: h in hk[..j] + hk[..j + 1] ==> h in targets
    ensures forall q :: q in ProxyChains(targets, hk[..j]) ==> q != [] && SpaceFree(q)
    ensures var p, ps := Prefix(targets, hk[j]), ProxyChains(targets, hk[..j]);
      ProxyChains(targets, hk[..j + 1]) == if p == [] || p in ps then ps else ps + [p]
    ensures ProxyChains(targets, hk[..j + 1]) <= ProxyChains(targets, hk)
  {
    assert hk[..j + 1][..j] == hk[..j] && hk[j] in hk;
    ProxyChainsAre(targets, hk[..j]);
    ProxyChainsGrow(targets, hk, j + 1);
  }

  /** Every distinct proxy prefix is resolved once, in the order in which the hosts were listed, until
      a call returns an error; then the program exits. */
  method ResolveProxies(net: Network, o: Oracle) returns (exited: bool, ghost hk: seq<string>, ghost done: seq<seq<string>>)
    requires Chains(net.state.targets)
    modifies net, net.state`conn
    ensures Enumerates(hk, net.state.targets.Keys)
    ensures done <= ProxyChains(net.state.targets, hk)
    ensures if exited then LastFailed(old(net.Value()), done, o, net.Value()) else AllDone(old(net.Value()), done, o, net.Value())
    ensures !exited ==> done == ProxyChains(net.state.targets, hk)
  {
    ghost var n, targets := net.Value(), net.state.targets;
    var chainMap: map<string, nat> := map[];
    var keys := net.state.GetHostKeys();
    hk, done := keys, [];
    for j := 0 to |keys|
      invariant done == ProxyChains(targets, keys[..j])
      invariant AllDone(n, done, o, net.Value())
      invariant KeysOf(chainMap, done)
    {
      NextPrefix(targets, keys, j);
      var chain := net.state.targets[keys[j]].chain;
      var length := |chain|;
      if length == 1 {
        continue;
      }
      var err;
      chainMap, err, done := ResolvePrefix(net, chainMap, chain[..length - 1], o, n, done);
      if err.Some? {
        exited := true;
        return;
      }
    }
    assert keys[..|keys|] == keys;
    exited := false;
  }

  /** The body of the loop for a host behind a proxy: count the prefix, or resolve it if it is new. */
  method ResolvePrefix(net: Network, before: map<string, nat>, p: seq<string>, o: Oracle, ghost n: Net, ghost done: seq<seq<string>>)
    returns (chainMap: map<string, nat>, err: Option<nat>, ghost after: seq<seq<string>>)
    requires p != [] && SpaceFree(p) && KeysOf(before, done) && forall q :: q in done ==> q != [] && SpaceFree(q)
    requires AllDone(n, done, o, net.Value())
    modifies net, net.state`conn
    ensures after == (if p in done then done else done + [p]) && KeysOf(chainMap, after)
    ensures if err.None? then AllDone(n, after, o, net.Value()) else p !in done && LastFailed(n, after, o, net.Value())
  {
    var key := Join(p);
    KnownKey(before, done, p);
    if key in before {
      KeysExtend(before, done, p, before[key] + 1);
      chainMap, err, after := before[key := before[key] + 1], None, done;
    } else {
      KeysExtend(before, done, p, 1);
      chainMap, after := before[key := 1], done + [p];
      SplitOfJoin(p);
      ghost var m := net.Value();
      err := net.Resolve(Split(key), true, o);
      OneMoreDone(n, done, p, o, m, net.Value(), err);
    }
  }

  /* ---------------- what the proxy phase is for ---------------- */

  /** A link that starts a chain is connected, or can be dialed. */
  predicate Reachable(n: Net, o: Oracle, link: string) { Connected(n, link) || o.direct(link) > 0 }

  ghost predicate Up(n: Net, p: seq<string>) { forall i :: 0 <= i < |p| ==> Connected(n, p[i]) }

  /** A call that returns nil connects a whole chain whose first link is within reach. */
  lemma NilConnectsAll(n: Net, p: seq<string>, isProxy: bool, o: Oracle)
    requires p != [] && Plain(n, p) && Reachable(n, o, p[0]) && Resolved(n, p, isProxy, o).1.None?
    ensures Up(Resolved(n, p, isProxy, o).0, p)
  {
    NilConnects(n, p, isProxy, o);
    assert Begin(n, p, o) == 0 && p[0..] == p;
  }

  ghost predicate GoodPrefix(n: Net, o: Oracle, p: seq<string>) { p != [] && Plain(n, p) && Reachable(n, o, p[0]) }

  lemma {:induction false} DoneIsUp(n: Net, done: seq<seq<string>>, o: Oracle, m: Net)
    requires AllDone(n, done, o, m) && forall p :: p in done ==> GoodPrefix(n, o, p)
    ensures m.store.ptr == n.store.ptr && (forall h :: Connected(n, h) ==> Connected(m, h))
    ensures forall p :: p in done ==> Up(m, p)
  {
    if done != [] {
      var k := |done| - 1;
      var front, p := done[..k], done[k];
      var before := RunAll(n, CallsOf(front, o));
      assert CallsOf(done, o) == CallsOf(front, o) + [Call(p, true, o)] && p in done;
      OneMoreCall(n, CallsOf(front, o), Call(p, true, o));
      assert forall i :: 0 <= i < k ==> ErrorOf(n, CallsOf(front, o), i).None?;
      assert forall q :: q in front ==> q in done;
      DoneIsUp(n, front, o, before);
      NilConnectsAll(before, p, true, o);
      WalkGrows(before, before.calls, p, 0, true, o);
      assert forall q :: q in done ==> q in front || q == p;
    }
  }

  /** The targets of the parallel phase are the listed hosts with their chains. */
  ghost predicate TargetsFrom(w: World, targets: map<string, HostInfo>, hk: seq<string>) {
    forall g :: 0 <= g < |w.targets| ==>
      w.targets[g].name in hk && w.targets[g].name in targets && w.targets[g].chain == targets[w.targets[g].name].chain
  }

  /** If `resolveProxies` gets through and every chain's first proxy is connected or can be dialed, then
      the parallel phase finds all it needs to have only one outcome
      (`Confluence.EveryInterleavingAgrees`), provided the targets lead to different hosts. */
  lemma ProxyPhasePrepares(n: Net, hk: seq<string>, o: Oracle, w: World)
    requires Chains(n.store.targets) && forall h :: h in hk ==> h in n.store.targets
    requires forall h :: h in hk ==> Plain(n, n.store.targets[h].chain)
    requires forall h :: h in hk && |n.store.targets[h].chain| > 1 ==> Reachable(n, o, n.store.targets[h].chain[0])
    requires AllDone(n, ProxyChains(n.store.targets, hk), o, w.net) && TargetsFrom(w, n.store.targets, hk)
    requires forall g, h :: 0 <= g < |w.targets| && 0 <= h < |w.targets| && g != h ==>
      w.targets[g].chain[|w.targets[g].chain| - 1] != w.targets[h].chain[|w.targets[h].chain| - 1]
    ensures Prepared(w)
  {
    var targets := n.store.targets;
    var ps := ProxyChains(targets, hk);
    ProxyChainsAre(targets, hk);
    forall p | p in ps ensures GoodPrefix(n, o, p) {
      var h :| h in hk && Prefix(targets, h) == p;
      assert forall link :: link in p ==> link in targets[h].chain;
    }
    DoneIsUp(n, ps, o, w.net);
    forall g, i | 0 <= g < |w.targets| && 0 <= i < |w.targets[g].chain| - 1
      ensures Connected(w.net, w.targets[g].chain[i])
    {
      var p := Prefix(targets, w.targets[g].name);
      assert p in ps && Up(w.net, p) && p[i] == w.targets[g].chain[i];
    }
  }
}
