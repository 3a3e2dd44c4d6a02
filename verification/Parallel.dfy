/** The parallel phase of `connectEverywhere` (connect.go): a main loop that starts one goroutine
    per target, no more than the limiter has room for, each running `resolve` (resolve.go) on the
    target's chain, reporting a status, and releasing first the wait group, then the limiter. Every
    exchange with the state serializer is one step. */
module Parallel {
  import opened Prelude
  import opened State
  import opened Resolve
  import opened Carrier

  datatype Target = Target(name: string, chain: seq<string>)

  /** Where a goroutine is; the number is the index of the link it is at. `Gone` has released the
      limiter, `Draining` only the wait group. */
  datatype Pc =
    | Unspawned
    | Skipped
    | Starting
    | Checking(i: nat)
    | LookingUp(i: nat)
    | Dialing(i: nat)
    | Counting(i: nat)
    | Publishing(i: nat, k: nat)
    | Reporting(ok: bool)
    | Finishing(ok: bool)
    | Draining(ok: bool)
    | Gone(ok: bool)

  /** The main loop: at target j, at the limiter for target j, in `wg.Wait`, back from it. */
  datatype MainPc = Looping(j: nat) | Acquiring(j: nat) | Waiting | Returned

  /** What the phase starts from: the net, the targets in the order GetHostKeys gave, the outcomes, and
      the concurrency. */
  datatype World = World(net: Net, targets: seq<Target>, o: Oracle, limit: nat, reports: nat -> Report)

  /** How long a goroutine's resolve takes, and what its error says if it returns one. */
  datatype Report = Report(time: nat, text: string)

  /** `held`: places taken in the limiter. `targets`: the store's targets, which the reports change and resolve
      neither reads nor writes. `dialed`: the links dialed so far. */
  datatype System = System(
    net: Net, pcs: seq<Pc>, main: MainPc, held: nat, targets: map<string, HostInfo>, dialed: seq<string>)

  datatype Step = Main | Go(g: nat)

  /* ---------------- one goroutine ---------------- */

  function At(t: Target, i: nat): Pc { if i < |t.chain| then Checking(i) else Reporting(true) }

  function ChanOf(w: World, g: nat, i: nat): Chan { Chan(w.net.calls + g, i) }

  predicate PcFits(t: Target, pc: Pc) {
    (pc.Checking? || pc.Dialing? || pc.Publishing? ==> pc.i < |t.chain|)
    && (pc.LookingUp? || pc.Counting? ==> 0 < pc.i < |t.chain|)
  }

  predicate Runs(pc: Pc) { !pc.Unspawned? && !pc.Skipped? && !pc.Gone? }

  /** What a goroutine does next, and the net after it. */
  function Advance(w: World, n: Net, g: nat, pc: Pc): (Net, Pc)
    requires g < |w.targets| && PcFits(w.targets[g], pc) && Runs(pc)
    requires pc.Counting? ==> Connected(n, w.targets[g].chain[pc.i - 1])
  {
    var t := w.targets[g];
    match pc
    case Starting => (n, At(t, 0))
    case Checking(i) =>
      (n, if Connected(n, t.chain[i]) then At(t, i + 1) else if i > 0 then LookingUp(i) else Dialing(i))
    case LookingUp(i) => (n, if Connected(n, t.chain[i - 1]) then Dialing(i) else At(t, i + 1))
    case Dialing(i) =>
      if i == 0 then
        (n, if w.o.direct(t.chain[0]) == 0 then At(t, 1) else Publishing(0, w.o.direct(t.chain[0])))
      else
        (n, if w.o.tunnel(t.chain[i - 1], t.chain[i]) then Counting(i) else Reporting(false))
    case Counting(i) => (Count(n, t.chain[i - 1]), Publishing(i, 1))
    case Publishing(i, k) =>
      (Join(n, ConnInfo(t.chain[i], false, i == 0, 0, ChanOf(w, g, i)), k, if i == 0 then None else Some(t.chain[i - 1])),
       At(t, i + 1))
    case Reporting(ok) => (n, Finishing(ok))
    case Finishing(ok) => (n, Draining(ok))
    case Draining(ok) => (n, Gone(ok))
  }

  /** Where a goroutine may be, given what it has found connected. */
  predicate Ready(t: Target, n: Net, pc: Pc) {
    PcFits(t, pc) && (pc.Counting? || (pc.Dialing? && pc.i > 0) ==> Connected(n, t.chain[pc.i - 1]))
  }

  /** The links from i on. */
  function LinksFrom(t: Target, i: nat): nat { if i < |t.chain| then |t.chain| - i else 0 }

  /** Bounds the steps a goroutine still takes. */
  function StepsLeft(t: Target, pc: Pc): nat {
    match pc
    case Unspawned => 5 * |t.chain| + 9
    case Skipped => 0
    case Starting => 5 * |t.chain| + 9
    case Checking(i) => 5 * LinksFrom(t, i) + 3
    case LookingUp(i) => 5 * LinksFrom(t, i) + 2
    case Dialing(i) => 5 * LinksFrom(t, i) + 1
    case Counting(i) => 5 * LinksFrom(t, i)
    case Publishing(i, _) => if i < |t.chain| then 5 * LinksFrom(t, i) - 1 else 0
    case Reporting(_) => 3
    case Finishing(_) => 2
    case Draining(_) => 1
    case Gone(_) => 0
  }

  /** The net, and whether resolve returns nil, when a goroutine is left alone until it reports. */
  function Solo(w: World, n: Net, g: nat, pc: Pc): (Net, bool)
    requires g < |w.targets| && Runs(pc) && !pc.Finishing? && !pc.Draining? && Ready(w.targets[g], n, pc)
    decreases StepsLeft(w.targets[g], pc)
  {
    if pc.Reporting? then (n, pc.ok)
    else
      var (m, pc') := Advance(w, n, g, pc);
      Solo(w, m, g, pc')
  }

  /** Step by step, a goroutine that is left alone does what `resolve` does: it connects the same links,
      with the same channels, and returns nil exactly when the walk does. */
  lemma {:induction false} SoloIsWalk(w: World, n: Net, g: nat, i: nat)
    requires g < |w.targets| && i <= |w.targets[g].chain|
    ensures var walk := Walk(n, w.net.calls + g, w.targets[g].chain, i, false, w.o);
      Solo(w, n, g, At(w.targets[g], i)) == (walk.0, walk.1.None?)
    decreases |w.targets[g].chain| - i
  {
    var t := w.targets[g];
    if i < |t.chain| {
      var hop := Hop(n, w.net.calls + g, t.chain, i, false, w.o);
      SoloHop(w, n, g, i);
      if hop.Some? {
        SoloIsWalk(w, hop.value, g, i + 1);
      }
    }
  }

  /** The steps for one link: the first, and any other. */
  lemma SoloHop(w: World, n: Net, g: nat, i: nat)
    requires g < |w.targets| && i < |w.targets[g].chain|
    ensures var t := w.targets[g];
      var hop := Hop(n, w.net.calls + g, t.chain, i, false, w.o);
      Solo(w, n, g, Checking(i)) == if hop.None? then (n, false) else Solo(w, hop.value, g, At(t, i + 1))
  {
    if !Connected(n, w.targets[g].chain[i]) {
      if i == 0 {
        SoloDirect(w, n, g);
      } else {
        SoloTunnel(w, n, g, i);
      }
    }
  }

  lemma SoloDirect(w: World, n: Net, g: nat)
    requires g < |w.targets| && w.targets[g].chain != [] && !Connected(n, w.targets[g].chain[0])
    ensures var t := w.targets[g];
      var hop := Hop(n, w.net.calls + g, t.chain, 0, false, w.o);
      hop.Some? && Solo(w, n, g, Checking(0)) == Solo(w, hop.value, g, At(t, 1))
  {
    var k := w.o.direct(w.targets[g].chain[0]);
    assert Solo(w, n, g, Checking(0)) == Solo(w, n, g, Dialing(0));
    if k > 0 {
      assert Solo(w, n, g, Dialing(0)) == Solo(w, n, g, Publishing(0, k));
    }
  }

  lemma SoloTunnel(w: World, n: Net, g: nat, i: nat)
    requires g < |w.targets| && 0 < i < |w.targets[g].chain| && !Connected(n, w.targets[g].chain[i])
    ensures var (t, link, proxy) := (w.targets[g], w.targets[g].chain[i], w.targets[g].chain[i - 1]);
      Solo(w, n, g, Checking(i)) ==
        if !Connected(n, proxy) then Solo(w, n, g, At(t, i + 1))
        else if !w.o.tunnel(proxy, link) then (n, false)
        else Solo(w, Join(Count(n, proxy), ConnInfo(link, false, false, 0, ChanOf(w, g, i)), 1, Some(proxy)), g, At(t, i + 1))
  {
    assert Solo(w, n, g, Checking(i)) == Solo(w, n, g, LookingUp(i));
    if Connected(n, w.targets[g].chain[i - 1]) {
      assert Solo(w, n, g, LookingUp(i)) == Solo(w, n, g, Dialing(i));
      SoloRequest(w, n, g, i);
    }
  }

  /** The request to a connected proxy. */
  lemma SoloRequest(w: World, n: Net, g: nat, i: nat)
    requires g < |w.targets| && 0 < i < |w.targets[g].chain| && Connected(n, w.targets[g].chain[i - 1])
    ensures var (t, link, proxy) := (w.targets[g], w.targets[g].chain[i], w.targets[g].chain[i - 1]);
      Solo(w, n, g, Dialing(i)) ==
        if !w.o.tunnel(proxy, link) then (n, false)
        else Solo(w, Join(Count(n, proxy), ConnInfo(link, false, false, 0, ChanOf(w, g, i)), 1, Some(proxy)), g, At(t, i + 1))
  {
    var link, proxy := w.targets[g].chain[i], w.targets[g].chain[i - 1];
    if w.o.tunnel(proxy, link) {
      assert Solo(w, n, g, Dialing(i)) == Solo(w, n, g, Counting(i));
      assert Solo(w, n, g, Counting(i)) == Solo(w, Count(n, proxy), g, Publishing(i, 1));
    } else {
      assert Solo(w, n, g, Dialing(i)) == Solo(w, n, g, Reporting(false));
    }
  }

  /** What goroutine g reports. */
  function StatusOf(w: World, g: nat, ok: bool): Request
    requires g < |w.targets|
  {
    SetConnectionStatus(w.targets[g].name, ok, w.reports(g).time, if ok then None else Some(w.reports(g).text))
  }

  /* ---------------- the whole phase ---------------- */

  predicate Done(pc: Pc) { pc.Skipped? || pc.Draining? || pc.Gone? }

  ghost predicate Enabled(w: World, s: System, step: Step) {
    match step
    case Main =>
      (match s.main
       case Looping(j) => j <= |s.pcs|
       case Acquiring(j) => j < |s.pcs| && s.held < w.limit
       case Waiting => forall g :: 0 <= g < |s.pcs| ==> Done(s.pcs[g])
       case Returned => false)
    case Go(g) =>
      && g < |s.pcs| == |w.targets| && Runs(s.pcs[g]) && PcFits(w.targets[g], s.pcs[g])
      && (s.pcs[g].Counting? ==> Connected(s.net, w.targets[g].chain[s.pcs[g].i - 1]))
      && (s.pcs[g].Draining? ==> s.held > 0)
  }

  ghost function Next(w: World, s: System, step: Step): System
    requires |s.pcs| == |w.targets| && Enabled(w, s, step)
  {
    match step
    case Main =>
      (match s.main
       case Looping(j) =>
         if j == |s.pcs| then s.(main := Waiting)
         else if Connected(s.net, w.targets[j].name) then s.(main := Looping(j + 1), pcs := s.pcs[j := Skipped])
         else s.(main := Acquiring(j))
       case Acquiring(j) => s.(main := Looping(j + 1), held := s.held + 1, pcs := s.pcs[j := Starting])
       case Waiting => s.(main := Returned))
    case Go(g) =>
      var t, pc := w.targets[g], s.pcs[g];
      var (net, pc') := Advance(w, s.net, g, pc);
      System(net, s.pcs[g := pc'], s.main,
             if pc.Draining? then s.held - 1 else s.held,
             if pc.Reporting? then Apply(w.net.store.(targets := s.targets), StatusOf(w, g, pc.ok)).store.targets else s.targets,
             if pc.Dialing? then s.dialed + [t.chain[pc.i]] else s.dialed)
  }

  ghost function Start(w: World): System {
    System(w.net, seq(|w.targets|, _ => Unspawned), Looping(0), 0, w.net.store.targets, [])
  }

  ghost predicate Legal(w: World, steps: seq<Step>)
    decreases |steps|, 1
  {
    steps == [] || (Legal(w, steps[..|steps| - 1]) && Enabled(w, After(w, steps[..|steps| - 1]), steps[|steps| - 1]))
  }

  ghost function After(w: World, steps: seq<Step>): (s: System)
    ensures |s.pcs| == |w.targets|
    decreases |steps|, 0
  {
    if steps == [] then Start(w)
    else
      var before := After(w, steps[..|steps| - 1]);
      var step := steps[|steps| - 1];
      if Enabled(w, before, step) then Next(w, before, step) else before
  }

  ghost predicate Stuck(w: World, s: System) { forall step :: !Enabled(w, s, step) }

  /** A run that has come to its end. */
  ghost predicate Complete(w: World, steps: seq<Step>) { Legal(w, steps) && Stuck(w, After(w, steps)) }

  /* ---------------- limiter, wait group and statuses ---------------- */

  function Position(w: World, s: System): nat {
    match s.main
    case Looping(j) => j
    case Acquiring(j) => j
    case Waiting => |w.targets|
    case Returned => |w.targets|
  }

  function Places(pcs: seq<Pc>): (ones: seq<nat>)
    ensures |ones| == |pcs| && forall g :: 0 <= g < |pcs| ==> ones[g] == if Runs(pcs[g]) then 1 else 0
  {
    seq(|pcs|, g requires 0 <= g < |pcs| => if Runs(pcs[g]) then 1 else 0)
  }

  /** The status of a host says whether the goroutine's resolve returned nil. */
  predicate StatusSays(w: World, g: nat, ok: bool, targets: map<string, HostInfo>)
    requires g < |w.targets|
  {
    var name := w.targets[g].name;
    name in targets ==>
      && targets[name].connectedOK == ok && targets[name].connectTime == w.reports(g).time
      && targets[name].lastError == if ok then None else Some(w.reports(g).text)
  }

  /** A goroutine past its report has set the status, if its host is still a target. */
  ghost predicate Reported(w: World, g: nat, pc: Pc, targets: map<string, HostInfo>)
    requires g < |w.targets|
  {
    pc.Finishing? || pc.Draining? || pc.Gone? ==> StatusSays(w, g, pc.ok, targets)
  }

  ghost predicate GoInv(w: World, s: System, g: nat)
    requires g < |w.targets| == |s.pcs|
  {
    var t, pc := w.targets[g], s.pcs[g];
    && Ready(t, s.net, pc)
    && (pc.Unspawned? <==> g >= Position(w, s))
    && Reported(w, g, pc, s.targets)
  }

  ghost predicate Inv(w: World, s: System) {
    && |s.pcs| == |w.targets| && Position(w, s) <= |w.targets|
    && (s.main.Acquiring? ==> s.main.j < |w.targets|)
    && (forall g :: 0 <= g < |s.pcs| ==> GoInv(w, s, g))
    && s.held == Sum(Places(s.pcs)) && s.held <= w.limit
    && (s.main.Returned? ==> forall g :: 0 <= g < |s.pcs| ==> Done(s.pcs[g]))
  }

  /** The host names of the targets are the keys of a map. */
  ghost predicate DistinctNames(w: World) {
    forall g, h :: 0 <= g < h < |w.targets| ==> w.targets[g].name != w.targets[h].name
  }

  lemma AdvanceGrows(w: World, n: Net, g: nat, pc: Pc)
    requires g < |w.targets| && PcFits(w.targets[g], pc) && Runs(pc)
    requires pc.Counting? ==> Connected(n, w.targets[g].chain[pc.i - 1])
    ensures var (m, pc') := Advance(w, n, g, pc);
      && (forall h :: Connected(n, h) ==> Connected(m, h)) && m.calls == n.calls && m.store.ptr == n.store.ptr
      && PcFits(w.targets[g], pc') && !pc'.Unspawned?
      && (pc'.Counting? ==> pc.Dialing? && pc.i == pc'.i > 0)
      && (pc'.Dialing? && pc'.i > 0 ==> Connected(m, w.targets[g].chain[pc'.i - 1]))
      && (Runs(pc') <==> !pc.Draining?)
      && (pc'.Gone? || pc'.Draining? || pc'.Finishing? ==>
            pc' == if pc.Reporting? then Finishing(pc.ok) else if pc.Finishing? then Draining(pc.ok) else Gone(pc.ok))
  {
  }

  lemma {:induction false} SumMember(s: seq<nat>, i: nat)
    requires i < |s|
    ensures s[i] <= Sum(s)
  {
    if i < |s| - 1 {
      SumMember(s[..|s| - 1], i);
    }
  }

  lemma MainKeeps(w: World, s: System)
    requires Inv(w, s) && Enabled(w, s, Main)
    ensures Inv(w, Next(w, s, Main))
  {
    var t := Next(w, s, Main);
    if s.main.Looping? || s.main.Acquiring? {
      assert s.main.j < |s.pcs| ==> GoInv(w, s, s.main.j);
    }
    forall h | 0 <= h < |t.pcs| ensures GoInv(w, t, h) {
      assert GoInv(w, s, h);
    }
    if s.main.Looping? && s.main.j < |s.pcs| && Connected(s.net, w.targets[s.main.j].name) {
      assert Places(t.pcs) == Places(s.pcs);
    } else if s.main.Acquiring? {
      assert Places(t.pcs) == Places(s.pcs)[s.main.j := 1];
      SumUpdate(Places(s.pcs), s.main.j, 1);
    }
  }

  lemma GoKeepsOthers(w: World, s: System, g: nat, h: nat)
    requires DistinctNames(w) && Inv(w, s) && Enabled(w, s, Go(g)) && h < |s.pcs|
    ensures GoInv(w, Next(w, s, Go(g)), h)
  {
    assert GoInv(w, s, g) && GoInv(w, s, h);
    AdvanceGrows(w, s.net, g, s.pcs[g]);
    if g != h {
      assert w.targets[g].name != w.targets[h].name by {
        if g < h {} else {}
      }
    }
  }

  lemma GoKeeps(w: World, s: System, g: nat)
    requires DistinctNames(w) && Inv(w, s) && Enabled(w, s, Go(g))
    ensures Inv(w, Next(w, s, Go(g)))
  {
    var t := Next(w, s, Go(g));
    AdvanceGrows(w, s.net, g, s.pcs[g]);
    forall h | 0 <= h < |t.pcs| ensures GoInv(w, t, h) {
      GoKeepsOthers(w, s, g, h);
    }
    var one := if Runs(t.pcs[g]) then 1 else 0;
    assert Places(t.pcs) == Places(s.pcs)[g := one];
    SumUpdate(Places(s.pcs), g, one);
  }

  lemma {:induction false} RunsKeepInv(w: World, steps: seq<Step>)
    requires DistinctNames(w) && Legal(w, steps)
    ensures Inv(w, After(w, steps))
  {
    if steps == [] {
      ConstantSum(Places(Start(w).pcs), 0);
    } else {
      var n := |steps| - 1;
      RunsKeepInv(w, steps[..n]);
      match steps[n] {
        case Main => MainKeeps(w, After(w, steps[..n]));
        case Go(g) => GoKeeps(w, After(w, steps[..n]), g);
      }
    }
  }

  lemma {:induction false} TargetsStay(w: World, steps: seq<Step>)
    requires Legal(w, steps)
    ensures After(w, steps).targets.Keys == w.net.store.targets.Keys
  {
    if steps != [] {
      TargetsStay(w, steps[..|steps| - 1]);
    }
  }

  /** At no time are more attempts in flight than the limiter allows; and when `wg.Wait` has returned,
      every host that was attempted and is still a target has a status that says whether its resolve
      returned nil. */
  lemma LimiterAndStatuses(w: World, steps: seq<Step>)
    requires DistinctNames(w) && Legal(w, steps)
    ensures var s := After(w, steps);
      && Sum(Places(s.pcs)) <= w.limit && s.targets.Keys == w.net.store.targets.Keys
      && (s.main.Returned? ==> forall g :: 0 <= g < |w.targets| ==>
            s.pcs[g].Skipped? || (Done(s.pcs[g]) && StatusSays(w, g, s.pcs[g].ok, s.targets)))
  {
    RunsKeepInv(w, steps);
    TargetsStay(w, steps);
    var s := After(w, steps);
    if s.main.Returned? {
      forall g | 0 <= g < |w.targets|
        ensures s.pcs[g].Skipped? || (Done(s.pcs[g]) && StatusSays(w, g, s.pcs[g].ok, s.targets))
      {
        assert GoInv(w, s, g);
      }
    }
  }

  function MainLeft(n: nat, main: MainPc): int {
    match main
    case Looping(j) => 2 * (n - j) + 2
    case Acquiring(j) => 2 * (n - j) + 1
    case Waiting => 1
    case Returned => 0
  }

  function AllLeft(w: World, pcs: seq<Pc>): (left: seq<nat>)
    requires |pcs| == |w.targets|
    ensures |left| == |pcs| && forall g :: 0 <= g < |pcs| ==> left[g] == StepsLeft(w.targets[g], pcs[g])
  {
    seq(|pcs|, g requires 0 <= g < |pcs| == |w.targets| => StepsLeft(w.targets[g], pcs[g]))
  }

  ghost function Measure(w: World, s: System): int
    requires |s.pcs| == |w.targets|
  {
    Sum(AllLeft(w, s.pcs)) + MainLeft(|w.targets|, s.main)
  }

  lemma AdvanceShrinks(w: World, n: Net, g: nat, pc: Pc)
    requires g < |w.targets| && PcFits(w.targets[g], pc) && Runs(pc)
    requires pc.Counting? ==> Connected(n, w.targets[g].chain[pc.i - 1])
    ensures StepsLeft(w.targets[g], Advance(w, n, g, pc).1) < StepsLeft(w.targets[g], pc)
  {
  }

  lemma PcChanges(w: World, pcs: seq<Pc>, g: nat, pc: Pc)
    requires |pcs| == |w.targets| && g < |pcs|
    ensures Sum(AllLeft(w, pcs[g := pc])) == Sum(AllLeft(w, pcs)) - StepsLeft(w.targets[g], pcs[g]) + StepsLeft(w.targets[g], pc)
  {
    assert AllLeft(w, pcs[g := pc]) == AllLeft(w, pcs)[g := StepsLeft(w.targets[g], pc)];
    SumUpdate(AllLeft(w, pcs), g, StepsLeft(w.targets[g], pc));
  }

  lemma StepShrinks(w: World, s: System, step: Step)
    requires Inv(w, s) && Enabled(w, s, step)
    ensures Measure(w, Next(w, s, step)) < Measure(w, s)
  {
    var t := Next(w, s, step);
    match step {
      case Main =>
        if t.pcs != s.pcs {
          var j := s.main.j;
          assert GoInv(w, s, j);
          PcChanges(w, s.pcs, j, t.pcs[j]);
        }
      case Go(g) =>
        AdvanceShrinks(w, s.net, g, s.pcs[g]);
        PcChanges(w, s.pcs, g, t.pcs[g]);
    }
  }

  lemma {:induction false} RunsShrink(w: World, steps: seq<Step>)
    requires DistinctNames(w) && Legal(w, steps)
    ensures |steps| + Measure(w, After(w, steps)) <= Measure(w, Start(w))
    ensures 0 <= Measure(w, After(w, steps))
  {
    RunsKeepInv(w, steps);
    if steps != [] {
      var n := |steps| - 1;
      RunsShrink(w, steps[..n]);
      RunsKeepInv(w, steps[..n]);
      StepShrinks(w, After(w, steps[..n]), steps[n]);
    }
  }

  /** Five steps per link and eleven per target. */
  function Budget(targets: seq<Target>): nat {
    if targets == [] then 0 else Budget(targets[..|targets| - 1]) + 5 * |targets[|targets| - 1].chain| + 11
  }

  lemma {:induction false} BudgetIs(w: World, left: seq<nat>, k: nat)
    requires k <= |w.targets| == |left| && forall g :: 0 <= g < |left| ==> left[g] == 5 * |w.targets[g].chain| + 9
    ensures Sum(left[..k]) + 2 * k == Budget(w.targets[..k])
  {
    if k > 0 {
      BudgetIs(w, left, k - 1);
      assert left[..k][..k - 1] == left[..k - 1] && w.targets[..k][..k - 1] == w.targets[..k - 1];
    }
  }

  /** Every run of the phase ends, after no more steps than that and two. */
  lemma RunLength(w: World, steps: seq<Step>)
    requires DistinctNames(w) && Legal(w, steps)
    ensures |steps| <= Budget(w.targets) + 2
  {
    RunsShrink(w, steps);
    var left := AllLeft(w, Start(w).pcs);
    BudgetIs(w, left, |left|);
    assert left[..|left|] == left && w.targets[..|left|] == w.targets;
  }

  /** The phase never deadlocks: a run that cannot go on has returned from the wait, and all its
      goroutines have released the limiter. */
  lemma MaximalRunReturns(w: World, steps: seq<Step>)
    requires DistinctNames(w) && w.limit > 0 && Legal(w, steps) && Stuck(w, After(w, steps))
    ensures var s := After(w, steps);
      s.main.Returned? && forall g :: 0 <= g < |s.pcs| ==> s.pcs[g].Skipped? || s.pcs[g].Gone?
  {
    RunsKeepInv(w, steps);
    var s := After(w, steps);
    forall g | 0 <= g < |s.pcs| ensures !Runs(s.pcs[g]) {
      assert GoInv(w, s, g);
      SumMember(Places(s.pcs), g);
      assert !Enabled(w, s, Go(g));
    }
    assert !Enabled(w, s, Main);
    if s.main.Acquiring? {
      ConstantSum(Places(s.pcs), 0);
    }
    forall g | 0 <= g < |s.pcs| ensures !s.pcs[g].Unspawned? {
      assert GoInv(w, s, g);
    }
  }

  /** Without any room nobody is ever started. */
  ghost predicate NobodyStarted(w: World, s: System) {
    && s.net == w.net && |s.pcs| == |w.targets|
    && (forall g :: 0 <= g < |s.pcs| ==> s.pcs[g].Unspawned? || (s.pcs[g].Skipped? && Connected(w.net, w.targets[g].name)))
    && (s.main.Acquiring? ==> s.main.j < |s.pcs| && !Connected(w.net, w.targets[s.main.j].name))
  }

  lemma {:induction false} NoRoom(w: World, steps: seq<Step>)
    requires w.limit == 0 && Legal(w, steps)
    ensures NobodyStarted(w, After(w, steps))
  {
    if steps != [] {
      NoRoom(w, steps[..|steps| - 1]);
    }
  }

  /** A concurrency of 0 is accepted: then a complete run has returned exactly if there was nothing to do, and
      otherwise waits at the limiter for ever. */
  lemma ReturnsIff(w: World, steps: seq<Step>)
    requires DistinctNames(w) && Complete(w, steps)
    ensures After(w, steps).main.Returned? <==>
      w.limit > 0 || forall g :: 0 <= g < |w.targets| ==> Connected(w.net, w.targets[g].name)
    ensures !After(w, steps).main.Returned? ==> After(w, steps).main.Acquiring?
  {
    var s := After(w, steps);
    if w.limit > 0 {
      MaximalRunReturns(w, steps);
    } else {
      NoRoom(w, steps);
      RunsKeepInv(w, steps);
      assert !Enabled(w, s, Main);
      forall g | 0 <= g < |s.pcs| ensures GoInv(w, s, g) {
      }
      assert s.main.Waiting? ==> forall g :: 0 <= g < |s.pcs| ==> GoInv(w, s, g) && Done(s.pcs[g]);
    }
  }
}
