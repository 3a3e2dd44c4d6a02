/** How many aborts a request bears (`Race`): with one every run ends cleanly, with two one can be left that has
    stopped the state serializer, and with it the program, for good. */
module Aborts {
  import opened Prelude
  import opened Race

  /** A system of one request. */
  function Alone(r: Request, w: map<string, nat>, z: Serializer, aborts: nat): System {
    System([r], w, map[], z, aborts)
  }

  lemma Do(s: System, steps: seq<Step>, r: Request, w: map<string, nat>, z: Serializer, aborts: nat, m: Move)
    returns (longer: seq<Step>)
    requires Legal(s, steps) && After(s, steps) == Alone(r, w, z, aborts)
    requires CanMove(r, m) && (NeedsSerializer(m) ==> z.Idle?)
    requires !m.Unregister? && (m.Register? ==> r.kind.Conn?)
    ensures Legal(s, longer)
    ensures After(s, longer) == Alone(Moved(r, m), if m.Register? then w[r.host := 0] else w, z, aborts)
  {
    longer := Extend(s, steps, Local(0, m));
    assert [r][0 := Moved(r, m)] == [Moved(r, m)];
  }

  lemma SweepAlone(r: Request, aborts: nat)
    requires aborts > 0
    ensures var s := Alone(r, map[r.host := 0], Idle, aborts);
      && Enabled(s, BeginSweep([r.host], []))
      && Next(s, BeginSweep([r.host], [])) == Alone(r.(hits := r.hits + 1), map[r.host := 0], Sweeping([0]), aborts - 1)
  {
    assert Lookup([r.host], map[r.host := 0]) + Lookup([], map[]) == [0];
    assert Listed([r], [0]) == [r.(hits := r.hits + 1)];
  }

  lemma Sweep(s: System, steps: seq<Step>, r: Request, aborts: nat) returns (longer: seq<Step>)
    requires Legal(s, steps) && aborts > 0
    requires After(s, steps) == Alone(r, map[r.host := 0], Idle, aborts)
    ensures Legal(s, longer)
    ensures After(s, longer) == Alone(r.(hits := r.hits + 1), map[r.host := 0], Sweeping([0]), aborts - 1)
  {
    SweepAlone(r, aborts);
    longer := Extend(s, steps, BeginSweep([r.host], []));
  }

  lemma SendAlone(r: Request, aborts: nat)
    requires r.buffer.None?
    ensures var s := Alone(r, map[r.host := 0], Sweeping([0]), aborts);
      && Enabled(s, SweepSend)
      && Next(s, SweepSend)
         == Alone(r.(buffer := Some(false), sent := r.sent + 1), map[r.host := 0], Sweeping([]), aborts)
  {
    var r' := r.(buffer := Some(false), sent := r.sent + 1);
    assert [r][0 := r'] == [r'] && [0][1..] == [];
  }

  lemma FinishSweep(s: System, steps: seq<Step>, r: Request, aborts: nat) returns (longer: seq<Step>)
    requires Legal(s, steps) && r.buffer.None?
    requires After(s, steps) == Alone(r, map[r.host := 0], Sweeping([0]), aborts)
    ensures Legal(s, longer)
    ensures After(s, longer) == Alone(r.(buffer := Some(false), sent := r.sent + 1), map[r.host := 0], Idle, aborts)
  {
    SendAlone(r, aborts);
    var mid := Extend(s, steps, SweepSend);
    longer := Extend(s, mid, EndSweep);
  }

  /** The request times out by itself, and one sweep hits it before it has unregistered. */
  lemma TimeOutThenOneSweep(s: System) returns (steps: seq<Step>)
    requires s == Alone(Fresh(Conn, "h", 0, true), map[], Idle, 2)
    ensures Legal(s, steps)
    ensures After(s, steps) == Alone(
      Request(Conn, "h", 0, true, Responding(TimedOut), Working(0), Slept, Unspawned, FromTimeout,
              Some(false), [], 1, 1),
      map["h" := 0], Idle, 1)
  {
    var r, w := Fresh(Conn, "h", 0, true), map["h" := 0];
    steps := Do(s, [], r, map[], Idle, 2, Name);
    r := Moved(r, Name);
    steps := Do(s, steps, r, map[], Idle, 2, Register);
    r := Moved(r, Register);
    steps := Do(s, steps, r, w, Idle, 2, Start);
    r := Moved(r, Start);
    steps := Do(s, steps, r, w, Idle, 2, Wake);
    r := Moved(r, Wake);
    steps := Do(s, steps, r, w, Idle, 2, TakeTimeout);
    r := Moved(r, TakeTimeout);
    steps := Sweep(s, steps, r, 2);
    steps := FinishSweep(s, steps, r.(hits := 1), 1);
  }

  /** The bound is tight: one request and two aborts while it is registered can stop the serializer,
      and with it the program, for good. */
  lemma TwoAbortsCanStopTheSerializer() returns (s: System, steps: seq<Step>)
    ensures Init(s) && |s.reqs| == 1 && s.aborts == 2 && Legal(s, steps)
    ensures Stuck(After(s, steps))
    ensures var t := After(s, steps);
      t.serializer == Sweeping([0]) && |t.reqs| == 1 && t.reqs[0].selector.Renaming?
  {
    var w := map["h" := 0];
    s := Alone(Fresh(Conn, "h", 0, true), map[], Idle, 2);
    steps := TimeOutThenOneSweep(s);
    var r := After(s, steps).reqs[0];
    steps := Sweep(s, steps, r, 1);
    r := r.(hits := 2);
    steps := Do(s, steps, r, w, Sweeping([0]), 0, Respond);
    r := Moved(r, Respond);
    steps := Do(s, steps, r, w, Sweeping([0]), 0, Spawn);
    r := Moved(r, Spawn);
    steps := Do(s, steps, r, w, Sweeping([0]), 0, Compute);
    r := Moved(r, Compute);
    steps := Do(s, steps, r, w, Sweeping([0]), 0, DrainReply);
    r := Moved(r, DrainReply);
    NothingMoves(r, w);
  }

  lemma NothingMoves(r: Request, w: map<string, nat>)
    requires r.selector.Renaming? && r.worker.Delivered? && r.sleeper.Slept? && r.drainer.Drained? && r.buffer.Some?
    ensures Stuck(Alone(r, w, Sweeping([0]), 0))
  {
  }

  /* ---------------- the bound on aborts is tight ---------------- */

  /** Every run can be carried on until nothing can move. */
  lemma RunOn(s: System, steps: seq<Step>) returns (longer: seq<Step>)
    requires Init(s) && Legal(s, steps)
    ensures steps <= longer && Legal(s, longer) && Stuck(After(s, longer))
    decreases Measure(After(s, steps))
  {
    if Stuck(After(s, steps)) {
      longer := steps;
    } else {
      var step :| Enabled(After(s, steps), step);
      RunsAreSafeAndBounded(s, steps);
      StepKeeps(After(s, steps), step);
      longer := steps + [step];
      assert longer[..|steps|] == steps;
      longer := RunOn(s, longer);
    }
  }

  /** Two aborts can hit one request twice while it is registered. */
  lemma HitTwice(s: System) returns (steps: seq<Step>)
    requires Init(s) && |s.reqs| > 0 && s.aborts >= 2
    ensures Legal(s, steps) && |After(s, steps).reqs| == |s.reqs| && After(s, steps).reqs[0].hits >= 2
  {
    steps := Registers(s, [], 0);
    steps := SweepsFirst(s, steps);
    steps := Extend(s, steps, SweepSend);
    steps := Extend(s, steps, EndSweep);
    steps := SweepsFirst(s, steps);
  }

  /** A sweep when the first request is the only one registered. */
  lemma SweepsFirst(s: System, steps: seq<Step>) returns (longer: seq<Step>)
    requires Legal(s, steps)
    requires var t := After(s, steps);
      && t.serializer.Idle? && t.aborts > 0 && t.reqs != []
      && var r := t.reqs[0]; Waiters(t, r.kind) == map[r.host := 0] && Waiters(t, if r.kind.Conn? then Run else Conn) == map[]
    ensures Legal(s, longer)
    ensures var (t, u) := (After(s, steps), After(s, longer));
      && u.serializer == Sweeping([0]) && u.aborts == t.aborts - 1 && |u.reqs| == |t.reqs|
      && u.reqs[0] == t.reqs[0].(hits := t.reqs[0].hits + 1)
      && u.connWaiters == t.connWaiters && u.runWaiters == t.runWaiters
  {
    var t := After(s, steps);
    var r := t.reqs[0];
    var ck, rk := if r.kind.Conn? then [r.host] else [], if r.kind.Conn? then [] else [r.host];
    assert Lookup(ck, t.connWaiters) + Lookup(rk, t.runWaiters) == [0];
    longer := Extend(s, steps, BeginSweep(ck, rk));
  }

  /** Every run that cannot go on has ended cleanly exactly if there is no request or at most one abort. */
  lemma AlwaysCleanIff(s: System)
    requires Init(s)
    ensures (forall steps :: Legal(s, steps) && Stuck(After(s, steps)) ==> Clean(After(s, steps)))
      <==> s.reqs == [] || s.aborts <= 1
  {
    if s.reqs == [] || s.aborts <= 1 {
      forall steps | Legal(s, steps) && Stuck(After(s, steps)) ensures Clean(After(s, steps)) {
        if s.aborts <= 1 {
          OneAbortIsHarmless(s, steps);
        } else {
          RequestsPersist(s, steps);
          MaximalRunIsCleanIff(s, steps);
        }
      }
    } else {
      var steps := HitTwice(s);
      var longer := RunOn(s, steps);
      assert longer[..|steps|] == steps;
      SecondHitLeaksASender(s, longer, |steps|, 0);
    }
  }
}
