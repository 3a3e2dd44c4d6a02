/** The fan-out to a direct link (resolve.go): N goroutines each dial, race the dial against a
    sleeper, and on success start a listener on the one shared request channel and set the
    connection entry. The timeout channels have one slot, the dial and error channels none. */
module DirectDial {
  import opened Prelude

  datatype Pick = Undecided | GotClient | GotError | TimedOut

  /** After a client: start `remoteHost`, ask for the name, set the entry; then, whatever was
      picked, leave a drainer behind and be done with the wait group. */
  datatype Selector = Selecting | Listening | Naming | Publishing | Spawning | Returned

  datatype Worker = Dialing | Delivering | Delivered

  datatype Drainer = Unspawned | Draining | Drained

  /** `ok`: the dial will succeed. `buffer`: the timeout channel's slot is taken. */
  datatype Dial = Dial(
    ok: bool, selector: Selector, pick: Pick, worker: Worker, slept: bool, buffer: bool, drainer: Drainer)

  /** `entry`: the connection map has this link. `listeners`: goroutines on its request channel. */
  datatype System = System(dials: seq<Dial>, entry: bool, listeners: nat)

  datatype Move =
    | Return | TakeClient | TakeError | TakeTimeout | Listen | Name | Publish | Spawn | Wake
    | DrainTimeout | DrainWorker

  datatype Step = Step(i: nat, move: Move)

  predicate CanMove(d: Dial, m: Move) {
    match m
    case Return => d.worker.Dialing?
    case TakeClient => d.selector.Selecting? && d.worker.Delivering? && d.ok
    case TakeError => d.selector.Selecting? && d.worker.Delivering? && !d.ok
    case TakeTimeout => d.selector.Selecting? && d.buffer
    case Listen => d.selector.Listening?
    case Name => d.selector.Naming?
    case Publish => d.selector.Publishing?
    case Spawn => d.selector.Spawning?
    case Wake => !d.slept && !d.buffer
    case DrainTimeout => d.drainer.Draining? && !d.pick.TimedOut? && d.buffer
    case DrainWorker => d.drainer.Draining? && d.pick.TimedOut? && d.worker.Delivering?
  }

  function Moved(d: Dial, m: Move): Dial
    requires CanMove(d, m)
  {
    match m
    case Return => d.(worker := Delivering)
    case TakeClient => d.(selector := Listening, pick := GotClient, worker := Delivered)
    case TakeError => d.(selector := Spawning, pick := GotError, worker := Delivered)
    case TakeTimeout => d.(selector := Spawning, pick := TimedOut, buffer := false)
    case Listen => d.(selector := Naming)
    case Name => d.(selector := Publishing)
    case Publish => d.(selector := Spawning)
    case Spawn => d.(selector := Returned, drainer := Draining)
    case Wake => d.(slept := true, buffer := true)
    case DrainTimeout => d.(drainer := Drained, buffer := false)
    case DrainWorker => d.(drainer := Drained, worker := Delivered)
  }

  ghost predicate Enabled(s: System, step: Step) {
    step.i < |s.dials| && CanMove(s.dials[step.i], step.move)
  }

  function Next(s: System, step: Step): System
    requires step.i < |s.dials| && CanMove(s.dials[step.i], step.move)
  {
    System(s.dials[step.i := Moved(s.dials[step.i], step.move)],
           s.entry || step.move.Publish?,
           s.listeners + (if step.move.Listen? then 1 else 0))
  }

  ghost predicate Init(s: System) {
    !s.entry && s.listeners == 0
    && forall i :: 0 <= i < |s.dials| ==>
         s.dials[i] == Dial(s.dials[i].ok, Selecting, Undecided, Dialing, false, false, Unspawned)
  }

  ghost predicate Legal(s: System, steps: seq<Step>)
    decreases |steps|, 0
  {
    steps == [] || (Legal(s, steps[..|steps| - 1]) && Enabled(After(s, steps[..|steps| - 1]), steps[|steps| - 1]))
  }

  ghost function After(s: System, steps: seq<Step>): System
    requires Legal(s, steps)
    decreases |steps|, 1
  {
    if steps == [] then s else Next(After(s, steps[..|steps| - 1]), steps[|steps| - 1])
  }

  ghost predicate Stuck(s: System) { forall step :: !Enabled(s, step) }

  predicate Finished(d: Dial) {
    d.selector.Returned? && d.worker.Delivered? && d.slept && d.drainer.Drained?
  }

  function Picked(dials: seq<Dial>): (ones: seq<nat>)
    ensures |ones| == |dials| && forall i :: 0 <= i < |dials| ==> ones[i] == One(dials[i].pick.GotClient?)
  {
    seq(|dials|, i requires 0 <= i < |dials| => One(dials[i].pick.GotClient?))
  }

  /** The number of dials whose client was picked up in time. */
  function Successes(dials: seq<Dial>): nat {
    Sum(Picked(dials))
  }

  /* ---------------- invariant and bound ---------------- */

  predicate Heard(d: Dial) { d.pick.GotClient? && !d.selector.Listening? }

  predicate Published(d: Dial) { d.pick.GotClient? && (d.selector.Spawning? || d.selector.Returned?) }

  function Ears(dials: seq<Dial>): (ones: seq<nat>)
    ensures |ones| == |dials| && forall i :: 0 <= i < |dials| ==> ones[i] == One(Heard(dials[i]))
  {
    seq(|dials|, i requires 0 <= i < |dials| => One(Heard(dials[i])))
  }

  function One(b: bool): nat { if b then 1 else 0 }

  predicate DialInv(d: Dial) {
    && (d.pick.Undecided? <==> d.selector.Selecting?)
    && (d.selector.Listening? || d.selector.Naming? || d.selector.Publishing? ==> d.pick.GotClient?)
    && (d.pick.GotClient? ==> d.ok)
    && (d.pick.GotError? ==> !d.ok)
    && (d.drainer.Unspawned? <==> !d.selector.Returned?)
    && One(d.buffer) + One(d.pick.TimedOut? || (!d.pick.Undecided? && d.drainer.Drained?)) == One(d.slept)
    && (d.worker.Delivered? <==> d.pick.GotClient? || d.pick.GotError? || (d.pick.TimedOut? && d.drainer.Drained?))
  }

  ghost predicate Inv(s: System) {
    && (forall i :: 0 <= i < |s.dials| ==> DialInv(s.dials[i]))
    && s.listeners == Sum(Ears(s.dials))
    && (s.entry <==> exists i :: 0 <= i < |s.dials| && Published(s.dials[i]))
  }

  function Weight(d: Dial): nat {
    (match d.selector
     case Selecting => 5 case Listening => 4 case Naming => 3 case Publishing => 2 case Spawning => 1 case Returned => 0)
    + (match d.worker case Dialing => 2 case Delivering => 1 case Delivered => 0)
    + One(!d.slept)
    + (match d.drainer case Unspawned => 2 case Draining => 1 case Drained => 0)
  }

  function Weights(dials: seq<Dial>): (w: seq<nat>)
    ensures |w| == |dials|
  {
    seq(|dials|, i requires 0 <= i < |dials| => Weight(dials[i]))
  }

  lemma MoveKeeps(d: Dial, m: Move)
    requires CanMove(d, m) && DialInv(d)
    ensures DialInv(Moved(d, m)) && Weight(Moved(d, m)) < Weight(d)
    ensures One(Heard(Moved(d, m))) == One(Heard(d)) + (if m.Listen? then 1 else 0)
    ensures Published(Moved(d, m)) <==> Published(d) || m.Publish?
  {
  }

  lemma StepKeeps(s: System, step: Step)
    requires Inv(s) && Enabled(s, step)
    ensures Inv(Next(s, step)) && Sum(Weights(Next(s, step).dials)) < Sum(Weights(s.dials))
  {
    var d, t := s.dials[step.i], Next(s, step);
    var d' := Moved(d, step.move);
    MoveKeeps(d, step.move);
    assert Ears(t.dials) == Ears(s.dials)[step.i := One(Heard(d'))];
    SumUpdate(Ears(s.dials), step.i, One(Heard(d')));
    assert Weights(t.dials) == Weights(s.dials)[step.i := Weight(d')];
    SumUpdate(Weights(s.dials), step.i, Weight(d'));
    if t.entry {
      if step.move.Publish? {
        assert Published(t.dials[step.i]);
      } else {
        var i :| 0 <= i < |s.dials| && Published(s.dials[i]);
        assert Published(t.dials[i]);
      }
    }
  }

  lemma {:induction false} RunsAreSafeAndBounded(s: System, steps: seq<Step>)
    requires Init(s) && Legal(s, steps)
    ensures Inv(After(s, steps)) && |After(s, steps).dials| == |s.dials|
    ensures |steps| + Sum(Weights(After(s, steps).dials)) <= Sum(Weights(s.dials))
  {
    if steps == [] {
      ConstantSum(Ears(s.dials), 0);
    } else {
      var n := |steps| - 1;
      RunsAreSafeAndBounded(s, steps[..n]);
      StepKeeps(After(s, steps[..n]), steps[n]);
    }
  }

  lemma RunLength(s: System, steps: seq<Step>)
    requires Init(s) && Legal(s, steps)
    ensures |steps| <= |s.dials| * 10
  {
    RunsAreSafeAndBounded(s, steps);
    ConstantSum(Weights(s.dials), 10);
  }

  lemma NextMove(d: Dial) returns (m: Move)
    requires DialInv(d) && !Finished(d)
    ensures CanMove(d, m)
  {
    match d.selector {
      case Listening => m := Listen;
      case Naming => m := Name;
      case Publishing => m := Publish;
      case Spawning => m := Spawn;
      case _ =>
        if d.worker.Dialing? {
          m := Return;
        } else if d.selector.Selecting? {
          m := if d.ok then TakeClient else TakeError;
        } else if d.drainer.Draining? && d.pick.TimedOut? {
          m := DrainWorker;
        } else if d.drainer.Draining? && d.buffer {
          m := DrainTimeout;
        } else {
          m := Wake;
        }
    }
  }

  lemma NotStuck(s: System, i: nat)
    requires Inv(s) && i < |s.dials| && !Finished(s.dials[i])
    ensures !Stuck(s)
  {
    var m := NextMove(s.dials[i]);
    assert Enabled(s, Step(i, m));
  }

  /** However the N dials and their sleepers interleave, a run that cannot go on has no goroutine
      left; with k dials picked up in time there are exactly k listeners, and an entry exactly if
      k is not 0. */
  lemma MaximalRunOutcome(s: System, steps: seq<Step>)
    requires Init(s) && Legal(s, steps) && Stuck(After(s, steps))
    ensures var t := After(s, steps);
      && (forall i :: 0 <= i < |t.dials| ==> Finished(t.dials[i]))
      && t.listeners == Successes(t.dials) <= |s.dials|
      && (t.entry <==> Successes(t.dials) > 0)
  {
    RunsAreSafeAndBounded(s, steps);
    var t := After(s, steps);
    forall i | 0 <= i < |t.dials| ensures Finished(t.dials[i]) {
      if !Finished(t.dials[i]) {
        NotStuck(t, i);
      }
    }
    assert Ears(t.dials) == Picked(t.dials);
    SumOfOnes(Ears(t.dials));
    if i :| 0 <= i < |t.dials| && Published(t.dials[i]) {
      assert Ears(t.dials)[i] == 1;
    }
    if i :| 0 <= i < |t.dials| && Ears(t.dials)[i] == 1 {
      assert Published(t.dials[i]);
    }
  }

  lemma {:induction false} SumOfOnes(s: seq<nat>)
    requires forall i :: 0 <= i < |s| ==> s[i] <= 1
    ensures Sum(s) <= |s|
    ensures Sum(s) > 0 <==> exists i :: 0 <= i < |s| && s[i] == 1
  {
    if s != [] {
      var n := |s| - 1;
      SumOfOnes(s[..n]);
      if i :| 0 <= i < n && s[..n][i] == 1 {
        assert s[i] == 1;
      }
    }
  }
}
