/** Whom an abort reaches (`Race`): the `timeoutWaiters` branch of the state serializer (state.go) ranges over the
    connection waiters, then over the run waiters, and sends to each of them. */
module Sweeps {
  import opened Prelude
  import opened Race

  /** `ids` are the requests that the entries of a waiter map lead to, one for each entry. */
  ghost predicate ListsAll(ids: seq<nat>, w: map<string, nat>) {
    |ids| == |w| && forall x :: x in ids <==> exists h :: h in w && w[h] == x
  }

  lemma LookupListsAll(keys: seq<string>, w: map<string, nat>)
    requires Enumerates(keys, w.Keys)
    ensures ListsAll(Lookup(keys, w), w)
  {
    EnumerationSize(keys, w.Keys);
    var ids := Lookup(keys, w);
    forall h | h in w ensures w[h] in ids {
      var j :| 0 <= j < |keys| && keys[j] == h;
      assert ids[j] == w[h];
    }
    forall x | x in ids ensures exists h :: h in w && w[h] == x {
      var j :| 0 <= j < |ids| && ids[j] == x;
      assert keys[j] in w && w[keys[j]] == x;
    }
  }

  /** A sweep that has just begun is to send to all connection waiters and then to all run waiters, and to nobody
      else; each of those has one more hit, and nothing else has happened to any request. */
  ghost predicate SweepBegun(s: System, t: System) {
    && t.serializer.Sweeping?
    && (exists conns, runs :: t.serializer.todo == conns + runs && ListsAll(conns, s.connWaiters) && ListsAll(runs, s.runWaiters))
    && t.connWaiters == s.connWaiters && t.runWaiters == s.runWaiters && t.aborts == s.aborts - 1
    && |t.reqs| == |s.reqs|
    && forall i :: 0 <= i < |s.reqs| ==>
         t.reqs[i] == s.reqs[i].(hits := s.reqs[i].hits + One(HasEntry(s, i)))
  }

  /** Some waiter entry leads to the request. */
  ghost predicate HasEntry(s: System, i: nat) {
    (exists h :: h in s.connWaiters && s.connWaiters[h] == i) || (exists h :: h in s.runWaiters && s.runWaiters[h] == i)
  }

  lemma BeginListsAll(s: System, connKeys: seq<string>, runKeys: seq<string>)
    requires Enabled(s, BeginSweep(connKeys, runKeys))
    ensures SweepBegun(s, Next(s, BeginSweep(connKeys, runKeys)))
  {
    var conns, runs := Lookup(connKeys, s.connWaiters), Lookup(runKeys, s.runWaiters);
    LookupListsAll(connKeys, s.connWaiters);
    LookupListsAll(runKeys, s.runWaiters);
    var t := Next(s, BeginSweep(connKeys, runKeys));
    assert t.serializer.todo == conns + runs;
    forall i | 0 <= i < |s.reqs| ensures t.reqs[i] == s.reqs[i].(hits := s.reqs[i].hits + One(HasEntry(s, i))) {
      assert i in conns + runs <==> i in conns || i in runs;
    }
  }

  /** Every request in flight, and no other, has one more hit. */
  ghost predicate HitsInFlight(s: System, t: System) {
    |t.reqs| == |s.reqs|
    && forall i :: 0 <= i < |s.reqs| ==> t.reqs[i].hits == s.reqs[i].hits + One(Registered(s.reqs[i]))
  }

  lemma EntryIff(s: System, i: nat)
    requires WaitersLive(s) && Covered(s) && i < |s.reqs|
    ensures HasEntry(s, i) <==> Registered(s.reqs[i])
  {
    if h :| h in s.connWaiters && s.connWaiters[h] == i {
      assert h in Waiters(s, Conn);
    }
    if h :| h in s.runWaiters && s.runWaiters[h] == i {
      assert h in Waiters(s, Run);
    }
    if Registered(s.reqs[i]) {
      assert s.reqs[i].host in Waiters(s, s.reqs[i].kind);
    }
  }

  lemma CoveredIsHit(s: System, connKeys: seq<string>, runKeys: seq<string>)
    requires WaitersLive(s) && Covered(s) && Enabled(s, BeginSweep(connKeys, runKeys))
    ensures HitsInFlight(s, Next(s, BeginSweep(connKeys, runKeys)))
  {
    BeginListsAll(s, connKeys, runKeys);
    forall i: nat | i < |s.reqs| ensures HasEntry(s, i) <==> Registered(s.reqs[i]) {
      EntryIff(s, i);
    }
  }

  /** In every run, a sweep that begins hits every request in flight and no other. */
  ghost predicate AllSweepsHit(s: System) {
    forall steps, connKeys, runKeys :: Legal(s, steps) && Enabled(After(s, steps), BeginSweep(connKeys, runKeys)) ==>
      HitsInFlight(After(s, steps), Next(After(s, steps), BeginSweep(connKeys, runKeys)))
  }

  /** Two requests of one kind for one host have registered, and nothing else has happened. */
  lemma BothRegister(s: System, i: nat, j: nat) returns (steps: seq<Step>)
    requires Init(s) && i < j < |s.reqs| && s.reqs[i].kind == s.reqs[j].kind && s.reqs[i].host == s.reqs[j].host
    ensures Legal(s, steps)
    ensures var (t, entry) := (After(s, steps), map[s.reqs[j].host := j]);
      && t.serializer.Idle? && t.aborts == s.aborts && |t.reqs| == |s.reqs| && Registered(t.reqs[i])
      && t.connWaiters == (if s.reqs[j].kind.Conn? then entry else map[])
      && t.runWaiters == (if s.reqs[j].kind.Run? then entry else map[])
  {
    steps := Registers(s, [], i);
    steps := Registers(s, steps, j);
  }

  /** The one entry there is can be enumerated, and leads to nobody else. */
  lemma OneEntry(s: System, k: Kind, h: string, j: nat) returns (connKeys: seq<string>, runKeys: seq<string>)
    requires s.serializer.Idle? && s.aborts > 0 && j < |s.reqs|
    requires s.connWaiters == (if k.Conn? then map[h := j] else map[])
    requires s.runWaiters == (if k.Run? then map[h := j] else map[])
    ensures Enabled(s, BeginSweep(connKeys, runKeys))
    ensures forall i: nat :: i != j ==> !HasEntry(s, i)
  {
    connKeys, runKeys := if k.Conn? then [h] else [], if k.Run? then [h] else [];
  }

  lemma UnlistedIsMissed(s: System, connKeys: seq<string>, runKeys: seq<string>, i: nat)
    requires Enabled(s, BeginSweep(connKeys, runKeys)) && i < |s.reqs| && Registered(s.reqs[i]) && !HasEntry(s, i)
    ensures !HitsInFlight(s, Next(s, BeginSweep(connKeys, runKeys)))
  {
    BeginListsAll(s, connKeys, runKeys);
  }

  /** The sweep that begins then misses the first. */
  lemma HiddenIsMissed(s: System, i: nat, j: nat) returns (steps: seq<Step>, connKeys: seq<string>, runKeys: seq<string>)
    requires Init(s) && s.aborts > 0
    requires i < j < |s.reqs| && s.reqs[i].kind == s.reqs[j].kind && s.reqs[i].host == s.reqs[j].host
    ensures Legal(s, steps) && Enabled(After(s, steps), BeginSweep(connKeys, runKeys))
    ensures !HitsInFlight(After(s, steps), Next(After(s, steps), BeginSweep(connKeys, runKeys)))
  {
    steps := BothRegister(s, i, j);
    connKeys, runKeys := OneEntry(After(s, steps), s.reqs[j].kind, s.reqs[j].host, j);
    UnlistedIsMissed(After(s, steps), connKeys, runKeys, i);
  }

  /** An abort reaches just the requests in flight, in every run, exactly if there is no abort or requests of one
      kind are for different hosts. */
  lemma SweepsHitIff(s: System)
    requires Init(s)
    ensures AllSweepsHit(s) <==> s.aborts == 0 || DistinctHosts(s)
  {
    if DistinctHosts(s) {
      forall steps, connKeys, runKeys | Legal(s, steps) && Enabled(After(s, steps), BeginSweep(connKeys, runKeys))
        ensures HitsInFlight(After(s, steps), Next(After(s, steps), BeginSweep(connKeys, runKeys)))
      {
        RunsAreSafeAndBounded(s, steps);
        InFlightIsCovered(s, steps);
        CoveredIsHit(After(s, steps), connKeys, runKeys);
      }
    } else if s.aborts == 0 {
      forall steps | Legal(s, steps) ensures After(s, steps).aborts == 0 {
        AbortsUsedUp(s, steps);
      }
    } else {
      var i, j :| 0 <= i < j < |s.reqs| && s.reqs[i].kind == s.reqs[j].kind && s.reqs[i].host == s.reqs[j].host;
      var steps, connKeys, runKeys := HiddenIsMissed(s, i, j);
    }
  }

  lemma {:induction false} AbortsUsedUp(s: System, steps: seq<Step>)
    requires Legal(s, steps)
    ensures After(s, steps).aborts <= s.aborts
  {
    if steps != [] {
      AbortsUsedUp(s, steps[..|steps| - 1]);
    }
  }

  /** Once the serializer is idle again, every hit has been sent: the request's timeout channel has been given as
      many values as there were hits, and one more if its own sleeper fired. */
  lemma HitsAreDelivered(s: System, steps: seq<Step>, i: nat)
    requires Init(s) && Legal(s, steps) && After(s, steps).serializer.Idle? && i < |After(s, steps).reqs|
    ensures var r := After(s, steps).reqs[i];
      One(r.buffer.Some?) + Taken(r) == r.hits + One(r.sleeper.Slept?)
  {
    RunsAreSafeAndBounded(s, steps);
    assert RequestInv(After(s, steps).reqs[i], Swept(After(s, steps), i));
  }
}
