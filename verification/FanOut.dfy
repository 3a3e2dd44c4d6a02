/** The dials to a direct link (`DirectDial`) seen from the net: what the listeners they start and the entries
    they set add up to, and what the teardown's cleanups make of it. */
module FanOut {
  import opened Prelude
  import opened State
  import opened Resolve
  import opened DirectDial
  import opened Teardown

  /** A listener starts on the link's channel, or the entry is set; no other move of a dial touches the net. */
  function Acted(n: Net, ci: ConnInfo, move: Move): Net {
    var named := ci.(hostName := NameOf(n.store, ci.hostName));
    match move
    case Listen => n.(listeners := n.listeners[ci.reqChan := Crew(named.hostName, Left(n, ci.reqChan) + 1)])
    case Publish => n.(store := Apply(n.store, SetConnInfo(named)).store)
    case _ => n
  }

  /** The net after a run of the dials. */
  function NetAfter(n: Net, ci: ConnInfo, steps: seq<DirectDial.Step>): Net {
    if steps == [] then n else Acted(NetAfter(n, ci, steps[..|steps| - 1]), ci, steps[|steps| - 1].move)
  }

  /** The net with some listeners on the link's channel, and its entry set or not. */
  ghost predicate Shows(n: Net, ci: ConnInfo, m: Net, listeners: nat, entry: bool) {
    var named := ci.(hostName := NameOf(n.store, ci.hostName));
    && m.carrier == n.carrier && m.calls == n.calls
    && m.listeners == (if listeners == 0 then n.listeners else n.listeners[ci.reqChan := Crew(named.hostName, listeners)])
    && m.store == if entry then Apply(n.store, SetConnInfo(named)).store else n.store
  }

  lemma ActedShows(n: Net, ci: ConnInfo, m: Net, listeners: nat, entry: bool, move: Move)
    requires ci.reqChan !in n.listeners && Shows(n, ci, m, listeners, entry)
    ensures Shows(n, ci, Acted(m, ci, move), listeners + (if move.Listen? then 1 else 0), entry || move.Publish?)
  {
  }

  lemma {:induction false} RunShows(n: Net, ci: ConnInfo, s: DirectDial.System, steps: seq<DirectDial.Step>)
    requires ci.reqChan !in n.listeners && Init(s) && Legal(s, steps)
    ensures Shows(n, ci, NetAfter(n, ci, steps), After(s, steps).listeners, After(s, steps).entry)
  {
    if steps != [] {
      var k := |steps| - 1;
      RunShows(n, ci, s, steps[..k]);
      ActedShows(n, ci, NetAfter(n, ci, steps[..k]), After(s, steps[..k]).listeners, After(s, steps[..k]).entry, steps[k].move);
    }
  }

  /** However the dials interleave, a run that cannot go on has changed the net just as `Resolve.Network.Dial`
      does with the number of dials picked up in time, which is at most the number of dials. */
  lemma FanOutIsDial(n: Net, ci: ConnInfo, s: DirectDial.System, steps: seq<DirectDial.Step>)
    requires ci.reqChan !in n.listeners && Init(s) && Legal(s, steps) && Stuck(After(s, steps))
    ensures var k := Successes(After(s, steps).dials);
      && k <= |s.dials|
      && NetAfter(n, ci, steps) == if k == 0 then n else Join(n, ci, k, None)
  {
    MaximalRunOutcome(s, steps);
    RunShows(n, ci, s, steps);
  }

  /** Once a link has been dialed N times, N cleanups of its entry get through exactly if all N dials were picked
      up; then nobody listens on its channel any more. Otherwise they block when none is left. */
  lemma CleanupsMatchDials(n: Net, ci: ConnInfo, s: DirectDial.System, steps: seq<DirectDial.Step>, server: bool)
    requires ci.reqChan !in n.listeners && Init(s) && Legal(s, steps) && Stuck(After(s, steps)) && (ci.isProxy || server)
    ensures var (r, m) := Cleanups(NetAfter(n, ci, steps), ci, |s.dials|, server);
      && (r.Finished? <==> Successes(After(s, steps).dials) == |s.dials|)
      && (r.Finished? || r.Blocked?) && Left(m, ci.reqChan) == 0
  {
    FanOutIsDial(n, ci, s, steps);
    CleanupsEffect(NetAfter(n, ci, steps), ci, |s.dials|, server);
    NeverPanics(NetAfter(n, ci, steps), ci, |s.dials|, server);
    assert Left(NetAfter(n, ci, steps), ci.reqChan) == Successes(After(s, steps).dials);
  }

  lemma {:induction false} NeverPanics(n: Net, ci: ConnInfo, times: nat, server: bool)
    requires ci.isProxy || server
    ensures !Cleanups(n, ci, times, server).0.Panicked?
  {
    if times > 0 {
      NeverPanics(n, ci, times - 1, server);
    }
  }
}
