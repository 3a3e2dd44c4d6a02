/** The pattern behind `State.serializer` (state.go) and `Output.serializer` (output.go): one
    goroutine receives requests from any number of clients over an unbuffered channel, carries each
    out completely, and answers those that want an answer before it receives the next.

    `f` is what one request does: the new store, and the answer if there is one. Clients may
    choose each request freely, in the light of everything they have been told. */
module Serializer {
  import opened Prelude

  /** `sent` and `answers`: what the client has had accepted and has been told, in its own order. */
  datatype Client<R, A> = Client(sent: seq<R>, answers: seq<A>)

  datatype Entry<R> = Entry(client: nat, request: R)

  /** `pending`: the serializer is blocked on handing this answer to this client. `log` is the order
      in which requests were accepted. */
  datatype Machine<S, R, A> = Machine(
    store: S, clients: seq<Client<R, A>>, pending: Option<(nat, A)>, log: seq<Entry<R>>)

  datatype Step<R> = Send(client: nat, request: R) | Receive

  ghost predicate Enabled<S(!new), R(!new), A(!new)>(m: Machine<S, R, A>, step: Step<R>) {
    match step
    case Send(c, r) => c < |m.clients| && m.pending.None?
    case Receive => m.pending.Some? && m.pending.value.0 < |m.clients|
  }

  ghost function Next<S(!new), R(!new), A(!new)>(f: (S, R) -> (S, Option<A>), m: Machine<S, R, A>, step: Step<R>): Machine<S, R, A>
    requires Enabled(m, step)
  {
    match step
    case Send(c, r) =>
      var (store, answer) := f(m.store, r);
      Machine(store,
              m.clients[c := m.clients[c].(sent := m.clients[c].sent + [r])],
              if answer.Some? then Some((c, answer.value)) else None,
              m.log + [Entry(c, r)])
    case Receive =>
      var (c, a) := m.pending.value;
      m.(clients := m.clients[c := m.clients[c].(answers := m.clients[c].answers + [a])], pending := None)
  }

  ghost function Start<S(!new), R(!new), A(!new)>(store: S, clients: nat): Machine<S, R, A> {
    Machine(store, seq(clients, _ => Client([], [])), None, [])
  }

  ghost predicate Legal<S(!new), R(!new), A(!new)>(f: (S, R) -> (S, Option<A>), m: Machine<S, R, A>, steps: seq<Step<R>>)
    decreases |steps|, 0
  {
    steps == []
    || (Legal(f, m, steps[..|steps| - 1]) && Enabled(After(f, m, steps[..|steps| - 1]), steps[|steps| - 1]))
  }

  ghost function After<S(!new), R(!new), A(!new)>(
      f: (S, R) -> (S, Option<A>), m: Machine<S, R, A>, steps: seq<Step<R>>): Machine<S, R, A>
    requires Legal(f, m, steps)
    decreases |steps|, 1
  {
    if steps == [] then m else Next(f, After(f, m, steps[..|steps| - 1]), steps[|steps| - 1])
  }

  /* ---------------- the sequential reading of a log ---------------- */

  /** The store after the logged requests, one after the other. */
  function Replay<S, R, A>(f: (S, R) -> (S, Option<A>), store: S, log: seq<Entry<R>>): S {
    if log == [] then store
    else f(Replay(f, store, log[..|log| - 1]), log[|log| - 1].request).0
  }

  /** The requests of one client, in log order. */
  function Requests<R>(log: seq<Entry<R>>, c: nat): seq<R> {
    if log == [] then []
    else Requests(log[..|log| - 1], c) + (if log[|log| - 1].client == c then [log[|log| - 1].request] else [])
  }

  /** The answers of one client when the log is run sequentially. */
  function Answers<S, R, A>(f: (S, R) -> (S, Option<A>), store: S, log: seq<Entry<R>>, c: nat): seq<A> {
    if log == [] then []
    else
      var before := log[..|log| - 1];
      var answer := f(Replay(f, store, before), log[|log| - 1].request).1;
      Answers(f, store, before, c)
      + (if log[|log| - 1].client == c && answer.Some? then [answer.value] else [])
  }

  ghost predicate Linear<S(!new), R(!new), A(!new)>(f: (S, R) -> (S, Option<A>), store: S, m: Machine<S, R, A>) {
    && m.store == Replay(f, store, m.log)
    && (m.pending.Some? ==> m.pending.value.0 < |m.clients|)
    && forall c :: 0 <= c < |m.clients| ==>
         && m.clients[c].sent == Requests(m.log, c)
         && m.clients[c].answers + (if m.pending.Some? && m.pending.value.0 == c then [m.pending.value.1] else [])
            == Answers(f, store, m.log, c)
  }

  lemma StepIsLinear<S(!new), R(!new), A(!new)>(f: (S, R) -> (S, Option<A>), store: S, m: Machine<S, R, A>, step: Step<R>)
    requires Linear(f, store, m) && Enabled(m, step)
    ensures Linear(f, store, Next(f, m, step))
  {
    var t := Next(f, m, step);
    if step.Send? {
      assert t.log[..|t.log| - 1] == m.log;
    }
  }

  /** Every concurrent run is one sequential application of the requests in the order they were
      accepted: the store is what that order gives; every client's requests are in it in the
      client's own order; and every client is told just what the sequential run answers it (the
      last answer may still be on its way). */
  lemma {:induction false} RunsAreSequential<S(!new), R(!new), A(!new)>(
      f: (S, R) -> (S, Option<A>), store: S, clients: nat, steps: seq<Step<R>>)
    requires Legal(f, Start(store, clients), steps)
    ensures Linear(f, store, After(f, Start(store, clients), steps))
  {
    if steps != [] {
      var n := |steps| - 1;
      RunsAreSequential(f, store, clients, steps[..n]);
      StepIsLinear(f, store, After(f, Start(store, clients), steps[..n]), steps[n]);
    }
  }

  /** What every accepted request keeps is kept by every concurrent run. */
  lemma {:induction false} ReplayKeeps<S(!new), R(!new), A(!new)>(
      f: (S, R) -> (S, Option<A>), store: S, log: seq<Entry<R>>, inv: S -> bool, good: R -> bool)
    requires inv(store) && forall e :: e in log ==> good(e.request)
    requires forall s, r :: inv(s) && good(r) ==> inv(f(s, r).0)
    ensures inv(Replay(f, store, log))
  {
    if log != [] {
      var n := |log| - 1;
      ReplayKeeps(f, store, log[..n], inv, good);
      assert log[n] in log;
    }
  }

  /** So what every request keeps holds of the store in every concurrent run. */
  lemma RunsKeep<S(!new), R(!new), A(!new)>(
      f: (S, R) -> (S, Option<A>), store: S, clients: nat, steps: seq<Step<R>>, inv: S -> bool, good: R -> bool)
    requires Legal(f, Start(store, clients), steps)
    requires inv(store) && forall e :: e in After(f, Start(store, clients), steps).log ==> good(e.request)
    requires forall s, r :: inv(s) && good(r) ==> inv(f(s, r).0)
    ensures inv(After(f, Start(store, clients), steps).store)
  {
    RunsAreSequential(f, store, clients, steps);
    ReplayKeeps(f, store, After(f, Start(store, clients), steps).log, inv, good);
  }

  lemma {:induction false} ClientsStay<S(!new), R(!new), A(!new)>(
      f: (S, R) -> (S, Option<A>), store: S, clients: nat, steps: seq<Step<R>>)
    requires Legal(f, Start(store, clients), steps)
    ensures |After(f, Start(store, clients), steps).clients| == clients
  {
    if steps != [] {
      ClientsStay(f, store, clients, steps[..|steps| - 1]);
    }
  }

  lemma Extend<S(!new), R(!new), A(!new)>(
      f: (S, R) -> (S, Option<A>), m: Machine<S, R, A>, steps: seq<Step<R>>, step: Step<R>) returns (longer: seq<Step<R>>)
    requires Legal(f, m, steps) && Enabled(After(f, m, steps), step)
    ensures Legal(f, m, longer) && After(f, m, longer) == Next(f, After(f, m, steps), step)
  {
    longer := steps + [step];
    assert longer[..|steps|] == steps;
  }

  /** A request and its answer, with nobody in between. */
  lemma Call<S(!new), R(!new), A(!new)>(
      f: (S, R) -> (S, Option<A>), m: Machine<S, R, A>, steps: seq<Step<R>>, c: nat, r: R) returns (longer: seq<Step<R>>)
    requires Legal(f, m, steps)
    requires var n := After(f, m, steps); n.pending.None? && c < |n.clients| && f(n.store, r).1.Some?
    ensures Legal(f, m, longer)
    ensures var n := After(f, m, steps);
      var told := Client(n.clients[c].sent + [r], n.clients[c].answers + [f(n.store, r).1.value]);
      After(f, m, longer) == Machine(f(n.store, r).0, n.clients[c := told], None, n.log + [Entry(c, r)])
  {
    longer := Extend(f, m, steps, Send(c, r));
    longer := Extend(f, m, longer, Receive);
  }
}
