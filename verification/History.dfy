/** What the order in which the serializer accepted its requests (state.go) says about the state, about the
    answers, and about whether the program is still there to give any. */
module History {
  import opened Prelude
  import opened State
  import Serializer

  type Log = seq<Serializer.Entry<Request>>

  datatype Table = Targets | Conns | ConnWaits | RunWaits

  predicate Has(s: Store, t: Table, h: string) {
    match t
    case Targets => h in s.targets
    case Conns => h in s.conn
    case ConnWaits => h in s.connWaiters
    case RunWaits => h in s.runWaiters
  }

  predicate Puts(r: Request, t: Table, h: string) {
    match r
    case SetHostInfo(hi) => t.Targets? && hi.hostName == h
    case SetConnInfo(ci) => t.Conns? && ci.hostName == h
    case SetConnWaitInfo(wi) => t.ConnWaits? && wi.hostName == h
    case SetRunWaitInfo(wi) => t.RunWaits? && wi.hostName == h
    case _ => false
  }

  predicate Drops(r: Request, t: Table, h: string) {
    match r
    case DeleteHostInfo(g) => t.Targets? && g == h
    case ClearHostInfo => t.Targets?
    case DeleteConnInfo(g) => t.Conns? && g == h
    case DeleteConnWaitInfo(g) => t.ConnWaits? && g == h
    case DeleteRunWaitInfo(g) => t.RunWaits? && g == h
    case _ => false
  }

  /** The entry that the request takes to be there. */
  function Needs(r: Request): Option<(Table, string)> {
    match r
    case GetHostInfo(h) => Some((Targets, h))
    case SetRequiresPw(h) => Some((Targets, h))
    case GetConnInfo(h) => Some((Conns, h))
    case IncProxyCount(h) => Some((Conns, h))
    case _ => None
  }

  /** The request asks whether the entry is there. */
  predicate Queries(r: Request, t: Table, h: string) {
    (t.Targets? && r == HostExists(h)) || (t.Conns? && r == ConnExists(h))
  }

  /* ---------------- what the log says of the state ---------------- */

  /** The serializer after the logged requests. */
  function After(log: Log): Server { Serializer.Replay(Serve, Up(EMPTY), log) }

  /** The i-th request put the entry, and none has dropped it since. */
  ghost predicate StandsSince(log: Log, i: nat, t: Table, h: string) {
    i < |log| && Puts(log[i].request, t, h) && forall j :: i < j < |log| ==> !Drops(log[j].request, t, h)
  }

  /** The last put of the entry comes after its last drop. */
  ghost predicate Standing(log: Log, t: Table, h: string) {
    exists i: nat :: StandsSince(log, i, t, h)
  }

  /** The i-th request accepted takes for granted an entry that has never been put, or has been dropped. */
  ghost predicate Fatal(log: Log, i: nat) {
    i < |log| && var need := Needs(log[i].request); need.Some? && !Standing(log[..i], need.value.0, need.value.1)
  }

  lemma ServeHas(s: Store, r: Request, t: Table, h: string)
    requires Apply(s, r).Served?
    ensures Has(Apply(s, r).store, t, h) <==> Puts(r, t, h) || (Has(s, t, h) && !Drops(r, t, h))
  {
    match t
    case Targets => ServeTarget(s, r, h);
    case Conns => ServeConn(s, r, h);
    case ConnWaits => ServeConnWait(s, r, h);
    case RunWaits => ServeRunWait(s, r, h);
  }

  lemma ServeTarget(s: Store, r: Request, h: string)
    requires Apply(s, r).Served?
    ensures h in Apply(s, r).store.targets <==> Puts(r, Targets, h) || (h in s.targets && !Drops(r, Targets, h))
  {
  }

  lemma ServeConn(s: Store, r: Request, h: string)
    requires Apply(s, r).Served?
    ensures h in Apply(s, r).store.conn <==> Puts(r, Conns, h) || (h in s.conn && !Drops(r, Conns, h))
  {
  }

  lemma ServeConnWait(s: Store, r: Request, h: string)
    requires Apply(s, r).Served?
    ensures h in Apply(s, r).store.connWaiters <==> Puts(r, ConnWaits, h) || (h in s.connWaiters && !Drops(r, ConnWaits, h))
  {
  }

  lemma ServeRunWait(s: Store, r: Request, h: string)
    requires Apply(s, r).Served?
    ensures h in Apply(s, r).store.runWaiters <==> Puts(r, RunWaits, h) || (h in s.runWaiters && !Drops(r, RunWaits, h))
  {
  }

  lemma PanicsIff(s: Store, r: Request)
    ensures Apply(s, r).Panic? <==> Needs(r).Some? && !Has(s, Needs(r).value.0, Needs(r).value.1)
  {
  }

  lemma StandingStep(log: Log, t: Table, h: string)
    requires log != []
    ensures var (front, r) := (log[..|log| - 1], log[|log| - 1].request);
      Standing(log, t, h) <==> Puts(r, t, h) || (Standing(front, t, h) && !Drops(r, t, h))
  {
    var n := |log| - 1;
    if Standing(log, t, h) && !Puts(log[n].request, t, h) {
      var i: nat :| StandsSince(log, i, t, h);
      assert StandsSince(log[..n], i, t, h);
    }
    if Standing(log[..n], t, h) && !Drops(log[n].request, t, h) {
      var i: nat :| StandsSince(log[..n], i, t, h);
      assert forall j :: i < j < n ==> log[j] == log[..n][j];
      assert StandsSince(log, i, t, h);
    }
    if Puts(log[n].request, t, h) {
      assert StandsSince(log, n, t, h);
    }
  }

  /** While the serializer is up, an entry is there exactly if it stands in the log. */
  lemma {:induction false} HasIff(log: Log, t: Table, h: string)
    requires After(log).Up?
    ensures Has(After(log).store, t, h) <==> Standing(log, t, h)
  {
    if log != [] {
      var n := |log| - 1;
      HasIff(log[..n], t, h);
      StandingStep(log, t, h);
      ServeHas(After(log[..n]).store, log[n].request, t, h);
    }
  }

  /** The serializer has panicked exactly if some request accepted was fatal, which the log alone tells. */
  lemma {:induction false} DownIff(log: Log)
    ensures After(log).Down? <==> exists i: nat :: Fatal(log, i)
  {
    if log != [] {
      var n := |log| - 1;
      DownIff(log[..n]);
      assert forall i: nat :: i < n ==> log[..n][..i] == log[..i];
      assert forall i: nat :: i < n ==> (Fatal(log[..n], i) <==> Fatal(log, i));
      if After(log[..n]).Up? {
        LastIsFatal(log);
      }
    }
  }

  lemma LastIsFatal(log: Log)
    requires log != [] && After(log[..|log| - 1]).Up?
    ensures After(log).Down? <==> Fatal(log, |log| - 1)
  {
    var n := |log| - 1;
    PanicsIff(After(log[..n]).store, log[n].request);
    var need := Needs(log[n].request);
    if need.Some? {
      HasIff(log[..n], need.value.0, need.value.1);
    }
  }

  /** In every run of any clients the program is down exactly if a fatal request was accepted. */
  lemma RunsDownIff(clients: nat, steps: seq<Serializer.Step<Request>>)
    requires Serializer.Legal(Serve, Serializer.Start<Server, Request, Answer>(Up(EMPTY), clients), steps)
    ensures var m := Serializer.After(Serve, Serializer.Start<Server, Request, Answer>(Up(EMPTY), clients), steps);
      m.store.Down? <==> exists i: nat :: Fatal(m.log, i)
  {
    Serializer.RunsAreSequential(Serve, Up(EMPTY), clients, steps);
    DownIff(Serializer.After(Serve, Serializer.Start<Server, Request, Answer>(Up(EMPTY), clients), steps).log);
  }

  /* ---------------- what a request is answered ---------------- */

  function AnswerAt(log: Log, j: nat): Option<Answer>
    requires j < |log|
  {
    Serve(After(log[..j]), log[j].request).1
  }

  /** A put is seen by every later request up to the next drop. */
  lemma PutStands(log: Log, i: nat, j: nat, t: Table, h: string)
    requires i < j <= |log| && Puts(log[i].request, t, h)
    requires forall k :: i < k < j ==> !Drops(log[k].request, t, h)
    ensures Standing(log[..j], t, h)
    ensures After(log[..j]).Up? ==> Has(After(log[..j]).store, t, h)
  {
    assert StandsSince(log[..j], i, t, h);
    if After(log[..j]).Up? {
      HasIff(log[..j], t, h);
    }
  }

  lemma {:induction false} StandingLasts(log: Log, i: nat, j: nat, t: Table, h: string)
    requires i <= j <= |log| && Standing(log[..i], t, h)
    requires forall k :: i <= k < j ==> !Drops(log[k].request, t, h)
    ensures Standing(log[..j], t, h)
  {
    if i < j {
      StandingLasts(log, i, j - 1, t, h);
      assert log[..j][..j - 1] == log[..j - 1];
      StandingStep(log[..j], t, h);
    }
  }

  /** A client that asks first and is told that the entry is there may rely on it, as long as nobody's drop is
      accepted in between. */
  lemma AskingFirstIsSafe(log: Log, i: nat, j: nat, t: Table, h: string)
    requires i < j < |log| && Queries(log[i].request, t, h) && AnswerAt(log, i) == Some(Flag(true))
    requires Needs(log[j].request) == Some((t, h)) && forall k :: i < k < j ==> !Drops(log[k].request, t, h)
    ensures !Fatal(log, j)
  {
    HasIff(log[..i], t, h);
    StandingLasts(log, i, j, t, h);
  }

  /** A query after a put is answered yes. */
  lemma PutIsSeen(log: Log, i: nat, j: nat, t: Table, h: string)
    requires i < j < |log| && Puts(log[i].request, t, h) && Queries(log[j].request, t, h)
    requires After(log[..j]).Up? && forall k :: i < k < j ==> !Drops(log[k].request, t, h)
    ensures AnswerAt(log, j) == Some(Flag(true))
  {
    PutStands(log, i, j, t, h);
  }

  /* ---------------- what a client is told ---------------- */

  /** The request gets an answer. */
  predicate Asks(r: Request) {
    match r
    case GetPTR(_) => true
    case GetAuthPass => true
    case GetHostInfo(_) => true
    case DeleteHostInfo(_) => true
    case ClearHostInfo => true
    case HostExists(_) => true
    case GetConnInfo(_) => true
    case ConnExists(_) => true
    case DeleteConnInfo(_) => true
    case GetHostKeys => true
    case GetConnKeys => true
    case _ => false
  }

  /** How many of the requests get an answer. */
  function Asked(requests: seq<Request>): nat {
    if requests == [] then 0
    else Asked(requests[..|requests| - 1]) + (if Asks(requests[|requests| - 1]) then 1 else 0)
  }

  lemma {:induction false} UpBefore(log: Log, j: nat)
    requires j <= |log| && After(log).Up?
    ensures After(log[..j]).Up?
  {
    if j < |log| {
      UpBefore(log[..|log| - 1], j);
      assert log[..|log| - 1][..j] == log[..j];
    } else {
      assert log[..j] == log;
    }
  }

  lemma ServeAnswers(s: Store, r: Request)
    requires Apply(s, r).Served?
    ensures Apply(s, r).answer.Some? <==> Asks(r)
  {
  }

  lemma OneMoreAsked(requests: seq<Request>, r: Request)
    ensures Asked(requests + [r]) == Asked(requests) + (if Asks(r) then 1 else 0)
  {
    assert (requests + [r])[..|requests|] == requests;
  }

  lemma {:induction false} AnswersCount(log: Log, c: nat)
    requires After(log).Up?
    ensures |Serializer.Answers(Serve, Up(EMPTY), log, c)| == Asked(Serializer.Requests(log, c))
  {
    if log != [] {
      var n := |log| - 1;
      UpBefore(log, n);
      AnswersCount(log[..n], c);
      var s, r := After(log[..n]).store, log[n].request;
      ServeAnswers(s, r);
      assert Serve(Up(s), r).1 == Apply(s, r).answer;
      assert Serializer.Answers(Serve, Up(EMPTY), log, c)
        == Serializer.Answers(Serve, Up(EMPTY), log[..n], c)
           + (if log[n].client == c && Asks(r) then [Apply(s, r).answer.value] else []);
      assert Serializer.Requests(log, c)
        == if log[n].client == c then Serializer.Requests(log[..n], c) + [r] else Serializer.Requests(log[..n], c);
      OneMoreAsked(Serializer.Requests(log[..n], c), log[n].request);
    }
  }

  /** Where the j-th request accepted is among its client's requests, and its answer among the answers. */
  ghost predicate IsPlaced(log: Log, j: nat, before: seq<Request>, c: nat, r: Request, a: Answer) {
    var (requests, answers) := (Serializer.Requests(log, c), Serializer.Answers(Serve, Up(EMPTY), log, c));
    && before + [r] <= requests && Asked(before) < |answers| && answers[Asked(before)] == a
  }

  lemma OnlyGrow(log: Log, c: nat)
    requires log != []
    ensures Serializer.Requests(log[..|log| - 1], c) <= Serializer.Requests(log, c)
    ensures Serializer.Answers(Serve, Up(EMPTY), log[..|log| - 1], c) <= Serializer.Answers(Serve, Up(EMPTY), log, c)
  {
  }

  lemma {:induction false} Placed(log: Log, j: nat)
    requires j < |log| && After(log[..j]).Up? && AnswerAt(log, j).Some?
    ensures var c := log[j].client;
      IsPlaced(log, j, Serializer.Requests(log[..j], c), c, log[j].request, AnswerAt(log, j).value)
  {
    var n, c := |log| - 1, log[j].client;
    if j < n {
      assert log[..n][..j] == log[..j] && log[..n][j] == log[j];
      Placed(log[..n], j);
      OnlyGrow(log, c);
    } else {
      AnswersCount(log[..j], c);
    }
  }

  lemma {:induction false} RequestPlaced(log: Log, i: nat, j: nat)
    requires i < j <= |log|
    ensures var (c, a) := (log[i].client, |Serializer.Requests(log[..i], log[i].client)|);
      a < |Serializer.Requests(log[..j], c)| && Serializer.Requests(log[..j], c)[a] == log[i].request
  {
    if i < j - 1 {
      RequestPlaced(log, i, j - 1);
    }
    assert log[..j][..j - 1] == log[..j - 1];
  }

  /** The j-th request accepted asks for what the i-th, by the same client, has put; nobody has dropped it. */
  ghost predicate AsksForItsPut(log: Log, i: nat, j: nat, t: Table, h: string) {
    && i < j < |log| && log[i].client == log[j].client
    && Puts(log[i].request, t, h) && Queries(log[j].request, t, h) && After(log[..j]).Up?
    && forall k :: i < k < j ==> !Drops(log[k].request, t, h)
  }

  /** The client's own view: its b-th request was the question, and it has been given the answer or is about to be. */
  ghost predicate Told(m: Serializer.Machine<Server, Request, Answer>, c: nat, b: nat, question: Request, a: Answer) {
    && c < |m.clients| && b < |m.clients[c].sent| && m.clients[c].sent[b] == question
    && var (q, answers) := (Asked(m.clients[c].sent[..b]), m.clients[c].answers);
       if q < |answers| then answers[q] == a else q == |answers| && m.pending == Some((c, a))
  }

  lemma LinearTells(m: Serializer.Machine<Server, Request, Answer>, j: nat)
    requires Serializer.Linear(Serve, Up(EMPTY), m) && j < |m.log| && m.log[j].client < |m.clients|
    requires After(m.log[..j]).Up? && AnswerAt(m.log, j).Some?
    ensures Told(m, m.log[j].client, |Serializer.Requests(m.log[..j], m.log[j].client)|, m.log[j].request, AnswerAt(m.log, j).value)
  {
    Placed(m.log, j);
    var c, before := m.log[j].client, Serializer.Requests(m.log[..j], m.log[j].client);
    assert m.clients[c].sent[..|before|] == before && m.clients[c].sent[|before|] == m.log[j].request;
  }

  /** Its a-th request was the put, and to its later b-th, which was the question, it is told yes. */
  ghost predicate ToldYes(m: Serializer.Machine<Server, Request, Answer>, c: nat, a: nat, b: nat, put: Request, question: Request) {
    Told(m, c, b, question, Flag(true)) && a < b && m.clients[c].sent[a] == put
  }

  lemma LinearTellsYes(m: Serializer.Machine<Server, Request, Answer>, i: nat, j: nat, t: Table, h: string)
    requires Serializer.Linear(Serve, Up(EMPTY), m) && AsksForItsPut(m.log, i, j, t, h) && m.log[i].client < |m.clients|
    ensures var c := m.log[i].client;
      ToldYes(m, c, |Serializer.Requests(m.log[..i], c)|, |Serializer.Requests(m.log[..j], c)|, m.log[i].request, m.log[j].request)
  {
    PutIsSeen(m.log, i, j, t, h);
    LinearTells(m, j);
    Placed(m.log, j);
    RequestPlaced(m.log, i, j);
  }

  /** A client that has put an entry, without waiting for an answer to that, and then asks for it is told that
      it is there (or is about to be told), unless somebody's drop was accepted in between. */
  lemma SenderSeesItsPut(clients: nat, steps: seq<Serializer.Step<Request>>, i: nat, j: nat, t: Table, h: string)
    requires Serializer.Legal(Serve, Serializer.Start<Server, Request, Answer>(Up(EMPTY), clients), steps)
    requires var log := Serializer.After(Serve, Serializer.Start<Server, Request, Answer>(Up(EMPTY), clients), steps).log;
      AsksForItsPut(log, i, j, t, h) && log[i].client < clients
    ensures var m := Serializer.After(Serve, Serializer.Start<Server, Request, Answer>(Up(EMPTY), clients), steps);
      var c := m.log[i].client;
      ToldYes(m, c, |Serializer.Requests(m.log[..i], c)|, |Serializer.Requests(m.log[..j], c)|, m.log[i].request, m.log[j].request)
  {
    Serializer.RunsAreSequential(Serve, Up(EMPTY), clients, steps);
    Serializer.ClientsStay(Serve, Up(EMPTY), clients, steps);
    LinearTellsYes(Serializer.After(Serve, Serializer.Start<Server, Request, Answer>(Up(EMPTY), clients), steps), i, j, t, h);
  }

  /* ---------------- a check that is overtaken ---------------- */

  lemma Overtaken(s: Store, h: string)
    requires h in s.conn
    ensures Serve(Up(s), ConnExists(h)) == (Up(s), Some(Flag(true)))
    ensures Serve(Up(s), DeleteConnInfo(h)) == (Up(s.(conn := s.conn - {h})), Some(Flag(true)))
    ensures Serve(Up(s.(conn := s.conn - {h})), GetConnInfo(h)) == (Down, None)
  {
  }

  /** Whenever a connection is there and nobody waits for an answer, one client can be told that it exists,
      another's delete can be accepted, and the first one's next request ends the program. */
  lemma DeleteInBetween(clients: nat, steps: seq<Serializer.Step<Request>>, c: nat, d: nat, h: string)
      returns (longer: seq<Serializer.Step<Request>>)
    requires Serializer.Legal(Serve, Serializer.Start<Server, Request, Answer>(Up(EMPTY), clients), steps)
    requires c < clients && d < clients && c != d
    requires var m := Serializer.After(Serve, Serializer.Start<Server, Request, Answer>(Up(EMPTY), clients), steps);
      m.pending.None? && m.store.Up? && h in m.store.store.conn
    ensures Serializer.Legal(Serve, Serializer.Start<Server, Request, Answer>(Up(EMPTY), clients), longer)
    ensures var start := Serializer.Start<Server, Request, Answer>(Up(EMPTY), clients);
      var (m, l) := (Serializer.After(Serve, start, steps), Serializer.After(Serve, start, longer));
      && l.store.Down? && |l.clients| == |m.clients| == clients
      && l.clients[c].answers == m.clients[c].answers + [Flag(true)]
      && l.log == m.log + [Serializer.Entry(c, ConnExists(h)), Serializer.Entry(d, DeleteConnInfo(h)),
                           Serializer.Entry(c, GetConnInfo(h))]
  {
    var start := Serializer.Start<Server, Request, Answer>(Up(EMPTY), clients);
    Serializer.ClientsStay(Serve, Up(EMPTY), clients, steps);
    var m := Serializer.After(Serve, start, steps);
    var s := m.store.store;
    Overtaken(s, h);
    longer := Serializer.Call(Serve, start, steps, c, ConnExists(h));
    assert Serializer.After(Serve, start, longer).store == Up(s);
    longer := Serializer.Call(Serve, start, longer, d, DeleteConnInfo(h));
    assert Serializer.After(Serve, start, longer).store == Up(s.(conn := s.conn - {h}));
    longer := Serializer.Extend(Serve, start, longer, Serializer.Send(c, GetConnInfo(h)));
  }

  /** It does happen: a run of two clients from the empty state in which the one that asked first is the one
      that brings the program down. */
  lemma AskingFirstIsNotEnough(ci: ConnInfo) returns (steps: seq<Serializer.Step<Request>>)
    ensures var start := Serializer.Start<Server, Request, Answer>(Up(EMPTY), 2);
      && Serializer.Legal(Serve, start, steps)
      && var m := Serializer.After(Serve, start, steps);
         m.store.Down? && |m.clients| == 2 && m.clients[0].answers == [Flag(true)]
  {
    var start := Serializer.Start<Server, Request, Answer>(Up(EMPTY), 2);
    steps := Serializer.Extend(Serve, start, [], Serializer.Send(0, SetConnInfo(ci)));
    steps := DeleteInBetween(2, steps, 0, 1, ci.hostName);
  }
}
