/** Terminal output (output.go): newline expansion with its byte count correction, and the goroutine
    that keeps the messages of concurrent senders apart. A char stands for a byte. */
module Output {
  import opened Prelude
  import Serializer

  /* ---------------- newlines ---------------- */

  /** What becomes of one byte. */
  function Head(c: char): string { if c == '\n' then "\n\r" else [c] }

  /** Every "\n" becomes "\n\r". */
  function Expand(s: string): string {
    if s == "" then "" else Head(s[0]) + Expand(s[1..])
  }

  function Newlines(s: string): nat {
    if s == "" then 0 else (if s[0] == '\n' then 1 else 0) + Newlines(s[1..])
  }

  /** Drops the byte after every newline. */
  function Contract(s: string): string {
    if s == "" then ""
    else if s[0] == '\n' && |s| > 1 then ['\n'] + Contract(s[2..])
    else [s[0]] + Contract(s[1..])
  }

  lemma {:induction false} ExpandDistributes(a: string, b: string)
    ensures Expand(a + b) == Expand(a) + Expand(b)
  {
    if a == "" {
      assert a + b == b;
    } else {
      var head, rest := Head(a[0]), Expand(a[1..]);
      ExpandDistributes(a[1..], b);
      assert (a + b)[1..] == a[1..] + b;
      assert Expand(a + b) == head + (rest + Expand(b));
      Associates(head, rest, Expand(b));
    }
  }

  lemma Associates(a: string, b: string, c: string)
    ensures a + (b + c) == (a + b) + c
  {
  }

  lemma {:induction false} ContractUndoesExpand(s: string)
    ensures Contract(Expand(s)) == s
  {
    if s != "" {
      ContractUndoesExpand(s[1..]);
      var rest := Expand(s[1..]);
      if s[0] == '\n' {
        assert Expand(s) == "\n\r" + rest && Expand(s)[2..] == rest;
      } else {
        assert Expand(s) == [s[0]] + rest && Expand(s)[1..] == rest;
      }
    }
  }

  lemma {:induction false} ExpandGrows(s: string)
    ensures |Expand(s)| == |s| + Newlines(s)
  {
    if s != "" {
      ExpandGrows(s[1..]);
    }
  }

  /** After expansion every newline is followed by a carriage return. */
  lemma {:induction false} ExpandedNewlines(s: string, i: nat)
    requires i < |Expand(s)| && Expand(s)[i] == '\n'
    ensures i + 1 < |Expand(s)| && Expand(s)[i + 1] == '\r'
  {
    var head := Head(s[0]);
    assert Expand(s) == head + Expand(s[1..]);
    if i >= |head| {
      ExpandedNewlines(s[1..], i - |head|);
    }
  }

  /** `t` is `s` as a device is to get it: unchanged or, with carriage returns asked for, with one behind every
      newline and nothing else changed. */
  ghost predicate Munges(addCR: bool, s: string, t: string) {
    if !addCR then t == s
    else
      && Contract(t) == s && |t| == |s| + multiset(s)['\n']
      && forall i :: 0 <= i < |t| && t[i] == '\n' ==> i + 1 < |t| && t[i + 1] == '\r'
  }

  lemma {:induction false} NewlinesCounts(s: string)
    ensures Newlines(s) == multiset(s)['\n']
  {
    if s != "" {
      NewlinesCounts(s[1..]);
      assert s == [s[0]] + s[1..];
    }
  }

  lemma ExpandMunges(s: string)
    ensures Munges(true, s, Expand(s))
  {
    ContractUndoesExpand(s);
    ExpandGrows(s);
    NewlinesCounts(s);
    forall i | 0 <= i < |Expand(s)| && Expand(s)[i] == '\n' ensures i + 1 < |Expand(s)| && Expand(s)[i + 1] == '\r' {
      ExpandedNewlines(s, i);
    }
  }

  lemma {:induction false} ExpandOfContract(t: string)
    requires forall i :: 0 <= i < |t| && t[i] == '\n' ==> i + 1 < |t| && t[i + 1] == '\r'
    ensures Expand(Contract(t)) == t
  {
    if t != "" {
      if t[0] == '\n' {
        ExpandOfContract(t[2..]);
        assert Contract(t) == ['\n'] + Contract(t[2..]) && Contract(t)[1..] == Contract(t[2..]);
        assert t == ['\n', t[1]] + t[2..];
      } else {
        ExpandOfContract(t[1..]);
        assert Contract(t)[1..] == Contract(t[1..]);
        assert t == [t[0]] + t[1..];
      }
    }
  }

  /** There is only one such string. */
  lemma MungesIff(addCR: bool, s: string, t: string)
    ensures Munges(addCR, s, t) <==> t == if addCR then Expand(s) else s
  {
    ExpandMunges(s);
    if addCR && Munges(addCR, s, t) {
      ExpandOfContract(t);
    }
  }

  /* ---------------- the serializer ---------------- */

  datatype Device = StdOut | StdErr

  /** One whole write to a device. */
  datatype Line = Line(device: Device, text: string)

  /** `Written(p, taken)`: an io.Writer write of which the device takes the first bytes. */
  datatype Request = Print(line: Line) | Written(p: string, taken: nat)

  datatype Answer = Printed | Count(n: nat)

  /** What reaches a device for one request. */
  function LineOf(r: Request): Line {
    match r
    case Print(line) => line
    case Written(p, taken) => Line(StdOut, if taken <= |p| then p[..taken] else p)
  }

  /** One iteration of the serializer; the store is the log of both devices. */
  function Emit(log: seq<Line>, r: Request): (seq<Line>, Option<Answer>) {
    (log + [LineOf(r)],
     Some(if r.Print? then Printed else Count(|LineOf(r).text|)))
  }

  function LinesOf(requests: seq<Request>): (lines: seq<Line>)
    ensures |lines| == |requests| && forall i :: 0 <= i < |requests| ==> lines[i] == LineOf(requests[i])
  {
    seq(|requests|, i requires 0 <= i < |requests| => LineOf(requests[i]))
  }

  function RequestsOf(log: seq<Serializer.Entry<Request>>): (requests: seq<Request>)
    ensures |requests| == |log| && forall i :: 0 <= i < |log| ==> requests[i] == log[i].request
  {
    seq(|log|, i requires 0 <= i < |log| => log[i].request)
  }

  lemma {:induction false} ReplayLogs(before: seq<Line>, log: seq<Serializer.Entry<Request>>)
    ensures Serializer.Replay(Emit, before, log) == before + LinesOf(RequestsOf(log))
  {
    if log == [] {
      assert before + LinesOf(RequestsOf(log)) == before;
    } else {
      var n := |log| - 1;
      ReplayLogs(before, log[..n]);
      assert LinesOf(RequestsOf(log)) == LinesOf(RequestsOf(log[..n])) + [LineOf(log[n].request)];
    }
  }

  /** What each of any number of concurrent senders has sent appears on the devices line by whole line,
      in the sender's own order, and nothing else does: the device log is the accepted requests, one
      line each, and the accepted requests of one sender are those it sent. */
  lemma {:induction false} LogIsInterleaving(clients: nat, steps: seq<Serializer.Step<Request>>)
    requires Serializer.Legal(Emit, Serializer.Start<seq<Line>, Request, Answer>([], clients), steps)
    ensures var m := Serializer.After(Emit, Serializer.Start<seq<Line>, Request, Answer>([], clients), steps);
      && m.store == LinesOf(RequestsOf(m.log))
      && forall c :: 0 <= c < |m.clients| ==> Serializer.Requests(m.log, c) == m.clients[c].sent
  {
    Serializer.RunsAreSequential(Emit, [], clients, steps);
    var m := Serializer.After(Emit, Serializer.Start<seq<Line>, Request, Answer>([], clients), steps);
    ReplayLogs([], m.log);
    assert [] + LinesOf(RequestsOf(m.log)) == LinesOf(RequestsOf(m.log));
  }

  /* ---------------- callers of doOutput ---------------- */

  /** In `doOutput` a caller waits for an answer on a channel of its own, whether it has sent anything or not. */
  datatype Caller = Idle | Waiting

  datatype Screen = Screen(machine: Serializer.Machine<seq<Line>, Request, Answer>, callers: seq<Caller>, mute: bool)

  datatype Step = Call(c: nat, line: Line) | Return(c: nat) | SetMute(mute: bool)

  predicate AnswerComes(s: Screen, c: nat) { s.machine.pending.Some? && s.machine.pending.value.0 == c }

  ghost predicate Enabled(s: Screen, step: Step) {
    match step
    case Call(c, line) =>
      && c < |s.callers| && s.callers[c].Idle?
      && (s.mute || Serializer.Enabled(s.machine, Serializer.Send(c, Print(line))))
    case Return(c) => c < |s.callers| && AnswerComes(s, c) && Serializer.Enabled(s.machine, Serializer.Receive)
    case SetMute(_) => true
  }

  ghost function Next(s: Screen, step: Step): Screen
    requires Enabled(s, step)
  {
    match step
    case Call(c, line) =>
      Screen(if s.mute then s.machine else Serializer.Next(Emit, s.machine, Serializer.Send(c, Print(line))),
             s.callers[c := Waiting], s.mute)
    case Return(c) => Screen(Serializer.Next(Emit, s.machine, Serializer.Receive), s.callers[c := Idle], s.mute)
    case SetMute(mute) => s.(mute := mute)
  }

  ghost function Start(clients: nat): Screen {
    Screen(Serializer.Start([], clients), seq(clients, _ => Idle), false)
  }

  ghost predicate Legal(clients: nat, steps: seq<Step>)
    decreases |steps|, 0
  {
    steps == []
    || (Legal(clients, steps[..|steps| - 1]) && Enabled(After(clients, steps[..|steps| - 1]), steps[|steps| - 1]))
  }

  ghost function After(clients: nat, steps: seq<Step>): Screen
    requires Legal(clients, steps)
    decreases |steps|, 1
  {
    if steps == [] then Start(clients) else Next(After(clients, steps[..|steps| - 1]), steps[|steps| - 1])
  }

  /** The caller's last call was made while the output was muted. */
  ghost predicate CalledMuted(clients: nat, steps: seq<Step>, c: nat)
    requires Legal(clients, steps)
  {
    steps != []
    && var (front, last) := (steps[..|steps| - 1], steps[|steps| - 1]);
       if last.Call? && last.c == c then After(clients, front).mute else CalledMuted(clients, front, c)
  }

  /** The caller waits, and no answer is on its way to it. */
  predicate Hangs(s: Screen, c: nat) { c < |s.callers| && s.callers[c].Waiting? && !AnswerComes(s, c) }

  lemma StepHangs(s: Screen, step: Step, c: nat)
    requires Enabled(s, step) && c < |s.callers| && (AnswerComes(s, c) ==> s.callers[c].Waiting?)
    ensures var t := Next(s, step);
      && |t.callers| == |s.callers| && (AnswerComes(t, c) ==> t.callers[c].Waiting?)
      && (Hangs(t, c) <==> if step.Call? && step.c == c then s.mute else Hangs(s, c))
  {
  }

  /** In every reachable state, a caller waits for an answer that is not coming exactly if it last called while
      the output was muted. */
  lemma {:induction false} HangsIff(clients: nat, steps: seq<Step>, c: nat)
    requires Legal(clients, steps) && c < clients
    ensures var s := After(clients, steps);
      |s.callers| == clients && (AnswerComes(s, c) ==> s.callers[c].Waiting?)
    ensures Hangs(After(clients, steps), c) <==> CalledMuted(clients, steps, c)
  {
    if steps != [] {
      var n := |steps| - 1;
      HangsIff(clients, steps[..n], c);
      StepHangs(After(clients, steps[..n]), steps[n], c);
    }
  }

  /** And then it waits for ever, whatever the others do and however often the output is unmuted. */
  lemma {:induction false} HangsForEver(clients: nat, steps: seq<Step>, n: nat, c: nat)
    requires Legal(clients, steps) && n <= |steps| && c < clients && Legal(clients, steps[..n])
    requires Hangs(After(clients, steps[..n]), c)
    ensures Hangs(After(clients, steps), c)
  {
    if n < |steps| {
      var front := steps[..|steps| - 1];
      assert front[..n] == steps[..n];
      HangsForEver(clients, front, n, c);
      HangsIff(clients, front, c);
      StepHangs(After(clients, front), steps[|steps| - 1], c);
    } else {
      assert steps[..n] == steps;
    }
  }

  /* ---------------- the object ---------------- */

  class Output {
    const addCR: bool
    var mute: bool
    var debug: bool
    var log: seq<Line>

    constructor (addCR: bool, debug: bool)
      ensures this.addCR == addCR && this.debug == debug && !mute && log == []
    {
      this.addCR, this.debug, mute, log := addCR, debug, false, [];
    }

    /** What is handed to the serializer. */
    function Munged(s: string): string { if addCR then Expand(s) else s }

    /** The io.Writer interface, which pays no attention to `mute`. Of the whole line, which is `p` with a carriage
        return behind every newline if those are asked for, the log gains what the device took. The count is the
        caller's own length exactly if the device took all that it was given. */
    method Write(p: string, taken: nat) returns (n: int, ghost whole: string)
      requires taken <= |p| + (if addCR then multiset(p)['\n'] else 0)
      modifies this`log
      ensures Munges(addCR, p, whole) && taken <= |whole|
      ensures log == old(log) + [Line(StdOut, whole[..taken])]
      ensures n == taken - (if addCR then multiset(p)['\n'] else 0)
      ensures n == |p| <==> taken == |whole|
    {
      MungesIff(addCR, p, Munged(p));
      NewlinesCounts(p);
      var nMatches := 0;
      var replaced := p;
      if addCR {
        nMatches := Newlines(p);
        replaced := Expand(p);
      }
      whole := replaced;
      var (lines, answer) := Emit(log, Written(replaced, taken));
      log := lines;
      n := answer.value.n - nMatches;
    }

    /** Ends only if the output is not muted: otherwise nothing is sent, and the answer is waited for
        all the same. */
    method DoOutput(device: Device, out: string) returns (ends: bool)
      modifies this`log
      ensures ends <==> !mute
      ensures !ends ==> log == old(log)
      ensures ends ==>
        && |log| == |old(log)| + 1 && log[..|old(log)|] == old(log)
        && log[|old(log)|].device == device && Munges(addCR, out, log[|old(log)|].text)
    {
      if !mute {
        MungesIff(addCR, out, Munged(out));
        log := Emit(log, Print(Line(device, Munged(out)))).0;
        return true;
      }
      ends := false;
    }

    method Debug(text: string) returns (ends: bool)
      modifies this`log
      ensures ends <==> !(debug && mute)
      ensures !debug || mute ==> log == old(log)
      ensures debug && !mute ==>
        && |log| == |old(log)| + 1 && log[..|old(log)|] == old(log)
        && log[|old(log)|].device == StdErr && Munges(addCR, text, log[|old(log)|].text)
    {
      ends := true;
      if debug {
        ends := DoOutput(StdErr, text);
      }
    }

    method Mute()
      modifies this`mute
      ensures mute
    {
      mute := true;
    }
  }

  /** Two messages sent one after the other come out as their concatenation would, newlines expanded. */
  lemma ConsecutiveWrites(addCR: bool, a: string, b: string, outA: string, outB: string)
    requires Munges(addCR, a, outA) && Munges(addCR, b, outB)
    ensures Munges(addCR, a + b, outA + outB)
  {
    MungesIff(addCR, a, outA);
    MungesIff(addCR, b, outB);
    ExpandDistributes(a, b);
    MungesIff(addCR, a + b, outA + outB);
  }
}
