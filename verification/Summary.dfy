/** The counting loop of `printSummary` (summary.go). */
module Summary {
  import opened Prelude
  import opened State

  const ERRS: seq<string> := [
    "connection refused",
    "too many open files",
    "connection reset by peer",
    "no supported methods remain",
    "administratively prohibited",
    "no route to host",
    "connection timed out",
    "connection aborted",
    "unexpected packet",
    "run timed out",
    "run aborted",
    "eof",
    "no common algorithm",
    "process exited with status"]

  const UNKNOWN := "unknown error"

  /* ---------------- the error a host is counted under ---------------- */

  /** `strings.ToLower`, for ASCII. */
  function Lower(s: string): string {
    seq(|s|, i requires 0 <= i < |s| => if 'A' <= s[i] <= 'Z' then s[i] - 'A' + 'a' else s[i])
  }

  predicate At(s: string, part: string, i: nat) { i + |part| <= |s| && s[i..i + |part|] == part }

  /** `strings.Contains`. */
  predicate Contains(s: string, part: string) { exists i :: 0 <= i <= |s| && At(s, part, i) }

  /** The first known error from `e` on that the text contains. */
  function FirstKnown(text: string, e: nat): (k: Option<nat>)
    requires e <= |ERRS|
    ensures k.Some? ==> e <= k.value < |ERRS|
    decreases |ERRS| - e
  {
    if e == |ERRS| then None
    else if Contains(Lower(text), ERRS[e]) then Some(e)
    else FirstKnown(text, e + 1)
  }

  function KeyOf(text: string): string {
    match FirstKnown(text, 0) case Some(e) => ERRS[e] case None => UNKNOWN
  }

  /** A host is counted under the first of the known errors that its text contains, in whatever case,
      and under "unknown" only if it contains none of them. */
  lemma KeyIsFirst(text: string)
    ensures KeyOf(text) == UNKNOWN <==> forall e :: 0 <= e < |ERRS| ==> !Contains(Lower(text), ERRS[e])
    ensures KeyOf(text) != UNKNOWN ==>
      (exists e :: 0 <= e < |ERRS| && KeyOf(text) == ERRS[e] && Contains(Lower(text), ERRS[e])
                   && forall d :: 0 <= d < e ==> !Contains(Lower(text), ERRS[d]))
  {
    FirstKnownIs(text, 0);
    assert forall e :: 0 <= e < |ERRS| ==> ERRS[e] != UNKNOWN;
  }

  lemma {:induction false} FirstKnownIs(text: string, e: nat)
    requires e <= |ERRS|
    ensures match FirstKnown(text, e)
      case None => forall d :: e <= d < |ERRS| ==> !Contains(Lower(text), ERRS[d])
      case Some(k) => Contains(Lower(text), ERRS[k]) && forall d :: e <= d < k ==> !Contains(Lower(text), ERRS[d])
    decreases |ERRS| - e
  {
    if e < |ERRS| && !Contains(Lower(text), ERRS[e]) {
      FirstKnownIs(text, e + 1);
    }
  }

  /** Two letters, one the capital of the other. */
  predicate Capital(upper: char, lower: char) {
    'A' <= upper <= 'Z' && 'a' <= lower <= 'z' && upper as int - 'A' as int == lower as int - 'a' as int
  }

  /** The texts differ at most in the case of their letters. */
  ghost predicate SameButCase(a: string, b: string) {
    |a| == |b| && forall i :: 0 <= i < |a| ==> a[i] == b[i] || Capital(a[i], b[i]) || Capital(b[i], a[i])
  }

  /** Lower-casing changes nothing but case and leaves no capital; there is only one such text. */
  lemma LowerIff(s: string, t: string)
    ensures t == Lower(s) <==> SameButCase(s, t) && forall i :: 0 <= i < |t| ==> !('A' <= t[i] <= 'Z')
  {
    var low := Lower(s);
    assert forall i :: 0 <= i < |s| ==> low[i] == s[i] || Capital(s[i], low[i]);
    if SameButCase(s, t) && forall i :: 0 <= i < |t| ==> !('A' <= t[i] <= 'Z') {
      forall i | 0 <= i < |t| ensures t[i] == low[i] {
        assert t[i] == s[i] || Capital(s[i], t[i]);
      }
    }
  }

  /** Errors whose texts differ only in case are counted under the same key. */
  lemma CaseDoesNotMatter(a: string, b: string)
    requires SameButCase(a, b)
    ensures KeyOf(a) == KeyOf(b)
  {
    var low := Lower(b);
    LowerIff(b, low);
    forall i | 0 <= i < |a| ensures a[i] == low[i] || Capital(a[i], low[i]) || Capital(low[i], a[i]) {
      assert b[i] == low[i] || Capital(b[i], low[i]);
    }
    LowerIff(a, low);
    SameKeys(a, b, 0);
  }

  lemma {:induction false} SameKeys(a: string, b: string, e: nat)
    requires Lower(a) == Lower(b) && e <= |ERRS|
    ensures FirstKnown(a, e) == FirstKnown(b, e)
    decreases |ERRS| - e
  {
    if e < |ERRS| {
      SameKeys(a, b, e + 1);
    }
  }

  /* ---------------- hosts by what is known of them ---------------- */

  /** The listed hosts of which `p` holds, in the order listed. */
  function Select(targets: map<string, HostInfo>, hk: seq<string>, p: HostInfo -> bool): seq<string>
    requires forall h :: h in hk ==> h in targets
  {
    if hk == [] then []
    else
      var n := |hk| - 1;
      assert hk[n] in hk && forall h :: h in hk[..n] ==> h in hk;
      Select(targets, hk[..n], p) + (if p(targets[hk[n]]) then [hk[n]] else [])
  }

  lemma {:induction false} SelectSplits(targets: map<string, HostInfo>, hk: seq<string>,
                                        p: HostInfo -> bool, q: HostInfo -> bool, r: HostInfo -> bool)
    requires forall h :: h in hk ==> h in targets
    requires forall h :: h in hk ==> (p(targets[h]) <==> q(targets[h]) || r(targets[h])) && !(q(targets[h]) && r(targets[h]))
    ensures |Select(targets, hk, p)| == |Select(targets, hk, q)| + |Select(targets, hk, r)|
  {
    if hk != [] {
      var n := |hk| - 1;
      assert hk[n] in hk && forall h :: h in hk[..n] ==> h in hk;
      SelectSplits(targets, hk[..n], p, q, r);
    }
  }

  /** Over all targets, however they are listed: these are the hosts of which `p` holds. */
  lemma {:induction false} SelectEnumerates(targets: map<string, HostInfo>, hk: seq<string>, p: HostInfo -> bool)
    requires Enumerates(hk, targets.Keys)
    ensures Enumerates(Select(targets, hk, p), set h | h in targets && p(targets[h]))
    ensures |Select(targets, hk, p)| == |set h | h in targets && p(targets[h])|
  {
    SelectMembers(targets, hk, p);
    EnumerationSize(Select(targets, hk, p), set h | h in targets && p(targets[h]));
  }

  lemma {:induction false} SelectMembers(targets: map<string, HostInfo>, hk: seq<string>, p: HostInfo -> bool)
    requires NoDup(hk) && forall h :: h in hk ==> h in targets
    ensures NoDup(Select(targets, hk, p))
    ensures forall h :: h in Select(targets, hk, p) <==> h in hk && p(targets[h])
  {
    if hk != [] {
      var n := |hk| - 1;
      assert hk[n] in hk && hk[n] !in hk[..n] && forall h :: h in hk <==> h in hk[..n] || h == hk[n];
      SelectMembers(targets, hk[..n], p);
      var front := Select(targets, hk[..n], p);
      assert forall i :: 0 <= i < |front| ==> front[i] in front;
    }
  }

  const RUN_OK := (hi: HostInfo) => hi.runOK
  const RUN_ONCE := (hi: HostInfo) => hi.runOnce
  const RUN_FAILED := (hi: HostInfo) => hi.runOnce && !hi.runOK
  const CONNECTED_OK := (hi: HostInfo) => hi.connectedOK
  const PROMPTED := (hi: HostInfo) => hi.connectedOK && hi.requiresPw

  /** The last error came up while connecting (or running). */
  function HasError(connecting: bool): HostInfo -> bool {
    (hi: HostInfo) => hi.lastError.Some? && hi.connectedOK != connecting
  }

  /** How error texts are told apart: the key a text is counted under, and the key for the rest. */
  datatype Reading = Reading(key: string -> string, unknown: string)

  const READING := Reading(KeyOf, UNKNOWN)

  /** The same, and is counted under `key` by the given reading of error texts. */
  function FailedBy(r: Reading, connecting: bool, key: string): HostInfo -> bool {
    (hi: HostInfo) => hi.lastError.Some? && hi.connectedOK != connecting && r.key(hi.lastError.value) == key
  }

  /* ---------------- the counters ---------------- */

  /** How often each error came up, and the hosts of the known ones. */
  datatype Errors = Errors(counts: map<string, nat>, hosts: map<string, seq<string>>)

  function CountOf(errors: Errors, key: string): nat { if key in errors.counts then errors.counts[key] else 0 }

  function HostsOf(errors: Errors, key: string): seq<string> { if key in errors.hosts then errors.hosts[key] else [] }

  function Counted(errors: Errors, key: string, host: Option<string>): Errors {
    Errors(errors.counts[key := CountOf(errors, key) + 1],
           if host.Some? then errors.hosts[key := HostsOf(errors, key) + [host.value]] else errors.hosts)
  }

  datatype Counters = Counters(
    runOK: nat, runOnce: nat, connectedOK: nat, requiresPw: nat, requiresPwHosts: seq<string>,
    connectErrors: Errors, runErrors: Errors)

  ghost predicate ErrorsRight(r: Reading, targets: map<string, HostInfo>, hk: seq<string>, connecting: bool, errors: Errors)
    requires forall h :: h in hk ==> h in targets
  {
    && (forall key :: CountOf(errors, key) == |Select(targets, hk, FailedBy(r, connecting, key))|)
    && (forall key :: HostsOf(errors, key) == if key == r.unknown then [] else Select(targets, hk, FailedBy(r, connecting, key)))
  }

  ghost predicate Right(r: Reading, targets: map<string, HostInfo>, hk: seq<string>, c: Counters)
    requires forall h :: h in hk ==> h in targets
  {
    && c.runOK == |Select(targets, hk, RUN_OK)|
    && c.runOnce == |Select(targets, hk, RUN_ONCE)|
    && c.connectedOK == |Select(targets, hk, CONNECTED_OK)|
    && c.requiresPw == |c.requiresPwHosts|
    && c.requiresPwHosts == Select(targets, hk, PROMPTED)
    && ErrorsRight(r, targets, hk, true, c.connectErrors)
    && ErrorsRight(r, targets, hk, false, c.runErrors)
  }

  /** The search loop; None after it has run through. */
  method Search(text: string) returns (found: Option<string>)
    ensures found.Some? ==> found.value == KeyOf(text) != UNKNOWN
    ensures found.None? ==> KeyOf(text) == UNKNOWN
  {
    KeyIsFirst(text);
    found := None;
    for e := 0 to |ERRS|
      invariant found.None? && FirstKnown(text, 0) == FirstKnown(text, e)
    {
      var errstr := Lower(text);
      if Contains(errstr, ERRS[e]) {
        return Some(ERRS[e]);
      }
    }
  }

  lemma SelectStep(targets: map<string, HostInfo>, hk: seq<string>, p: HostInfo -> bool)
    requires hk != [] && forall h :: h in hk ==> h in targets
    ensures hk[|hk| - 1] in hk && forall h :: h in hk[..|hk| - 1] ==> h in targets
    ensures Select(targets, hk, p)
         == Select(targets, hk[..|hk| - 1], p) + (if p(targets[hk[|hk| - 1]]) then [hk[|hk| - 1]] else [])
  {
    assert hk[|hk| - 1] in hk;
  }

  /** The effect of one host on one of the two error tables. */
  function Entered(r: Reading, connecting: bool, errors: Errors, hi: HostInfo, host: string): Errors {
    if hi.lastError.None? || hi.connectedOK == connecting then errors
    else
      var key := r.key(hi.lastError.value);
      Counted(errors, key, if key == r.unknown then None else Some(host))
  }

  lemma OneMoreHost(r: Reading, targets: map<string, HostInfo>, hk: seq<string>, connecting: bool, before: Errors)
    requires hk != [] && (forall h :: h in hk ==> h in targets) && (forall h :: h in hk[..|hk| - 1] ==> h in targets)
    requires hk[|hk| - 1] in hk && ErrorsRight(r, targets, hk[..|hk| - 1], connecting, before)
    ensures ErrorsRight(r, targets, hk, connecting, Entered(r, connecting, before, targets[hk[|hk| - 1]], hk[|hk| - 1]))
  {
    var h := hk[|hk| - 1];
    var after := Entered(r, connecting, before, targets[h], h);
    forall key
      ensures CountOf(after, key) == |Select(targets, hk, FailedBy(r, connecting, key))|
      ensures HostsOf(after, key) == if key == r.unknown then [] else Select(targets, hk, FailedBy(r, connecting, key))
    {
      SelectStep(targets, hk, FailedBy(r, connecting, key));
      EnteredAt(r, connecting, before, targets[h], h, key);
    }
  }

  lemma EnteredAt(r: Reading, connecting: bool, errors: Errors, hi: HostInfo, host: string, key: string)
    ensures var after, hit := Entered(r, connecting, errors, hi, host), FailedBy(r, connecting, key)(hi);
      && CountOf(after, key) == CountOf(errors, key) + (if hit then 1 else 0)
      && HostsOf(after, key) == HostsOf(errors, key) + (if hit && key != r.unknown then [host] else [])
  {
  }

  lemma CountersStart(r: Reading, targets: map<string, HostInfo>)
    ensures Right(r, targets, [], Counters(0, 0, 0, 0, [], Errors(map[], map[]), Errors(map[], map[])))
  {
  }

  /** The effect of one host on all counters. */
  function Tallied(r: Reading, c: Counters, hi: HostInfo, host: string): Counters {
    Counters(c.runOK + (if hi.runOK then 1 else 0),
             c.runOnce + (if hi.runOnce then 1 else 0),
             c.connectedOK + (if hi.connectedOK then 1 else 0),
             c.requiresPw + (if hi.connectedOK && hi.requiresPw then 1 else 0),
             c.requiresPwHosts + (if hi.connectedOK && hi.requiresPw then [host] else []),
             Entered(r, true, c.connectErrors, hi, host),
             Entered(r, false, c.runErrors, hi, host))
  }

  lemma OneMoreTally(r: Reading, targets: map<string, HostInfo>, hk: seq<string>, c: Counters)
    requires hk != [] && (forall h :: h in hk ==> h in targets) && (forall h :: h in hk[..|hk| - 1] ==> h in targets)
    requires hk[|hk| - 1] in hk && Right(r, targets, hk[..|hk| - 1], c)
    ensures Right(r, targets, hk, Tallied(r, c, targets[hk[|hk| - 1]], hk[|hk| - 1]))
  {
    SelectStep(targets, hk, RUN_OK);
    SelectStep(targets, hk, RUN_ONCE);
    SelectStep(targets, hk, CONNECTED_OK);
    SelectStep(targets, hk, PROMPTED);
    OneMoreHost(r, targets, hk, true, c.connectErrors);
    OneMoreHost(r, targets, hk, false, c.runErrors);
  }

  /** The loop over all targets. */
  method CountHosts(state: State) returns (c: Counters, numEntries: nat, hk: seq<string>)
    ensures Enumerates(hk, state.targets.Keys) && numEntries == |hk|
    ensures Right(READING, state.targets, hk, c)
  {
    var keys := state.GetHostKeys();
    hk, numEntries := keys, |keys|;
    c := Counters(0, 0, 0, 0, [], Errors(map[], map[]), Errors(map[], map[]));
    ghost var r := READING;
    CountersStart(r, state.targets);
    for i := 0 to |keys|
      invariant Right(r, state.targets, keys[..i], c)
    {
      assert keys[..i + 1][..i] == keys[..i] && keys[i] in keys;
      OneMoreTally(r, state.targets, keys[..i + 1], c);
      c := CountHost(c, state.targets[keys[i]], keys[i]);
    }
    assert keys[..|keys|] == keys;
  }

  /** The body of the loop. */
  method CountHost(before: Counters, hi: HostInfo, hostname: string) returns (c: Counters)
    ensures c == Tallied(READING, before, hi, hostname)
  {
    c := before;
    if hi.runOK {
      c := c.(runOK := c.runOK + 1);
    }
    if hi.runOnce {
      c := c.(runOnce := c.runOnce + 1);
    }
    if hi.connectedOK {
      c := c.(connectedOK := c.connectedOK + 1);
    }
    if hi.connectedOK && hi.requiresPw {
      c := c.(requiresPw := c.requiresPw + 1, requiresPwHosts := c.requiresPwHosts + [hostname]);
    }
    if hi.lastError.Some? {
      var found := Search(hi.lastError.value);
      var key, host := UNKNOWN, None;
      if found.Some? {
        key, host := found.value, Some(hostname);
      }
      if !hi.connectedOK {
        c := c.(connectErrors := Counted(c.connectErrors, key, host));
      } else {
        c := c.(runErrors := Counted(c.runErrors, key, host));
      }
    }
  }

  /* ---------------- what the figures mean ---------------- */

  /** The targets with an error of this key, among those that are connected or those that are not. */
  ghost function Troubled(targets: map<string, HostInfo>, connected: bool, key: string): set<string> {
    set h | h in targets && targets[h].lastError.Some? && targets[h].connectedOK == connected
            && KeyOf(targets[h].lastError.value) == key
  }

  /** Over all targets, in whatever order they were listed: how many ran successfully, ran at all, are connected;
      which are connected and wanted a password; and how many of those with an error that are not connected, and of
      those that are, have an error of each key. */
  lemma CountersAre(targets: map<string, HostInfo>, hk: seq<string>, c: Counters)
    requires Enumerates(hk, targets.Keys) && Right(READING, targets, hk, c)
    ensures c.runOK == |set h | h in targets && targets[h].runOK|
    ensures c.runOnce == |set h | h in targets && targets[h].runOnce|
    ensures c.connectedOK == |set h | h in targets && targets[h].connectedOK|
    ensures Enumerates(c.requiresPwHosts, set h | h in targets && targets[h].connectedOK && targets[h].requiresPw)
    ensures forall key :: CountOf(c.connectErrors, key) == |Troubled(targets, false, key)|
    ensures forall key :: CountOf(c.runErrors, key) == |Troubled(targets, true, key)|
  {
    SelectEnumerates(targets, hk, RUN_OK);
    SelectEnumerates(targets, hk, RUN_ONCE);
    SelectEnumerates(targets, hk, CONNECTED_OK);
    SelectEnumerates(targets, hk, PROMPTED);
    SameHosts(targets, RUN_OK, set h | h in targets && targets[h].runOK);
    SameHosts(targets, RUN_ONCE, set h | h in targets && targets[h].runOnce);
    SameHosts(targets, CONNECTED_OK, set h | h in targets && targets[h].connectedOK);
    SameHosts(targets, PROMPTED, set h | h in targets && targets[h].connectedOK && targets[h].requiresPw);
    forall key {
      ErrorsAre(targets, hk, c, key);
    }
  }

  lemma SameHosts(targets: map<string, HostInfo>, p: HostInfo -> bool, hosts: set<string>)
    requires forall h :: h in hosts <==> h in targets && p(targets[h])
    ensures hosts == set h | h in targets && p(targets[h])
  {
  }

  lemma ErrorsAre(targets: map<string, HostInfo>, hk: seq<string>, c: Counters, key: string)
    requires Enumerates(hk, targets.Keys) && Right(READING, targets, hk, c)
    ensures CountOf(c.connectErrors, key) == |Troubled(targets, false, key)|
    ensures CountOf(c.runErrors, key) == |Troubled(targets, true, key)|
  {
    SelectEnumerates(targets, hk, FailedBy(READING, true, key));
    SelectEnumerates(targets, hk, FailedBy(READING, false, key));
    SameHosts(targets, FailedBy(READING, true, key), Troubled(targets, false, key));
    SameHosts(targets, FailedBy(READING, false, key), Troubled(targets, true, key));
  }

  /** The run failures that are printed, runOnce - runOK, are the hosts that ran and failed, because no
      host has a successful run without a run (`State.ReachableStores`). */
  lemma RunFailures(r: Reading, targets: map<string, HostInfo>, hk: seq<string>, c: Counters)
    requires (forall h :: h in hk ==> h in targets) && Right(r, targets, hk, c)
    requires forall h :: h in targets && targets[h].runOK ==> targets[h].runOnce
    ensures c.runOnce - c.runOK == |Select(targets, hk, RUN_FAILED)|
  {
    SelectSplits(targets, hk, RUN_ONCE, RUN_OK, RUN_FAILED);
  }

  /** The sum of the counts of the listed errors. */
  function Total(errors: Errors, keys: seq<string>): nat {
    if keys == [] then 0 else Total(errors, keys[..|keys| - 1]) + CountOf(errors, keys[|keys| - 1])
  }

  /** All that is printed of one table adds up to the hosts with an error of that kind. */
  lemma ErrorsAddUp(targets: map<string, HostInfo>, hk: seq<string>, connecting: bool, errors: Errors)
    requires (forall h :: h in hk ==> h in targets) && ErrorsRight(READING, targets, hk, connecting, errors)
    ensures Total(errors, ERRS + [UNKNOWN]) == |Select(targets, hk, HasError(connecting))|
  {
    var keys := ERRS + [UNKNOWN];
    forall h | h in hk && HasError(connecting)(targets[h]) ensures KeyOf(targets[h].lastError.value) in keys {
      KeyIsFirst(targets[h].lastError.value);
    }
    KeysDiffer();
    TotalIs(READING, targets, hk, connecting, errors, keys);
    SelectSame(targets, hk, HasError(connecting), ErrorIn(READING, connecting, keys));
  }

  function ErrorIn(r: Reading, connecting: bool, keys: seq<string>): HostInfo -> bool {
    (hi: HostInfo) => hi.lastError.Some? && hi.connectedOK != connecting && r.key(hi.lastError.value) in keys
  }

  lemma KeysDiffer()
    ensures NoDup(ERRS + [UNKNOWN])
  {
    assert forall i, j :: 0 <= i < j < |ERRS| ==> ERRS[i] != ERRS[j];
  }

  lemma {:induction false} SelectSame(targets: map<string, HostInfo>, hk: seq<string>, p: HostInfo -> bool, q: HostInfo -> bool)
    requires forall h :: h in hk ==> h in targets && (p(targets[h]) <==> q(targets[h]))
    ensures Select(targets, hk, p) == Select(targets, hk, q)
  {
    if hk != [] {
      var n := |hk| - 1;
      assert hk[n] in hk && forall h :: h in hk[..n] ==> h in hk;
      SelectSame(targets, hk[..n], p, q);
    }
  }

  lemma {:induction false} TotalIs(r: Reading, targets: map<string, HostInfo>, hk: seq<string>, connecting: bool,
                                   errors: Errors, keys: seq<string>)
    requires (forall h :: h in hk ==> h in targets) && ErrorsRight(r, targets, hk, connecting, errors) && NoDup(keys)
    ensures Total(errors, keys) == |Select(targets, hk, ErrorIn(r, connecting, keys))|
  {
    if keys == [] {
      SelectNone(targets, hk, ErrorIn(r, connecting, keys));
    } else {
      var n := |keys| - 1;
      TotalIs(r, targets, hk, connecting, errors, keys[..n]);
      assert keys[n] !in keys[..n];
      assert forall key :: key in keys <==> key in keys[..n] || key == keys[n];
      SelectSplits(targets, hk, ErrorIn(r, connecting, keys), ErrorIn(r, connecting, keys[..n]), FailedBy(r, connecting, keys[n]));
    }
  }

  lemma {:induction false} SelectNone(targets: map<string, HostInfo>, hk: seq<string>, p: HostInfo -> bool)
    requires forall h :: h in hk ==> h in targets && !p(targets[h])
    ensures Select(targets, hk, p) == []
  {
    if hk != [] {
      var n := |hk| - 1;
      assert hk[n] in hk && forall h :: h in hk[..n] ==> h in hk;
      SelectNone(targets, hk[..n], p);
    }
  }

  const HAS_ERROR := (hi: HostInfo) => hi.lastError.Some?

  lemma ErrorsSplit(targets: map<string, HostInfo>, hk: seq<string>)
    requires forall h :: h in hk ==> h in targets
    ensures |Select(targets, hk, HAS_ERROR)|
         == |Select(targets, hk, HasError(true))| + |Select(targets, hk, HasError(false))|
  {
    SelectSplits(targets, hk, HAS_ERROR, HasError(true), HasError(false));
  }

  lemma KnownIsListed(r: Reading, targets: map<string, HostInfo>, hk: seq<string>, connecting: bool, errors: Errors, key: string)
    requires (forall h :: h in hk ==> h in targets) && ErrorsRight(r, targets, hk, connecting, errors) && key != r.unknown
    ensures CountOf(errors, key) == |HostsOf(errors, key)|
  {
    assert CountOf(errors, key) == |Select(targets, hk, FailedBy(r, connecting, key))|;
  }

  lemma KnownIsNotUnknown(e: nat)
    requires e < |ERRS|
    ensures ERRS[e] != UNKNOWN
  {
    KeysDiffer();
    assert (ERRS + [UNKNOWN])[e] == ERRS[e] && (ERRS + [UNKNOWN])[|ERRS|] == UNKNOWN;
  }

  lemma KnownAreListed(r: Reading, targets: map<string, HostInfo>, hk: seq<string>, c: Counters, e: nat)
    requires (forall h :: h in hk ==> h in targets) && Right(r, targets, hk, c) && e < |ERRS| && r.unknown == UNKNOWN
    ensures CountOf(c.connectErrors, ERRS[e]) == |HostsOf(c.connectErrors, ERRS[e])|
    ensures CountOf(c.runErrors, ERRS[e]) == |HostsOf(c.runErrors, ERRS[e])|
  {
    KnownIsNotUnknown(e);
    KnownIsListed(r, targets, hk, true, c.connectErrors, ERRS[e]);
    KnownIsListed(r, targets, hk, false, c.runErrors, ERRS[e]);
  }

  /** Both tables together account for every host with a last error, once; and the count of each known
      error is the length of its list of hosts. */
  lemma AllErrorsCounted(targets: map<string, HostInfo>, hk: seq<string>, c: Counters)
    requires (forall h :: h in hk ==> h in targets) && Right(READING, targets, hk, c)
    ensures Total(c.connectErrors, ERRS + [UNKNOWN]) + Total(c.runErrors, ERRS + [UNKNOWN]) == |Select(targets, hk, HAS_ERROR)|
    ensures forall e :: 0 <= e < |ERRS| ==>
      && CountOf(c.connectErrors, ERRS[e]) == |HostsOf(c.connectErrors, ERRS[e])|
      && CountOf(c.runErrors, ERRS[e]) == |HostsOf(c.runErrors, ERRS[e])|
  {
    ErrorsAddUp(targets, hk, true, c.connectErrors);
    ErrorsAddUp(targets, hk, false, c.runErrors);
    ErrorsSplit(targets, hk);
    forall e | 0 <= e < |ERRS|
      ensures CountOf(c.connectErrors, ERRS[e]) == |HostsOf(c.connectErrors, ERRS[e])|
      ensures CountOf(c.runErrors, ERRS[e]) == |HostsOf(c.runErrors, ERRS[e])|
    {
      KnownAreListed(READING, targets, hk, c, e);
    }
  }
}
