# metassh: a verified model of the connection protocol, the mux and the output

metassh fans out over SSH to many hosts at once. Its goroutines talk over unbuffered channels to one
state serializer and to the goroutines that own each connection. This project models that machinery
and proves what it keeps over every run.

- `Race` - the life of a dial or run request: worker, sleeper, abort sweep and selector meet on a
  one-slot timeout channel and an unbuffered result channel. Any number of requests, any number of
  aborts, every interleaving. `Sweeps` - whom an abort reaches. `Aborts` - how many aborts are harmless.
- `Serializer` - one goroutine serving any number of clients, in general; `State` and `Output` are its
  instances.
- `State` - the serializer's maps, the effect of each request on them, the object itself. `History` - what
  the order of accepted requests says about entries and panics. `Records` - what it says about every stored field
  and every answer.
- `Resolve`, `Carrier` - walking a chain hop by hop, and the forest of tunnels that serial runs of it
  build. A net is the state together with what the state does not record: which goroutines listen on
  each request channel, and through which host each connection is tunnelled (the carrier).
- `DirectDial` - the fan-out of dials to a direct link; `FanOut` - what it does to the net and what the
  teardown's cleanups make of that.
- `Parallel`, `Confluence` - the parallel phase of `connectEverywhere`, step by step, and why resolving
  the proxies serially beforehand makes its outcome unique.
- `Targets` - chain strings, `LoadBlob`, `resolveProxies`.
- `Teardown` - `disconnectEverywhere`, `disconnectHost` and the cleanup handshake.
- `Layers` - for which chains the teardown of what the program has built is safe.
- `Wire`, `Mux` - the ControlMaster bytes and the server's connections.
- `Output`, `Summary` - newline expansion and the output log; the counting loop of the summary.

Programs that loop over data or update fields are methods (of classes where the source has objects),
proved against functions; goroutines that interleave are step systems, with `Legal` runs of any length
and `After` for the state a run leads to. Outcomes of the network (does a dial succeed, does a proxy
hand out a client, does a session open) are arbitrary: they come from an `Oracle` or from the step's
own label. Time is the sleeper firing whenever it likes.

## What the code does differently from what it seems to intend

The model follows the code. These departures show up in the statements.

- A failed direct dial is not an error (resolve.go:107-110, 128): a nil return means less than
  "connected". `Resolve.NilMeansConnectedIff` says what it means.
- Two aborts that hit the same registered request can stop the state serializer for good
  (state.go:482-487): `Aborts.TwoAbortsCanStopTheSerializer`; `Aborts.AlwaysCleanIff` says when that is ruled out.
- An abort misses a request whose waiter entry a later request for the same host has replaced
  (state.go:527-532): `Sweeps.SweepsHitIff`.
- `incProxyCount`, `getConnInfo`, `getHostInfo` and `setRequiresPw` dereference entries that may be
  missing (state.go:543-545, 568-570, 592-594, 608-610). `History.RunsDownIff` says when a run ends that
  way, `History.AskingFirstIsSafe` when a client that asks first is safe, and
  `History.AskingFirstIsNotEnough` that it is not always.
- `m.Close()` is called on a nil mux when the program is not a server (remotehost.go:120-121):
  `Teardown.TornPanicsIff`.
- Non-proxies get one cleanup request however many goroutines listen for them (connect.go:89,
  connect.go:67): `Teardown.OneCleanupOrphans`.
- A missing file descriptor closes the connection, but the `continue` belongs to the inner loop and the
  session goes on (controlmux.go:279): `Mux.WaiterClosedIff`. A message of unknown type, a failed read, or the
  kill message leaves a connection open with nobody to look after it: `Mux.AbandonedIff`, `Mux.DesertedIff`.
- `termLen+4` is byte arithmetic (server.go:133-134): `Wire.PtyDimsRightIff`.
- A muted `doOutput` waits for an answer to a request it never sent (output.go:155-166): `Output.HangsIff`.
- `LoadBlob` never fills in an address, so every target sets the reverse entry of the empty string
  (json.go:63-66, state.go:586), and a chain with an empty link (two spaces in a row, or one at either end)
  is connected under another target's name. `Targets.EmptyLinkBreaks` shows what goes wrong,
  `Carrier.BuiltIffKept` and `Carrier.SuffixIffKept` that nothing does exactly if `GetPTR` leaves the links
  alone, `Targets.LoadedKeptIff` and `Targets.EmptyLinkIff` when that is. "Kept links" below means this.
- A target that is named like the last link of an earlier one can be taken for connected and passed over
  (connect.go:31-34): `Confluence.SameAttemptsIff`, `Confluence.SameNetIff`.
- A concurrency of 0 makes `connectEverywhere` wait for ever as soon as there is something to do
  (connect.go:26, 36): `Parallel.ReturnsIff`.

## Model

| member | source | states |
|---|---|---|
| `Race.MaximalRunIsCleanIff` | proxy.go:24-95 | a run of any number of overlapping requests that cannot go on has ended cleanly (every helper goroutine returned, one answer per request, no waiter entry, serializer idle) exactly if no request was hit by two abort sweeps |
| `Race.RunsAreSafeAndBounded` | run.go:26-163 | every reachable state keeps the token count of each timeout channel and the rest of the invariant; every step uses up some of a measure, so no run goes on for ever |
| `Race.RunLength` | state.go:480-488 | the bound in numbers: 15 steps and the worker's own calls per request, and for each abort one step per request and two more |
| `Race.Progress` | proxy.go:67-94 | as long as no request was hit twice, some goroutine can move unless all are done; a blocked sweep is always waited for by somebody who can move |
| `Race.AnswersAreSingleAndTrue` | run.go:139-162 | in every reachable state a request has at most one answer; it is the worker's own result, a timeout, only if the sleeper fired, or an abort, only if a sweep hit the request |
| `Race.SecondHitLeaksASender` | state.go:482-487 | from a second hit on, in every continuation of the run, the request's sleeper or the serializer is left with a value it cannot get rid of, and the run never ends cleanly |
| `Race.OneAbortIsHarmless` | state.go:480-488 | with at most one abort every run that cannot go on has ended cleanly |
| `Aborts.AlwaysCleanIff` | state.go:480-488 | every run that cannot go on has ended cleanly exactly if there is no request or at most one abort |
| `Aborts.TwoAbortsCanStopTheSerializer` | state.go:480-488 | a run with one request and two aborts in which nothing can move any more and the serializer is inside its sweep |
| `Race.WaiterEntriesAreInFlight` | state.go:521-532 | every waiter entry belongs to a request for that host that has registered and not yet unregistered, also when requests for one host overlap |
| `Race.InFlightIsCoveredIff` | state.go:521-532 | in every run every registered request has its waiter entry, exactly if requests of one kind are for different hosts |
| `Sweeps.BeginListsAll` | state.go:482-487 | a sweep is to send to the requests of all connection waiters and then of all run waiters, and to nobody else; they have one more hit each, and nothing else has happened to any request |
| `Sweeps.SweepsHitIff` | state.go:480-488 | in every run every sweep hits just the requests in flight, exactly if there is no abort or requests of one kind are for different hosts |
| `Sweeps.HitsAreDelivered` | state.go:482-488 | in every run, whenever the serializer is back from its sweeps, every request's timeout channel has been given one value per hit, and one more if its sleeper fired |
| `Race.OverlapHides` | state.go:527-532 | two requests of one kind for one host: once the second has registered, the first has no entry |
| `Race.NoWaitersLeft` | state.go:406-427 | once every request has returned both waiter maps are empty |
| `Serializer.RunsAreSequential` | state.go:476-635 | every concurrent run of any clients is one sequential application of their requests in acceptance order: same store, each client's requests in its own order, each answer the one the sequential run gives |
| `History.SenderSeesItsPut` | state.go:385-394 | a client that puts a target or a connection, which is not answered, and later asks for it is answered yes, unless somebody's delete was accepted in between; for every run of any clients, in terms of what the client itself sent and was told |
| `History.PutStands` | state.go:521-532 | what was put (targets, connections, waiters of both kinds) is there for every later request up to the next delete |
| `History.HasIff` | state.go:521-618 | while the serializer is up, an entry is there exactly if its last put came after its last delete |
| `History.RunsDownIff` | state.go:543-610 | in every run the serializer has panicked exactly if it accepted a request for an entry that had not been put since it was last deleted |
| `History.AskingFirstIsSafe` | state.go:206-219 | a client that was told that the entry is there may dereference it as long as no delete is accepted in between |
| `History.DeleteInBetween` | state.go:608-618 | whenever a connection is there, another client's delete can come in between and end the program |
| `History.AskingFirstIsNotEnough` | state.go:206-219 | a run of two clients in which that happens |
| `Records.ServeField` | state.go:521-591 | a request writes just the fields it is for, of entries that are there, and leaves all other fields of all other targets and waiters alone |
| `Records.FieldIs` | state.go:543-567 | while the serializer is up, each field of each target and waiter holds what the last request that writes it wrote; the last error is that of the later of the two statuses |
| `Records.ConnectionIs` | state.go:568-591 | a connection is the one first set since it was last deleted, with one client more for each that was counted on it |
| `Records.NameIs` | state.go:546-552 | the name of an address is that of the last target set with it, deleted or not, and the address itself if there was none |
| `Records.PassIs` | state.go:571-576 | the password is the one set last |
| `Records.AnswersAreRight` | state.go:546-632 | every answer is what the log says: the keys are just the names standing, a record agrees with the last write of each of its fields, a connection with what made it and the clients counted, deletes are confirmed |
| `Records.RunsKeepFields` | state.go:543-567 | the fields, in every run of any clients |
| `Records.RunsTellTheTruth` | state.go:546-632 | the answers, in every run of any clients, in terms of what the client that asked has been given or is about to be |
| `Serializer.RunsKeep` | state.go:476-635 | what every request keeps holds of the store after every concurrent run |
| `State.ReachableStores` | json.go:63-66 | in every state that concurrent clients can bring about, a host that ran successfully has run once, and GetPTR is the identity on every name but the empty one |
| `State.AverageBetween` | state.go:507-512 | the average wait lies between the shortest and the longest |
| `State.StatesOf` | state.go:496-503 | the counts per state add up to the number of waiters |
| `State.Tally` | state.go:496-503 | the loop over a waiter map yields those counts and the sum of the waits |
| `State.StatesOfCounts` | state.go:496-503 | each state occurs as often as there are waiters in it |
| `State.State.GetWaiterInfo` | state.go:489-520 | for both kinds: the number of waiters, for every state how many are in it, and the average wait, the clock being read for each waiter |
| `State.State.GetPTR` | state.go:546-552 | answers as the serializer does and changes nothing |
| `State.State.GetHostInfo` | state.go:206-219 | an error exactly if there is no such target, otherwise the target's record |
| `State.State.SetHostInfo` | state.go:583-586 | the record and its reverse entry are set, nothing else |
| `State.State.SetConnInfo` | state.go:587-591 | first set wins: an entry that exists stays as it is |
| `State.State.IncProxyCount` | state.go:568-570 | one more on that entry; a panic and no change if there is none |
| `State.State.GetConnInfo` | state.go:608-610 | an error exactly if there is no entry, otherwise the entry |
| `State.State.DeleteConnInfo` | state.go:615-618 | just that entry is gone |
| `State.State.GetHostKeys` | state.go:619-625 | every target once, in some order |
| `State.State.GetConnKeys` | state.go:626-632 | every connection once, in some order |
| `Resolve.NilConnects` | resolve.go:30-129 | on any chain of kept links, repeated or not, a nil return has connected just the links from the first one on if it can be dialed, otherwise from the first that was connected before |
| `Resolve.ErrorIff` | resolve.go:30-129 | on any chain of kept links an error is returned exactly if, after that beginning, some proxy refuses a link that is not connected by then |
| `Resolve.SuffixIff` | resolve.go:30-129 | so a nil return leaves a suffix of a chain of kept links connected exactly if no link from that beginning on also occurs before a link that does not |
| `Resolve.ResolveLeavesSuffix` | resolve.go:30-129 | which it does on every chain of different kept links; an error at hop i means that chain[i-1] is connected and chain[i] is not, on any chain of kept links |
| `Carrier.SuffixIffKept` | resolve.go:30-129 | for chains of different links, the first not empty: nil returns leave suffixes connected in all circumstances exactly if the links are kept |
| `Resolve.NilMeansConnectedIff` | resolve.go:107-128 | after a nil return, on any chain of kept links, the destination is connected exactly if some link was connected before or a direct dial succeeds |
| `Resolve.RepeatedLinkBreaksSuffix` | resolve.go:39-49 | a chain that repeats a link and does return nil with a connected link before an unconnected one |
| `Resolve.Network.Resolve` | resolve.go:30-129 | the loop leaves the net and returns the error that walking the chain recursively does |
| `Resolve.Network.Visit` | resolve.go:32-126 | one turn of the loop: all its branches, and what the error path leaves unchanged |
| `Resolve.Network.Tunnelled` | resolve.go:55-63 | the proxy is counted, one listener started, the entry made and its carrier recorded unless the entry was there |
| `Resolve.Network.Dial` | resolve.go:86-125 | the successful dials of a direct link together make one entry and as many listeners on one channel |
| `Carrier.SerialRunsBuildForests` | resolve.go:37-63 | every serial run of resolve calls on kept links, failed ones included, keeps a forest rooted in direct connections with exact proxy counts and no listener out of reach, and loses or re-parents nothing |
| `Carrier.BuiltIffKept` | state.go:546-552 | one call keeps all that in all circumstances exactly if the links are kept |
| `Carrier.MovedLinkStrays` | remotehost.go:61-63 | a chain with a link that is not kept, and a net in which resolving it leaves a listener out of reach |
| `Carrier.RunsFromNothing` | resolve.go:37-63 | in particular every serial run on kept links after any targets have been loaded |
| `Carrier.Route` | resolve.go:37-63 | every connection has a tunnel that starts at a direct one, each host on it carrying the next |
| `Carrier.RouteIsAcyclic` | resolve.go:37-63 | no tunnel passes through a host twice |
| `DirectDial.MaximalRunOutcome` | resolve.go:85-125 | however N dials and their sleepers interleave, a run that cannot go on has no goroutine left; with k dials picked up in time there are exactly k listeners, and one entry exactly if k is not 0 |
| `DirectDial.RunLength` | resolve.go:86-123 | at most ten steps per dial |
| `FanOut.FanOutIsDial` | resolve.go:85-125 | whatever the interleaving of the dials, the listeners they start and the entries they set change the net just as `Resolve.Network.Dial` does |
| `FanOut.CleanupsMatchDials` | connect.go:127-130 | after N dials, N cleanups get through exactly if all N were picked up; in either case nobody is left listening |
| `Parallel.SoloIsWalk` | connect.go:36-54 | a goroutine of the parallel phase, left alone, goes step by step to the net and the result of resolving its chain |
| `Parallel.LimiterAndStatuses` | connect.go:26-57 | never more attempts in flight than the limiter allows; when the wait returns, every host that was attempted and is a target has in the store a status, time and error that say what its resolve returned |
| `Parallel.MaximalRunReturns` | connect.go:26-57 | with a positive concurrency no deadlock: a run that cannot go on has returned from the wait and every goroutine has released the limiter |
| `Parallel.ReturnsIff` | connect.go:26-36 | with any concurrency: it has returned exactly if that is positive or all targets were connected from the start; otherwise it is at the limiter |
| `Parallel.RunLength` | connect.go:26-57 | every run of the phase ends: at most five steps per link, eleven per target, and two |
| `Confluence.RunnersDecide` | connect.go:28-57 | with the proxy prefixes connected and different last links (kept, like all links), every complete interleaving ends in the net that the targets attempted in it lead to; it dials only last links, each at most once and only where needed, and the statuses are determined; a target is passed over only if it was connected from the start or is named like the last link of an earlier one that will be connected |
| `Confluence.EveryInterleavingAgrees` | connect.go:28-57 | so if no target is named like the last link of an earlier one that will be connected, every complete interleaving has the same outcome |
| `Confluence.SameAttemptsIff` | connect.go:28-36 | with room for all targets, the same targets are attempted in every complete run exactly under that condition |
| `Confluence.SameNetIff` | connect.go:28-57 | with room for all targets, every complete run ends in the same net exactly if no target so named would itself be connected |
| `Confluence.OutcomesDiffer` | connect.go:28-36 | if there is such a target, two complete runs, one of which connects it and one of which does not |
| `Confluence.NamesakeOutcomesDiffer` | connect.go:31-34 | an instance with two targets |
| `Confluence.ParallelIsSerial` | resolve.go:150-158 | the net of any complete interleaving is the one that resolving the targets attempted in it serially leads to, in any order |
| `Confluence.ParallelBuilds` | resolve.go:37-63 | the parallel phase keeps the forest, its proxy counts and its listeners |
| `Confluence.SharedProxyIsDialedTwice` | resolve.go:154-158 | without the serial proxy phase two goroutines can both dial a shared proxy, and one of its listeners can never be reached |
| `Targets.JoinOfSplit` | json.go:65 | joining the split chain string gives it back, and no link contains a space |
| `Targets.SplitOfJoin` | resolve.go:173-178 | splitting the joined links gives them back, for every non-empty list of space-free links |
| `Targets.KeysCoincideIff` | resolve.go:173-174 | two proxy prefixes have the same key exactly if they are equal |
| `Targets.LoadBlob` | json.go:56-69 | the loop makes of the store what loading the servers one by one does, and counts them so |
| `Targets.LoadedFirst` | json.go:59-66 | targets that were there stay; every other name gets the record of the first server that bears it; there are no others |
| `Targets.NewForIff` | json.go:63-66 | the record made for a server is the one with its name, the links that its chain string joins, no address, and nothing known yet |
| `Targets.LoadedAreNew` | json.go:59-66 | every name that was no target before has such a record, of the first server that bears it |
| `Targets.LoadedCounts` | json.go:56-69 | the count is the number of targets gained; only the targets and the reverse entry of the empty address change |
| `Targets.LoadedKeepsChains` | json.go:65 | every chain has a link and no link a space |
| `Targets.LoadedKeptIff` | state.go:586 | the links of a loaded chain are kept exactly if none is empty or the empty address leads to a target without a name |
| `Targets.EmptyLinkIff` | json.go:65 | a chain string has an empty link exactly if it is empty, begins or ends with a space, or has two in a row |
| `Targets.EmptyLinkBreaks` | resolve.go:37-63 | a loaded target whose chain has an empty link: resolve returns nil and leaves a broken suffix, a wrong proxy count and a listener out of reach |
| `Targets.ProxyChainsAre` | resolve.go:160-184 | the prefixes to resolve are just the proxy prefixes of the targets, each once |
| `Targets.ResolveProxies` | resolve.go:159-187 | each distinct prefix is resolved exactly once, in the order of the enumeration, up to the first error, which ends the program |
| `Targets.ProxyPhasePrepares` | resolve.go:150-187 | when it gets through, links are kept, every first proxy is connected or can be dialed and the targets lead to different hosts, the parallel phase finds what `Confluence.RunnersDecide` asks for |
| `Teardown.TornEffect` | connect.go:73-133 | the teardown gets through exactly if every entry has as many listeners as its phase sends cleanups and non-proxies belong to a server; then nothing is connected and each closed entry has lost just those listeners. However it ends, it has closed a first part of the three phases' order and nothing else, and the next host is one that could not be closed; it panics just if that host is a non-proxy with a listener in a program that is no server |
| `Teardown.TornPanicsIff` | remotehost.go:120-122 | on nets that connects build it panics, in every enumeration order, exactly if the program is not a server and some non-proxy is connected |
| `Teardown.ConnectThenPanic` | remotehost.go:120-122 | which one direct connect brings about |
| `Teardown.TornIsSafe` | connect.go:78-132 | if everybody is carried by a host of a later phase, no teardown closes a connection while another live one is tunnelled through it, in any enumeration order, also when it blocks or panics half way, and counting the host at which it stops |
| `Teardown.TornIsSafeIff` | connect.go:96-132 | where it gets through, that condition is also needed |
| `Teardown.SafeInEveryOrderIff` | connect.go:96-132 | the same for the order in which the phases would close everything |
| `Teardown.LayeredIff` | connect.go:86-126 | that is: all carriers are proxies and indirect proxies are carried by direct ones |
| `Teardown.LayeredIsSafe` | connect.go:78-132 | with such carriers every order is safe |
| `Teardown.UnsafeOrder` | connect.go:97-114 | otherwise an unsafe order exists, in particular for indirect proxies carried by indirect ones |
| `Teardown.CleanupsEffect` | connect.go:127-130 | N cleanups get through exactly if there are N listeners (and the mux can be closed) and take away N; otherwise they block when none is left |
| `Teardown.DisconnectEverywhere` | connect.go:73-133 | with the proxies it gets through exactly if every entry can be closed, without them exactly if every non-proxy can; then nothing, or just the proxies, is left, with their listeners, the closed entries have lost those of their phase, and the hosts closed are those due, in order; however it ends it has closed a first part of the order and nothing else, and with layered carriers safely |
| `Teardown.ProxiesStay` | connect.go:93-95 | without the proxies: it gets through exactly if every non-proxy can be closed; then just the proxies are left, with all their listeners |
| `Teardown.ClosePhase` | connect.go:80-92 | one loop over the keys |
| `Teardown.CleanUp` | remotehost.go:106-124 | the cleanup requests for one entry and the listeners that answer them |
| `Teardown.TornAfterConnects` | connect.go:127-131 | after any serial run of connects on kept links, in any enumeration order, the teardown gets through exactly if there are no non-proxies or the program is a server, and every direct proxy has its BastionConns listeners |
| `Teardown.DisconnectHost` | connect.go:61-71 | an error exactly if the host is not connected; it blocks exactly if nobody listens, panics exactly if somebody does for a non-proxy in a program that is no server; otherwise one listener and the entry go, and in the other cases nothing changes |
| `Teardown.OneCleanupOrphans` | connect.go:67-69 | closing a connection by one cleanup leaves listeners nobody can reach exactly if it had more than one |
| `Teardown.TwoDialsOneCleanup` | resolve.go:86-125 | which happens to a non-proxy that was dialed directly twice |
| `Layers.OutcomeLayeredIff` | connect.go:45 | what the parallel phase leaves meets the condition for a safe teardown exactly if it did before and every target was connected through a host marked as a proxy |
| `Layers.ProxyPhaseLayers` | resolve.go:159-187 | so does what the proxy phase leaves, with any outcomes, if every prefix is a proxy of a first tier, alone or with one of a second tier |
| `Layers.ProgramIsLayered` | connect.go:15-59 | so does what both phases leave if every chain is at most two such proxies and the target |
| `Layers.ThreeTiersAreNot` | resolve.go:37-63 | three proxies in a row do not |
| `Wire.PullUint32Iff` | controlmux.go:463-466 | a word is pulled exactly from where it was put: the big-endian round trip in both directions |
| `Wire.BigEndianIff` | controlmux.go:463-466 | four bytes are a word's exactly if the word is their sum weighted with the most significant first |
| `Wire.PullStringIff` | controlmux.go:468-475 | the same for length-prefixed strings |
| `Wire.PullBoolIff` | controlmux.go:477-480 | any word but 0 is true, 0 is false |
| `Wire.ParsedOfEncoded` | controlmux.go:447-461 | an encoded new-session message, with any words for its booleans and any bytes after it, is read back |
| `Wire.EncodedOfParsed` | controlmux.go:447-461 | whatever is read without slicing out of range re-encodes to the stream, up to the words of the booleans |
| `Wire.ParsedIff` | controlmux.go:447-461 | a stream starts with at most one message, and that one is parsed |
| `Wire.NormalFormIsStable` | controlmux.go:477-480 | re-encoding with booleans 0 and 1 and reading again changes nothing |
| `Wire.FieldsAt` | controlmux.go:447-461 | where each field of a parsed message stands in the stream, the booleans in the order tty, X11, agent, subsystem |
| `Wire.ParseNewSession` | controlmux.go:447-461 | the moving cursor reads that message, and runs out of range exactly if there is none |
| `Wire.ReadOfFrameIff` | controlmux.go:153-191 | a frame is read back as sent, with its type word, exactly if the message has 4 bytes or more and a length that fits 32 bits; with fewer than 4 the reader panics |
| `Wire.FrameOfRead` | controlmux.go:165-173 | every message read was framed so |
| `Wire.ShortIff` | controlmux.go:153-173 | the reader goes without a message exactly if not one whole frame has arrived, and panics exactly if that is shorter than a type word |
| `Wire.ReadAllOfFrames` | controlmux.go:153-191 | repeated reads give back any list of messages sent frame by frame |
| `Wire.WindowChangeDims` | server.go:163 | width and height of a window change are read as sent |
| `Wire.PtyDimsRightIff` | server.go:133-134 | width and height of a pty request are read as sent, whatever they are, exactly if TERM has at most 251 bytes |
| `Wire.LongTermIgnoresDims` | server.go:175-179 | with a longer TERM they are read from the length word or TERM itself |
| `Mux.OneOwner` | controlmux.go:140-174 | in every reachable state a connection has at most one of: reader, message waiting to be handled, handler, session waiter |
| `Mux.NothingAfterSession` | controlmux.go:246-361 | a session request is the last message of its connection to be handled, and nothing is read after it |
| `Mux.RepliesAnswer` | controlmux.go:193-405 | what is written to a connection obeys (Hello or Alive)* (Opened Exit?)?, the exit naming the session opened on it; the i-th reply answers the i-th message and echoes its version or request id, which are those in its bytes by the next rows |
| `Mux.HelloDecodedIff` | controlmux.go:199-208 | bytes are taken for a hello with a version exactly if they are the hello word, the version's word and anything |
| `Mux.AliveDecodedIff` | controlmux.go:221-231 | bytes are taken for an alive check with a request id exactly if they are its type word, the id's word and anything |
| `Mux.SessionDecodedIff` | controlmux.go:246-247 | bytes are taken for a session request exactly if they carry a whole new-session message with that request id |
| `Mux.OthersDecodedIff` | controlmux.go:199-364 | too short: exactly a hello or alive word with fewer than 8 bytes; out of range: exactly a session word without a whole message; unhandled: exactly any other type word |
| `Mux.FrameBytes` | controlmux.go:407-422 | the bytes of each reply with its header |
| `Mux.ReactsInBytes` | controlmux.go:193-364 | what the handler does with any message of 4 bytes or more, from its bytes to the bytes written: hellos are sent back, alive checks and session requests answered with their own second word |
| `Mux.RepliesAreSigned` | controlmux.go:232-236 | every reply in every run was written by a turn of the handler or the end of a session; the process id and the exit code are those of that step, and an exit message is about the session that ended |
| `Mux.AbandonedIff` | controlmux.go:153-364 | in every reachable state a connection is open and held by no goroutine exactly if a read from it has failed or the handler has met a message of unknown type on it |
| `Mux.DesertedIff` | controlmux.go:366-373 | counting goroutines that are blocked on a stopped handler as nobody, there is just one more way: a message that waits, or comes, after the kill message |
| `Mux.DesertedForEver` | controlmux.go:366-373 | such a connection stays so in every continuation |
| `Mux.WaiterClosedIff` | controlmux.go:271-283 | in every reachable state, the connection of a session that goes on is closed exactly if one of the descriptors asked for did not arrive |
| `Mux.BothAbandon` | controlmux.go:153-364 | runs in which each of the two happens |
| `Mux.SessionIds` | controlmux.go:256-261 | the n-th session opened anywhere has the id n modulo 2^32 |
| `Mux.SessionIdsDiffer` | controlmux.go:256-261 | as long as at most 2^32 sessions were opened, different connections have different session ids |
| `Mux.SessionRequestDecoded` | controlmux.go:246-247 | an encoded new-session message is taken for one, with its request id |
| `Mux.ClientReadsReplies` | controlmux.go:414-422 | reading the bytes written for a list of replies gives back those replies |
| `Mux.Server.ReadMsg` | controlmux.go:153-174 | the two reads yield the message at the front of what has arrived |
| `Mux.Server.SendMsg` | controlmux.go:176-191 | the two writes append one frame, or nothing once the connection is closed |
| `Mux.Server.HandleMessage` | controlmux.go:193-365 | per message type, also in terms of the bytes alone: reply written, counter, connection closed or not, and who looks after it next |
| `Mux.Server.OpenSession` | controlmux.go:246-361 | the new-session branch, with descriptors that do not arrive and sessions that do not start |
| `Mux.Server.Waiter` | controlmux.go:377-405 | one exit message, unless the connection is closed already, and then it is closed |
| `Output.ExpandDistributes` | output.go:76-79 | newline expansion distributes over concatenation |
| `Output.ContractUndoesExpand` | output.go:78 | dropping the byte after each newline undoes it |
| `Output.ExpandGrows` | output.go:77 | the length grows by the number of newlines |
| `Output.ExpandedNewlines` | output.go:78 | after it every newline is followed by a carriage return |
| `Output.MungesIff` | output.go:76-79 | the expanded text is the only one that drops back to the original, is longer by its newlines and has a carriage return behind each |
| `Output.LogIsInterleaving` | output.go:139-153 | in any concurrent run the device log is the accepted messages line by whole line, and each sender's are its own, in its own order |
| `Output.ConsecutiveWrites` | output.go:76-82 | what comes out for a message written in two parts is what may come out for the whole, with or without expansion |
| `Output.Output.Write` | output.go:72-85 | the whole line is the text itself or, if carriage returns are asked for, the text with one behind every newline; the log gains what the device took of it; the count reported leaves the added bytes out and is the caller's length exactly if the device took everything |
| `Output.HangsIff` | output.go:155-166 | in any run of callers, the serializer and whoever mutes and unmutes: a caller waits for an answer that is not coming exactly if it called while the output was muted |
| `Output.HangsForEver` | output.go:155-166 | and then it waits in every continuation, muted or not |
| `Output.Output.DoOutput` | output.go:155-166 | unmuted, one whole line is logged, which is the text itself or, exactly if carriage returns are asked for, has one behind every newline, and the call ends; muted, nothing is logged and the flag returned says that the call does not end |
| `Output.Output.Debug` | output.go:124-134 | logs such a line on standard error only with the debug flag, and hangs exactly if muted with it |
| `Output.Output.Mute` | output.go:98-100 | sets the flag and nothing else |
| `Summary.KeyIsFirst` | summary.go:81-110 | an error is counted under the first known error its lower-cased text contains, and under unknown only if there is none |
| `Summary.LowerIff` | summary.go:82 | lower-casing changes only the case of letters and leaves no capital |
| `Summary.CaseDoesNotMatter` | summary.go:80-83 | texts that differ only in case are counted under the same key |
| `Summary.Search` | summary.go:80-100 | the search loop finds that key |
| `Summary.CountHosts` | summary.go:53-111 | after the loop every counter is the number of hosts it claims to count, and the host lists are those hosts in order, none for unknown |
| `Summary.SelectEnumerates` | summary.go:53-59 | the order in which the targets are listed does not matter: each counter is the number of targets with its property |
| `Summary.CountersAre` | summary.go:53-111 | over all targets: how many ran successfully, ran, are connected, and have an error of each key while connected or not; which are connected and wanted a password |
| `Summary.RunFailures` | summary.go:113 | the run failures printed are the hosts that ran and failed |
| `Summary.AllErrorsCounted` | summary.go:79-110 | connect and run error counts together are the hosts with a last error; each known error's count is the length of its list |

## Left out

- Real SSH, TCP, sockets, descriptor passing, ptys and Readline: foreign or system calls; where the
  protocol depends on them, their success or failure is arbitrary.
- sshconfig.go, main.go, signals.go, config.go, commands.go, sortmap.go: configuration, flags and user
  interface around the protocol.
- Quantiles and the fastest and slowest host (summary.go:50-51, 116-160): floating point from a library.
- Spooling, tee, keep-alives and durations: not part of what the goroutines agree on; a host that loses
  its keep-alive session and disconnects itself is therefore not modelled.
- Texts of messages and errors, beyond nil or not and the summary's list.
- The count that `connectEverywhere` returns (connect.go:58), one too many when there are no targets.
- `runOnce` inside the parallel phase (connect.go:51-53), and `runEverywhere`'s own loop, which has the
  limiter and wait group of `connectEverywhere` and the requests of `Race`.
- The state getters and setters that only store or fetch one value: in `State.Apply`, without a method.
- Race.MaximalRunIsCleanIff: the worker is taken to return eventually, and the requester to accept its answer; a worker that hangs keeps its own goroutine and drainer, whatever else is proved.
- Resolve.NilConnects: no other goroutine deletes connections meanwhile; `History.AskingFirstIsSafe` and `History.DeleteInBetween` say what its two-step reads need.
- Resolve.Network.Dial: takes the number of dials picked up in time from the oracle; `FanOut.FanOutIsDial` shows that any interleaving has such a number and this effect.
- Confluence.EveryInterleavingAgrees: a goroutine's direct dials are one step with the oracle's outcome, for the same reason.
- The requests `timeoutWaiters` and `getWaiterInfo` are not among those of `State.Apply`: `Race` models the first, the method `State.State.GetWaiterInfo` the second.
- Confluence.SameAttemptsIff: the condition is shown to be needed for a limiter with room for all targets; with less room it also depends on how many attempts fit in before the overtaken target, which may have to wait for the earlier one in every run.
- Parallel.LimiterAndStatuses: no other client deletes targets during the phase, so the goroutines' own `GetHostInfo` finds them.
- Targets.ResolveProxies: reads each target in one step, as nothing deletes targets meanwhile, and asks for chains with a link and without spaces, which `LoadBlob`, the only maker of targets, establishes.
- State.ReachableStores: the SSH client configuration is not part of the store.
- Mux.Server.ReadMsg: full reads only; what is left unread after too few bytes is not described.
- Mux.Server.HandleMessage: run by itself; the same reactions, interleaved with all other goroutines, are the steps of `Mux.Next`. A descriptor message without descriptors, which panics in getFd, is not modelled.
- Output.LogIsInterleaving: `StdOut` and `StdErr` lines are in one log, as when both are the same channel.
- Summary.CountHosts: reads each target in one step; lower-casing is that of ASCII.
