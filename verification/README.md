# detrix: models and proofs of its concurrent core

This project models the parts of detrix that many threads or tasks run at once, and proves what holds in every run.

| file | what it models |
|---|---|
| `GoClient.dfy`, `GoRuns.dfy` | Wake and Sleep of the Go client: any number of calls over a wake lock and a state lock, one field assignment per step |
| `PyClient.dfy`, `PyRuns.dfy` | The same protocol in the Python client, which differs in where it stores the URL, how it waits and what it re-checks |
| `Paths.dfy` | Paths of a step relation, shared by the two clients |
| `Truncation.dfy`, `Pipeline.dfy`, `PipelineRuns.dfy` | The agent's event forwarders, as steps of any number of tasks over shared counters |
| `Forwarding.dfy` | One forwarder task as it runs, with its nested loops and in-flight guard, proved to refine the steps |
| `Registry.dfy`, `AdapterManager.dfy` | The per-connection maps of the adapter manager, as steps and as the object that updates them one by one |
| `Scanner.dfy` | The process scanner and the scanner task's refresh flag |
| `Elf.dfy` | The hand-written ELF64 section reader |
| `Tracker.dfy` | The MCP client tracker: registration, activity, cleanup, delayed shutdown |
| `Ports.dfy` | The test port allocator with its three 16-bit counters |
| `Backoff.dfy` | The agent's reconnect loop |
| `Options.dfy` | An option type |

`dafny verify dfyconfig.toml` checks everything.

## How runs are modelled

* **Clients.** A state holds the shared fields, both locks, every call with its place in the code, and the history needed
  to state the properties: processes spawned and passed to Kill, registrations issued, unregister calls made. A call that
  takes the state lock gets the list of writes of that critical section and does them one per step. `Settled` is what the
  fields will be when the holder unlocks. A run is any sequence of states linked by steps. Outcomes of health checks,
  spawns and registrations are part of the step.
* **Pipeline.** A step of a forwarder is one outcome of its `select!` and everything up to the next `select!`, where the
  task can be aborted. Whether the channel has room, and what the adapter's counters read, are part of the outcome.
* **Registry.** Each of create, close and stop-all is one step. The answers of the code they call (does the adapter start,
  does it subscribe, and so on) are part of the request.
* **Tracker.** A step is the code between two lock operations or suspension points. Time is a natural number; a stamp taken
  before a lock may be older than the step that uses it.

## What turns out not to hold

Each of these is stated with the exact condition and with a run or an input that shows it.

* Go: a Sleep overlapping another Sleep can clear the record of a process and a registration that no one has released
  (`GoRuns.OverlappingSleepsLoseAWake`). A run loses a given process or registration if and only if some Sleep starts its
  last critical section while it is recorded and not released (`GoClient.KeptIffNeverStale`); sleeps that do not overlap
  never do (`GoClient.DisjointSleepsLoseNothing`).
* Go: Sleep unregisters at the configured daemon even when Wake was given another URL
  (`GoRuns.OverrideIsUnregisteredElsewhere`); it reaches the daemon that issued the registration if and only if Wake was
  given no URL or the configured one (`GoRuns.UnregisterReachesIssuer`). The Python client always reaches it.
* Python: a single sleep that waits for a wake that fails goes on with nothing to unregister, and its last writes can drop
  the connection of a later wake (`PyRuns.OneSleepCanDropARegistration`). A registration is lost if and only if a sleep
  starts its last critical section while it is recorded and not unregistered (`PyClient.KeptIffNeverStale`); when sleeps do
  not overlap, exactly by a sleep that had nothing to unregister (`PyClient.DisjointSleepsKeepIff`).
* Registry: refusing a create request for a live id removes its language record, so the running adapter is no longer found
  by SetMetric (`Registry.RefusalHidesALiveConnection`). Over any sequence of operations every live adapter has its record
  if and only if no such refusal occurs (`Registry.AlwaysSyncedIffNeverHides`).
* Kernel, decode and decoded totals run ahead of the values last seen when an adapter's counters start again
  (`PipelineRuns.TotalsCanRunAhead`); each agrees if and only if no reading that was taken over had that counter below the
  reading taken over before (`PipelineRuns.TotalsAreLastSeenIff`).
* ELF: the reader takes a header for a `.debug_info` section although the gABI gives it no such name, when the name is cut
  off by the end of the name table, the header is reserved, inactive or says it has no name, or the file has no name table.
  The exact condition is `Elf.ReaderAgreesWithGabi`, what a caller can look for is `Elf.ReaderIsRightWhenWellFormed`, and
  images that differ from accepted ones in one field are in `Elf.ReaderAcceptsTooMuch`.
* Tracker: shutdown need not come a grace period after the last client left. An attempt outlives a client that joins and
  leaves again before it reads the map (`Tracker.LastClientLeavesAtShutdown`) and one that joins after that
  (`Tracker.ShutdownWithAClient`). All clients have been gone since the removal that started the attempt if and only if none
  joined in the meantime (`Tracker.GraceIffNobodyJoined`).
* Backoff: validation bounds the base by the maximum but not the maximum itself, so doubling can overflow 64 bits. It never
  does if and only if the base is 0 or both are at most half the range (`Backoff.OverflowFreeIffSafe`). In a build without
  overflow checks the waits then leave the closed form, for every other validated setting (`Backoff.ClosedFormIffUnseen`,
  with the wait at which they differ in `Backoff.SeenIsNotClosed`).

## Model

| member | source | states |
|---|---|---|
| `GoClient.StepKeepsInv` | clients/go/detrix.go:370-580 | Every step of every call keeps the lock discipline, agreement of the settled fields, and "Waking has an owner past phase 1" |
| `GoClient.SectionHasOutcome` | clients/go/detrix.go:381-419 | The field-by-field writes of each critical section amount to one atomic assignment, given independently |
| `GoClient.StepSettles` | clients/go/detrix.go:381-577 | Only a step that takes the free state lock changes what the fields settle to, and it changes them to that outcome |
| `GoClient.FieldsAgree` | clients/go/detrix.go:381-505 | In every run with any overlap of wakes and sleeps, whenever the state lock is free, Awake, a connection id, a Delve record and an active debug port come together |
| `GoClient.NeverAwakeUnderAWake` | clients/go/detrix.go:493-505 | No run has the client Awake while some wake is past phase 1, so neither a failed wake nor a commit overwrites another wake's result |
| `GoClient.WakingHasOneOwner` | clients/go/detrix.go:376-402 | While the client is Waking, exactly one call is past phase 1 and it holds the wake lock |
| `GoClient.WakeInProgressIsUnreachable` | clients/go/detrix.go:396-399 | The "wake in progress" error is returned in no run |
| `GoClient.StepLoses` | clients/go/detrix.go:572-577 | A step loses a process or a registration if and only if it is a Sleep taking the state lock for its last critical section while that resource is recorded and has not been passed to Kill or Unregister |
| `GoClient.KeptIffNeverStale` | clients/go/detrix.go:370-580 | For every run, and every process and registration by itself: once obtained it is always held by a wake, recorded, or released, if and only if no Sleep starts its last critical section while it is recorded and not released |
| `GoClient.RecordedIsLive` | clients/go/detrix.go:493-577 | In every run with any overlap, a recorded process or registration was obtained and has not been released unless a Sleep on its way captured it, so an Awake client with no Sleep past its capture has a live process and registration |
| `GoClient.SleepClearsWhatItReleased` | clients/go/detrix.go:526-577 | When no two sleeps overlap, what a Sleep is about to clear is exactly the connection and process it captured, both are there, and it has released both |
| `GoClient.DisjointSleepsLoseNothing` | clients/go/detrix.go:370-580 | When no two sleeps overlap, no process and no registration is ever lost, with any number of wakes |
| `GoRuns.UnregisterReachesIssuer` | clients/go/detrix.go:549-558 | Every unregister call goes to the configured URL, and reaches the issuer if and only if the wake was given no URL or that one |
| `GoRuns.OverrideIsUnregisteredElsewhere` | clients/go/detrix.go:403-406 | For every other URL argument there is a run that unregisters at the wrong daemon |
| `GoRuns.RunSection` | clients/go/detrix.go:572-577 | A call that finds the state lock free can run its critical section to the end, and reaches its atomic outcome |
| `GoRuns.WakeAlone` | clients/go/detrix.go:370-513 | From any idle, sleeping state a wake can run to the end, with the process, connection and port it obtained recorded |
| `GoRuns.SleepCaptures` | clients/go/detrix.go:526-553 | From any idle, awake state a Sleep can capture exactly the recorded connection and process, and the configured URL |
| `GoRuns.SleepFinishes` | clients/go/detrix.go:555-579 | A Sleep past its capture can unregister and kill what it captured and leave the client with nothing recorded, whatever was recorded in between |
| `GoRuns.OverlapCanLoseAWake` | clients/go/detrix.go:572-577 | From every state with two sleeps that have captured and not yet done their I/O, a wake between the two commits leaves a live process and a live registration that nothing accounts for |
| `GoRuns.OverlappingSleepsLoseAWake` | clients/go/detrix.go:526-577 | Such a state, and then such a loss, is reached from a freshly initialised client |
| `GoRuns.SomeCallCanStep` | clients/go/detrix.go:376-577 | The two locks never deadlock: while some call has not returned, some call has an enabled step |
| `GoRuns.EveryCallCanReturn` | clients/go/detrix.go:370-580 | From every point of every run there is a continuation in which all calls return; then both locks are free and the client is Sleeping or Awake |
| `PyClient.StepKeepsInv` | clients/python/detrix/_operations.py:34-240 | Every step keeps the invariant, and only taking the state lock changes the settled fields, by that section's outcome |
| `PyClient.SectionHasOutcome` | clients/python/detrix/_operations.py:57-166 | The writes of each critical section amount to one atomic assignment, given independently |
| `PyClient.AwakeIffConnected` | clients/python/detrix/_operations.py:160-166 | In every run, whenever the state lock is free, AWAKE iff a connection id is set, and then the stored URL is the issuer's |
| `PyClient.UnregisterReachesIssuer` | clients/python/detrix/_operations.py:187-221 | Every unregister call pairs a connection with the daemon that issued it, whatever URLs the wakes were given |
| `PyClient.WakingHasOneOwner` | clients/python/detrix/_operations.py:55-89 | While WAKING, exactly one call is past phase 1 and it holds the wake lock |
| `PyClient.WakeInProgressIsUnreachable` | clients/python/detrix/_operations.py:65-67 | The "wake already in progress" error is raised in no run, and a failed wake always restores SLEEPING |
| `PyClient.StepLoses` | clients/python/detrix/_operations.py:228-238 | A step loses a registration if and only if it is a sleep taking the state lock for its last writes while that registration is recorded and was not given to unregister |
| `PyClient.KeptIffNeverStale` | clients/python/detrix/_operations.py:176-240 | For every run and every registration by itself: once issued it is always held by a wake, recorded, or given to unregister, if and only if no sleep starts its last writes while it is recorded and not given to unregister |
| `PyClient.RecordedIsLive` | clients/python/detrix/_operations.py:160-238 | In every run with any overlap, a recorded registration was issued and has not been given to unregister unless a sleep on its way captured it |
| `PyClient.DisjointSleepsKeepIff` | clients/python/detrix/_operations.py:187-238 | When no two sleeps overlap, a registration is never lost if and only if no sleep that failed the guard of the unregister call goes on to its last writes while it is recorded |
| `PyRuns.WakeAlone` | clients/python/detrix/_operations.py:55-173 | From any idle, sleeping state a wake can run to the end, with its connection and URL recorded |
| `PyRuns.SleepGoesOn` | clients/python/detrix/_operations.py:203-209 | A sleep whose awaited wake failed goes on to its I/O with nothing captured |
| `PyRuns.LateCommitCanDropARegistration` | clients/python/detrix/_operations.py:228-238 | From every state in which a sleep is about to commit over a sleeping client, one wake before the commit loses its registration |
| `PyRuns.OneSleepCanDropARegistration` | clients/python/detrix/_operations.py:202-238 | From a fresh client, with one sleep in the whole run, a registration is lost |
| `PyRuns.SomeCallCanStep` | clients/python/detrix/_operations.py:55-238 | The two locks never deadlock: while some call has not returned, some call has an enabled step |
| `PyRuns.EveryCallCanReturn` | clients/python/detrix/_operations.py:34-240 | From every point of every run there is a continuation in which all calls return; then both locks are free and the client is SLEEPING or AWAKE |
| `Truncation.TruncationBounds` | crates/detrix-agent/src/proto_convert.rs:22-30 | The result never exceeds 65536 bytes; only oversized values change; the number in the replacement is the original size |
| `Truncation.DecimalReadsBack` | crates/detrix-agent/src/proto_convert.rs:26-28 | The printed size reads back as the size, for every size |
| `Pipeline.FlushKeepsStreamInv` | crates/detrix-agent/src/adapter_manager.rs:1005-1018 | Offering a batch of at most 64 events keeps "offered batches, current batch and lost events make up what was received", and leaves the guard at 0 |
| `Pipeline.FlushKeepsDropInv` | crates/detrix-agent/src/adapter_manager.rs:1094-1117 | Offering a batch keeps every drop report equal to the number of events dropped so far, and the reports strictly increasing |
| `Pipeline.PollKeepsReadingInv` | crates/detrix-agent/src/adapter_manager.rs:1020-1057 | The values kept are always the last reading that was above the one kept before in some counter |
| `Pipeline.GainsAreLastIff` | crates/detrix-agent/src/adapter_manager.rs:1025-1053 | For every list of readings and each of the three counters, the saturating differences add up to at least the value last taken over, and to exactly it iff the counter never dropped |
| `Pipeline.AbsorbKeepsInv` | crates/detrix-agent/src/adapter_manager.rs:966-1062 | Every outcome of the `select!` keeps all three invariants of a running forwarder |
| `Pipeline.AbortKeepsInv` | crates/detrix-agent/src/adapter_manager.rs:81-108 | An abort at the `select!` keeps them, with the current batch (fewer than 64 events) as the only loss |
| `PipelineRuns.AccountMatches` | crates/detrix-agent/src/adapter_manager.rs:980-1057 | A step moves each shared counter by exactly the change in that forwarder's own record |
| `PipelineRuns.RunKeeps` | crates/detrix-agent/src/adapter_manager.rs:943-1066 | After every sequence of spawns, steps and aborts, each of the seven counters is its start value plus a sum over all forwarders ever spawned |
| `PipelineRuns.Conservation` | crates/detrix-agent/src/adapter_manager.rs:966-1018 | In every such run: received = forwarded + dropped + in flight + events in aborted batches, and the gauge is the sum of the live batch sizes |
| `PipelineRuns.GaugeReturns` | crates/detrix-agent/src/adapter_manager.rs:81-108 | With no forwarder running, the gauge is back where it started |
| `PipelineRuns.BatchesPartitionTheStream` | crates/detrix-agent/src/adapter_manager.rs:966-1018 | In every run, what a forwarder offered is a prefix of what it received, in order, in batches of 1 to 64, lagging by fewer than 64 events; after a normal close it is everything |
| `PipelineRuns.DropsAreReported` | crates/detrix-agent/src/adapter_manager.rs:1094-1117 | In every run, each connection's reported totals are exact and strictly increasing, the last is its counter, and the global drop count is the sum of the counters |
| `PipelineRuns.TotalsAreLastSeen` | crates/detrix-agent/src/adapter_manager.rs:1020-1057 | If no adapter counter decreases, the global kernel, decode and decoded totals are the sums of the values last read |
| `PipelineRuns.TotalsAreLastSeenIff` | crates/detrix-agent/src/adapter_manager.rs:1020-1057 | For arbitrary readings, in every run, each of the three totals is at least the sum of the values last seen, and equals it iff no forwarder took over a reading with that counter below the one before |
| `PipelineRuns.TotalsCanRunAhead` | crates/detrix-agent/src/adapter_manager.rs:1025-1053 | One forwarder and two readings leave all three totals 5 ahead of values last seen of 0 |
| `PipelineRuns.PayloadBound` | crates/detrix-agent/src/adapter_manager.rs:1078-1085 | The values of the message built from a batch take at most 65536 bytes per event |
| `PipelineRuns.MessagesAreBounded` | crates/detrix-agent/src/adapter_manager.rs:1078-1092 | In every run, no message carries more than 64 times 65536 bytes of values |
| `Forwarding.InFlightBatch.constructor` | crates/detrix-agent/src/adapter_manager.rs:87-89 | A new guard owns nothing of the gauge |
| `Forwarding.InFlightBatch.AddOne` | crates/detrix-agent/src/adapter_manager.rs:91-94 | Gauge and share grow together |
| `Forwarding.InFlightBatch.ReleaseAll` | crates/detrix-agent/src/adapter_manager.rs:96-108 | The share goes back to the gauge, and nothing the second time, so an explicit release followed by the drop is safe |
| `Forwarding.LifeReceives` | crates/detrix-agent/src/adapter_manager.rs:979-1001 | A forwarder receives exactly the events that arrive before the close and ends exactly when the stream is closed |
| `Forwarding.LifeIsValid` | crates/detrix-agent/src/adapter_manager.rs:966-1062 | Under every sequence of outcomes the forwarder keeps its stream, drop and reading invariants |
| `Forwarding.EveryForwarderLives` | crates/detrix-agent/src/adapter_manager.rs:943-966 | In a run with any number of forwarders, each one's record is what its own outcomes alone make of it, perhaps then aborted |
| `Forwarding.RoundAdvances` | crates/detrix-agent/src/adapter_manager.rs:979-1057 | A whole round of the outer loop has the effect of its outcomes taken one step at a time |
| `Forwarding.ForwardBatch` | crates/detrix-agent/src/adapter_manager.rs:1069-1119 | A batch counts as forwarded or as dropped, never both; only a drop moves the connection's counter, and its report is the new total |
| `Forwarding.PollCounters` | crates/detrix-agent/src/adapter_manager.rs:1020-1057 | The totals gain the saturating differences, and the last values move, exactly when some counter has grown |
| `Forwarding.Collect` | crates/detrix-agent/src/adapter_manager.rs:976-1003 | The inner loop stops at the first deadline, close or 64th event, with exactly the events that arrived in between, all owned by the guard |
| `Forwarding.Deliver` | crates/detrix-agent/src/adapter_manager.rs:1005-1018 | A non-empty batch is offered once, and the gauge gives back its whole size |
| `Forwarding.DoRound` | crates/detrix-agent/src/adapter_manager.rs:966-1062 | One round, or an abort in it, leaves the gauge where it was and moves every other counter by this batch and this reading only |
| `Forwarding.RunForwarder` | crates/detrix-agent/src/adapter_manager.rs:943-1066 | For every sequence of outcomes, the loops end with the offered batches, reports, last values and counters of the step-by-step forwarder, and the gauge unchanged even when it is aborted |
| `Registry.CreateKeeps` | crates/detrix-agent/src/adapter_manager.rs:192-613 | Create keeps the invariant with every pattern of failures; it says which ids gain or lose an adapter and a language record |
| `Registry.CloseKeeps` | crates/detrix-agent/src/adapter_manager.rs:859-874 | Close keeps the invariant and takes exactly that id out of the adapters and the language records |
| `Registry.StopAllKeeps` | crates/detrix-agent/src/adapter_manager.rs:877-901 | Stop-all keeps the invariant, and every forwarder ever spawned is then aborted |
| `Registry.RunKeepsInv` | crates/detrix-agent/src/adapter_manager.rs:156-901 | The invariant holds after every sequence of operations |
| `Registry.MapsStayInStep` | crates/detrix-agent/src/adapter_manager.rs:156-169 | After every sequence: adapters and handles have the same ids, languages, decisions and drop counters have the same ids, all among the adapters, and the gauge is the number of adapters |
| `Registry.OneLiveForwarderPerId` | crates/detrix-agent/src/adapter_manager.rs:687-695 | After every sequence, two forwarders of one id are never both un-aborted, and an un-aborted one has its adapter |
| `Registry.NoHalfCreatedConnection` | crates/detrix-agent/src/adapter_manager.rs:698-780 | After every sequence, an id whose language SetMetric finds also has its adapter |
| `Registry.FreshCounterPerForwarder` | crates/detrix-agent/src/adapter_manager.rs:336-338 | Each connection that comes up has a drop counter made for it, after all earlier ones |
| `Registry.NoCounterIsShared` | crates/detrix-agent/src/adapter_manager.rs:336-964 | After any sequence of operations, no two forwarders ever spawned count their drops in the same counter |
| `Registry.CreateReportsOnce` | crates/detrix-agent/src/adapter_manager.rs:1121-1180 | Each create request is answered by exactly one update, Connected iff a new forwarder runs for the id when it ends, with the decision and debug source as they stood before a failure cleared them |
| `Registry.OthersAreUntouched` | crates/detrix-agent/src/adapter_manager.rs:192-874 | Create and close change nothing recorded about another id and do not stop its forwarder |
| `Registry.CloseLeavesNothing` | crates/detrix-agent/src/adapter_manager.rs:859-874 | After a close nothing of the id is left in any map and every forwarder it ever had is aborted |
| `Registry.CreateSyncs` | crates/detrix-agent/src/adapter_manager.rs:1174-1179 | Create leaves every adapter with its language record if and only if it is not the early refusal of a live id |
| `Registry.CloseAndStopAllSync` | crates/detrix-agent/src/adapter_manager.rs:859-901 | Close and stop-all never lose a language record of a live adapter |
| `Registry.AlwaysSyncedIffNeverHides` | crates/detrix-agent/src/adapter_manager.rs:156-1180 | Throughout any sequence of operations every live adapter has its language record, iff no operation is the early refusal of an id live at that time |
| `Registry.RefusalHidesALiveConnection` | crates/detrix-agent/src/adapter_manager.rs:1174-1179 | For every id there are two requests after which its adapter runs on and SetMetric does not find it |
| `AdapterManagers.AdapterManager.constructor` | crates/detrix-agent/src/adapter_manager.rs:115-154 | A new manager is the empty registry, which satisfies the invariant |
| `AdapterManagers.AdapterManager.InsertAdapter` | crates/detrix-agent/src/adapter_manager.rs:156-169 | The gauge follows the adapters, and nothing recorded changes |
| `AdapterManagers.AdapterManager.ReplaceConnection` | crates/detrix-agent/src/adapter_manager.rs:687-695 | The old forwarder is aborted and the old adapter removed; the rest of the registry is untouched |
| `AdapterManagers.AdapterManager.SpawnEventForwarder` | crates/detrix-agent/src/adapter_manager.rs:943-964 | The new forwarder takes the id's handle and its recorded drop counter, or a new one |
| `AdapterManagers.AdapterManager.SendConnectionUpdate` | crates/detrix-agent/src/adapter_manager.rs:1121-1180 | The update carries the decision and the debug source known before a failure clears the id's records |
| `AdapterManagers.AdapterManager.Admission` | crates/detrix-agent/src/adapter_manager.rs:192-330 | The checks before teardown refuse or choose a backend as specified, and touch nothing but the debug source |
| `AdapterManagers.AdapterManager.BringUp` | crates/detrix-agent/src/adapter_manager.rs:340-613 | Starting and subscribing either installs the connection whole or fails it whole |
| `AdapterManagers.AdapterManager.CreateConnection` | crates/detrix-agent/src/adapter_manager.rs:192-681 | The map-by-map updates, on every path, are one create step; they keep the maps in step and every other id as it was, and give the id a new forwarder exactly when its adapter comes up |
| `AdapterManagers.AdapterManager.CloseConnection` | crates/detrix-agent/src/adapter_manager.rs:859-874 | The map-by-map updates are one close step; they keep the maps in step and every other id as it was, leave nothing of the id, and request a full scan |
| `AdapterManagers.AdapterManager.AbortForwarders` | crates/detrix-agent/src/adapter_manager.rs:878-888 | The loop over the handles aborts every one of them and empties the map |
| `AdapterManagers.AdapterManager.StopAllConnections` | crates/detrix-agent/src/adapter_manager.rs:877-901 | The loops are one stop-all step; they keep the maps in step and leave no adapter and no un-aborted forwarder |
| `Scanner.LooksChangedIsExact` | crates/detrix-agent/src/scanner.rs:117-118 | Another size or an entry not known: this test holds exactly when the two maps differ |
| `Scanner.CoolingMeans` | crates/detrix-agent/src/scanner.rs:101-102 | Comparing whole seconds is the same as less than 300 seconds since the stamp |
| `Scanner.ProcScanner.Collect` | crates/detrix-agent/src/scanner.rs:74-98 | The loop builds the view of the list, keyed by pid and inode, later entries winning |
| `Scanner.ProcScanner.ScanFull` | crates/detrix-agent/src/scanner.rs:72-81 | A full scan reports everything, knows exactly that, and stamps the time |
| `Scanner.ProcScanner.ScanDeltaFrom` | crates/detrix-agent/src/scanner.rs:94-131 | The early returns and the cardinality test do what the plain rule says: removals at once and without a stamp, other changes only when not cooling down |
| `Scanner.KnownIsLastReport` | crates/detrix-agent/src/scanner.rs:72-131 | At every point of every run, the known view is that of the list last reported |
| `Scanner.RemovalsAreImmediate` | crates/detrix-agent/src/scanner.rs:94-131 | After every scan: no report means an unchanged view, the view holds nothing that the newest snapshot lacks, and a process that is gone or has another inode was reported by that scan |
| `Scanner.AdditionsArePaid` | crates/detrix-agent/src/scanner.rs:94-131 | At every scan, 300 seconds per addition so far fit into the elapsed time, one cooldown ahead, plus 300 seconds per removal |
| `Scanner.AdditionRate` | crates/detrix-agent/src/scanner.rs:94-131 | In every run, additions number at most one, plus one per 300 seconds, plus one per removal |
| `Scanner.AdditionsComeThrough` | crates/detrix-agent/src/scanner.rs:100-131 | A process not yet reported is reported by the first scan 300 seconds after the last report, and by the very next scan after a removal |
| `Scanner.ScannerTask` | crates/detrix-agent/src/agent.rs:489-507 | The scanner loop scans in full exactly when the flag it swapped was set, and at the start of a session |
| `Scanner.FlagMeansWaiting` | crates/detrix-agent/src/adapter_manager.rs:859-861 | In every interleaving the flag is set iff a close has come since the last swap or reconnect |
| `Scanner.FullScanIffClosed` | crates/detrix-agent/src/agent.rs:489-507 | A tick scans in full iff a close has come since the swap or reconnect before its own swap |
| `Scanner.NoCloseIsLost` | crates/detrix-agent/src/agent.rs:489-507 | The first tick that swaps after a close scans in full, also when the close lands between the swap and the scan of an earlier tick |
| `Elf.HasDwarfSections` | crates/detrix-agent/src/scanner.rs:336-412 | For every file content, in bounds and without overflow, the reader answers true iff its tables lie in the file and some section points at `.debug_info` up to a NUL or the end of the name table |
| `Elf.SearchTable` | crates/detrix-agent/src/scanner.rs:375-411 | Once the header table is read, the answer is decided by the file's name table as the file header places it |
| `Elf.WalkHeaders` | crates/detrix-agent/src/scanner.rs:400-411 | The walk answers true iff some section header of the file has the name |
| `Elf.NameFrom` | crates/detrix-agent/src/scanner.rs:404-406 | The scan for a NUL returns the bytes before the first one, or all |
| `Elf.LittleEndianRange` | crates/detrix-agent/src/scanner.rs:356-386 | Fields of 2, 4 and 8 bytes fit their machine words |
| `Elf.SectionIsTerminatedOrCutOff` | crates/detrix-agent/src/scanner.rs:401-410 | For every header of every image with its tables in the file: the reader takes it iff its name is NUL-terminated in the table or cut off by the table's end |
| `Elf.ReaderAgreesWithGabi` | crates/detrix-agent/src/scanner.rs:336-412 | For every image with its tables in the file, read as little-endian: the answer is that of the gABI iff some section has the name or no header points at it spuriously (cut off, name index 0, reserved index, SHT_NULL, no string table at e_shstrndx); and for a name table over the limit or at offset 0, iff no section has it |
| `Elf.ReaderIsRightWhenWellFormed` | crates/detrix-agent/src/scanner.rs:336-412 | The two agree if e_shstrndx designates a string table of at most 1,000,000 bytes that begins and ends with NUL, and no reserved or inactive header points at the name |
| `Elf.ReaderAcceptsTooMuch` | crates/detrix-agent/src/scanner.rs:401-410 | Images with a null header, a name table and one header that points at the name, for every type of that header: the reader always says yes, the gABI exactly when the type is active and the table takes in the NUL |
| `Tracker.StepOnClient` | crates/detrix-api/src/mcp_client_tracker.rs:172-368 | What any step can do to one client's entry: only activity renews it, only its unregistration or a cleanup pass past the timeout removes it |
| `Tracker.ActiveClientStays` | crates/detrix-api/src/mcp_client_tracker.rs:211-368 | For every validated configuration and every run, a client active at least every heartbeat interval is never reaped |
| `Tracker.SilentClientGoes` | crates/detrix-api/src/mcp_client_tracker.rs:333-436 | In every run that cleans regularly, a client is gone once heartbeat timeout plus cleanup interval have passed since its last activity |
| `Tracker.TicksCleanRegularly` | crates/detrix-api/src/mcp_client_tracker.rs:424-436 | A task that cleans at every multiple of the interval cleans regularly in that sense |
| `Tracker.ShutdownHasCause` | crates/detrix-api/src/mcp_client_tracker.rs:276-421 | In every run, shutdown comes only in an MCP-spawned daemon and only from one attempt: started by the removal that emptied the map, its own step armed its timer with no connections, its own later step, at least a grace period on, read the map empty, and its own last step read no connections |
| `Tracker.GraceIffNobodyJoined` | crates/detrix-api/src/mcp_client_tracker.rs:276-421 | For the attempt that signals shutdown: the map has been empty ever since the removal that started it, up to its reading of the map and up to its signal, iff no client registered or was touched in the meantime; that removal is at least a grace period ago |
| `Tracker.LastClientLeavesAtShutdown` | crates/detrix-api/src/mcp_client_tracker.rs:378-421 | For every configuration, a run in which the last client leaves at the very time of the shutdown |
| `Tracker.ShutdownWithAClient` | crates/detrix-api/src/mcp_client_tracker.rs:405-419 | For every configuration, a run in which shutdown is signalled while a client is there |
| `Tracker.ShutdownIsFinal` | crates/detrix-api/src/mcp_client_tracker.rs:398-419 | Once signalled, shutdown stays signalled |
| `Tracker.ShutdownFollows` | crates/detrix-api/src/mcp_client_tracker.rs:378-421 | If the last client leaves with no connections and only background steps follow, on time, shutdown is signalled within a grace period |
| `Tracker.McpClientTracker.constructor` | crates/detrix-api/src/mcp_client_tracker.rs:158-169 | A new tracker has no clients, no connections and no shutdown |
| `Tracker.McpClientTracker.RegisterClient` | crates/detrix-api/src/mcp_client_tracker.rs:172-208 | Registering is the register step, whatever shutdown attempts are under way |
| `Tracker.McpClientTracker.RecordHeartbeat` | crates/detrix-api/src/mcp_client_tracker.rs:211-223 | A heartbeat is the heartbeat step, and answers whether the client was known |
| `Tracker.McpClientTracker.TouchClient` | crates/detrix-api/src/mcp_client_tracker.rs:227-253 | A touch is the touch step, for known and unknown clients |
| `Tracker.McpClientTracker.UnregisterClient` | crates/detrix-api/src/mcp_client_tracker.rs:276-292 | Unregistering is the unregister step, and starts a shutdown attempt exactly when that step does |
| `Tracker.McpClientTracker.CleanupStale` | crates/detrix-api/src/mcp_client_tracker.rs:333-368 | Removing stale clients one by one is the cleanup step, and starts a shutdown attempt exactly when that step does |
| `Tracker.McpClientTracker.UpdateConnectionCount` | crates/detrix-api/src/mcp_client_tracker.rs:445-454 | Setting the count is the count step |
| `Tracker.McpClientTracker.ScheduleShutdown` | crates/detrix-api/src/mcp_client_tracker.rs:378-405 | The decision to arm, and the expiry time, are those of the deciding step of an attempt |
| `Tracker.McpClientTracker.SignalShutdown` | crates/detrix-api/src/mcp_client_tracker.rs:405-419 | The end of an expired timer is the last step of an attempt |
| `Ports.TestPortAllocator.constructor` | crates/detrix-config/src/ports.rs:381-396 | All three counters start at their base plus the same offset of the process |
| `Ports.TestPortAllocator.Allocate` | crates/detrix-config/src/ports.rs:399-426 | A request takes the next ten ports of its own counter around the 16-bit circle and leaves the other counters alone |
| `Ports.FindAvailablePortFrom` | crates/detrix-config/src/ports.rs:429-438 | The first free port of the window, or its base |
| `Ports.AllocateAll` | crates/detrix-config/src/ports.rs:381-438 | A whole sequence of requests gets the ports that depend only on the seed, the kind, and how many of that kind came before |
| `Ports.CounterIsLinear` | crates/detrix-config/src/ports.rs:423-426 | Repeated wrapping additions are one addition around the circle |
| `Ports.PortPosition` | crates/detrix-config/src/ports.rs:381-438 | Every port lies in the ten-port slot of its window, all slots counted from the first general port |
| `Ports.PortsAreDistinct` | crates/detrix-config/src/ports.rs:381-438 | For every seed, interleaving and pattern of busy ports, the first 300 general, 4200 HTTP and 2053 gRPC ports are pairwise distinct |
| `Ports.LimitsAreTight` | crates/detrix-config/src/ports.rs:381-438 | No limit can be raised: for every seed and kind there are requests, one above the limit of that kind and within the others, two of which get the same port |
| `Backoff.WaitDoubles` | crates/detrix-agent/src/agent.rs:205 | The closed form satisfies the loop's recurrence |
| `Backoff.WaitIsBounded` | crates/detrix-config/src/agent.rs:212-221 | For validated settings the wait j sessions after a clean end is min(base * 2^j, max), never above max and never shrinking |
| `Backoff.OverflowFreeIffSafe` | crates/detrix-agent/src/agent.rs:205 | No doubling overflows 64 bits, at any j, iff the base is 0 or base and maximum are at most half the range |
| `Backoff.ClosedFormIffUnseen` | crates/detrix-agent/src/agent.rs:205 | Without overflow checks the waits follow the closed form at every j iff wrapping is not seen, which for validated settings is when doubling never overflows |
| `Backoff.SeenIsNotClosed` | crates/detrix-agent/src/agent.rs:205 | For every other setting, a j at which the wrapped wait is not the closed form |
| `Backoff.Run` | crates/detrix-agent/src/agent.rs:153-206 | For all settings and every sequence of session ends, the loop waits the recurrence after each session, restarts it on a clean end, and leaves only on a fatal error or, in a build with overflow checks, at the first wait that cannot be doubled |
| `Backoff.LoopFollowsClosedForm` | crates/detrix-agent/src/agent.rs:153-206 | For the settings named above, the loop's waits are the closed form and no overflow check ends it |

## Left out

- The Rust client, a third copy of the wake and sleep protocol with weaker ordering.
- Initialisation, shutdown and reset of the clients; a run is from a freshly initialised client and has neither.
- HTTP control planes, token discovery, health checks: their outcomes are part of a step, and their contents are not modelled.
- In the clients, the actual debug port and the advertise URL, which no property here depends on; and exceptions out of the unregister call, which is taken as best effort.
- GoRuns.OverlapCanLoseAWake: starts from two sleeps that have captured and not yet done their I/O, which is one of the overlapping states.
- GoRuns.EveryCallCanReturn: like PyRuns.EveryCallCanReturn, says that a continuation exists in which all calls return, not that every schedule lets them; no lock here is fair.
- gRPC and TLS set-up, adapters, the eBPF factory: a create request carries whether they succeed.
- AdapterManagers.AdapterManager.SendConnectionUpdate: does not model the error text of the message and the fields computed from it or fixed by the platform.
- Interleaving of the registry operations with each other: each is one step, although the source suspends inside them.
- The split of a forwarder step into its atomic counter updates: they commute, and no property reads a counter in the middle of a step.
- Wrap-around of the 64-bit counters; saturation of the guard's own count.
- Truncation.TruncationBounds: requires a length below 2^64, the machine's own limit on a string.
- Scanning of /proc, glob matching and language detection: a scan gets its list of binaries as an input.
- Elf.ReaderAgreesWithGabi: speaks of images read as little-endian; the reader does not look at the byte-order mark of the file, so a big-endian image is read as a little-endian one. Extended section numbering, which the reader rejects, is not modelled on the side of the gABI.
- Tracker.SilentClientGoes: requires a cleanup pass in every cleanup interval, which the ticker gives when it runs on time; a ticker with period zero is not modelled.
- Tracker.ShutdownFollows: requires that runnable tasks run and timers expire on time.
- Tracker.McpClientTracker.RegisterClient: requires an id that is not in the map, because the source draws a fresh UUID; an id is never registered twice.
- Ports.TestPortAllocator.Allocate: the answers of the ten probes are given, one per port of the window; the process id and clock behind the seed are an input.
- PortRegistry and find_available_port, configuration loading and defaults, URL, CORS and authentication checks, the command line and the terminal interface: easy or outside this model.
