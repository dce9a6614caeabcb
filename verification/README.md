# ida-mcp: a verified model of its worker pool and protocols

ida-mcp serves IDA Pro databases over MCP. A supervisor leases databases to
worker processes from a pool, keeps a registry of workspace databases, speaks to
its clients over stdio or HTTP, and prepares input files for IDA. This project
models the parts of it that are hard to get right and proves what they promise,
for every input, every interleaving and every reachable state.

`dafny verify dfyconfig.toml` checks the whole project.

## How the model is laid out

* **The pool as a step machine.** `PoolState` has one step per critical section of
  `src/ida/pool.rs` (pool mutex, child mutex, call lock, database handle mutex),
  51 in all, over any number of databases, sessions, workers, leases and running
  futures. The child process answers anything; the transport may be lost at any
  moment; a future may be dropped wherever it awaits, and a retirement guard that is
  armed then leaves a pending retirement of its lease. A mutex is held by the future
  whose stage holds it, so dropping the future frees it. `PoolInvariant` is the
  inductive invariant, `PoolFrames` and `PoolSteps` show that every step keeps it,
  and `PoolRun` lifts it to runs. On top of it: `PoolLifecycle` (bindings,
  generations, identifiers), `PoolCapacity` and `PoolWaiting` (capacity, blocked
  acquirers), `PoolOwnership`, `PoolOrphans` and `PoolZombies` (nobody's slot,
  nobody's lease), `PoolOpen` (opening as a transaction), `PoolPins` (debugger
  pins), `PoolShutdown` (shutdown, replenishment, worker ids), `PoolDecisions` (what each reply,
  outcome and check decides, in observable terms). `PoolReach` and
  `PoolScenarios` build the concrete runs.
* **The pool as code.** `PoolObject` has the classes `WorkerPool` and `ChildSlot`
  with the loops that run inside one critical section. A ghost field ties each
  object to the machine's pool state, and each method moves it by the machine's own
  function or to the machine's own initial state.
* **The registry and its reaper.** `Registry` is a step machine with one step per
  atomic access; `RegistryObject` has the classes and the reaper's two loops.
* **Smaller protocols.** `Disconnect` (delayed cleanup of HTTP sessions),
  `SlicePublish` (racing extraction of Mach-O slices), `LockFile` (the lock file of
  a database), `Drain` (save-first stdio shutdown), `ChildLoop` (the worker's request
  loop).
* **Algorithms.** `FatHeader` (fat Mach-O headers), `Frames` (frame budget and
  bounded replies), `Pagination`, `PythonEscape`. `Wrappers` and `Text` hold shared types
  and text functions.

## Results worth knowing

* The unchecked write to Idle at the end of a release is sound: only the releasing
  future that holds the call lock ever takes a slot out of Closing alive.
* A `close_idb` that is refused before dispatch does not retire the worker
  (`src/ida/pool.rs:685-708`): its slot goes idle although its database was never
  closed. The private peers of the pool never refuse this request, so the code does
  not get there; the model keeps the case (`Errors.CloseOutcome`).
* **A slot can be stranded.** `lease_for_open` takes a stale lease out of its
  database and only then retires its worker (`src/ida/pool.rs:2103-2106`). A future
  dropped in between leaves a slot that is leased and that nobody will ever give
  back. `PoolOrphans.NoOrphanIff` shows that this drop is the only way to lose a
  slot: a run is free of orphans if and only if it contains no such drop (of a slot
  still leased, with no retirement pending). `PoolOrphans.StrandingReachable` gives a
  concrete run.
* A retirement whose future is dropped between taking the worker and forgetting its
  slot leaves a dead child listed, notifies nobody and schedules no replacement,
  although the design has retirement complete in that case
  (`src/ida/pool.rs:1350-1352`). The next scan drops the child from the list. `PoolScenarios.LostForgetLeavesRoom` is
  such a state, and `PoolWaiting.NeverStrandedPending` counts these retirements
  exactly; even then a waiting acquirer has a startup to wait for.
* The second retirement in `dispatch_result_observed` (`src/ida/pool.rs:2231-2240`)
  would repeat one that `call_tool` has already made: every such reply already ended the
  call with an error (`src/ida/pool.rs:1245-1261`). The model has the first one only.
* A terminal removal of the reaper takes an entry with a lease exactly when a lease of
  that entry was installed after its policy read. Nothing can install one under a
  workspace lease or pin by then, and every call site opens a registered database
  under one (`src/server/mod.rs:285`, `1826`, `3819`).
* **A reconnect can lose its stream.** The cleanup of an abandoned HTTP session gives
  up the state mutex between its decision and the close
  (`src/server/http_config.rs:250-258`). A stream opened in between is closed with the
  session. `Disconnect.ClosesOnlyAbandoned` shows that this is the only way:
  the session is unused at the close if and only if no stream was opened since the
  decision. `Disconnect.ReconnectBeforeCloseIsLost` gives a run.
* **A retained debugger session can stay unpinned.** The design asks that every start
  that leaves a live process pins its entry (`src/ida/pool.rs:1343-1347`). The pin is
  applied after an await, so a caller dropped there leaves the session unpinned.
  `PoolPins.RetainedStartEnds` lists the three possible ends,
  `PoolScenarios.DroppedStartStaysUnpinned` gives a run.

## Model

| member | source | states |
|---|---|---|
| `Errors.RetiringErrorsUnbind` | src/ida/pool.rs:3912-3974 | every error with which a call retires its worker makes the caller unbind the lease, for every tool, reply text and fresh or reused lease |
| `Errors.ClassifiedByText` | src/ida/remote.rs:138-165 | which error a text of the child becomes, by the phrases it mentions in any case, the first in order deciding |
| `Errors.FatalTexts` | src/ida/pool.rs:3928-3954 | which texts retire the worker, tool by tool: a closed channel always, a timeout for an open and the debugger tools, a cancellation for an open |
| `Errors.ErrorsThatRelease` | src/ida/pool.rs:3956-3974 | exactly which errors give up a fresh lease, a reused lease, and the binding of another call |
| `Errors.CloseRetiresIff` | src/ida/pool.rs:3912-3926 | a release retires the worker exactly when the close is unsettled: no answer in time, lost transport, protocol error, or a result that reports a closed channel, timeout, cancellation or incomplete teardown |
| `PoolSteps.VisitIdleKeeps` | src/ida/pool.rs:436-463 | leasing the idle child found by a scan and installing the lease keeps the invariant |
| `PoolSteps.SpawnDoneKeeps` | src/ida/pool.rs:595-644 | a started worker is built under exactly the lease of the opener that waits for it, or idle |
| `PoolSteps.InstallLeasedKeeps` | src/ida/pool.rs:553-574 | moving a startup into the children and installing its lease keeps the invariant |
| `PoolSteps.SendKeeps` | src/ida/pool.rs:1112-1150 | dispatch with its published open intent keeps the invariant |
| `PoolSteps.RetireCallKeeps` | src/ida/pool.rs:1197-1274 | retiring the worker of a cancelled, timed out, lost or fatally answered call keeps the invariant |
| `PoolSteps.SettleOpenKeeps` | src/ida/pool.rs:1262-1291 | committing or rolling back an open keeps the invariant |
| `PoolSteps.SameLeaseIsTheLease` | src/ida/pool.rs:1965-1979 | a lease with the generation of a call is the very lease that served it, on the same worker |
| `PoolSteps.UnbindKeeps` | src/ida/pool.rs:2144-2160 | the caller of a failed call clears the binding of its own lease or nothing, and the invariant is kept |
| `PoolSteps.ReleaseLockKeeps` | src/ida/pool.rs:659-672 | a release starts to close only its own slot, leased under its own lease, and holds the call lock from then on; otherwise it ends and changes no slot |
| `PoolSteps.ReleaseIdleKeeps` | src/ida/pool.rs:710-723 | the write to Idle, made without another look at the lease, hits only a slot that is closing under that very lease |
| `PoolSteps.GuardRetireKeeps` | src/ida/pool.rs:276-297 | a delayed lease-scoped retirement keeps the invariant whatever happened since the drop |
| `PoolSteps.DropKeeps` | src/ida/pool.rs:329-361 | dropping any future at any await keeps the invariant, ends exactly that future, frees its locks, and leaves the retirement of a release or running call and the cleanup of a startup pending |
| `PoolRun.StepKeeps` | src/ida/pool.rs:1305-1383 | each of the 51 steps keeps the whole invariant |
| `PoolRun.RunKeeps` | src/ida/pool.rs:1305-1383 | the invariant holds in every state of every run from a warmed pool |
| `PoolLifecycle.ExclusiveBinding` | src/ida/pool.rs:443-462 | in every reachable state an installed lease points to a slot that is dead or leased to exactly that session and lease, and two databases share a slot only if it is dead |
| `PoolLifecycle.ClosingExits` | src/ida/pool.rs:659-739 | a closing slot stays, dies, or goes idle by the releasing future that holds its call lock after a close that the child settled or was never sent |
| `PoolLifecycle.StepGrows` | src/ida/pool.rs:759-770 | every step moves every slot along Idle, Leased(l), Closing(l), Idle, with Dead reachable from anywhere and final |
| `PoolLifecycle.RunGrows` | src/ida/pool.rs:416-422 | worker slots, lease installations and handed-over artifacts are never dropped from history, moved or overwritten; a dead worker stays dead; counters only go up |
| `PoolLifecycle.GenerationGating` | src/ida/pool.rs:1112-1150 | whenever a call is sent its slot is leased under the one lease id ever installed at the call's database generation, in that run, before or after |
| `PoolLifecycle.CallStartBinds` | src/ida/pool.rs:2127-2135 | a call bound to a generation starts only on the binding of that generation |
| `PoolLifecycle.GatedEndToEnd` | src/ida/pool.rs:2127-2135 | a call started for a generation is sent, however much later in the run, only on the worker and under the lease bound at that generation when it started, with the slot leased under exactly that lease, which is the only one ever installed there |
| `PoolCapacity.StepCounts` | src/ida/pool.rs:423-488 | every step keeps startups plus live children within the maximum, and the knowledge of every scanning or waiting acquirer |
| `PoolCapacity.CapacityHolds` | src/ida/pool.rs:469-487 | startups plus live children never exceed max_workers, in every reachable state |
| `PoolCapacity.NeverStranded` | src/ida/pool.rs:423-488 | a waiting acquirer either can wake or was not notified since it registered, and then no child is idle, a startup is outstanding and the capacity is filled but for slots that died since |
| `PoolCapacity.ScanOutcome` | src/ida/pool.rs:423-488 | a scan reserves only below capacity while serving, waits only at capacity with a startup outstanding, fails only at capacity without one, in shutdown or out of ids, and leaves only children that live or died since it registered |
| `PoolWaiting.WaiterRegistered` | src/ida/pool.rs:424-428 | what a waiting acquirer remembers it took in one register step of the run, and has remembered ever since |
| `PoolWaiting.NeverStrandedPending` | src/ida/pool.rs:799-803 | without a notification since its register step, no child is idle, a startup is outstanding, and startups, live children, slots whose notifying forget step is pending and retirements cut short since then fill the capacity |
| `PoolScenarios.LostForgetLeavesRoom` | src/ida/pool.rs:759-770 | a reachable state with an unnotified waiter although startups, live children and pending forgets leave room, and with no replacement due below the minimum |
| `PoolWaiting.StartupEndsAloud` | src/ida/pool.rs:553-574 | a startup leaves the reservations only with a notification that wakes every waiter |
| `PoolWaiting.StartupProgress` | src/ida/pool.rs:515-531 | whenever the pool mutex is free, every startup has a step of its own to take |
| `PoolOwnership.StepOwning` | src/ida/pool.rs:276-297 | every step but the careless drop leaves each leased or closing slot with an owner: a binding, a future that disposes of it, a scheduled retirement, or its reservation |
| `PoolOrphans.StepStrandsIff` | src/ida/pool.rs:2103-2106 | a step strands a slot if and only if it drops a reopening between the take of its stale lease and the retirement |
| `PoolOrphans.NoOrphanIff` | src/ida/pool.rs:2088-2118 | over whole runs: every leased or closing slot has an owner in every state if and only if the run has no such drop |
| `PoolOrphans.StrandingReachable` | src/ida/pool.rs:2101-2106 | a reachable state with a leased slot that nobody owns |
| `PoolZombies.UnboundForGood` | src/ida/pool.rs:2112-2118 | a lease that left its database never is its binding again |
| `PoolZombies.NoZombie` | src/ida/pool.rs:2202-2257 | once the caller of a call that retired its worker, or was refused at admission, has reacted, no database is bound to that lease for the rest of the run |
| `PoolOpen.RetiredOnce` | src/ida/pool.rs:837-851 | a worker is retired at most once, and its retirement takes the path and artifacts it had at that moment |
| `PoolOpen.IntentIsKept` | src/ida/pool.rs:1131-1150 | while an open is unsettled its slot carries the dispatched path and snapshot, or is dead and handed exactly these to retirement |
| `PoolOpen.OpenIsTransactional` | src/ida/pool.rs:1262-1291 | a settled failure restores the path from before the dispatch, a settled success commits the reported path, artifacts are cleared, nothing else changes, and the slot is never found under another lease |
| `PoolOpen.UndispatchedStutters` | src/ida/pool.rs:1099-1183 | the steps of a call that ends as NeverDispatched or Busy, is dropped before its dispatch, or is refused at admission change no slot, path, artifact, binding, pool state or pending retirement; what the caller of a refused call does next is in PoolZombies.NoZombie |
| `PoolDecisions.RefusalTells` | src/ida/pool.rs:1113-1127 | a call is refused exactly when its worker is not leased to its session under its lease, as crashed for a dead worker and replaced otherwise, and nothing else changes |
| `PoolDecisions.OnlyOpensPublish` | src/ida/pool.rs:1131-1150 | a failed send and the send of any other call leave every slot as it is |
| `PoolDecisions.TextDecides` | src/ida/pool.rs:1245-1261 | an error result settles a call only if its text is not fatal for the tool, and retires the worker only if it is |
| `PoolDecisions.RetiredCallLeavesDead` | src/ida/pool.rs:1197-1274 | a call that ends by retirement leaves its own worker dead, no other worker touched, and fails with the error of its cause |
| `PoolDecisions.GuardIsScoped` | src/ida/pool.rs:759-770 | a delayed retirement kills the worker exactly if it is still leased or closing under that lease, and changes no slot otherwise |
| `PoolDecisions.SettledOpenFailure` | src/ida/pool.rs:2460-2468 | after a settled failure the caller keeps a reused lease bound and gives a fresh one back |
| `PoolDecisions.SettledCallKeeps` | src/ida/pool.rs:2229-2249 | a settled reply to another call changes no binding or slot, and reaches a pin decision exactly for a launch or attach that reports a retained session and for a successful stop |
| `PoolDecisions.StopUnpins` | src/ida/pool.rs:2646-2672 | a successful stop applied to the lease that served it leaves that lease unpinned, and a late one changes nothing |
| `PoolDecisions.ReuseOnlyServing` | src/ida/pool.rs:2091-2096 | an open reuses a binding exactly if its worker is leased under that lease with an open transport |
| `PoolDecisions.FreshMeansInstalled` | src/ida/pool.rs:2091-2117 | an open counts as fresh exactly when it installed the lease it runs on |
| `PoolDecisions.StaleWorkerIsRetired` | src/ida/pool.rs:2103-2106 | the worker of a stale lease is dead before another one is asked for |
| `PoolDecisions.CloseTakesGeneration` | src/ida/pool.rs:2517-2536 | a conditional close takes the binding of exactly that generation and starts its release |
| `PoolDecisions.CloseOutcomeDecides` | src/ida/pool.rs:674-723 | the outcome of the close decides: unsettled, the worker ends dead; settled or never sent, it ends idle and empty, unless it died before |
| `PoolDecisions.ReapsOnlyLost` | src/ida/pool.rs:2038-2061 | the reaper takes a lease only from a worker that does not serve it, and kills that worker |
| `PoolDecisions.ForgottenForGood` | src/ida/pool.rs:799-803 | forgetting drops exactly that child, notifies, and the worker is no child ever again unless it was never installed |
| `PoolDecisions.StartupEffects` | src/ida/pool.rs:595-644 | a started worker is connected, empty, and leased to the opener that waits for it or idle; a discarded or expired one is dead |
| `PoolDecisions.ShutdownStopsAcquisition` | src/ida/pool.rs:914-920 | from its first step on, shutdown lets no scan start, no worker be reserved and no startup be installed |
| `PoolPins.PinOwnership` | src/ida/pool.rs:2586-2634 | a pinned lease is exactly the one whose debugger start reported a retained session earlier in the run, and no successful stop was applied to it since |
| `PoolPins.PinnedSince` | src/ida/pool.rs:1965-1979 | from the step that pinned it, the lease stayed installed and pinned |
| `PoolPins.RetainedStartReported` | src/ida/pool.rs:2602-2632 | a retained start is reported as a success exactly when its own lease is pinned afterwards; a late completion changes no binding |
| `PoolPins.RetainedStartEnds` | src/ida/pool.rs:2586-2634 | a settled retained start ends in one of three ways: its own lease is pinned and the start reported, its lease is gone and the session reported lost, or its caller is dropped, which changes nothing else |
| `PoolScenarios.DroppedStartStaysUnpinned` | src/ida/pool.rs:2602-2608 | a reachable drop after which the lease that owns a retained session is installed, usable and unpinned, with nothing left to pin or retire it |
| `PoolShutdown.WorkerIdsNeverReused` | src/ida/pool.rs:538-551 | an id below the counter that is not starting up never starts up again and never gets a new slot |
| `PoolShutdown.NothingAdded` | src/ida/pool.rs:914-920 | once the pool is shutting down, children and reservations only shrink |
| `PoolShutdown.ShutdownIsFinal` | src/ida/pool.rs:922-954 | after shutdown_all, for the rest of the run: no child, no startup, every worker dead, no binding usable |
| `PoolShutdown.RefillReachesFloor` | src/ida/pool.rs:873-905 | replenishment reaches the minimum unless shutting down or out of ids, adds only fresh ids and never passes the minimum |
| `PoolShutdown.ReplenishRestores` | src/ida/pool.rs:873-905 | every replenishment step of a run ends with the minimum, unless shutting down or out of ids |
| `PoolObject.ChildSlot.TakeDeadWorker` | src/ida/pool.rs:837-851 | the slot ends dead and empty; its path and artifacts are handed over |
| `PoolObject.ChildSlot.TakeDeadForLease` | src/ida/pool.rs:759-770 | a lease-scoped retirement takes the worker exactly when the slot belongs to that lease |
| `PoolObject.ChildSlot.BeginClose` | src/ida/pool.rs:662-672 | a release starts exactly when the slot belongs to the lease |
| `PoolObject.ChildSlot.FinishClose` | src/ida/pool.rs:710-723 | a live slot ends idle and empty, a dead one is left alone |
| `PoolObject.WorkerPool.Reserve` | src/ida/pool.rs:538-551 | the next id is reserved unless shutting down or out of ids |
| `PoolObject.WorkerPool.ScheduleReplenishment` | src/ida/pool.rs:873-905 | the loop does exactly the machine's refill and returns the consecutive new ids |
| `PoolObject.WorkerPool.Forget` | src/ida/pool.rs:799-803 | the slot leaves the list, the others keep their order, waiters are notified |
| `PoolObject.WithoutInOrder` | src/ida/pool.rs:799-803 | the children that stay keep their order |
| `PoolObject.WorkerPool.FinishSpawn` | src/ida/pool.rs:553-574 | a startup becomes a child or just ends; while shutting down a started worker is killed and forgotten instead; the reservation goes and waiters are notified in any case |
| `PoolObject.WorkerPool.DiscardUninstalled` | src/ida/pool.rs:576-582 | a slot that was never installed ends dead, with a notification |
| `PoolObject.WorkerPool.BeginShutdown` | src/ida/pool.rs:914-920 | the pool is marked as shutting down, nothing else changes |
| `PoolObject.WorkerPool.LiveOrReserved` | src/ida/pool.rs:819-825 | the loop counts startups and children that are not dead |
| `PoolObject.LiveCountIsLive` | src/ida/pool.rs:819-825 | that count is the number of live children of the machine |
| `PoolObject.WorkerPool.TakeStaleIdle` | src/ida/pool.rs:813-835 | an idle worker is reaped exactly when more than the minimum live, it is idle and was not used since, and then hands over its path and artifacts |
| `PoolObject.ScanList` | src/ida/pool.rs:433-463 | the loop finds the first idle child, or else the exact count of startups and live children and exactly the dead ids |
| `PoolObject.WorkerPool.ScanChildren` | src/ida/pool.rs:429-463 | the same for the children of the pool |
| `PoolObject.WorkerPool.LeaseScan` | src/ida/pool.rs:423-488 | the first idle child is leased and nothing pruned; without one exactly the dead are pruned and the outcome follows the exact count |
| `PoolObject.WorkerPool.WarmMin` | src/ida/pool.rs:386-394 | warming a fresh pool reaches the machine's initial state, with the whole minimum idle exactly when every start succeeds |
| `Registry.StepKeeps` | src/ida/pool.rs:1892-1910 | every atomic access keeps counters equal to live guards and all reads of the reaper valid |
| `Registry.CountersAreGuards` | src/ida/pool.rs:1626-1640 | in every reachable state the two counters equal the numbers of live workspace leases and pins |
| `Registry.AcquisitionGuards` | src/ida/pool.rs:1611-1640 | an allocated or acquired database is guarded from that step on |
| `Registry.ReaperSafety` | src/ida/pool.rs:1814-1840 | a removed entry is no legacy binding and has no live guard, and an idle one is past the timeout |
| `Registry.LegacyIsNeverReaped` | src/ida/pool.rs:1642-1652 | the reaper never removes the binding of a legacy session |
| `Registry.TerminalTakesLeaseIff` | src/ida/pool.rs:1825-1833 | a terminal removal takes an entry with a lease if and only if a lease of that entry was installed, and not cleared again, after the policy read that let it pass |
| `Registry.GuardedOpensSpareTerminal` | src/ida/pool.rs:2065-2067 | if the opens of that entry since the policy read ran under a workspace lease or pin, a terminal removal finds no lease |
| `Registry.IdleSinceLastUse` | src/ida/pool.rs:1892-1910 | no entry is reaped as idle within idle_timeout of any moment at which one of its guards was in use |
| `Registry.UnguardedOpenRaces` | src/ida/pool.rs:1825-1833 | a reachable terminal removal of an entry with a lease, after an open without a guard |
| `RegistryObject.WorkspaceRegistry.Allocate` | src/ida/pool.rs:1611-1617 | a new entry is born with one guard |
| `RegistryObject.WorkspaceRegistry.Acquire` | src/ida/pool.rs:1626-1640 | lookup counts and stamps exactly the entry found; an unknown id changes nothing |
| `RegistryObject.WorkspaceRegistry.DropGuard` | src/ida/pool.rs:1892-1910 | releasing a guard stamps the entry and counts it down |
| `RegistryObject.WorkspaceRegistry.CollectCandidates` | src/ida/pool.rs:1760-1778 | the candidates are exactly the entries that are no legacy bindings and have no active call and no pin |
| `RegistryObject.WorkspaceRegistry.TakeExpired` | src/ida/pool.rs:1814-1840 | exactly the reported entries that are no legacy bindings, without active call and pin, and past the timeout (idle) or without a lease (terminal) are removed, each returned once, no entry changed |
| `RegistryObject.RecheckIsTheMachine` | src/ida/pool.rs:1821-1834 | an entry passes the re-check exactly when the four reads of the interleaved reaper succeed one after the other |
| `Disconnect.SessionDisconnectRegistry.OpenStream` | src/server/http_config.rs:180-199 | a stream gets the next generation, is counted and voids an abandonment |
| `Disconnect.SessionDisconnectRegistry.CloseStream` | src/server/http_config.rs:212-235 | a finished stream is uncounted, may mark its generation abandoned, and schedules a cleanup for the abandoned generation when it was the last |
| `Disconnect.SessionDisconnectRegistry.CloseSession` | src/server/http_config.rs:201-210 | the session's state is forgotten |
| `Disconnect.StepKeeps` | src/server/http_config.rs:180-282 | every step keeps the counts, the trail of abandonments and the pending cleanups consistent |
| `Disconnect.DecidesOnlyAbandoned` | src/server/http_config.rs:271-282 | a cleanup decides to close only when all streams of the session are finished and none was opened since the abandonment it captured |
| `Disconnect.ClosesOnlyAbandoned` | src/server/http_config.rs:246-268 | at the close, the streams opened since the captured abandonment are exactly those opened after the decision, so the session is unused if and only if no stream was opened between decision and close |
| `Disconnect.ReconnectBeforeCloseIsLost` | src/server/http_config.rs:250-258 | a reachable close of a session with a stream opened after the abandonment, by a reconnect between decision and close |
| `Disconnect.ScheduledByLastStream` | src/server/http_config.rs:212-232 | a cleanup is scheduled exactly by the end of the last stream of a session that remembers an abandonment, for that abandonment |
| `Disconnect.AbandonedIsCleanedUp` | src/server/http_config.rs:212-246 | once a stream was abandoned, none opened since and the session not closed, the end of all streams in any order leaves a cleanup for the last abandoned one on the way |
| `Disconnect.AbandonedIsPending` | src/server/http_config.rs:212-252 | a remembered abandonment without streams has a cleanup for exactly its generation on the way, and that cleanup would close the session |
| `Disconnect.ClosedForGood` | src/server/http_config.rs:201-210 | a close by the client or a cleanup forgets the session for good |
| `Disconnect.ReconnectVoids` | src/server/http_config.rs:271-282 | after a reconnect before the decision, the decision drops the cleanup without touching the session |
| `FatHeader.ParseFatHeader` | src/macho_fat.rs:99-141 | the parser computes the specified result |
| `FatHeader.ParseTable` | src/macho_fat.rs:122-140 | the loop over the slice table computes the specified result |
| `FatHeader.RecognizedByBytes` | src/macho_fat.rs:99-120 | a header is universal exactly by its first eight bytes, and truncated exactly if it ends inside the table |
| `FatHeader.PrefixSuffices` | src/macho_fat.rs:204-207 | parsing the first 1448 bytes gives the result of parsing the whole file |
| `FatHeader.AcceptedTable` | src/macho_fat.rs:111-141 | an accepted table has 1 to 44 nonempty slices behind the table and inside the file, with distinct lowercase names |
| `FatHeader.EntryTruncationUnreachable` | src/macho_fat.rs:116-126 | the error for a truncated entry is never reported |
| `FatHeader.EncodedTableAccepted` | src/macho_fat.rs:99-155 | for both widths, parsing an encoded table followed by anything gives back its slices exactly when they are not empty, lie behind the table and in the file, under different names |
| `FatHeader.ParseEncode` | src/macho_fat.rs:143-155 | parsing an encoded table is validating the list of its slices, errors included |
| `FatHeader.LipoNames` | src/macho_fat.rs:59-76 | each documented CPU type and subtype bears the name that lipo gives it, whatever its feature flags |
| `FatHeader.OtherNames` | src/macho_fat.rs:77-81 | any other pair is named by its two numbers in hexadecimal |
| `FatHeader.NamesTellArchitectures` | src/macho_fat.rs:59-81 | equal names mean the same CPU type and the same subtype up to feature flags |
| `FatHeader.SelectionIsExact` | src/macho_fat.rs:246-251 | in an accepted table a name selects the one slice that bears it in lower case, and nothing exactly when none does |
| `FatHeader.TrimSplits` | src/macho_fat.rs:246-251 | trimming a requested name removes white space at both ends and nothing else |
| `FatHeader.SelectsArchitecture` | src/macho_fat.rs:246-251 | a documented name, in any case, selects exactly the slice of the entry with that CPU type and subtype, and nothing if there is none |
| `SlicePublish.SliceMatches` | src/macho_fat.rs:390-407 | the chunked comparison decides equality whatever the sizes of the reads |
| `SlicePublish.StepKeeps` | src/macho_fat.rs:293-357 | every step of every publisher keeps the protocol's invariant |
| `SlicePublish.DestinationIsNeverTouched` | src/macho_fat.rs:299-333 | once a destination exists nothing rebinds, writes or unlinks it |
| `SlicePublish.ReturnedSliceIsThere` | src/macho_fat.rs:316-357 | a call that returns Created or Reused has its caller's slice at the destination, for good |
| `SlicePublish.CreatedOnce` | src/macho_fat.rs:318-324 | at most one publisher of a destination is told that it created it |
| `SlicePublish.RemovesOnlyItsOwn` | src/macho_fat.rs:308-338 | a name disappears only as the temporary file of the call that created it |
| `SlicePublish.DestinationDecides` | src/macho_fat.rs:299-324 | inspection and link decide by the destination: taken, it is judged; free, the call writes, and creates it at the link |
| `SlicePublish.TakenDestinationJudged` | src/macho_fat.rs:342-357 | a taken destination ends as Reused if it has the slice and no I/O error comes up, and as Refused if it differs |
| `LockFile.StepKeeps` | src/ida/lock.rs:44-160 | locks, records and confirmed paths stay consistent under every step |
| `LockFile.PathStaysBound` | src/ida/lock.rs:109-160 | while a process holds the lock on the inode its path names, nobody else unbinds or rebinds that path |
| `LockFile.UnlinksOnlyItsOwn` | src/ida/lock.rs:109-160 | an unlinked path named exactly the locked inode; after a reclaim that file still recorded the expected pid, otherwise the owner's own |
| `LockFile.ChecksDecide` | src/ida/lock.rs:109-160 | a reclaim yields a lock only on the file its path names, with the expected record; a release unlinks exactly when its path names its file |
| `LockFile.NeverRebound` | src/ida/lock.rs:44-56 | opening a lock file never makes a bound path name another file |
| `LockFile.Host.AcquireLock` | src/ida/lock.rs:44-91 | acquiring fails exactly when the file is locked, otherwise records the pid and holds the lock |
| `LockFile.Host.ReclaimLock` | src/ida/lock.rs:109-128 | reclaiming succeeds exactly on an unlocked file that records the expected pid |
| `LockFile.Host.ReleaseLock` | src/ida/lock.rs:131-160 | the path is unlinked exactly if it still names the locked file; the lock goes in any case |
| `Frames.FrameBudget.Write` | src/transport.rs:51-69 | a write succeeds exactly when it fits what remains |
| `Frames.FrameFits` | src/transport.rs:77-93 | whatever the split into writes, a frame fits exactly when its length plus newline is within the limit |
| `Frames.BoundedReplyDelivers` | src/transport.rs:95-154 | every reply whose id passes the id check gets through, bounded, under the same id; errors keep their code; fitting replies are unchanged |
| `Frames.BoundedReplyFits` | src/transport.rs:95-154 | whatever is sent fits; oversized requests and notifications are refused |
| `Frames.OversizedReplies` | src/transport.rs:95-154 | what an oversized reply is replaced by, step by step: the explaining result or error, then the compact error; an error loses its data before its text |
| `Frames.CrashMarkerSurvives` | src/transport.rs:100-115 | the crash marker survives exactly when the marked reply or its marked replacement fits, and never appears by itself |
| `Drain.DrainIsFinal` | src/transport.rs:245-324 | once drain has returned no handed-over request is unsettled and none is handed over any more |
| `Drain.UnsettledUntilSettled` | src/transport.rs:298-324 | a request is unsettled from its handover until it is settled |
| `Drain.DrainWaits` | src/transport.rs:242-248 | whatever was handed over before drain returned was settled before that |
| `Drain.EndOnlyAfterRelease` | src/transport.rs:229-256 | once armed before any terminal event got through, the end of input or a write failure is observed only after release |
| `ChildLoop.IdaLoop.TakeTurn` | src/ida/loop_impl.rs:576-797 | one turn of the loop does what the specification of a turn says |
| `ChildLoop.IdaLoop.Handle` | src/ida/loop_impl.rs:634-797 | handling one request does what the specification of a request says |
| `ChildLoop.IdaLoop.Run` | src/ida/loop_impl.rs:576-2274 | the loop answers as the specification of a run says, up to Shutdown |
| `ChildLoop.RunFollowsTrace` | src/ida/loop_impl.rs:576-2274 | its replies and final state are those of the trace of turns |
| `ChildLoop.TurnKeeps` | src/ida/loop_impl.rs:692-714 | database, path, generation and lock come and go together, and generations stay with their database |
| `ChildLoop.RepliesTellTheTruth` | src/ida/loop_impl.rs:634-797 | a confirmed close leaves no database, path, generation or lock; refusals and failures leave all of them; a shutdown closes; an open that opened has the requested path and a new database |
| `ChildLoop.RequestsAreAnswered` | src/ida/loop_impl.rs:753-797 | which request is answered how: a close by its teardown, a conditional close and a bound request by their generation |
| `ChildLoop.NotWorkingRejects` | src/ida/loop_impl.rs:583-633 | an uninitialized loop initializes or rejects, and under a version mismatch everything but a shutdown is rejected |
| `ChildLoop.OpenReportsItsDatabase` | src/ida/loop_impl.rs:692-714 | an open reports the generation of the database open afterwards, larger than all before unless the database was open already |
| `ChildLoop.SameGenerationSameDatabase` | src/ida/loop_impl.rs:692-714 | generations are never reused |
| `ChildLoop.GenerationGates` | src/ida/loop_impl.rs:773-797 | a conditional close or bound request acts only on the very database whose open returned its generation |
| `ChildLoop.ClosedForGood` | src/ida/loop_impl.rs:773-797 | after a confirmed close the generation is never served or closed again, and every later open reports a larger one |
| `ChildLoop.CrashForgets` | src/ida/loop_impl.rs:576-582 | after a crash the next request finds no database, generation, path or lock and is refused if bound |
| `Pagination.ListFunctions` | src/ida/handlers/functions.rs:14-62 | a page is exactly a window of the filtered list, with its total and the next offset |
| `Pagination.MatchingExact` | src/ida/handlers/functions.rs:22-37 | the filtered list is exactly the functions whose lowered name has the lowered text somewhere in it, in their order |
| `Pagination.Walk` | src/ida/handlers/functions.rs:50-62 | following next_offset from 0 with limits of at least 1 ends and lists every match once, in order, with the same total on every page |
| `PythonEscape.EscapeIsPerCharacter` | src/dsc.rs:20-25 | the four sequential replaces are one pass over the characters |
| `PythonEscape.EscapeRoundTrip` | src/dsc.rs:20-25 | a Python double-quoted literal of the result reads back as the input |
| `PythonEscape.EscapedIsOneLiteral` | src/dsc.rs:20-25 | the result has no raw line end and no quote that would end the literal early |

## Left out

Assumptions of the pool machine:

- `warm_min` runs once, on a fresh pool (src/main.rs:529, 868, 1022); a Tokio runtime exists wherever a drop guard runs; futures do not panic.
- `never_dispatched` is true exactly of NeverDispatched and Busy (src/error.rs:182-187), and such a call did not reach its worker.
- Time is not modelled in the pool: timeouts, cancellations and expiries may happen at any moment. Memory ordering is sequentially consistent.
- The bound on queued calls and on acquisitions is not counted; refusing a call with Busy is a call that is never dispatched.
- The machine lets the idle reaper take any idle child: its count of live children is read child by child and may be stale when it acts. The count itself is in `PoolObject`.
- Forgetting a slot always makes a replenishment possible in the machine, also on the two paths that do not schedule one.

Weaker than it could be:

- Disconnect.ClosesOnlyAbandoned: speaks of sessions with at most 2^64 streams, because the code's generations wrap around there; no stream is opened for an id after its session was closed.
- Disconnect.DecidesOnlyAbandoned: the same bound on the number of streams.
- Registry.ReaperSafety: says nothing about a debugger pin that is set while a pass of the reaper is under way, since nothing in the code rules it out.
- LockFile.PathStaysBound: is about unlinking and reclaiming only; `acquire_mcp_lock` does not look at its path again after locking, so two processes can each hold a lock on different inodes of one path over time. Each process runs one operation at a time, so the POSIX rule that closing any descriptor frees the lock is not modelled.
- SlicePublish.DestinationIsNeverTouched: others may create files but not alter or remove them, and the input file does not change while it is read.
- Frames.BoundedReplyDelivers: JSON is modelled by its lengths, and serialization of a reply does not fail for other reasons.
- ChildLoop.IdaLoop.Run: stands for all requests other than open and close by one kind of request that may be bound to a generation and may crash; the native open either succeeds with a database or leaves none, and never replaces an open one.

Not modelled:

- IDA SDK calls, the handlers that wrap them, and the forwarding methods that only pack arguments.
- Process spawning, the MCP handshake, JSON encoding and rmcp internals.
- Close tokens, raw-open artifact cleanup and the public stdio reader, which stay opaque values.
- Probing of worker health by the reaper beyond its effect on leases, and the listing of databases.
- Tool registry and filters, HTTP Host and Origin checks, CLI, build and platform plumbing: easy set, list or bound facts, or I/O.
