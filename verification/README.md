# libdeno: a verified model of its concurrency and bundle code

libdeno embeds a Deno runtime in a Rust library. This project models the parts of it whose
correctness rests on interleavings, failure paths or text formats, and proves what they promise
for every run, every failure point and every input.

**The executor** (`src/executor.rs`) is modelled twice. `Executor.AdmissionScheduler`,
`TaskControls.TaskControl` and `ResultCells.ResultCell` keep the source's own fields and update them
in place; each method is one critical section and is proved equal to a function in `Admission` or
`Tasks`. `Scheduling` builds the whole executor from those same functions as a step relation:
submitters, manager thread, task threads, cancellers and shutdown calls interleave at every lock
release, with `submit`'s push, its notification, `ensure_manager`, the thread start and
`fail_pending` as separate steps, and the manager's hand-off of expired owners split from the pass
that found them. `SchedulerInvariant` carries one inductive invariant through all 29 events, assembled
from `Conservation` (places, permits, bounds), `Fifo`, `Managers` (one manager, nothing stranded),
`Wakeups` (a sleeping manager misses nothing) and `ShutdownCounts`. `SchedulerTheorems` and
`Progress` state what follows for whole runs; `Completion` adds a ranking (`Ranking`) that every
working step lowers, so accepted tasks do get their results. `TaskSteps` says what each event does to
one task in terms of its own fields, its place and the clock, and on it rest `Outcomes` (what callers
are told and why), `Cancellations` (when backends start and why tasks are cancelled), `ShutdownCalls`
(whom a call of `shutdown` stops and counts) and, for the manager, `ManagerDecisions`.

**Output capture** (`src/output.rs`, Unix) is a transaction over a descriptor table whose every call
may fail or be interrupted (`FdTables`, `OutputCapture`), a step relation in which others change the
table while streams are captured (`CaptureInterference`), and a capped streaming reader
(`CaptureReader`).

**Resolver reuse** (`src/runtime.rs`) is `ResolverReuse`; the lock-free leases of `src/lib.rs` and
`src/budget.rs` are `RunLease` and `Budget`: step relations over the atomic accesses, and the
imperative code of one thread under arbitrary interference.

**The snapshot bundle** has five parts: `Fnv` (the fingerprint in Rust and in Python),
`SnapshotManifest` (printer and parser) with `ManifestMeaning` (which texts are accepted),
`ResidualTable` (printer in `build.rs`, reader in `build_support/snapshot_bundle.rs`) with
`DebugLiterals` (the printed literals read back), `SnapshotBundle` (describe, verify, copy) and the
crash-consistent publication of `scripts/snapshot_compat.py` (`Publication` as interleaved steps with
crashes and exceptions, `BundlePublisher` as the code of one publisher).

**The permission broker** (`src/permission_broker.rs`) is `BrokerFraming` (the bounded line reader)
and `BrokerServing` (the serving loop). **Canonical JSON** (`src/npm_cache.rs`) is `CanonicalJson`.

Conventions: time is a non-decreasing natural number; counters are mathematical integers, and where
the source's width matters the bound is written out; every fallible call takes its outcome from a
parameter, so a theorem about "all failure points" quantifies over that parameter. A result about runs
takes any finite run from the initial state and any position in it.

Three findings are stated exactly. A manifest survives printing and parsing if and only if its fields
are line-safe (`SnapshotManifest.RoundTripExactly`): values may hold anything but a line break and
trailing white space, a residual's hash may not be empty and neither name nor hash may hold a tab.
`validate_residual_name` does not ask for that, so an exported manifest is read back if and only if
the identity is line-safe and the table's names are one-line names
(`SnapshotBundle.ExportThenImport`). The name `a<TAB>b` is accepted (`SnapshotBundle.TabIsAccepted`),
a table can name it (`SnapshotBundle.TabIsFound`), and a manifest holding it is not read back
(`SnapshotBundle.TabIsNotReadBack`). This is a gap of the public function only: `build.rs` describes
no table but its own, whose names are one-line names for every specifier (`SnapshotBundle.BuiltSources`).
And a caller told that a task was cancelled finds its reason recorded in the control block, user or
shutdown, except for the tasks a shutdown takes from the queue: `shutdown` marks the owners it takes
from `ready` and not those it takes from the queue, which end `Terminated` without a reason
(`Outcomes.ResultsTellWhy`).

## Model

| member | source | states |
|---|---|---|
| SchedulerTheorems.EveryTaskHasOnePlace | src/executor.rs:1401-1545 | In every reachable state both limits hold, queue, ready and `active` hold accepted ids only and none twice, and each task is in exactly one place: the one its only owner is in, with the permit, the lifecycle state and the missing cancel reason that belong there. |
| SchedulerTheorems.AdmissionIsFifo | src/executor.rs:1422-1548 | Ids enter `active` and are dispatched in strictly increasing order over the whole run, whatever cancellations, expiries and releases interleave; both histories only grow. |
| SchedulerTheorems.OutcomeIsFinal | src/executor.rs:1001-1094 | Terminal states are absorbing; a published result never changes, implies a terminal lifecycle and an id out of `active`, and is an output exactly when the task completed; no owner ever finds its task already terminal. |
| SchedulerTheorems.CancellationSticks | src/executor.rs:986-999 | A cancel answered `Requested` keeps its reason for ever, the task never completes, and a backend not yet invoked never is. |
| SchedulerTheorems.ShutdownIsFinal | src/executor.rs:1652-1700 | After the first section of a shutdown nothing is admitted, both deques stay empty and no task newly enters `Started`. |
| SchedulerTheorems.ShutdownCountsAreDisjoint | src/executor.rs:1652-1754 | Over any number of concurrent shutdown calls the three reported counts are the sizes of pairwise disjoint task sets: waiting tasks that are never admitted, and admitted tasks whose first cancel reason is the shutdown and which never complete. |
| SchedulerTheorems.NoStrandedWork | src/executor.rs:1462-1490 | At most one manager exists, the flag is up exactly while one exists or is being started, and waiting work implies the flag or a submitter still on its way. |
| SchedulerTheorems.SleepMissesNothing | src/executor.rs:1564-1594 | An unsignalled sleeping manager with no notification on its way leaves nothing ready, no queued task beside a free slot, and no enforced deadline before its wake-up. |
| SchedulerTheorems.SweepIsComplete | src/executor.rs:1498-1545 | After a manager pass no queued or ready task and no unstarted or started active task has a deadline in the past, and every expired owner is on its way to a deadline failure. |
| SchedulerTheorems.RunSettles | src/executor.rs:883-1094 | From any state of a run to any later one: tasks stay, terminal controls and published results do not change, cancel reasons are never overwritten, histories grow by extension. |
| SchedulerTheorems.PassClears | src/executor.rs:1498-1545 | A pass at `now` leaves nothing overdue at `now`, for every scheduler state whose reasons fit its lifecycles. |
| TaskSteps.EveryTaskSteps | src/executor.rs:883-1094 | What any event does to any task, whole: its lifecycle state, its cancel reason, whether its backend is invoked and the outcome decided for it follow from its own fields, the place it is in and the clock, and nothing else changes. |
| Outcomes.ResultsTellWhy | src/executor.rs:1010-1094 | In every reachable state a published result agrees with the task's final state and reason: output with `Completed` and no reason, deadline failure with `Terminated` and reason `Deadline`, cancellation with `Terminated` and reason `User` or `Shutdown` or a place in a shutdown's drained queue, a backend failure with no reason unless the supervisor failed, an internal failure with `Failed`. |
| Outcomes.ResultsHaveACause | src/executor.rs:1318-1365 | Every outcome was decided by exactly one earlier event of the run, and is the one that event asks for. |
| Outcomes.CauseDecidesResult | src/executor.rs:1287-1317 | The outcome an event decides is the one later published, whatever happens in between. |
| Outcomes.BackendAnswerIsPublished | src/executor.rs:1010-1094 | After the backend's answer the caller gets a supervisor failure as it is, else the failure of an earlier cancel reason, else the answer itself. |
| Outcomes.BackendSaidSo | src/executor.rs:1010-1094 | A published output or backend failure is the answer some backend call of that task gave. |
| Outcomes.WaitingTasksAreTold | src/executor.rs:1498-1643 | A task cancelled, expired, drained by a shutdown or failed while it waits gets the outcome of that event: cancelled, deadline, cancelled, internal. |
| Outcomes.LostTasksAreTold | src/executor.rs:1809-1850 | A task whose thread cannot be started or panics outside the backend ends with an internal failure. |
| Cancellations.BackendsStartInTime | src/executor.rs:940-963 | In every run a task's thread invokes the backend exactly when the task is not over, has no cancel reason and its deadline is still to come; a late one gets the reason `Deadline`; only in-process tasks are `Started` by it. |
| Cancellations.InvokedInTime | src/executor.rs:940-963 | A backend that was ever invoked was invoked by its task's thread, before the deadline and before any cancellation. |
| Cancellations.StartedForAReason | src/executor.rs:964-972 | A task is `Started` only because its in-process backend was invoked or its supervised child reported, without a cancel reason at that moment. |
| Cancellations.NoCancellationWithoutCause | src/executor.rs:986-999 | A recorded reason has its cause in the run: a user's request, a shutdown, or a deadline that has passed. |
| Cancellations.DeadlinesAreEnforced | src/executor.rs:1498-1545 | A manager pass gives the reason `Deadline` to exactly the waiting, unstarted and started tasks whose deadline has come, and changes no other task but to give it a slot. |
| Cancellations.ShutdownSparesRunning | src/executor.rs:1652-1679 | The first section of a shutdown cancels every admitted task that has not started and leaves all others as they are. |
| Cancellations.CancelAnswers | src/executor.rs:1614-1643 | The three answers of `cancel` exactly: terminal, already cancelled, or requested, and only then the reason is recorded and the task out of both deques. |
| ShutdownCalls.ShutdownStopsRunningTasks | src/executor.rs:1720-1754 | When a call returns after its grace, every task that was running when it collected has been cancelled or is over; it asked nobody else and counts exactly those it was the first to cancel. |
| ShutdownCalls.FirstSectionIsReported | src/executor.rs:1652-1679 | In every later state a call's report counts exactly the tasks its first section found queued, and those it found admitted and not started. |
| ShutdownCalls.ShutdownOfIdleExecutor | src/executor.rs:1690-1700 | A call that ends within its grace found nothing active and reports no requests. |
| ManagerDecisions.PassWastesNothing | src/executor.rs:1536-1560 | After a pass every slot is taken or the queue is empty, one ready task was taken if there was one, and the manager leaves exactly when admission is over and nothing is left. |
| ManagerDecisions.RecheckDecides | src/executor.rs:1562-1596 | A manager that took nothing clears its flag and leaves exactly when nothing is left, goes on when something can be handed over, and otherwise sleeps until the least deadline it enforces, or 100 ms. |
| Progress.NeverStuck | src/executor.rs:1492-1612 | Deadlock freedom: in every reachable state with an unpublished task some thread of the executor can take a step of its own; steps of callers (submitting, cancelling, every part of a shutdown call), clock ticks and spurious wake-ups do not count. |
| Completion.EveryTaskIsPublished | src/executor.rs:1309-1612 | From every reachable state there is a finite continuation by the executor's own steps alone after which every accepted task's result is published, and those steps stop only when that is so. |
| Completion.WorkShrinks | src/executor.rs:1309-1612 | Every working step, from any state satisfying the invariant, lowers a measure over task phases and lifecycles, deques, submitters and the manager's position. |
| Completion.WorkRunsOut | src/executor.rs:1309-1612 | However they are scheduled, at most that many working steps follow each other. |
| Progress.NextDeadlineExists | src/executor.rs:1788-1807 | The manager's next deadline is always defined: none, or the least enforced one. |
| SchedulerInvariant.StepKeepsInv | src/executor.rs:1382-1775 | Every event, from any state satisfying the invariant, leads to one that satisfies it. |
| SchedulerInvariant.RunKeepsInv | src/executor.rs:1382-1775 | The invariant holds at every position of every run. |
| Scheduling.SubmitShape | src/executor.rs:1401-1469 | A submission leaves everything as it was after shutdown, gives the new task a slot exactly over an empty queue with a free one, queues it exactly when there is room otherwise, and is refused exactly when there is none. |
| Admission.SubmitAnswers | src/executor.rs:1419-1460 | When `submit` gives which of its answers, in terms of the limits and the deques alone, and where the task then is. |
| Conservation.ShutdownKeeps | src/executor.rs:1652-1700 | The first shutdown section keeps every task in exactly one place, with its permit and lifecycle matching. |
| Conservation.CancelKeeps | src/executor.rs:1614-1643 | Cancelling moves the owner out of whichever deque holds it and keeps everything conserved. |
| Conservation.PassMatches | src/executor.rs:1492-1545 | The pass with owners tracked has the same scheduler state as the locked section itself. |
| Fifo.PassKeepsOrder | src/executor.rs:1492-1548 | A manager pass keeps admission and dispatch in submission order. |
| Managers.PassKeepsManaged | src/executor.rs:1492-1560 | A pass keeps one manager and loses no owner it has taken. |
| Managers.RecheckKeepsManaged | src/executor.rs:1564-1594 | Clearing the flag when drained strands nothing; otherwise the manager goes on or sleeps. |
| Wakeups.NotifyKeepsAwake | src/executor.rs:1462-1469 | A `notify_one`, even one taken by a waiting shutdown caller, leaves no sleeping manager with work it will not be told of. |
| Wakeups.ReleaseKeepsAwake | src/executor.rs:1227-1252 | Dropping a permit before notifying leaves the notification pending, so a freed slot is never missed. |
| ShutdownCounts.ShutdownKeepsCounts | src/executor.rs:1652-1700 | A new shutdown call counts only tasks no earlier call counted. |
| ShutdownCounts.RequestKeepsCounts | src/executor.rs:1715-1754 | Each granted request of the closing loop is counted once and by one call only. |
| Tasks.CompletedExactly | src/executor.rs:1010-1094 | Resolving a backend result ends `Completed` with an output exactly when there was no cancel reason and the backend succeeded. |
| TaskControls.TaskControl.BeginStart | src/executor.rs:940-963 | `begin_start` lets the backend run exactly when the task is not terminal, has no reason and is not past its deadline; a late task is cancelled for its deadline, and only unsupervised tasks become `Started` here. |
| TaskControls.TaskControl.MarkCancelling | src/executor.rs:986-999 | Only the first reason is recorded; the answer says requested, already cancelling or terminal. |
| TaskControls.TaskControl.MarkTerminal | src/executor.rs:1001-1008 | The first terminal mark wins and later ones change nothing. |
| TaskControls.TaskControl.ResolveBackendResult | src/executor.rs:1010-1094 | A terminal control is left alone; otherwise the caller is answered as `Tasks.AnswerTo` promises and the control enters the state that goes with the answer. |
| Tasks.VerdictIsAnswer | src/executor.rs:1046-1093 | The nested matches of the source give, for every reason and backend result, the promised answer and its terminal state. |
| Executor.AdmissionScheduler.Submit | src/executor.rs:1401-1469 | Invalid timeout, shut down and queue full are answered exactly when deadline arithmetic, flag and limits say so; otherwise the task is accepted, at the back of `ready` with a slot or at the back of the queue. |
| Executor.AdmissionScheduler.ManagerPass | src/executor.rs:1492-1560 | The locked part of the manager loop computes the specified pass: sweep, promotion, dispatch and the exit decision. |
| Executor.AdmissionScheduler.SweepAll | src/executor.rs:1498-1535 | The sweep loops over both deques and the active map remove and mark exactly the overdue tasks. |
| Executor.AdmissionScheduler.SweepDeque | src/executor.rs:1498-1524 | Draining a deque keeps the tasks in time in order, returns the due ones in order and marks exactly those. |
| Executor.AdmissionScheduler.SweepActive | src/executor.rs:1525-1535 | The loop over `active` marks exactly the unstarted or started controls past their deadline. |
| Executor.AdmissionScheduler.PromoteAll | src/executor.rs:1536-1545 | The promotion loop moves queue heads to ready while a slot is free, exactly as specified. |
| Executor.AdmissionScheduler.NextDeadline | src/executor.rs:1788-1807 | The computed instant is the least enforced deadline, and none only when there is none. |
| Executor.AdmissionScheduler.RequestCancel | src/executor.rs:1614-1643 | The critical section of `request_cancel` takes the owner out of queue or ready, records the reason, and answers as specified; a terminal task is left alone. |
| Executor.AdmissionScheduler.ReleaseActive | src/executor.rs:1645-1650 | Dropping an active permit removes exactly its id. |
| Executor.AdmissionScheduler.ShutdownSection | src/executor.rs:1652-1700 | The first shutdown section closes admission, empties both deques and cancels exactly the specified tasks, with the specified counts. |
| Executor.AdmissionScheduler.FailPendingSection | src/executor.rs:1756-1775 | All waiting owners are handed out and nothing else changes. |
| ResultCells.ResultCell.Publish | src/executor.rs:783-792 | The first publication sets result and generation; later ones change neither. |
| ResultCells.ResultIsWrittenOnce | src/executor.rs:783-792 | A published result is the result in every later state. |
| ResultCells.FirstPublicationIsReturned | src/executor.rs:783-807 | Whoever returns from `wait` returns the first published result. |
| ResultCells.NoWaiterStaysParked | src/executor.rs:794-807 | A waiter can be resumed exactly when a result is there, and whoever returned got the published result. |
| ResultCells.PublicationEndsTheWait | src/executor.rs:794-807 | After publication every waiter can move and each of its own steps brings it closer to returning. |
| OutputCapture.CaptureThenFinish | src/output.rs:52-114 | For every choice of failing and interrupted calls, and each reader ending before, between or after the restores: the descriptor table and the reader budget end as they were, unless a restoring call failed outright and the process aborted. |
| CaptureInterference.CapturesLeaveNoTrace | src/output.rs:52-114 | Two nested captures, with restores and reader exits in any order and others opening, closing and redirecting descriptors at every moment: afterwards the table is what the others' changes alone make of the original one, except that changes to a captured target do not outlast its capture. |
| CaptureInterference.RunIsReplay | src/output.rs:521-563 | The same at every moment of every such run, for any set of captured targets: what the capture hides is the table the other changes alone would give. |
| CaptureInterference.SetUpStarts | src/output.rs:52-92 | What a successful set-up of both streams leaves is a start of such runs. |
| OutputCapture.NewCapture | src/output.rs:52-92 | On failure the table is as before up to the pipe end of one reader about to exit; on success exactly the requested targets are captured; failing needs a cause. |
| OutputCapture.NewStream | src/output.rs:286-396 | Every failing exit closes the saved copy and leaves nothing else; success installs one capture and takes one reader slot. |
| OutputCapture.OpenPipe | src/output.rs:285-396 | Both pipe ends end up at 3 or above with close-on-exec, so closed stdio slots stay closed, or nothing is left open. |
| OutputCapture.RestoreTarget | src/output.rs:664-702 | Interrupted calls are retried; success gives the target its file and flags back, failure means a call failed outright. |
| OutputCapture.Restore | src/output.rs:521-563 | The saved descriptor is used at most once. |
| OutputCapture.RestoreUndoes | src/output.rs:521-563 | Restore and reader exit, in either order, give back the table from before the capture. |
| OutputCapture.RestoreTouchesOnlyItsOwn | src/output.rs:521-563 | One stream over an arbitrarily changed table: descriptors opened or closed by others in the meantime are left as they are. |
| OutputCapture.BothUndone | src/output.rs:104-115 | Two nested captures restored in the source's order give back the original table whichever reader exits first. |
| CaptureReader.ReadLoop | src/output.rs:415-499 | For every split into reads the blocks sent are the first min(total, cap) bytes, and overflow is set exactly when there was more. |
| CaptureReader.Collect | src/output.rs:607-639 | A result is returned only after the channel closed without error in time, and then it is everything that was sent. |
| CaptureReader.Capture | src/output.rs:415-639 | Reader and collector together give the capped stream and the right flag or no result at all, and do give it when the stream ends well in time. |
| ResolverReuse.RunsUseFreshStacks | src/runtime.rs:524-598 | A run uses a stack whose construction began after every refresh that had returned when the run began. |
| ResolverReuse.OneConstruction | src/runtime.rs:524-598 | At most one construction is in progress. |
| ResolverReuse.StoredTogether | src/runtime.rs:524-598 | The stored manifest, stack and generation always come from one build. |
| ResolverReuse.RefreshDuringBuildIsNotLost | src/runtime.rs:600-620 | A build overtaken by a refresh is not stored, the stored generation stays behind, and the next run to look rebuilds. |
| ResolverReuse.TimelyBuildIsStored | src/runtime.rs:575-598 | A build no refresh overtook is stored whole: manifest, stack and generation. |
| ResolverReuse.ProbeDecides | src/runtime.rs:524-555 | A run whose probe sees a change, or a refresh not built yet, goes to the gate; one that sees neither takes the stored stack it had read and builds nothing. |
| ResolverReuse.ReprobeDecides | src/runtime.rs:557-577 | The same under the gate, on the state read again. |
| ResolverReuse.ChangeIsRebuilt | src/runtime.rs:557-598 | A run whose second probe sees a change uses a stack it built itself, begun after that probe. |
| ResolverReuse.ReuseTakesStored | src/runtime.rs:569-577 | A run that reuses after the gate takes the stack stored at that moment and changes nothing. |
| ResolverReuse.RuntimeState.Refresh | src/runtime.rs:119-122 | A refresh moves the generation on, wrapping at the width's end. |
| ResolverReuse.RuntimeState.Offer | src/runtime.rs:575-598 | A candidate is stored exactly when no refresh overtook it. |
| RunLease.ExclusiveExcludes | src/lib.rs:117-214 | Over all interleavings an exclusive lease excludes every other lease, ordinary or exclusive. |
| RunLease.WordCountsLeases | src/lib.rs:117-214 | Outside exclusive mode the word is the number of live ordinary leases. |
| RunLease.UndoErasesNobody | src/lib.rs:158-184 | A failed recheck stores 0 over nobody's lease. |
| RunLease.QuiescentWordIsZero | src/lib.rs:205-214 | When all leases are gone the word is 0 again. |
| RunLease.ExclusiveSawNobody | src/lib.rs:158-184 | An exclusive lease was claimed over the word 0, between two looks at the workers that both found none. |
| RunLease.RefusalsHaveACause | src/lib.rs:128-184 | Every refusal goes back to a marker, a worker or a lease its thread met, and carries the error that goes with it. |
| RunLease.RunState.Acquire | src/lib.rs:128-152 | The exchange loop, under any interference, increments a value that was no marker or refuses with the marker's error and writes nothing. |
| RunLease.RunState.AcquireExclusive | src/lib.rs:158-184 | The marker stays exactly when the word was 0 and both worker counts were 0; every refusal carries the right error and leaves the word as found, or 0 again. |
| Budget.CounterIsGuards | src/budget.rs:18-46 | The counter equals the number of live guards and never exceeds its maximum. |
| Budget.RefusalSawFullBudget | src/budget.rs:27-46 | A refusal was based on a moment when the counter really had the value it reports. |
| Budget.Counter.Reserve | src/budget.rs:27-46 | The exchange loop takes a slot below the maximum or reports a full budget, under any interference and spurious failure. |
| Fnv.StepIsBijection | build_support/snapshot_bundle.rs:48-55 | For a fixed byte each step is a bijection on 64-bit states, with an explicit inverse. |
| Fnv.OneByteChangesTheHash | build_support/snapshot_bundle.rs:48-55 | Inputs of one length differing in exactly one byte never have the same hash. |
| Fnv.OneByteChangesTheFingerprint | build_support/snapshot_bundle.rs:48-55 | Nor the same printed fingerprint. |
| Fnv.MaskedEqualsWrapping | scripts/snapshot_compat.py:211-215 | The masked Python loop equals the wrapping Rust loop on every input. |
| Fnv.HexIsInjective | build_support/snapshot_bundle.rs:54 | Sixteen hexadecimal digits determine the hash. |
| Fnv.ComputeFingerprint | build_support/snapshot_bundle.rs:48-55 | The Rust loop computes the specified fingerprint. |
| Fnv.ComputeMasked | scripts/snapshot_compat.py:211-215 | The Python loop computes the same fingerprint. |
| SnapshotManifest.RoundTripExactly | build_support/snapshot_bundle.rs:186-296 | Printing then parsing gives the manifest back if and only if it is line-safe. |
| SnapshotManifest.RoundTrip | build_support/snapshot_bundle.rs:186-296 | Every line-safe manifest, with any number of residuals and any byte counts, survives printing and parsing. |
| SnapshotManifest.ParsedIsSafe | build_support/snapshot_bundle.rs:229-296 | Whatever the text, an accepted manifest is line-safe. |
| SnapshotManifest.RenderIsInjective | build_support/snapshot_bundle.rs:186-216 | Distinct line-safe manifests never print alike. |
| SnapshotManifest.ReadLines | build_support/snapshot_bundle.rs:232-262 | The parser's loop accumulates what the lines say in order and stops at the first error with its line number. |
| SnapshotManifest.ParseText | build_support/snapshot_bundle.rs:229-296 | The whole parser computes the specified result, including which error comes first. |
| ManifestMeaning.AcceptedExactly | build_support/snapshot_bundle.rs:229-296 | `parse` gives a manifest exactly for the texts whose every line is blank, a known field or a well-formed residual, whose last words on every field are the manifest's, none missing, and which list its residuals in order. |
| ManifestMeaning.RefusedForFirstProblem | build_support/snapshot_bundle.rs:229-296 | A refused text is refused for its first bad line, with its number, or else for the first field in lookup order that is missing, of the wrong format or no byte count. |
| ManifestMeaning.KeysAreSpelled | build_support/snapshot_bundle.rs:252-257 | The eleven keys of the format as text. |
| Text.ParseOfDecimal | build_support/snapshot_bundle.rs:273-277 | A byte count printed in decimal is read back, for every 64-bit value. |
| Text.ParseUsizeMeans | build_support/snapshot_bundle.rs:239 | The accepted byte counts are exactly the decimal forms of 64-bit numbers with leading zeros and at most one `+`. |
| Text.TrimMeans | build_support/snapshot_bundle.rs:233 | Trimming takes off the white space at both ends, all of it and nothing else. |
| Text.LinesOfUnlines | build_support/snapshot_bundle.rs:232 | Splitting text into lines gives back the lines it was made of. |
| ResidualTable.TableRoundTrip | build_support/snapshot_bundle.rs:67-80 | Reading the tables build.rs prints, with either path separator, gives exactly `residual_sources/` and the sanitised names, table by table, in specifier order. |
| ResidualTable.SeparatorIsNormalized | build_support/snapshot_bundle.rs:61-63 | The path under the output directory, joined with `/` or with `\`, is printed the same way. |
| ResidualTable.RowSource | build.rs:354-360 | A printed row, whatever its specifier holds and whichever separator the platform joins with, names exactly that specifier's file under `residual_sources`. |
| ResidualTable.WriteTable | build.rs:344-363 | The printing loop appends exactly the specified lines in sorted order, each with its file's path relative to the output directory. |
| ResidualTable.WriteTables | build.rs:304-307 | The generated file is the banner and both tables. |
| ResidualTable.ReadSources | build_support/snapshot_bundle.rs:67-80 | The reading loop computes the specified list. |
| ResidualTable.SpecifierOrder | build.rs:352 | The rows are the entries, each as often as given, in specifier order. |
| DebugLiterals.RowSpells | build.rs:352-360 | Read by Rust's rules for string literals, a row is the pair of its own specifier and of that specifier's file, whatever characters the specifier holds. |
| DebugLiterals.DebugReads | build.rs:356-360 | A literal printed with `{:?}` spells exactly the text it was printed from. |
| DebugLiterals.RowsDiffer | build.rs:352-360 | Different specifiers have different rows. |
| Ordering.SortedNamesCompare | build_support/snapshot_bundle.rs:143-148 | Sorted and deduplicated name lists are equal exactly for equal sets of names. |
| Ordering.SortedNamesLength | build_support/snapshot_bundle.rs:149 | Deduplication drops nothing exactly when no name repeats. |
| SnapshotBundle.AcceptedNamesStayInside | build_support/snapshot_bundle.rs:90-111 | An accepted residual name leads strictly below the directory it is joined to. |
| SnapshotBundle.AcceptedNamesExactly | build_support/snapshot_bundle.rs:90-111 | A name is accepted exactly when no component, split at both kinds of slash, is empty, `.` or `..`, and it holds no colon. |
| SnapshotBundle.FileNamesAreAccepted | build.rs:278-330 | The name of every residual file, the directory and the sanitised name, is an accepted residual name of two components. |
| SnapshotBundle.VerifiedMeans | build_support/snapshot_bundle.rs:142-164 | Residuals verify exactly when the manifest records each source of the table once and nothing else, and every file is there with its length and fingerprint. |
| SnapshotBundle.DescribeSucceeds | build_support/snapshot_bundle.rs:123-140 | Describing succeeds exactly when every source has an acceptable name and a file. |
| SnapshotBundle.DescribedVerifies | build_support/snapshot_bundle.rs:123-164 | What was described from some files verifies against them. |
| SnapshotBundle.CorruptionIsCaught | build_support/snapshot_bundle.rs:142-164 | Truncating, growing or changing one byte of any residual source makes verification fail. |
| SnapshotBundle.SnapshotCorruptionIsCaught | build_support/snapshot_bundle.rs:298-343 | The same damage to the snapshot is always reported as its mismatch. |
| SnapshotBundle.TableCorruptionIsCaught | build_support/snapshot_bundle.rs:298-343 | And to the residual table as the table's. |
| SnapshotBundle.AcceptedBundleMatches | build_support/snapshot_bundle.rs:298-343 | A bundle passes exactly with all six identity fields, the snapshot and the table as recorded; what is reported does differ. |
| SnapshotBundle.ExportThenImport | build_support/snapshot_bundle.rs:123-343 | An exported manifest is read back as it was if and only if the identity is line-safe and the names are one-line names; everything it describes verifies in any case. |
| SnapshotBundle.TabIsAccepted | build_support/snapshot_bundle.rs:90-111 | A name with a tab passes the name check. |
| SnapshotBundle.TabIsNotReadBack | build_support/snapshot_bundle.rs:123-296 | Exporting a table with such a name succeeds and its manifest is not read back. |
| SnapshotBundle.TabIsFound | build_support/snapshot_bundle.rs:67-80 | A table can name such a file. |
| SnapshotBundle.BuildThenImport | build.rs:278-363 | From the specifiers on, through the table build.rs writes on either platform: the manifest is read back and everything verifies, with a line-safe identity as the only condition. |
| SnapshotBundle.BuildDescribes | build.rs:278-363 | Describing the generated table needs only the files the build wrote under `residual_sources`. |
| SnapshotBundle.BuiltSources | build.rs:278-363 | Every name in a generated table is an accepted one-line name of a file the build wrote. |
| SnapshotBundle.CopyVerifiedResiduals | build_support/snapshot_bundle.rs:166-184 | Copying then verifying succeeds exactly when the source verifies; then every source is at the output unchanged, and other files are never touched. |
| Publication.SidecarMeansWholeBundle | scripts/snapshot_compat.py:303-326 | With any number of publishers, and crashes or exceptions at any step: a sidecar implies all files of its one writer, unmodified, manifest, snapshot and residual table among them, and the fingerprint of its manifest. |
| Publication.AcceptableMeans | scripts/snapshot_compat.py:303-310 | The checks before the lock ask exactly for the three required files and the format line somewhere in the manifest. |
| Publication.PublishersExclude | scripts/snapshot_compat.py:268-300 | At most one publisher is inside the lock. |
| Publication.StaleLocksComeFromFailures | scripts/snapshot_compat.py:268-300 | A lock nobody is inside was left by a publisher that died or failed, never by one that succeeded. |
| Publication.SuccessWasPublished | scripts/snapshot_compat.py:303-326 | A publisher that ends successfully did have its own sidecar in place over its complete bundle. |
| Publication.AcceptedBundleIsWhole | scripts/snapshot_compat.py:230-245 | An importer that accepts the sidecar of any reachable state finds the whole bundle, for its target and identity; a manifest read earlier that is one byte off is refused. |
| Publication.PublishedBundleIsAccepted | scripts/snapshot_compat.py:230-261 | A bundle just published is accepted for its own target and identity and for no other. |
| Publication.StepKeepsInv | scripts/snapshot_compat.py:248-326 | Every step of every publisher, and the removal of a stale lock, keeps the protocol's invariant. |
| BundlePublisher.Destination.Publish | scripts/snapshot_compat.py:303-326 | The code of one publisher, for every choice of raising calls: refused or busy changes nothing, success leaves the complete bundle under its sidecar and no lock, an exception leaves the old bundle, no sidecar, or the new bundle; other files are untouched. |
| BundlePublisher.Destination.CopyFiles | scripts/snapshot_compat.py:322-325 | The copy loop follows the protocol file by file and touches only the job's files. |
| BundlePublisher.Destination.WriteSidecar | scripts/snapshot_compat.py:248-261 | The sidecar appears whole by the rename or not at all; it succeeds exactly when the rename happened and the last `unlink` did not raise, and an exception there leaves the new sidecar in place. |
| BundlePublisher.Destination.Release | scripts/snapshot_compat.py:290-300 | Leaving the lock touches neither files nor sidecar; a clean exit leaves no lock. |
| BrokerFraming.ReadBrokerLine | src/permission_broker.rs:365-403 | Whatever the chunks and interruptions, the outcome is that of the stream's bytes: request exactly when the line with its newline fits 65536 bytes, oversized with the first 65537 otherwise, end, unterminated or failed read. |
| BrokerFraming.NextLineMeans | src/permission_broker.rs:365-403 | That outcome in terms of the bytes: request, oversized, failed, end and unterminated exclude each other and each says where the first newline is. |
| BrokerFraming.PartialLine.Add | src/permission_broker.rs:387-391 | The kept prefix is the line's first 65537 bytes at most, and oversized is set exactly past the limit. |
| BrokerFraming.LinesAreTheCut | src/permission_broker.rs:365-403 | Cutting a stream after each newline has exactly one result, and it is the framer's. |
| BrokerServing.Serve | src/permission_broker.rs:406-454 | The serving loop sends exactly the specified responses. |
| BrokerServing.TranscriptAnswers | src/permission_broker.rs:406-454 | The i-th response carries the i-th frame's id and allows exactly when that frame decodes and the hook returned true for it; sending stops only at a frame without id or a failed write. |
| BrokerServing.ResponseOfLine | src/permission_broker.rs:411-440 | The i-th response from the i-th line: an oversized line and one that does not decode are denied under the id found in them, any other gets its own id and the hook's verdict. |
| BrokerServing.ConversationEnds | src/permission_broker.rs:411-453 | It ends with the lines, at a line that gives no id, or at a response that cannot be written. |
| BrokerServing.CallsAreForRequests | src/permission_broker.rs:428-440 | The hook is called once for each line within the limit that decodes, and for nothing else. |
| BrokerServing.AllowNeedsTheHook | src/permission_broker.rs:421-435 | An allow implies a line within the limit, decoded, with that id, for which the hook call made for that very frame answered allowed. |
| BrokerServing.SplitsDoNotMatter | src/permission_broker.rs:365-403 | Two streams that deliver the same bytes before they end or break, split and interrupted differently, get the same conversation. |
| CanonicalJson.CanonDecides | src/npm_cache.rs:542-558 | Two values have equal canonical forms exactly when they differ only in the order of object members, at any depth. |
| CanonicalJson.CanonIsIdempotent | src/npm_cache.rs:542-558 | A canonical form is its own canonical form. |
| CanonicalJson.CanonKeepsMeaning | src/npm_cache.rs:542-558 | A value and its canonical form differ only in member order. |
| CanonicalJson.MemberOrderIsForgotten | src/npm_cache.rs:548-555 | Every permutation of an object's members has the same canonical form. |
| CanonicalJson.Canonicalize | src/npm_cache.rs:542-558 | The recursion with its sort and its insertion loop computes the canonical form. |

## Left out

- V8, the Deno runtime, tokio, real threads and the OS clock: a backend returns any result or panics, a notification wakes the waiters the model allows.
- Memory ordering: atomic accesses are sequentially consistent steps.
- Cancellation contexts, reports, timing fields, partial output and error texts of the executor.
- A scheduler dropped while a handle still cancels: `request_cancel` then marks the control without the scheduler lock.
- The shutdown grace as a length of time: the grace may end at any moment, so nothing is claimed about how long started tasks get.
- A task that starts between the two accesses `shutdown` makes to its lock appears as the parameter `late` of the shutdown event.
- Executor.AdmissionScheduler.ShutdownSection: the class runs alone, so `late` is empty there; the step relation has every `late`.
- The order in which the manager closes several expired owners is free in the step relation; the source closes them one after another.
- Wrap-around of task ids and refresh generations: runs with fewer than 2^64 submissions or refreshes.
- RunLease.WordCountsLeases: fewer than usize::MAX - 2 ordinary leases, as `Exchange` requires.
- RunLease.RunState.AcquireExclusive: other threads do not write the word while the marker is in place, which `RunLease.ExclusiveExcludes` and the invariant behind it establish.
- Panics of the manager thread itself, and of user code inside locks.
- Windows branches of output capture, the recording of flush errors, and a receiver dropped before its reader ends.
- CaptureInterference.CapturesLeaveNoTrace: others act once the set-up is done, and never on a saved copy or a reader's end, whose numbers they are not given.
- Fair scheduling: `Completion` says that work can finish and cannot go on for ever, not that the operating system schedules a thread, and a task's backend is taken to return.
- Resolver probes, manifests and stacks are opaque builds; whether a probe sees a change is a parameter.
- Injectivity of sanitised residual names: distinct specifiers can share a file name.
- SnapshotManifest.ParseText: `usize` is 64 bits wide, and error values carry their data instead of their text.
- Text.White: the White_Space characters are those of Unicode 15, as `str::trim` uses them.
- ResidualTable.TableRoundTrip: the Unicode table behind `{:?}` is a parameter of which only letters, digits, `_`, `.` and `/` are assumed printable.
- Reading and writing a bundle's table as bytes and as text: both are parameters, UTF-8 is not modelled.
- SnapshotBundle.CopyVerifiedResiduals: source and output are different directories, files are keyed by their `/`-separated name on both platforms, and sub-directories are created as needed.
- Publication.SidecarMeansWholeBundle: a stale lock directory is removed by hand only when its owner is gone, and power loss between file-system calls does not reorder them.
- The sidecar's text format and `read_record`, `graph_identity`, Cargo argument checks and symbolic links in the staging directory.
- Staged files named like the lock directory or a temporary sidecar.
- JSON decoding, the JSON text of broker responses, and a response written only in part.
- The snapshot cache's own hashing of canonical JSON, and number formatting in JSON.
- HTTP fetching, npm installation, module graphs, the Python bindings, Node IPC and worker supervision.
