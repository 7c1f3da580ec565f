# AutoBot: a verified model of the workflow engine

AutoBot validates a workflow definition, creates one row per task, and lets any number of workers
drive the rows through `pending → queued → running → success / failed / cancelled` over a queue
that delivers at least once. This project models that engine and proves what it is meant to
guarantee, for every definition, every outcome of every attempt, and every interleaving.

`dafny verify dfyconfig.toml` checks everything.

## How the model is laid out

| file | what it models |
|---|---|
| `graphs.dfy`, `dag.dfy` | dependency graphs; Kahn's algorithm with its queue, execution levels, validation |
| `tables.dfy` | rows, the dag queries over them, and what each scheduler call writes: a `Patch` of row writes, run status and outbox |
| `invariant.dfy` | what every committed state satisfies, and that every call keeps it |
| `protocol.dfy` | the run as a state machine of atomic transactions over a lossy, repeating, reordering queue, with its accounts |
| `guarantees.dfy`, `termination.dfy`, `confluence.dfy`, `delivery.dfy` | what holds over whole runs |
| `concurrency.dfy`, `sweeps.dfy`, `overlap.dfy`, `progress.dfy`, `cancellation.dfy` | transactions that overlap: the statements that select and lock rows, private flushes, the run lock, ticks on the committed rows under the transaction's own writes; and that all of them can always finish |
| `retry.dfy`, `recovery.dfy` | backoff and holding queues; orphan and stuck-queued sweeps |
| `runs.dfy`, `broker.dfy`, `patches.dfy`, `session.dfy`, `worker.dfy`, `heartbeat.dfy` | the imperative code: creating a run, the in-process queue, a database session with its outbox, the worker and its drain loop, the heartbeat thread |

The imperative classes and the state machine meet in `Committed`: a session's commit is the
protocol's commit of its patch, `Worker.Handle` is one delivery step and at most one report step,
and a sweeping `HeartbeatThread.Tick` is a sequence of reclaim steps. So the theorems about runs
are theorems about those methods.

## What was assumed

* A worker that is presumed dead does not report afterwards. `report_result` does not check who
  owns the task (app/scheduler.py:236-249); only the holder of a claim reports.
* Whole-run theorems that involve a cancellation treat each transaction as atomic. The lemmas of
  `CancelRace` say exactly what changes when they are not, first for a tick that reads the status
  of the run again under the lock, then for one that goes by the status it has already loaded.
* A claim looks only at the status of the row, as in the code, not at the attempt a message
  carries. Nothing is said about backoff being respected when messages are duplicated.
* A sweep goes by the heartbeats it read when it began. In `Sweeps`, the live workers are those
  that every overlapping sweep has read as alive; `Sweeps.LateClaimIsTakenIff` says that this is
  exactly what protects them.
* Timeouts are not negative. Times, delays and jitter are exact real numbers, and one timestamp is
  taken per call where the code reads the clock several times.

## Where the code and its documentation disagree

The model follows the code.

* A failure whose retry was decided just before a cancellation commits puts the task back in the
  queue of the cancelled run, where a worker claims it. `report_result` promises that a cancelled
  run skips the retry path (app/scheduler.py:228-231), but it reads the run's status before
  anything is locked (app/scheduler.py:233-234), and a retry never takes the run lock.
* `resolve` promises that a cancelled run dispatches nothing further and is left alone
  (app/scheduler.py:170-176). The run it checks may be the object that the session loaded at
  app/scheduler.py:233, and selecting it again for the lock (app/scheduler.py:157-160) does not
  refresh what it holds. A report that overlaps a cancellation then closes the cancelled run as
  completed or failed, unless another task is still running.
* The orphan sweep is said never to touch a live worker's task (app/recovery.py:105-107). The set
  of living workers is read by an earlier statement, so a worker that was silent or unknown then,
  and claims a task before the second statement, loses it.
* `cancel_workflow_run` says queued tasks are not stopped (app/main.py:192-197); `cancel_run`
  marks them cancelled, so they are never claimed (app/scheduler.py:356-361).
* `load_tasks` speaks of creation order and orders by task name (app/scheduler.py:135-141). The
  order is a parameter of the model; nothing but the order of messages depends on it.
* A task of a cancelled run that fails is parked as exhausted whatever its retries
  (app/scheduler.py:246-263).

## Model

| member | source | states |
|---|---|---|
| Graphs.StuckLeadsIntoCycle | app/dag.py:131-133 | if every task of a set depends on some task of the set, each of them has a dependency chain that runs into a cycle |
| Graphs.ReleasedAvoidsCycles | app/dag.py:116-129 | no task listed after all its dependencies has a chain that runs into a cycle |
| Graphs.FifoOrderUnique | app/dag.py:115-129 | there is only one topological order sorted by (position of the latest dependency, roots first; definition index) |
| Graphs.DepthMonotone | app/dag.py:144-148 | along that order the longest-chain depth never decreases |
| Graphs.DepthIsOptimal | app/dag.py:137-153 | no assignment of waves that respects the dependencies puts a task before its longest-chain depth |
| Graphs.NoDepthSkipped | app/dag.py:150-152 | a graph with a task at depth k has one at every smaller depth |
| Dag.OrderIndex | app/dag.py:115 | the index of every task is its place in the definition, one entry per task |
| Dag.SortByIndex | app/dag.py:116-127 | the same names, in the order of their definition index |
| Dag.SortIsPermutation | app/dag.py:116-127 | sorting keeps every name with its multiplicity, and repeats none that was not repeated |
| Dag.Roots | app/dag.py:116 | exactly the tasks without dependencies, once each |
| Dag.Dependents | app/dag.py:110-113 | each task's list holds exactly the tasks that depend on it, once each |
| Dag.ReleaseDependents | app/dag.py:123-126 | takes one off the count of each dependent and returns exactly those that reach zero |
| Dag.KahnTurn | app/dag.py:119-128 | one turn of the loop keeps the invariant: emitted tasks are in dependency order, counts are the dependencies not emitted, and emitted plus queued tasks are exactly those with count zero, sorted by the first-in-first-out key |
| Dag.KahnStuck | app/dag.py:131-133 | when the queue is empty, the emitted tasks are exactly those that do not lead into a cycle |
| Dag.EmptyQueue | app/dag.py:118-134 | the loop terminates, having emitted exactly the tasks that do not lead into a cycle |
| Dag.TopologicalOrder | app/dag.py:105-134 | an order is returned iff the graph is acyclic, it lists every task after its dependencies and is the first-in-first-out one; otherwise the reported set is non-empty and exactly the tasks leading into a cycle |
| Dag.ComputeDepths | app/dag.py:143-148 | the computed depth of every task is the length of its longest dependency chain |
| Dag.FillLevels | app/dag.py:150-152 | level k holds exactly the tasks of depth k, once each and in definition order |
| Dag.ExecutionLevels | app/dag.py:137-153 | every task stands in exactly one level, that of its longest dependency chain; definition order within a level, nothing twice, no level empty; refused exactly on cyclic graphs |
| Dag.LevelsAreOptimal | app/dag.py:137-153 | no dependency-respecting schedule places any task earlier, and none uses fewer waves |
| Dag.LevelsAreContiguous | app/dag.py:137-153 | each level is a contiguous stretch of the topological order |
| Dag.CheckIds | app/dag.py:84-88 | passed iff no id is repeated; a rejection names a repeated one |
| Dag.CheckDependencies | app/dag.py:90-97 | one task is passed iff it does not depend on itself and all its dependencies exist; each rejection names a real culprit |
| Dag.ValidateDefinition | app/dag.py:80-102 | accepts exactly the definitions with unique ids, known dependencies, no self-dependency and no cycle; every rejection is justified; an accepted one has a topological order |
| Dag.JustifiedVerdict | app/dag.py:80-102 | any justified verdict separates the valid definitions from the others |
| Tables.RunnableAmong | app/dag.py:156-172 | exactly the pending tasks whose dependencies have all succeeded, once each |
| Tables.RunnableInRowOrder | app/dag.py:167-172 | of two runnable tasks, the one whose row comes first comes first |
| Tables.AnnouncedInOrder | app/scheduler.py:199-208 | one publication per dispatched task, in the order dispatched, for its current attempt and without delay |
| Tables.RunnableIsQuiet | app/dag.py:175-188 | nothing is runnable iff every pending task has a dependency that has not succeeded |
| Invariant.NothingLeftAtAll | app/dag.py:175-188 | in an acyclic run with nothing failed, in flight or runnable, every task has succeeded |
| Invariant.FinalizeEstablishes | app/scheduler.py:367-377 | finalising a quiet acyclic run leaves a state that satisfies the invariant: completed means all succeeded, failed means some failed and none in flight |
| Invariant.ResolveEstablishes | app/scheduler.py:163-183 | the tick re-establishes the invariant from rows that are merely consistent: afterwards nothing runnable is left waiting |
| Invariant.RequeueKeepsInv | app/scheduler.py:272-305 | a retry within budget keeps the invariant |
| Invariant.ClaimKeepsInv | app/scheduler.py:308-329 | a claim keeps the invariant and every success |
| Invariant.SettleKeepsInv | app/scheduler.py:236-269 | recording a final outcome and ticking keeps the invariant |
| Invariant.ReportKeepsInv | app/scheduler.py:212-269 | every report keeps the invariant and takes back no success |
| Invariant.CancelKeepsInv | app/scheduler.py:332-364 | a cancellation keeps the invariant |
| Protocol.AnnounceCounts | app/scheduler.py:199-208 | dispatching publishes one message for each task and its current attempt, nothing else, and no dead letter |
| Protocol.FinishKeepsLog | app/scheduler.py:212-305 | every report keeps the accounts of publications, dead letters, claims and lost attempts |
| Protocol.StepKeepsInv | app/scheduler.py:163-364 | every step, by anyone, keeps the invariant and the accounts, and takes back no success |
| Protocol.TriggerEstablishes | app/main.py:150-156 | the trigger of an acyclic run establishes them |
| Protocol.RunKeepsInv | app/scheduler.py:163-364 | they hold after any sequence of steps, whatever the queue does to the messages |
| Guarantees.StepMoves | app/scheduler.py:163-364 | every step moves each row only along the edges of the task state machine |
| Guarantees.BlockedByFailure | app/dag.py:185-188 | in an acyclic run with nothing in flight or runnable, each pending task has a chain to a failed one |
| Guarantees.RunStatusIsHonest | app/scheduler.py:367-377 | in every reachable state: a cancelled run has nothing waiting; any other is completed iff all succeeded, failed iff some failed and none is in flight, and then every pending task has a failed ancestor; running implies something in flight and nothing startable left waiting |
| Guarantees.CompletedUnrunIff | app/dag.py:99-101 | without the cycle check: triggering completes the run with nothing executed iff no task is free of dependencies |
| Guarantees.ValidatedRunsStart | app/scheduler.py:163-183 | triggering a validated run with tasks always starts one |
| Guarantees.DependencySafety | app/dag.py:163-172 | in every reachable state, everything a started task depends on, however indirectly, has succeeded |
| Guarantees.SettledRowsStay | app/scheduler.py:236-252 | a row that is success, failed or cancelled never changes again |
| Guarantees.FailureBlocksForever | app/dag.py:156-172 | once an ancestor has failed, no continuation ever starts the task |
| Guarantees.ExactlyOncePerAttempt | app/scheduler.py:308-329 | under duplication, loss and reordering: at most one claim per attempt, at most max_retries + 1 claims, and retry_count counts exactly the failed or lost attempts (one fewer once failed) |
| Guarantees.PublicationsMatchRows | app/scheduler.py:64-101 | every message on the queue refers to a committed, non-pending row that has reached its attempt; each attempt of a dispatched task is published once; a dead letter is parked once, exactly for a failed task |
| Guarantees.CancellationIsFinal | app/scheduler.py:332-364 | after a cancellation nothing is claimed, dispatched or requeued on any continuation, the run stays cancelled, and only tasks then running move, to success or failed |
| Guarantees.CancelSettlesRows | app/scheduler.py:352-363 | at the cancellation every pending or queued row becomes cancelled and no other row changes |
| Termination.StepDecreases | app/scheduler.py:163-364 | every effective step lowers the measure, no step raises it |
| Termination.RunsAreFinite | app/scheduler.py:163-364 | the effective steps of any run number at most the drop of the measure, which stays non-negative |
| Termination.RunLengthIsBounded | app/scheduler.py:212-364 | a run takes at most sum(2 · max_retries + 3) + 1 effective steps |
| Termination.StopsOnlyWhenClosed | app/scheduler.py:367-377 | with sweeps among the steps, no effective step is left iff the run is closed and no worker holds a task |
| Confluence.LastAttempt | app/retry.py:44-46 | the first attempt that succeeds, or the last one allowed |
| Confluence.SequentialIsRight | app/dag.py:105-134 | running the tasks one at a time in any topological order gives each task the end the graph and the outcomes determine |
| Confluence.AncestorsOneUp | app/dag.py:156-172 | all ancestors of a task can succeed iff for each dependency it and all its ancestors can |
| Confluence.StepFollows | app/scheduler.py:212-329 | every undisturbed step keeps the rows in agreement with the outcomes of the attempts |
| Confluence.ClosedEnds | app/scheduler.py:367-377 | a closed run agrees with the sequential one, task by task and in its status |
| Confluence.EndsRightly | app/scheduler.py:367-377 | that end is: success iff the task and all its ancestors can succeed, failed iff only its ancestors can, pending otherwise, with the right retry count; completed iff every task can succeed |
| Confluence.EveryInterleavingIsSequential | app/scheduler.py:163-329 | any interleaving of any number of workers that closes the run ends as the sequential run does, and rightly |
| Confluence.RunsAgree | app/scheduler.py:163-329 | two closed runs with the same outcomes agree on every status, retry count, publication and the run's status |
| Delivery.ReportAnnounces | app/scheduler.py:186-305 | whatever a report leaves queued that was not, its outbox announces |
| Delivery.StepAnnounces | app/scheduler.py:64-101 | every step that loses no message keeps the current message of every queued task on the queue |
| Delivery.ExhaustedIff | app/worker.py:64-127 | no message is left and nobody executes iff no worker can take a step |
| Delivery.LosslessRunsEnd | app/scheduler.py:163-329 | any number of workers, messages repeated and reordered but not lost: wherever no worker can take a step, the run is closed and every task has ended rightly |
| Concurrency.SimilarResolve | app/scheduler.py:144-183 | the tick writes the same on two states that differ only in which in-flight rows are queued, running or retried |
| Concurrency.ViewsAreGood | app/recovery.py:116-130 | each report inside one transaction finds its own row as committed and leaves a state that satisfies the invariant |
| Concurrency.HolderUndisturbed | app/scheduler.py:144-160 | while a transaction holds the run lock, what others commit does not change what it has written |
| Concurrency.LightUndisturbed | app/scheduler.py:272-305 | retries need no lock: what others commit does not change what they have written |
| Concurrency.CommitIsReports | app/recovery.py:116-134 | committing a transaction is the same as making its reports atomically, one by one |
| Concurrency.MoveRefines | app/scheduler.py:144-305 | each move of overlapping transactions (begin, private flush, tick under the run lock, commit, rollback, claim) is a sequence of protocol steps, empty before the commit |
| Concurrency.OverlapRefines | app/scheduler.py:144-305 | every execution of overlapping transactions is an execution of the protocol |
| Concurrency.NoLostWakeUp | app/scheduler.py:144-183 | in every committed state of an active run nothing pending could start, something is in flight, and no task has been dispatched twice |
| Concurrency.OverlapOncePerAttempt | app/scheduler.py:308-329 | however transactions overlap, each attempt is claimed at most once and the retry counter counts exactly the charges |
| Concurrency.PickedIsCommitted | app/recovery.py:108-117 | what a statement of a sweep selects, under its own uncommitted writes, is committed, in flight, and not already its own |
| Concurrency.TakeRefines | app/recovery.py:108-117 | taking every selected row that no other transaction has locked keeps the invariant of overlapping transactions |
| Sweeps.OverlappingSweepsChargeOnce | app/recovery.py:108-130 | any number of sweeps, reports, claims and rollbacks overlapping within the queue timeout: a task is charged by a sweep at most once, not at all unless stranded, and is not stranded afterwards |
| Sweeps.StrandedIsChargedExactlyOnce | app/recovery.py:112-130 | if a sweep selects the task and nothing is rolled back or left open, exactly one of all overlapping sweeps charges it |
| Sweeps.LossesAreCharges | app/scheduler.py:244-251 | the attempts given up for lost are exactly the sweeps' charges plus the failures workers report |
| Sweeps.LiveOwnersKeepTheirRows | app/recovery.py:99-111 | until its worker reports, a task held by a live worker is never the job of a sweep, is never charged, and stays as it is |
| Sweeps.SweepTakesExactly | app/recovery.py:99-117 | whatever else is open, the statements of a sweep take exactly the committed rows that nobody has locked and that are running without a worker that has beaten within the timeout, or queued and claimable since before it |
| Sweeps.LateClaimIsTakenIff | app/recovery.py:99-111 | a task claimed after a sweep has read the heartbeats is taken by its orphan statement iff that reading has no heartbeat of the claimer within the timeout |
| Sweeps.SweepsCanAlwaysTake | app/recovery.py:108-117 | an idle sweep always has a list of rows to take |
| Concurrency.WithoutTheLockARunStalls | app/scheduler.py:147-152 | without the run lock two sibling reports leave an active run with nothing in flight and a task that could start |
| OverlapConfluence.OverlapIsUndisturbed | app/scheduler.py:144-305 | overlapping reports whose attempts turn out as given are an undisturbed run of the protocol |
| OverlapConfluence.OverlappingRunsEndRightly | app/scheduler.py:144-305 | however report transactions overlap, a run that closes ends every task rightly |
| OverlapConfluence.LosslessOverlapsEnd | app/scheduler.py:144-305 | however they overlap, with no message lost: wherever no message is left and nobody executes, the run is closed and rightly ended |
| Progress.OneCanFinish | app/scheduler.py:144-183 | a transaction that holds the run lock, or finds it free, can flush, tick and commit to its end on its own, and its reports are then made |
| Progress.AllCanFinish | app/scheduler.py:144-183 | however many transactions are open and wait for the run lock, they can all finish, and none need be rolled back |
| Progress.OwnerCanReport | app/worker.py:100-123 | a worker that holds a task can open a transaction and take its row |
| Progress.LosslessOverlapsCanEnd | app/scheduler.py:144-305 | from every state of a lossless overlapping execution some continuation brings the run to its end: nothing open, nothing left, the run closed, every task rightly ended |
| CancelRace.RetryWins | app/scheduler.py:233-247 | a retry flushed before a cancellation commits leaves the task queued in the cancelled run |
| CancelRace.TickSeesCancellation | app/scheduler.py:174-176 | for a tick that reads the status of the run again, any other outcome overlapping a cancellation comes out as if the cancellation had been first |
| CancelRace.CancellationIsFinalIff | app/scheduler.py:228-247 | for such a tick, a cancellation overlapping a report is final iff the attempt succeeded or has no retries left |
| CancelRace.StaleTick | app/scheduler.py:173-182 | a tick that goes by the status read before the cancellation dispatches nothing, and closes the run unless another task is running |
| CancelRace.StaleCancellationIsFinalIff | app/scheduler.py:173-247 | for that tick, the cancellation is final iff the attempt is not retried and another task is still running; otherwise the task is queued again or the cancelled run is closed as completed or failed |
| Retry.BackoffDelay | app/retry.py:15-41 | refused iff the attempt is below one; never negative |
| Retry.RetriesBackOff | app/retry.py:15-37 | without jitter the first retry waits min(base, maximum), and each later one min(twice the one before, maximum) |
| Retry.JitterIsExact | app/retry.py:38-41 | with jitter the delay is the one without it plus the drawn part of its spread, and zero where that would be negative |
| Retry.JitterSpreads | app/retry.py:38-41 | over all draws the delay is moved by exactly the spread either way and no further, the extreme draws giving both ends |
| Retry.PowerIsTight | app/broker.py:208 | the holding time is the power of two that is at least the delay and less than twice it |
| Retry.HeldBounds | app/broker.py:208-268 | a message without delay is not held; otherwise it is held for the least power of two that is at least its delay and a second, cut short at ceil(MAX) but never below a second; so at least min(d, ceil(MAX)) and less than 2 · max(d, 1) |
| Recovery.Select | app/recovery.py:108-117 | exactly the rows that meet the condition, once each |
| Recovery.FailureChangesOneRow | app/scheduler.py:241-269 | a failed report changes its own row only: retried if the run is not cancelled and retries are left, failed otherwise |
| Recovery.SweepChargesOnce | app/recovery.py:120-130 | a sweep charges each selected row one attempt, touches no other row, and keeps the invariant |
| Recovery.VisitChargesSelected | app/recovery.py:88-178 | a visit charges one attempt to exactly the running rows whose worker is not alive and the rows queued too long |
| Recovery.VisitSparesLive | app/recovery.py:99-111 | both sweeps leave alone every running task whose worker's last heartbeat lies within the timeout, in a cancelled run too |
| Recovery.VisitOfCancelledRun | app/scheduler.py:228-252 | in a cancelled run a visit fails every orphan whatever its retries, and changes nothing else |
| Recovery.VisitChargesEach | app/recovery.py:88-178 | if no living worker holds a task and every queued row is overdue, one visit charges every in-flight row exactly one attempt |
| Recovery.RecoverySuffices | app/recovery.py:88-178 | abandoned by its workers and with all messages lost: k visits spaced by more than the longest backoff and the timeout end the run as failed iff every in-flight task had fewer than k retries left; otherwise it is still running |
| Recovery.FrequentVisitsSuffice | app/recovery.py:88-178 | however often the visits come, the run is failed once more such periods have passed than any in-flight task has retries left |
| Recovery.SweptEarlyIff | app/recovery.py:151-163 | some moment has the stuck sweep select a retry whose message is still held iff it is held longer than backoff and timeout together |
| Recovery.HealthyRetriesAreNotSwept | app/scheduler.py:283-287 | with QUEUED_TIMEOUT ≥ max(1, ceil(MAX)) the stuck sweep never selects a retry before its message is back on the queue, whatever the settings and the jitter |
| Runs.LoadOrder | app/scheduler.py:135-141 | the rows are loaded once each, whatever the collation |
| Runs.LoadOrderIsCollated | app/scheduler.py:135-141 | for a total collation they are loaded in the order of their names |
| Runs.CreatedFrom | app/scheduler.py:110-132 | rows made from a definition with unique ids and known dependencies are a freshly created run whose graph is the definition's |
| Runs.CreateRun | app/scheduler.py:110-132 | a run is created iff the definition is valid, with one pending row per task whose retry limit is the declared one or else the default, loaded in name order, and its graph has a topological order |
| Runs.EndsAsDefined | app/scheduler.py:124-128 | a rightly ended run, told from the definition: each task succeeded iff everything it depends on has an attempt that succeeds within its declared or default limit and so has it, failed iff only the former, with the whole limit used up; completed iff every task can succeed |
| Broker.PushOrdered | app/broker.py:94-99 | a push keeps the heap ordered by due time, then by publication |
| Broker.PushAdds | app/broker.py:94-99 | a push adds its message and loses none |
| Broker.PushKeeps | app/broker.py:94-99 | every entry that was waiting is waiting still, under its own due time |
| Broker.InMemoryBroker.Publish | app/broker.py:94-100 | adds one entry, due after its delay and numbered above all others |
| Broker.InMemoryBroker.PopDue | app/broker.py:107-111 | hands out the entry with the least due time, the first published among equals, iff it is due, and removes only that one; nothing is handed out before it is due |
| Patches.CommittedThen | app/scheduler.py:86-101 | committing two patches one after the other is committing them together |
| Patches.FailedPublicationsAreLosses | app/scheduler.py:86-101 | a commit whose publications partly fail is the protocol's commit followed by the loss of those messages |
| Patches.ReportKeepsOthers | app/scheduler.py:212-305 | a report leaves the retry counters of all other tasks alone |
| Patches.ReportLeavesStarted | app/scheduler.py:212-305 | a report leaves the rows of all other started tasks as they are |
| Patches.ReportedTask | app/scheduler.py:233-305 | success is recorded; a failure in a cancelled run or with no retries left is final; any other puts the task back in the queue, one attempt further, its row claimable and its message due after the same backoff |
| Patches.SettlingPublishesAtOnce | app/scheduler.py:199-263 | only a retry is published with a delay |
| SessionLayer.Session.PublishOnCommit | app/scheduler.py:64-83 | the message joins the outbox of the transaction and nothing is published |
| SessionLayer.Session.Dispatch | app/scheduler.py:186-209 | every task given is queued as of now and no other row is touched; one message each, for its current attempt, in order and without delay, behind what the outbox held |
| SessionLayer.Session.FinalizeIfDone | app/scheduler.py:367-377 | writes exactly the finalisation patch |
| SessionLayer.Session.Resolve | app/scheduler.py:163-183 | writes exactly the tick's patch on what the session sees, and returns the tasks it dispatched |
| SessionLayer.Session.RequeueForRetry | app/scheduler.py:272-305 | the row is one attempt further, queued, without worker, claimable after the backoff of that attempt; its message is published with the same delay |
| SessionLayer.Session.ReportResult | app/scheduler.py:212-269 | writes exactly the report patch, makes of the row what `AttemptReported` says without it, and charges the attempt iff it failed |
| SessionLayer.Session.Claim | app/scheduler.py:308-329 | wins iff the row is queued, and then only marks it running for this worker |
| SessionLayer.Session.CancelRun | app/scheduler.py:332-364 | refused iff the run is terminal; otherwise the loop writes exactly the cancellation patch |
| SessionLayer.Session.ReclaimOrphanedTasks | app/recovery.py:88-134 | reports as failed exactly the running tasks without worker, or whose worker is not registered, has no heartbeat, or beat last before now − timeout |
| SessionLayer.Session.ReclaimStuckQueuedTasks | app/recovery.py:137-178 | reports as failed exactly the queued tasks that were claimable before now − timeout |
| SessionLayer.Session.FlushOutbox | app/scheduler.py:86-101 | publishes or parks everything in the outbox except the publications that fail, in order; each published message gets one entry, due after its own delay and behind all earlier ones, and no other entry changes |
| SessionLayer.Session.Commit | app/scheduler.py:86-101 | makes the session's writes visible, then flushes, each message due after its delay; failed publications do not undo the commit |
| SessionLayer.Session.CommitWhole | app/scheduler.py:86-101 | a commit is the protocol's commit of the session's patch, each message due after its delay |
| SessionLayer.Session.Rollback | app/scheduler.py:104-107 | drops the writes and the outbox: nothing is published |
| SessionLayer.Session.Heartbeat | app/recovery.py:64-72 | registers or refreshes the worker in this transaction |
| Heartbeats.SweepIsReclaims | app/recovery.py:116-134 | committing a sweep is one reclaim step of the protocol per selected task |
| Heartbeats.VisitIsReclaims | app/recovery.py:195-212 | committing both sweeps is a run of reclaim steps, and takes the rows where the visit says |
| Heartbeats.HeartbeatThread.Tick | app/recovery.py:195-212 | always beats; sweeps iff the interval has passed since the last sweep; commits exactly both sweeps, judged against the heartbeats including its own; a running task whose worker has beaten within the timeout stays as it is |
| Heartbeats.DesertedRunIsFailed | app/recovery.py:88-178 | the visits of a single thread fail a run that everybody else has deserted, although the thread's own worker is always alive to it |
| Heartbeats.HeartbeatThread.Run | app/recovery.py:195-212 | the loop takes the rows through the visits of exactly the turns that sweep, and so fails a deserted run once enough time has passed |
| WorkerLoop.HandledKeepsDrain | app/worker.py:64-127 | a claimed delivery keeps the drain invariant (every queued task has its current message waiting) and lowers the measure |
| WorkerLoop.DeclineKeepsDrain | app/worker.py:87-95 | a declined delivery keeps the drain invariant and changes no row |
| WorkerLoop.RepeatKeepsDrain | app/broker.py:113-131 | a repeated message keeps the drain invariant |
| WorkerLoop.EmptyQueueMeansDone | app/broker.py:126-128 | with the drain invariant, an empty queue means the run is closed and rightly ended |
| WorkerLoop.Worker.TakeClaim | app/worker.py:83-98 | the first transaction is the protocol's delivery step; only the winner is registered with a heartbeat, and nothing is published |
| WorkerLoop.ReportQueues | app/scheduler.py:233-305 | after a failed attempt with retries left, the one entry added to the queue is due no earlier than the backoff by which the row is stamped claimable, a backoff the settings allow for that retry; after any other, whatever is added is due at once; nothing waiting is lost |
| WorkerLoop.Worker.RunAttempt | app/worker.py:100-123 | the second transaction is the protocol's report step for the outcome of this attempt; a retry is held back as `ReportQueues` says; a success beats, a failure does not |
| WorkerLoop.Worker.Handle | app/worker.py:64-127 | one delivery is one delivery step, and one report step iff it won the claim, whose retry is held back for its backoff; a declined delivery leaves the queue alone; always acked |
| WorkerLoop.Worker.Consume | app/broker.py:113-131 | from any state with the drain invariant, repeated messages included, the drain loop terminates; when waiting, with an empty queue; and then the run is closed with every task rightly ended |
| WorkerLoop.TriggerRun | app/main.py:150-156 | the trigger's transaction is the protocol's trigger, and its messages are due at once |
| WorkerLoop.TriggerAndDrain | app/broker.py:113-131 | from a definition to the end: rejected iff invalid, otherwise created, triggered, drained, and every task ends as the definition, its declared or default retry limits and the outcomes of the attempts say |

## Left out

- The `/simulate` endpoint, the HTTP API, schemas, the WebSocket and the dashboard: input, output and presentation.
- `app/cron.py`: its job is the trigger.
- Several runs in one database: calls concern one run, and the sweeps, which select over all runs, act on each run separately.
- Late reports of a worker wrongly presumed dead, which `report_result` would accept.
- RabbitMQ connections, acknowledgements, reconnects and per-thread brokers: the queue is a multiset that may lose, repeat and reorder.
- Sessions over several threads: `Session`, `Worker` and `HeartbeatThread` are proved one at a time; overlap is proved on the state machine of `concurrency.dfy`.
- The ORM's identity map, except for the status of the run in `CancelRace`, and the differences between SQLite and Postgres: a session reads the committed rows under its own writes.
- The array layout of the binary heap: `InMemoryBroker` keeps its entries as a sorted list.
- Database errors and unreadable messages, which leave a delivery unacknowledged.
- `error_message`, `logs`, `started_at`, `completed_at`, `triggered_at`, worker status and the text of dead letters: nothing branches on them.
- `parse_definition`: its checks of the JSON shape; the model starts from parsed specs with repeated dependencies removed.
- Floating point and `log2`: holding times are exact powers of two.
- The order in which the queries of a sweep return their rows, which the code leaves to the database: the model takes row order, and what a sweep charges does not depend on it.
- Fairness: that a claim is eventually reported is assumed where it matters, and the bounds count steps, not time.
- CancelRace.CancellationIsFinalIff: covers one report of a running task overlapping one cancellation, and a tick that reads the run again; StaleCancellationIsFinalIff covers the other tick. Sweeps overlapping a cancellation are not modelled.
- WorkerLoop.Worker.Consume: the worker and the heartbeat thread commit without failing publications, as the in-process queue never refuses one; Session.Commit and Patches.FailedPublicationsAreLosses cover publications that fail.
- Heartbeats.HeartbeatThread.Run: turns whose transaction fails, which the loop logs and forgets.
