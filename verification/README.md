# Philharmonic, verified

A Dafny model of the Philharmonic container orchestrator: the manager's control plane, the worker's
task lifecycle, and the small algorithms both rely on, with proofs of what they promise.
`dafny verify dfyconfig.toml` checks everything.

**The manager** (`ManagerModel`) is a state machine over six pieces of state: task records, assignments,
the per-worker host-port reservation table, the pending queue, the requests sent to workers, and the tasks that
have a health checker running. There is
one step function per operation; worker replies, port inventories, clocks and store failures are arguments.
`Managers` holds the same operations as a class that updates its stores, queue and table in place, each
method proved equal to its step. The proofs are about runs of those steps:

* `ManagerSafety`, `ManagerStartup`: what every operation keeps, over any run of atomic operations and crashes.
* `Interleaving`: the same with dispatches and restarts split at their POST, any number of restarts and one
  dispatch in flight, halves interleaved with everything else, restarts and endings based on records listed
  earlier, and stores failing at the commits.
* `CommitAtomicity`: after a worker's 201, both writes or neither, and exactly which failures break that.
* `RestartBudget`, `RestartSpacing`, `ManualStops`, `TerminalTasks`: how often and how soon a task can be
  restarted over a whole run, and that a user's stop and a terminal failure are final.
* `InterleavedOutcomes`: which steps of an interleaved run undo a user's stop or a terminal failure.
* `RequestOutcomes`, `DispatchOutcomes`, `RestartOutcomes`, `RestartDecisions`: what each operation must do, not only
  what it must not break: which records, keys, queued events and messages it leaves, for every answer of the worker,
  and which tasks the restart policies touch.
* `References`: names and UUIDs resolve uniquely in every reachable state.

**The worker** (`WorkerModel`, `Workers`) runs over an abstract container daemon. Each call may fail, with or
without having taken effect. `WorkerSafety` takes every operation as one atomic step; `WorkerInterleaving` splits
turns of the run loop and forgets at their docker calls, with everything else between. No live container is lost
track of, except on conditions that are stated exactly. `WorkerOutcomes` says what each operation does to the record
and its container.

**Both together** (`EndToEnd`): a user's stop reaches the container and a restart leaves one container that both sides
know.

**Supporting algorithms**, imperative as in the original: `Queues` (slice queue with in-place filter),
`Reservations`, `Placement`, `Backoff` (64-bit wrap-around), `Schedulers`, `Logs` (backward tail scan),
`Ports` and `PortList`, `Stores`, `Checkers`, `WorkerSync`.

Fourteen properties turned out not to hold without a condition. Each has its exact condition and a run from a
fresh manager or worker that breaks it (`Counterexamples`, `WorkerSafety`, `WorkerInterleaving`):

| what goes wrong | exactly when | run |
|---|---|---|
| a start that was overtaken by a restart leaves port keys on the restart's worker | `AnswerStartKeepsIff`, `DispatchCommitBackedIff` | `StartLeavesKeysBehind` |
| an id submitted again while its cancelled start is in flight leaves keys behind, or doubles a name | `SubmitKeepsIff` | `ReusedIdLeavesKeysBehind`, `ReusedIdDoublesName` |
| a restart from a record listed in an earlier life of its id overwrites the new task and leaves keys behind | `PostRestartKeepsIff` | `EarlierLifeLeavesKeysBehind` |
| a pass or checker that ends a task it listed before it was deleted brings it back, and its name | `DeletedRecordRevivedIff`, `EndListedKeepsIff` | `DeletedTaskComesBack` |
| a commit whose restoring write fails too leaves an assignment without its record | `DispatchCommitIsAtomic`, `RestartCommitIsAtomic` | `FailedRestoreStrands` |
| an older start or listed record forgets the user's stop | `StopSurvivesIff`, `StopSurvivesStepIff` | `QueuedStartForgetsStop` |
| an attempt in flight revives a task that was ended meanwhile | `EndedSurvivesStepIff` | `RestartRevivesEndedTask` |
| a report ends a task that was to be retried | `ReportEndsIff` | `ExitEndsRetryableTask` |
| forgetting an inactive record loses its container | `ForgetLosesIff` | `ForgettingLoses` |
| a start that names another container than the recorded one loses that | `AcceptLosesIff` | `OutdatedStartLoses` |
| a start accepted while another is queued or being executed loses the first one's container | `AcceptKeepsIff` | `StartDuringStartLoses`, `TwoStartsLoseOne` |
| a forget that overlaps with a start loses the new container | `ForgetFinishLosesIff` | `ForgetDuringStartLoses` |
| a create call that takes effect without an answer loses the new container | `TurnLosesIff`, `CreateLosesIff` | `UnansweredCreateLoses` |
| a crash between the docker calls of a start and its record loses the new container | `CrashLosesIff` | `CrashDuringStartLoses` |

Conventions: an id is the 128-bit UUID read as a number, so key order is numeric order; time is a count of
nanoseconds with 0 for the zero time; an absent assignment reads as the empty address. The two halves of
a split operation are the code before its POST and the code after it.

The comments in manager/restart.go (lines 389-390) say that a terminal stamp means `stopTaskTerminal` ended the task
and that a retryable failure has no finish time. The code does not keep this: a worker's report can stamp
a retryable record. The model follows the code, and `ReportEndsIff` says exactly when.

## Model

| member | source | states |
|---|---|---|
| `Interleaving.InterleavedSafety` | manager/dispatch.go:21-282 | from a fresh manager, over every interleaving of operations, halves of dispatches and restarts, endings of listed records, failed commits and crashes whose steps are safe in the sense of the next rows: a held port key is pinned by a record assigned to that worker or by an operation in flight to it; a Pending record has exactly one start, queued or in flight; names stay distinct; and with nothing in flight every reservation is backed |
| `Interleaving.InterleavedRunKeepsIff` | manager/restart.go:44-211 | over any such run with successful restoring writes, the invariant behind it holds at every moment if and only if every step is safe |
| `Interleaving.IStepKeepsIff` | manager/manager.go:222-280 | each operation and each half of one keeps it, whatever else is in flight, if and only if it is safe: a condition on submissions, committed starts, posted restarts and endings, and none on the rest |
| `Interleaving.AnswerStartKeepsIff` | manager/dispatch.go:126-281 | the answer to a posted start keeps it, for every reply and every pattern of commit failures with successful restores, if and only if it does not commit a start whose task has meanwhile been given keys elsewhere that nothing in flight accounts for |
| `Interleaving.SubmitKeepsIff` | manager/records.go:15-65 | accepting a submission keeps it if and only if it does not reuse an id whose earlier life has a start queued or in flight, or a restart in flight with another name or other ports |
| `Interleaving.PostRestartKeepsIff` | manager/restart.go:44-74 | preparing a restart from any record of the task, current, outdated or deleted, keeps it; if posted, if and only if the record has no other name or ports by now |
| `Interleaving.EndListedKeepsIff` | manager/restart.go:326-375 | ending a task on the strength of any record of it keeps it if and only if the name is free, queued start and moves in flight agree with that record, and nothing is held beyond its keys on the owner and what is in flight |
| `Interleaving.DeletedRecordRevivedIff` | manager/restart.go:379-447 | a pass or checker working on a record deleted since it was listed brings it back if and only if it ends the task, because policy or cap say so or because no worker can take it |
| `Interleaving.AnswerRestartKeeps` | manager/restart.go:95-211 | the answer to a posted restart keeps it for every reply and every pattern of commit failures with successful restores, with no proviso: a commit gives up whatever owner it finds |
| `Counterexamples.StartLeavesKeysBehind` | manager/dispatch.go:207-281 | a start in flight whose container exits cleanly is overtaken by the next pass, which restarts the task elsewhere; its commit leaves the keys of the restart with a task assigned to another worker |
| `Counterexamples.ReusedIdLeavesKeysBehind` | manager/records.go:21-34 | cancel a start in flight, submit its id again with other ports: both starts commit, and the first one's keys stay reserved |
| `Counterexamples.ReusedIdDoublesName` | manager/records.go:36-53 | likewise a name taken by another task meanwhile is held twice |
| `Counterexamples.EarlierLifeLeavesKeysBehind` | manager/restart.go:379-447 | a pass lists an exited task, its id is stopped and submitted again with other ports, the pass restarts what it listed: both lives commit, and the first one's keys stay reserved |
| `Counterexamples.DeletedTaskComesBack` | manager/restart.go:326-337 | a task deleted after a pass listed it is written back as a terminal failure, under a name another task has taken |
| `Counterexamples.RestartRevivesEndedTask` | manager/restart.go:136-197 | a restart in flight commits over the terminal failure another loop has written |
| `Counterexamples.FailedRestoreStrands` | manager/dispatch.go:240-244 | record write and restoring assignment write both fail: the task is assigned to the worker that was told to stop it, with a Pending record |
| `Counterexamples.QueuedStartForgetsStop` | manager/dispatch.go:126-133 | a start whose answer was lost is dispatched again after a restart and a user's stop, and the stop is gone |
| `Counterexamples.ExitEndsRetryableTask` | manager/worker_sync.go:119-135 | a clean exit reported while an unanswered health restart waits for its retry ends the task for good |
| `CommitAtomicity.DispatchCommitBackedIff` | manager/dispatch.go:230-250 | for any state at commit time and any operations in flight: reservations are backed afterwards if and only if what the task holds on other workers is held there by those |
| `CommitAtomicity.DispatchCommitIsAtomic` | manager/dispatch.go:196-271 | after a 201 and any store failures, from any state: record and assignment both committed, or both as found with the keys released and a stop sent, if and only if it is not the case that the record write and the restoring assignment write both fail; a failed commit requeues the event |
| `CommitAtomicity.DispatchNeverRevives` | manager/dispatch.go:214-221 | a record deleted while its start was in flight stays deleted, its event is dropped, the worker is told to stop |
| `CommitAtomicity.RestartCommitIsAtomic` | manager/restart.go:140-204 | the same if-and-only-if for a restart |
| `CommitAtomicity.RestartRespectsTheUser` | manager/restart.go:152-171 | a restart overwrites neither a deleted nor a manually stopped record, and undoes itself on the worker |
| `CommitAtomicity.RestartSpansAnything` | manager/restart.go:44-211 | prepared from any record in one state, its 201 processed in any other: all or nothing whenever the restoring write succeeds, and no deleted or stopped record is touched |
| `CommitAtomicity.DispatchSpansAnything` | manager/dispatch.go:21-282 | the same for the start path of a dispatch |
| `CommitAtomicity.CommitWritesOutcome` | manager/dispatch.go:237-244 | which failures commit, which leave both stores untouched, and the one that strands the assignment |
| `ManagerStartup.ReachableStates` | manager/records.go:15-65 | from a fresh manager over any run of atomic operations and crashes: a held key is pinned by a record assigned to that worker, a task holds keys on one worker only, each Pending record has exactly one queued start, each queued start names a record with the same ports |
| `ManagerStartup.RunKeepsInv` | manager/manager.go:222-280 | the invariant over any such run |
| `ManagerStartup.StepKeeps` | manager/dispatch.go:21-282 | every atomic operation keeps it under any operations in flight |
| `ManagerStartup.StartupEstablishesInv` | manager/manager.go:146-204 | startup establishes it from any assignments and any well-keyed records with distinct names, so also after a crash between two writes |
| `ManagerStartup.StartupShape` | manager/manager.go:146-204 | after startup the queue holds one start per Pending record in key order, assignments survive exactly for known tasks, and only Running or Scheduled records hold ports, all of theirs or none, on their owner |
| `ManagerStartup.StartupReclaims` | manager/manager.go:176-193 | an owned active record gets all its ports back unless another active record of the same worker wants one of them |
| `ManagerSafety.DeleteKeeps` | manager/records.go:96-131 | deletion removes record, assignment, every queued start, and every reservation of the task on any worker except what an operation in flight holds |
| `ManagerSafety.AddTaskKeepsIff` | manager/records.go:15-65 | acceptance keeps records, queue, names and table in agreement under any operations in flight if and only if the id's earlier life has no start left and agrees with what is in flight for it |
| `ManagerSafety.StopRequestKeeps` | manager/handlers.go:87-167 | so does the delete-or-stop decision |
| `ManagerSafety.ReportKeeps` | manager/worker_sync.go:77-147 | so does merging a worker's report |
| `ManagerSafety.PrepareDispatchKeeps` | manager/dispatch.go:22-112 | what a dispatch has in flight after its first half: the task's only start and its keys on one configured worker |
| `ManagerSafety.FinishDispatchKeepsIff` | manager/dispatch.go:126-281 | what is in flight is settled by the second half on every path, except exactly when it commits over keys the task was given elsewhere |
| `ManagerSafety.PrepareRestartKeepsIff` | manager/restart.go:44-74 | what a restart has in flight after its first half, prepared from any record of the task, and exactly when that keeps the invariant |
| `ManagerSafety.FinishRestartKeeps` | manager/restart.go:95-211 | settled on every path, including a relocation |
| `ManagerSafety.StopTerminalKeepsIff` | manager/restart.go:326-375 | ending a task, with any argument, keeps the invariant if and only if name, queued start, moves and remaining keys agree with it |
| `ManagerSafety.MarkFailedKeeps` | manager/restart.go:213-246 | so does marking one failed |
| `ManagerSafety.CommitTurnsMove` | manager/restart.go:175-206 | after a commit only the keys on the previous owner lack a backing assignment |
| `ManagerSafety.PostedStart` | manager/dispatch.go:33-112 | a start is posted only to a configured worker, with all its keys reserved there, and never while the task is assigned elsewhere |
| `RestartBudget.RestartsBounded` | manager/restart.go:379-447 | over any run after dispatch the restart count never falls, grows by exactly the restarts committed or rejected on both restart paths, and those never exceed what the cap left |
| `RestartBudget.StepAccounts` | manager/healthcheck.go:181-207 | each step raises the count by exactly the restarts it commits or has rejected and never touches cap or policy |
| `RestartBudget.CommittedDispatchIsDispatched` | manager/dispatch.go:196-251 | a committed dispatch takes the task's only start off the queue and records it Scheduled on the worker that accepted, owning all its keys |
| `RestartBudget.RestartCounts` | manager/restart.go:44-211 | a restart rewrites no other record and no queue, and costs a slot exactly when committed or rejected |
| `RestartSpacing.RestartsAreSpaced` | manager/restart.go:29-42 | after a restart that got no answer or was refused, nothing in any later run restarts the task before base * 2^(n-1), capped, has passed |
| `RestartSpacing.StepKeepsArmed` | manager/restart.go:213-246 | no step that reads a later clock moves an armed deadline back |
| `ManualStops.StopIsFinal` | manager/restart.go:248-271 | over any run, a dispatched task the user stopped stays stopped and is never put back to Scheduled except by its worker's own report |
| `ManualStops.StopSurvivesIff` | manager/dispatch.go:22-251 | a step forgets the stop if and only if it dispatches an unstopped start of the task from the head of the queue and its owner, or a worker that can take it, accepts it, or none can take it |
| `ManualStops.RestartLeavesStopped` | manager/restart.go:165-171 | a restart of a stopped task changes no assignment and leaves it stopped, whatever the worker answers |
| `RequestOutcomes.SubmitOutcome` | manager/records.go:15-65 | an event is accepted if and only if its task is well formed and, unless it is a stop, its id and name are free; it is queued last as it came, a start is recorded as Pending, and nothing else changes; a refused one leaves no trace |
| `RequestOutcomes.StopOutcome` | manager/handlers.go:87-167 | a user's stop deletes a task if and only if it is Pending, Completed, without an owner, or Failed for good or at its cap; otherwise the record gets the flag and one flagged stop is queued last |
| `RequestOutcomes.DeleteOutcome` | manager/records.go:96-131 | no record, assignment, queued event or key on its worker is left of a deleted task, everything else stays, and a stop is sent exactly for a failed task with an owner and a container |
| `RequestOutcomes.EndingOutcome` | manager/restart.go:326-375 | an ended task is failed with a finish time, its keys on its worker are free, and its worker, if any, gets exactly one stop of it |
| `RequestOutcomes.MarkFailedOutcome` | manager/restart.go:213-246 | the record is failed with the given count, without a finish time, retryable when the backoff of that count has passed; nothing else changes |
| `RequestOutcomes.ReportOutcome` | manager/worker_sync.go:77-147 | an unknown task is to be forgotten by the sender, another attempt changes nothing, and a current one gives the record the reported container and ports, each time that is set, and the state unless a failure is final |
| `DispatchOutcomes.StopIsPosted` | manager/dispatch.go:33-41 | a stop of an owned task goes, as queued, to its owner, and reserves nothing |
| `DispatchOutcomes.StopAnswered` | manager/dispatch.go:126-180 | after 201 or 404 the task holds none of its keys on that worker and every other entry, record, assignment and event is as it was; after another status nothing has changed and nothing is requeued; without an answer the same event is queued again |
| `DispatchOutcomes.StopMakesRoom` | manager/dispatch.go:143-153 | so another task that only the stopped one kept from a port can have it |
| `DispatchOutcomes.UnownedStop` | manager/dispatch.go:54-67 | a stop without an owner deletes the record, if there is one |
| `DispatchOutcomes.UnknownOwnerWaits` | manager/dispatch.go:34-40 | an event for a worker that is not configured goes to the back of the queue |
| `DispatchOutcomes.StartIsPostedIff` | manager/dispatch.go:33-112 | a start is posted if and only if its configured owner has its ports, or it has no owner, is recorded and is placed; as Scheduled, to that worker only, with exactly its keys reserved there |
| `DispatchOutcomes.StartNotPosted` | manager/dispatch.go:33-94 | one that is not posted fails without costing a restart, waits, is dropped with its record, or is ended, and when which |
| `DispatchOutcomes.StartAnswered` | manager/dispatch.go:126-271 | what the answer to a posted start does in any state: requeue, failure at the price of one restart, commit, or compensation of a cancelled task |
| `DispatchOutcomes.StartDispatched` | manager/dispatch.go:21-282 | over both halves: the task holds its keys on the worker if and only if that accepted, and its event is queued again if and only if there was no answer |
| `RestartOutcomes.RestartIsPostedIff` | manager/restart.go:44-100 | a restart is posted if and only if the task is placed, with the next count, no failure and no times, and with container and published ports only to the worker that has them; otherwise it is failed without costing a restart, or ended |
| `RestartOutcomes.RestartAccepted` | manager/restart.go:132-207 | after a 201 in any state: committed if and only if the record is there and not stopped, else the keys are freed and the worker gets exactly one stop; the previous owner of a task that moves gets exactly one stop of the old container and its keys are freed, and otherwise nothing is sent |
| `RestartOutcomes.RestartTurnedDown` | manager/restart.go:94-130 | any other answer frees the keys and fails the record, at the price of one restart if and only if the worker answered |
| `RestartOutcomes.RestartMoves` | manager/restart.go:44-211 | from listing to commit: new record, assignment, all keys on the new worker, none on the old one, and the stop of the old container |
| `RestartOutcomes.RestartFails` | manager/restart.go:44-130 | from listing to refusal: the task has none of its keys on the chosen worker, and nothing is sent or queued |
| `RestartDecisions.PassDecides` | manager/restart.go:379-447 | which stopped tasks a pass restarts and which it ends, read off state, policy, cap, stop flag, stamp and deadline |
| `RestartDecisions.CheckerDecides` | manager/healthcheck.go:181-207 | the same for an unhealthy running task |
| `RestartDecisions.PassActsIff` | manager/restart.go:379-447 | a pass rewrites the record it looks at if and only if the task is due or over, and otherwise changes nothing anywhere |
| `RestartDecisions.VerdictActsIff` | manager/healthcheck.go:160-208 | so does a checker's verdict, except a restart called off for a stopped task; the checker is gone either way |
| `RestartDecisions.CheckerStaysIff` | manager/healthcheck.go:92-147 | a checker stays if and only if the listed task runs with an http or tcp check and has an owner |
| `RestartDecisions.LeftAloneIff` | manager/restart.go:379-447 | over any run of passes and checkers, on whatever tasks, a stopped record stays as it is throughout if and only if no pass finds it due or over; so a clean exit is restarted only under two policies, below the cap, unstopped and after its deadline |
| `RestartDecisions.RestartsArePermitted` | manager/restart.go:395-436 | at any point of any run, a restart decided on is permitted by the policy and the cap the task was dispatched with |
| `RestartDecisions.ForbiddenNeverRestarts` | manager/restart.go:395-400 | a task whose policy permits no restart is never restarted on any run |
| `Placement.PlacementIff` | manager/scheduling.go:64-163 | the owner keeps the task whenever it has room, otherwise some worker with room gets it, and without one the failure is transient if and only if statistics are outstanding or no worker answers |
| `Placement.OccupiedMeaning` | manager/ports.go:21-54 | a key is in use if and only if the inventory lists its port under its protocol |
| `Ports.ValidPortsIff` | task/validate.go:170-211 | valid port mappings: ranges, protocols, and pairwise distinct container and pinned host ports per protocol |
| `Ports.ValidTaskIff` | task/validate.go:13-49 | what else a task must be: one of five policies, and no negative timeout or restart limit |
| `WorkerSync.LastReportCounts` | manager/worker_sync.go:103-146 | after any sequence of reports that ends in one of the current attempt: its container and ports, the last times any report of the attempt has set, and its state unless a failure is final |
| `WorkerSync.StaleReportsDoNotCount` | manager/worker_sync.go:103-108 | leaving out the reports of other attempts, wherever they come, gives the same record |
| `WorkerSync.FirstFailureArmsIff` | manager/worker_sync.go:119-128 | the backoff is armed if and only if a report of the attempt is the first to show a failure, and then runs from that moment |
| `WorkerSync.ReasonsAreKept` | manager/worker_sync.go:125-128 | only a failure with a reason changes the reason on record |
| `WorkerOutcomes.AcceptOutcome` | worker/worker.go:333-377 | what is accepted is queued last; an accepted start is recorded, with the container and ports on record where it names none; anything else changes no record |
| `WorkerOutcomes.StopTurn` | worker/worker.go:397-587 | a turn that takes a stop acts exactly on Running, Completed and Failed tasks: the recorded container is gone unless docker refuses, no other is, and the record is ended now, Failed if either side carries a failure |
| `WorkerOutcomes.StartTurn` | worker/worker.go:397-537 | a turn that takes a start acts in every state: the task runs in the new container and the previous one is gone if every docker call it needs goes through, and has failed with a reason if not; no other container or record changes |
| `WorkerOutcomes.OtherTurn` | worker/worker.go:411-463 | anything else is dropped |
| `WorkerOutcomes.RunOutcome` | task/task.go:524-657 | when a run succeeds, leaves a container behind, and tells its id |
| `WorkerOutcomes.PollOutcome` | worker/worker.go:775-942 | a Running record completes if and only if its container exited without an error, fails if it has run too long or docker shows no sound container, and runs on otherwise; only a timeout removes the container |
| `WorkerOutcomes.ForgetOutcome` | worker/worker.go:589-656 | a forget fails if and only if the task is unknown or an active task's container cannot be removed; otherwise the record is gone; the task's events go either way |
| `EndToEnd.StopTravels` | manager/handlers.go:126-167 | the stop a user asks for is posted as it was queued to the task's worker whenever its turn comes, and queued there |
| `EndToEnd.StopArrives` | worker/worker.go:539-587 | when its turn comes there, the task's container is gone, and once that is reported the manager has the task ended and no pass restarts or ends it again |
| `EndToEnd.RestartRoundTrip` | manager/restart.go:44-211 | after a restart in place, its start and the report of it, both sides know the same new container, it runs, the old one is gone, and the count is one up |
| `EndToEnd.RelocationRoundTrip` | manager/restart.go:199-207 | a restart that moves sends the old worker the stop that removes the old container there, so that none is left behind |
| `InterleavedOutcomes.OutcomesLastIff` | manager/restart.go:44-211 | over any interleaved run with the invariant, a stopped task stays stopped while it exists, and an ended one ended, if and only if no step writes an older attempt over it |
| `InterleavedOutcomes.StopSurvivesStepIff` | manager/restart.go:165-171 | each step keeps the user's stop if and only if it is not a dispatch, commit, restart or ending that writes a task from before the stop |
| `InterleavedOutcomes.EndedSurvivesStepIff` | manager/restart.go:95-211 | each step keeps a terminal failure if and only if it does not commit, or mark failed, an attempt made before it |
| `TerminalTasks.TerminalIsFinal` | manager/restart.go:388-393 | over any run an ended task stays ended, nothing is decided about it again, and no restart is spent on it until it is deleted |
| `TerminalTasks.FailedRestartIsRetried` | manager/restart.go:213-246 | a restart that got no answer or was refused leaves the record failed but not ended, and the next pass restarts it if and only if it is not stopped, policy and cap allow it, and the backoff has run out |
| `TerminalTasks.FailedRestartIsEnded` | manager/restart.go:395-411 | beyond policy or cap the next pass ends it |
| `References.ResolveRef` | task/resolve.go:6-24 | a UUID finds the record with that id; other text finds the record of that name if and only if there is exactly one and is ambiguous if and only if there are several |
| `References.HeldNameResolves` | manager/records.go:89-92 | in every state with the invariant a held name resolves to its record |
| `References.PrintedIdResolves` | manager/records.go:89-92 | so does the text of any record's id |
| `References.NeverAmbiguous` | manager/records.go:36-51 | no non-empty reference is ever ambiguous |
| `Managers.Manager.ResolveTask` | manager/records.go:89-92 | in every state with the invariant, listing the records and resolving a held name or an id's text finds exactly that record |
| `Managers.Manager.GetTasks` | manager/records.go:149-172 | the snapshot is the store's listing in key order |
| `Managers.Manager.StartChecker` | manager/healthcheck.go:133-142 | a checker runs on only if its task has an owner |
| `Managers.Manager.SendWork` | manager/dispatch.go:21-282 | the whole dispatch, in place, equals its step |
| `Managers.Manager.CommitDispatch` | manager/dispatch.go:196-271 | the tracked flags of the commit and its compensation |
| `Managers.Manager.CommitWrites` | manager/dispatch.go:230-250 | two writes and their restoring writes, each of which may fail: whatever succeeds, either both stores changed, or neither did, or only the assignment |
| `Managers.Manager.RestartTask` | manager/restart.go:44-211 | the whole restart, in place, equals its step |
| `Managers.Manager.CommitRestart` | manager/restart.go:136-207 | commit, or undo on a deleted, stopped or unreadable record or a failed write, and leave the old owner |
| `Managers.Manager.RestartFailedTasks` | manager/restart.go:379-447 | a pass over a snapshot in key order equals judging every record as it is when its turn comes |
| `RestartBudget.CarryIsLocal` | manager/restart.go:381-382 | judging one task rewrites no other record, which is why a snapshot is enough |
| `Managers.Manager.TaskUnhealthy` | manager/healthcheck.go:160-208 | what a running checker does to the current record at its failure threshold, after which it ends |
| `Managers.Manager.MarkFailed` | manager/restart.go:213-246 | new state, count, reason, cleared stamp and armed backoff; unknown ids change nothing |
| `Managers.Manager.AddTask` | manager/records.go:15-65 | which submission is refused and why, and record and event of an accepted one |
| `Managers.Manager.TaskNameInUse` | manager/records.go:74-87 | true if and only if some record holds the name |
| `Managers.Manager.DeleteTask` | manager/records.go:96-131 | record, assignment, queued events and reservations go together; a Failed task's container is asked to stop |
| `Managers.Manager.StopTask` | manager/handlers.go:87-167 | delete what has nothing running, otherwise flag and queue a stop |
| `Managers.Manager.UpdateTask` | manager/worker_sync.go:85-147 | one report, field by field, or a forget request for an unknown task |
| `Managers.Manager.ReconcileOnStartup` | manager/manager.go:146-204 | rebuilds queue and table from the stores and sweeps orphans |
| `Managers.Manager.SweepOrphanedAssignments` | manager/assignment.go:28-50 | keeps exactly the assignments of known tasks |
| `Placement.PlacementSound` | manager/scheduling.go:110-163 | a chosen worker is configured, the task owns all its keys there, they are free in the inventory fetched for it (on the owner path less its own bindings), and no other task's entry changed |
| `Placement.PlacementComplete` | manager/scheduling.go:64-108 | placement does not fail while a configured, offered worker has the ports free |
| `Placement.SelectAndReserveWorker` | manager/scheduling.go:110-163 | owner first, then any able worker, reserved in the same step; the lost-race branch is unreachable |
| `Placement.SelectWorkerLocked` | manager/scheduling.go:64-108 | picks among exactly the able workers, in configuration order |
| `Placement.CanHost` | manager/ports.go:21-54 | true if and only if no pinned key is in use there, on request not counting the task's own |
| `Reservations.OwnershipLasts` | manager/reservations.go:38-81 | mutual exclusion over any trace: keys once reserved stay with the task until it is released there, and meanwhile every other task that wants one is refused |
| `Reservations.ReleaseUndoesReserve` | manager/reservations.go:49-81 | a release takes back exactly what the reservation claimed |
| `Reservations.RunKeepsRows` | manager/reservations.go:68-81 | no trace leaves an empty inner map |
| `Reservations.ReservationTable.TryReserve` | manager/reservations.go:49-66 | all keys or, on a conflict, no change |
| `Reservations.ReservationTable.Release` | manager/reservations.go:68-81 | drops exactly the task's own keys on that worker |
| `Reservations.ReservationTable.ConflictsLocked` | manager/reservations.go:94-102 | true if and only if a requested key is held, on request not counting the task's own |
| `Ports.PortKeyInjective` | manager/reservations.go:106-112 | two pinned pairs share a key if and only if they are the same port and protocol |
| `Ports.KeysMatchPairs` | manager/reservations.go:104-125 | for validated mappings the keys are in bijection with the pinned pairs |
| `Ports.RequestedPortKeys` | manager/reservations.go:114-125 | the keys of the pinned mappings, in order |
| `Ports.KeySetMeaning` | manager/reservations.go:114-125 | a key is requested if and only if some mapping pins it |
| `Ports.ValidatePortMappings` | task/validate.go:170-211 | accepts if and only if every mapping is in range, supported and distinct, and otherwise reports the first offence |
| `PortList.PortMappingsFromPortMap` | task/task.go:336-370 | strictly increasing, and exactly the parsable bindings |
| `PortList.IncreasingListUnique` | task/task.go:354-369 | so the list does not depend on the order the map is walked in |
| `Backoff.RestartBackoff` | manager/restart.go:29-42 | under 64-bit wrap-around equals min(base * 2^(max(n,1)-1), max) over unbounded integers |
| `Backoff.ScheduleBounds` | manager/restart.go:21-28 | positive, at most the cap, and monotone in the restart count |
| `Queues.Queue.Enqueue` | queue/queue.go:15-20 | appends, in place or in a larger array |
| `Queues.Queue.Dequeue` | queue/queue.go:22-34 | takes the oldest and zeroes its slot |
| `Queues.Queue.RemoveAllFunc` | queue/queue.go:43-61 | the in-place compaction is a stable filter, reports how many it dropped, and zeroes every vacated slot |
| `Queues.Fifo` | queue/queue.go:15-34 | over any run without purges, what was taken followed by what is left is what was there followed by what was put |
| `Queues.FifoThroughPurges` | queue/queue.go:15-61 | over any run, what was taken followed by what is left keeps that order, less purged items |
| `Checkers.CheckerSet.StartChecker` | manager/healthcheck.go:115-127 | registers a fresh handle unless one is running; a refused one is cancelled |
| `Checkers.CheckerSet.Stop` | manager/checkers.go:40-48 | cancels the registered handle and no other |
| `Checkers.CheckerSet.StopAllExcept` | manager/checkers.go:62-77 | stops exactly the registered ids that are not kept |
| `Checkers.CheckerSet.Finished` | manager/checkers.go:83-92 | a stale handle never removes a newer registration; the live handles are exactly the registered ones |
| `Checkers.CheckerSet.Reconcile` | manager/healthcheck.go:92-113 | afterwards exactly the Running http- or tcp-checked tasks of the snapshot are registered, old ones with the checker they had |
| `Checkers.ProbeLoop` | manager/healthcheck.go:155-180 | unhealthy at the first probe that ends a full streak of failures, and only then |
| `WorkerSync.FoldsKeepIdentity` | manager/worker_sync.go:103-146 | any sequence of reports keeps a terminal record terminal and never touches count, stop flag, ports or name |
| `WorkerSync.RepeatedReportIsIdle` | manager/worker_sync.go:103-146 | the same report folded again at any later times changes nothing |
| `WorkerSync.DeadlineMovesOnlyOnFirstFailure` | manager/worker_sync.go:119-128 | a report moves the backoff deadline only when it is the first to show a failure |
| `WorkerSync.ReportEndsIff` | manager/worker_sync.go:110-137 | a report makes a record terminal if and only if it is of the current attempt and a failure meets a finish time |
| `WorkerSync.FoldsNeverPending` | manager/worker_sync.go:103-146 | reports that are not Pending never make a record Pending |
| `WorkerInterleaving.NoContainerStrays` | worker/worker.go:333-942 | over any run of the parts of turns and forgets, with starts accepted, records inspected or timed out and tasks forgotten during the docker calls, whichever of those fail: if every step meets the conditions of the rows below, every live container is the one on its task's record or the one the run loop has in hand, and between turns there is at most one per task, on its record |
| `WorkerInterleaving.TurnIsItsParts` | worker/worker.go:397-463 | parts that run with nothing between make up the turn of the run loop |
| `WorkerInterleaving.ForgetIsItsParts` | worker/worker.go:589-656 | and a forget |
| `WorkerInterleaving.AcceptKeepsIff` | worker/worker.go:333-377 | accepting a start keeps the invariant if and only if none is queued for the task, it names no container in place of a live recorded one, and it carries none that the run loop may be replacing |
| `WorkerInterleaving.CreateLosesIff` | task/task.go:590-657 | the create call of a start loses its container if and only if it takes effect without an answer |
| `WorkerInterleaving.ForgetFinishLosesIff` | worker/worker.go:622-656 | the second half of a forget loses a container if and only if only the record it drops, or overwrites with another container, knows it |
| `WorkerInterleaving.CrashLosesIff` | worker/worker.go:510-534 | a crash loses a container if and only if the run loop has made it and not yet recorded it |
| `WorkerInterleaving.SaveKeeps` | worker/worker.go:320-331 | recording the outcome of a start or stop keeps the invariant, whatever happened to the record meanwhile |
| `WorkerInterleaving.StartDuringStartLoses` | worker/worker.go:333-394 | a retried restart accepted during the docker calls of the first, with none queued and the recorded container on it, loses the first one's new container |
| `WorkerInterleaving.ForgetDuringStartLoses` | worker/worker.go:589-656 | a forget that has read the record before a start is executed drops the record with the new container on it |
| `WorkerInterleaving.CrashDuringStartLoses` | worker/worker.go:510-534 | a fresh worker that crashes between creating a container and recording it loses it |
| `WorkerSafety.NoContainerLost` | worker/worker.go:333-942 | over any run of atomic operations in which starts are accepted one at a time, inactive records with a container are not forgotten and no create call takes effect without an answer: every live container is the one on its task's record, at most one per task |
| `WorkerSafety.WorkerNeverPending` | worker/worker.go:333-463 | worker records are never Pending, on any run of atomic operations at all |
| `WorkerSafety.AcceptLosesIff` | worker/worker.go:333-377 | accepting loses a container at once if and only if the start names another container than the live recorded one |
| `WorkerSafety.ForgetLosesIff` | worker/worker.go:589-656 | an atomic forget loses a container if and only if the record is inactive and its container still exists |
| `WorkerSafety.StartKeepsIff` | worker/worker.go:465-537 | an atomic start replaces the recorded container by at most one new one, whatever fails, if and only if its create call does not take effect without an answer |
| `WorkerSafety.TurnLosesIff` | worker/worker.go:397-463 | an atomic turn of the run loop loses a container if and only if it gets as far as a create call that takes effect without an answer |
| `WorkerSafety.PollKeeps` | worker/worker.go:775-942 | inspecting or timing out a record keeps its container on it, or removes it |
| `WorkerSafety.TwoStartsLoseOne` | worker/worker.go:385-394 | two queued starts that carry the recorded container lose the first one's new container |
| `WorkerSafety.UnansweredCreateLoses` | task/task.go:590-594 | a fresh worker whose first create call takes effect without an answer has lost that container |
| `WorkerSafety.OutdatedStartLoses` | worker/worker.go:342-368 | accepting a start that names an older container loses the one that runs |
| `WorkerSafety.ForgettingLoses` | worker/worker.go:601-620 | a container that exited by itself is lost when its Completed record is forgotten |
| `Workers.Worker.AddTask` | worker/worker.go:333-377 | what is accepted, recorded and queued |
| `Workers.Worker.RunTask` | worker/worker.go:397-463 | dequeue, merge, check the transition, act |
| `Workers.Worker.ForgetTask` | worker/worker.go:589-656 | purge the queue, stop if active, drop the record unless a container would be left |
| `Workers.Worker.TimeoutTask` | worker/worker.go:897-942 | stop and fail a record that is still Running |
| `Workers.Worker.UpdateTasks` | worker/worker.go:775-888 | one pass over a snapshot in key order |
| `Workers.Docker.Run` | task/task.go:524-657 | create, start, attach; on failure the id of a container that could not be removed is returned, and no id when the create call itself fails, even if the daemon has made the container |
| `Workers.Docker.Stop` | task/task.go:659-705 | an error if and only if there is no id or the removal breaks |
| `Logs.TailLines` | worker/worker.go:1104-1124 | the last min(n, count) lines, an unterminated last line counting |
| `Logs.LinesSplit` | worker/worker.go:1104-1124 | what a line is: the lines put together give the log back, each terminated except possibly the last |
| `Logs.TailOfTail` | worker/worker.go:1104-1124 | a tail of a tail is the shorter tail |
| `Schedulers.RoundRobin.Score` | scheduler/scheduler.go:49-69 | the rotation moves on by one and only its node gets the low score |
| `Schedulers.RoundRobin.Next` | scheduler/scheduler.go:49-79 | score then pick is the next node in rotation |
| `Schedulers.Balanced` | scheduler/scheduler.go:38-79 | after any number of placements two nodes' shares differ by at most one |
| `Schedulers.PickRoundRobin` | scheduler/scheduler.go:71-79 | the first candidate with the least score |
| `Schedulers.PickEpvm` | scheduler/scheduler.go:151-163 | the same among nodes of known capacity, none if there is none |
| `Stores.InMemoryStore.List` | store/in_memory.go:53-71 | the values in key order, whatever order the map is walked in |
| `Stores.InMemoryStore.Put` | store/in_memory.go:27-39 | one entry changes |
| `Stores.InMemoryStore.Get` | store/in_memory.go:41-51 | the entry of the key, if there is one |
| `Stores.InMemoryStore.Delete` | store/in_memory.go:80-85 | one entry goes; a missing key is no error |

## Left out

- HTTP, JSON, TLS, bearer tokens, command line and YAML: a worker call is a reply that never came or a status with an echoed task. Marshalling errors are not modelled.
- Failure texts are fixed strings; only whether a reason is empty matters to the code that reads it.
- Nil stores, closed managers and store errors outside the two commits; an unreadable record is a fault there and nowhere else. The event store is never read back and is left out.
- `Epvm` scoring (floating point) is left out; its picker takes the scores as given. Node statistics, capacity filtering and image pulls are oracles of a placement.
- Environment and security validation are one yes-or-no input of the validation step.
- Go's case folding and byte order of strings are modelled on characters, which is exact for ASCII text.
- The integer width of `RestartCount` and of the timeout product is not modelled; that of the backoff is.
- The container timeout of a poll is an oracle bit, as is everything docker answers; log capture and stored logs are left out.
- Cancelling the root context is left out of the checker registry; a checker's probes are a given sequence of outcomes.
- Task and node views, proxies to worker logs and the other HTTP handlers only read.
- Interleaving.InterleavedSafety: each half of a split operation is one atomic step, so the release that follows a commit outside the manager's lock is not separated from it; other operations, such as `stopTaskTerminal` and the delete-or-stop decision, are one step each. `Counterexamples` has a run for each kind of step that can be unsafe; after an unsafe step nothing is claimed. Restoring writes of failed commits are assumed to succeed.
- Managers.Manager.RestartFailedTasks: one pass runs without steps of other loops between its tasks; `Interleaving` has those, with restarts and endings of any listed record.
- RestartBudget.RestartsBounded: over atomic operations without store failures. Interleaved, two restarts prepared from the same count both commit and cost one slot together; a lost reply to a commit is not a restart to the manager.
- RestartDecisions.ForbiddenNeverRestarts: over atomic operations, like the bound.
- RestartDecisions.RestartsArePermitted: over atomic operations, likewise.
- EndToEnd.StopArrives: the steps in between are arbitrary states that meet the conditions named; that a queued event is dispatched and a posted one executed in the end is not claimed.
- RestartSpacing.RestartsAreSpaced: over atomic operations, with clocks read after the failure not running back before it.
- ManualStops.StopIsFinal: over atomic operations; `InterleavedOutcomes.OutcomesLastIff` says exactly when it holds over interleaved runs.
- TerminalTasks.TerminalIsFinal: over atomic operations, likewise.
- References.PrintedIdResolves: `uuid.Parse` is an abstract function; that it undoes printing is an assumption on the text given.
- WorkerSafety.NoContainerLost: every operation is one atomic step; `WorkerInterleaving` splits turns and forgets at their docker calls. There, a docker call with the locked part that follows it in an inspection is still one step, as are the read and the write of a record that follow a stop, and the queue write that follows an accepted start's record. Container names, and the clash a lost container's name causes later, are not modelled. The `Workers` classes are proved against the atomic steps.
- Properties the code does not have and nothing here claims: a task runs on at most one worker (a lost reply is requeued and may be placed elsewhere), a Running task always holds its reservation (a failed restart releases it and a report may say Running again), only `stopTaskTerminal` makes a task terminal (a folded Completed report may stamp a Failed record), every worker write follows the transition table (a stop can write Failed over Completed).
- Known states only: the integer encodings of `State` outside the five named ones.
