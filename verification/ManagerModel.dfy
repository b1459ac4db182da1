/** The manager's control plane as a state machine: one function per operation, with the start of a
    dispatch and of a restart split at the POST into a prepare and a finish half. */
module ManagerModel {
  import opened Base
  import opened Tasks
  import opened Ports
  import opened Reservations
  import opened Placement
  import opened WorkerSync
  import opened Checkers

  datatype Config = Config(
    nodes: seq<Address>,
    delays: Delays,
    maxRestarts: int,
    parse: string -> Option<Id>)  // uuid.Parse

  datatype Message = StopMessage(worker: Address, task: Task) | ForgetMessage(worker: Address, id: Id)

  /** Task records, assignments, the reservation table, the pending queue, every stop or forget
      request sent to a worker so far, and the tasks whose health checker is past its owner check. */
  datatype MState = MState(
    tasks: map<Id, Task>,
    owners: map<Id, Address>,
    table: Table,
    pending: seq<Event>,
    sent: seq<Message>,
    watched: set<Id>)

  /** A worker's answer to a POST: none, or a status code with the task it echoes. */
  datatype Reply = Unreached | Status(code: int, echo: Task)

  const CREATED := 201
  const NOT_FOUND := 404

  datatype Env = Env(cluster: Cluster, reply: Reply, now: Instant)

  /** Which store calls of a commit fail. A failed write has no effect. */
  datatype Faults = Faults(
    readTask: bool, readOwner: bool, putOwner: bool, putTask: bool, restoreOwner: bool, restoreTask: bool)

  const NO_FAULTS := Faults(false, false, false, false, false, false)

  // ---- small operations ----

  function Owner(m: MState, id: Id): Address {
    if id in m.owners then m.owners[id] else ""
  }

  function Enqueue(m: MState, e: Event): MState {
    m.(pending := m.pending + [e])
  }

  function ReleaseOn(m: MState, w: Address, t: Task): MState {
    m.(table := Released(m.table, w, t))
  }

  function MarkFailed(cfg: Config, m: MState, id: Id, restartCount: int, reason: string, now: Instant): MState {
    if id !in m.tasks then m
    else m.(tasks := m.tasks[id := m.tasks[id].(
      state := Failed, restartCount := restartCount, failureReason := reason,
      finishTime := 0, nextRetryAt := RetryAt(cfg.delays, restartCount, now))])
  }

  function StopFor(w: Address, t: Task): Message {
    StopMessage(w, t.(state := Completed))
  }

  function BestEffortStop(m: MState, w: Address, t: Task): MState {
    if w == "" || t.id == NIL_ID then m else m.(sent := m.sent + [StopFor(w, t)])
  }

  function StopOldContainer(m: MState, w: Address, t: Task): MState {
    if t.containerId == "" then m else BestEffortStop(m, w, t)
  }

  function StopTerminal(m: MState, t: Task, reason: string, now: Instant): MState {
    var w := Owner(m, t.id);
    var dead := t.(state := Failed, failureReason := reason, finishTime := now);
    var m' := ReleaseOn(m.(tasks := m.tasks[t.id := dead]), w, dead);
    if w == "" then m' else m'.(sent := m'.sent + [StopFor(w, dead)])
  }

  function EventNames(id: Id): Event -> bool {
    (e: Event) => e.task.id == id
  }

  function DeleteTask(m: MState, t: Task): MState {
    var w := Owner(m, t.id);
    var gone := m.(tasks := m.tasks - {t.id}, owners := m.owners - {t.id},
                   pending := DropMatching(m.pending, EventNames(t.id)));
    if w == "" then gone
    else
      var freed := ReleaseOn(gone, w, t);
      if t.state.Failed? then StopOldContainer(freed, w, t) else freed
  }

  // ---- accepting work ----

  datatype Refusal = InvalidTask | AlreadyExists | NameIsUuid | NameInUse

  predicate HoldsName(tasks: map<Id, Task>, name: string) {
    exists id :: id in tasks && tasks[id].name == name
  }

  function Refuses(cfg: Config, m: MState, e: Event, extrasOk: bool): Option<Refusal> {
    var t := e.task;
    if !ValidTask(t, extrasOk) then Some(InvalidTask)
    else if IsStop(e) then None
    else if t.id in m.tasks then Some(AlreadyExists)
    else if t.name != "" && cfg.parse(t.name).Some? then Some(NameIsUuid)
    else if t.name != "" && HoldsName(m.tasks, t.name) then Some(NameInUse)
    else None
  }

  function AddTask(cfg: Config, m: MState, e: Event, extrasOk: bool): MState {
    if Refuses(cfg, m, e, extrasOk).Some? then m
    else
      var m' := if IsStop(e) then m else m.(tasks := m.tasks[e.task.id := e.task.(state := Pending)]);
      Enqueue(m', e)
  }

  /** The stop handler deletes what has nothing running, and otherwise flags the task and queues a stop. */
  predicate StopDeletes(cfg: Config, m: MState, t: Task) {
    t.state.Pending? || t.state.Completed? || Owner(m, t.id) == "" ||
    (t.state.Failed? && (t.AtRestartCap(cfg.maxRestarts) || t.IsTerminal()))
  }

  function StopRequest(cfg: Config, m: MState, id: Id, extrasOk: bool): MState {
    if id !in m.tasks then m
    else
      var t := m.tasks[id];
      if StopDeletes(cfg, m, t) then DeleteTask(m, t)
      else
        var flagged := m.(tasks := m.tasks[id := t.(manuallyStopped := true)]);
        AddTask(cfg, flagged, Event(Completed, t.(state := Completed, manuallyStopped := true)), extrasOk)
  }

  // ---- dispatch ----

  datatype Call = Call(event: Event, worker: Address, reserved: bool)

  datatype Prepared<C> = Done(m: MState) | Posted(m: MState, call: C)

  function StartCall(t: Task, w: Address): Call {
    Call(Event(Scheduled, t.(state := Scheduled)), w, true)
  }

  const PORTS_TAKEN := "host ports on the assigned worker are reserved by another task"
  const UNSCHEDULABLE := "no available worker to schedule task"
  const REJECTED := "worker rejected task"

  /** SendWork up to the POST. */
  function PrepareDispatch(cfg: Config, m: MState, c: Cluster, now: Instant): Prepared<Call> {
    if m.pending == [] then Done(m)
    else
      var e := m.pending[0];
      var t := e.task;
      var m1 := m.(pending := m.pending[1..]);
      var owner := Owner(m, t.id);
      if owner != "" then
        if owner !in cfg.nodes then Done(Enqueue(m1, e))
        else if IsStop(e) then Posted(m1, Call(e, owner, false))
        else if Conflicts(m.table, owner, t, true) then Done(MarkFailed(cfg, m1, t.id, t.restartCount, PORTS_TAKEN, now))
        else Posted(m1.(table := Reserved(m.table, owner, t)), StartCall(t, owner))
      else if IsStop(e) then
        Done(if t.id in m.tasks then DeleteTask(m1, m.tasks[t.id]) else m1)
      else if t.id !in m.tasks then Done(m1)
      else Place(cfg, m1, e, c, now)
  }

  /** The start of a task that no worker owns. */
  function Place(cfg: Config, m: MState, e: Event, c: Cluster, now: Instant): Prepared<Call> {
    var (choice, table) := Select(cfg.nodes, m.table, e.task, "", c);
    match choice
    case Chosen(w) => Posted(m.(table := table), StartCall(e.task, w))
    case Transient => Done(Enqueue(m, e))
    case Unplaceable => Done(StopTerminal(m, e.task, UNSCHEDULABLE, now))
  }

  /** The two manager writes of a commit and the compensation of a failed one. */
  function CommitWrites(m: MState, t: Task, w: Address, f: Faults): (MState, bool) {
    if f.putOwner then (m, false)
    else if !f.putTask then (m.(owners := m.owners[t.id := w], tasks := m.tasks[t.id := t]), true)
    else if f.restoreOwner then (m.(owners := m.owners[t.id := w]), false)
    else (m, false)
  }

  /** The task a rollback stops: the worker's echo, or ours if the echo is not of this task. */
  function CleanupTask(echo: Task, t: Task): Task {
    if echo.id == t.id then echo else t
  }

  function Rollback(m: MState, w: Address, t: Task, cleanup: Task, reserved: bool): MState {
    BestEffortStop(if reserved then ReleaseOn(m, w, t) else m, w, cleanup)
  }

  function CommitDispatch(m: MState, call: Call, echo: Task, f: Faults): MState {
    var t := call.event.task;
    var cleanup := CleanupTask(echo, t);
    if f.readTask then Enqueue(Rollback(m, call.worker, t, cleanup, call.reserved), call.event)
    else if t.id !in m.tasks then Rollback(m, call.worker, t, cleanup, call.reserved)
    else if f.readOwner then Enqueue(Rollback(m, call.worker, t, cleanup, call.reserved), call.event)
    else
      var (m', committed) := CommitWrites(m, t, call.worker, f);
      if committed then m'
      else Enqueue(Rollback(m', call.worker, t, cleanup, call.reserved), call.event)
  }

  /** SendWork from the worker's answer on. */
  function FinishDispatch(cfg: Config, m: MState, call: Call, reply: Reply, f: Faults, now: Instant): MState {
    var t := call.event.task;
    var w := call.worker;
    var freed := if call.reserved then ReleaseOn(m, w, t) else m;
    match reply
    case Unreached => Enqueue(freed, call.event)
    case Status(code, echo) =>
      if IsStop(call.event) then
        if code == NOT_FOUND || code == CREATED then ReleaseOn(m, w, t) else freed
      else if code == CREATED then CommitDispatch(m, call, echo, f)
      else MarkFailed(cfg, freed, t.id, t.restartCount + 1, REJECTED, now)
  }

  function SendWork(cfg: Config, m: MState, env: Env): MState {
    match PrepareDispatch(cfg, m, env.cluster, env.now)
    case Done(m') => m'
    case Posted(m', call) => FinishDispatch(cfg, m', call, env.reply, NO_FAULTS, env.now)
  }

  // ---- restart ----

  datatype Restart = Restart(prev: Task, next: Task, worker: Address)

  const CANNOT_RESTART_YET := "cannot restart yet"
  const NO_WORKER := "no available worker to restart"
  const UNREACHED_RESTART := "could not reach worker to restart"
  const REJECTED_RESTART := "worker rejected restart"

  function NextAttempt(t: Task): Task {
    t.(state := Scheduled, restartCount := t.restartCount + 1, failureReason := "", startTime := 0, finishTime := 0)
  }

  /** restartTask up to the POST. */
  function PrepareRestart(cfg: Config, m: MState, t: Task, c: Cluster, now: Instant): Prepared<Restart> {
    var owner := Owner(m, t.id);
    var next := NextAttempt(t);
    var (choice, table) := Select(cfg.nodes, m.table, next, owner, c);
    match choice
    case Transient => Done(MarkFailed(cfg, m, t.id, t.restartCount, CANNOT_RESTART_YET, now))
    case Unplaceable => Done(StopTerminal(m, t, NO_WORKER, now))
    case Chosen(w) =>
      var moved := if owner == "" || w != owner then next.(containerId := "", hostPorts := []) else next;
      Posted(m.(table := table), Restart(t, moved, w))
  }

  function UndoRestart(m: MState, r: Restart, echo: Task): MState {
    Rollback(m, r.worker, r.next, CleanupTask(echo, r.next), true)
  }

  function CommitRestart(m: MState, r: Restart, echo: Task, f: Faults): MState {
    var id := r.prev.id;
    if f.readTask || id !in m.tasks || m.tasks[id].manuallyStopped || f.readOwner then UndoRestart(m, r, echo)
    else
      var (m', committed) := CommitWrites(m, r.next, r.worker, f);
      if committed then LeaveOldOwner(m', r, Owner(m, id)) else UndoRestart(m', r, echo)
  }

  /** After a relocation the previous owner gives up the ports and is asked to stop the old container. */
  function LeaveOldOwner(m: MState, r: Restart, oldOwner: Address): MState {
    if oldOwner == "" || oldOwner == r.worker then m
    else StopOldContainer(ReleaseOn(m, oldOwner, r.prev), oldOwner, r.prev)
  }

  /** restartTask from the worker's answer on. */
  function FinishRestart(cfg: Config, m: MState, r: Restart, reply: Reply, f: Faults, now: Instant): MState {
    var freed := ReleaseOn(m, r.worker, r.next);
    match reply
    case Unreached => MarkFailed(cfg, freed, r.prev.id, r.prev.restartCount, UNREACHED_RESTART, now)
    case Status(code, echo) =>
      if code == CREATED then CommitRestart(m, r, echo, f)
      else MarkFailed(cfg, freed, r.prev.id, r.prev.restartCount + 1, REJECTED_RESTART, now)
  }

  function RestartTask(cfg: Config, m: MState, t: Task, env: Env): MState {
    match PrepareRestart(cfg, m, t, env.cluster, env.now)
    case Done(m') => m'
    case Posted(m', r) => FinishRestart(cfg, m', r, env.reply, NO_FAULTS, env.now)
  }

  // ---- the policy decisions ----

  datatype Verdict = Leave | Terminate(reason: string) | Retry

  const POLICY_FORBIDS := "restart policy does not permit a restart"
  const CAP_REACHED := "restart cap reached"
  const UNHEALTHY := "health check failed"

  /** One iteration of restartFailedTasks. */
  function JudgeStopped(cfg: Config, t: Task, now: Instant): Verdict {
    match t.state
    case Failed =>
      if t.manuallyStopped || t.IsTerminal() then Leave
      else if !ShouldRestart(t.policy) then Terminate(POLICY_FORBIDS)
      else if t.AtRestartCap(cfg.maxRestarts) then Terminate(if t.failureReason == "" then CAP_REACHED else t.failureReason)
      else if now < t.nextRetryAt then Leave
      else Retry
    case Completed =>
      if t.manuallyStopped || !ShouldRestartOnSuccess(t.policy) || t.AtRestartCap(cfg.maxRestarts) || now < t.nextRetryAt
      then Leave
      else Retry
    case _ => Leave
  }

  /** What a health checker does once its consecutive failures reach the threshold. */
  function JudgeUnhealthy(cfg: Config, t: Task, now: Instant): Verdict {
    if !t.state.Running? then Leave
    else if t.AtRestartCap(cfg.maxRestarts) || !ShouldRestart(t.policy) then Terminate(UNHEALTHY)
    else if now < t.nextRetryAt then Leave
    else Retry
  }

  function Carry(cfg: Config, m: MState, t: Task, v: Verdict, env: Env): MState {
    match v
    case Leave => m
    case Terminate(reason) => StopTerminal(m, t, reason, env.now)
    case Retry => RestartTask(cfg, m, t, env)
  }

  // ---- worker reports and startup ----

  function Report(cfg: Config, m: MState, w: Address, r: Task, now: Instant): MState {
    if r.id !in m.tasks then m.(sent := m.sent + [ForgetMessage(w, r.id)])
    else m.(tasks := m.tasks[r.id := Fold(cfg.delays, m.tasks[r.id], r, now)])
  }

  /** One record of the startup scan. */
  function Recover(m: MState, id: Id): MState {
    if id !in m.tasks then m
    else
      var t := m.tasks[id];
      match t.state
      case Pending => Enqueue(m, Event(Scheduled, t))
      case Running => Reclaim(m, t)
      case Scheduled => Reclaim(m, t)
      case _ => m
  }

  function Reclaim(m: MState, t: Task): MState {
    var owner := Owner(m, t.id);
    if owner == "" || Conflicts(m.table, owner, t, true) then m
    else m.(table := Reserved(m.table, owner, t))
  }

  function RecoverAll(m: MState, ids: seq<Id>): MState
    decreases |ids|
  {
    if ids == [] then m else Recover(RecoverAll(m, ids[..|ids| - 1]), ids[|ids| - 1])
  }

  function Sweep(m: MState): MState {
    m.(owners := map id | id in m.owners && id in m.tasks :: m.owners[id])
  }

  /** reconcileOnStartup on what survived a crash: the queue and the table start empty, and the
      records are scanned in key order. No checker is running yet. */
  ghost function Reconcile(m: MState): MState {
    Sweep(RecoverAll(m.(table := map[], pending := [], watched := {}), Ascending(m.tasks.Keys)))
  }

  // ---- health checkers ----

  /** A pass of reconcileCheckers starts a checker for a listed record it manages, changed or deleted since
      or not, and the checker ends at once unless the task has an owner. */
  predicate CanWatch(m: MState, listed: Task) {
    Managed(listed) && Owner(m, listed.id) != ""
  }

  function Watch(m: MState, listed: Task): MState {
    if CanWatch(m, listed) then m.(watched := m.watched + {listed.id}) else m
  }

  function Unwatch(m: MState, id: Id): MState {
    m.(watched := m.watched - {id})
  }

  /** A checker that reaches its failure threshold acts once and ends. */
  function Unhealthy(cfg: Config, m: MState, id: Id, env: Env): MState {
    if id !in m.watched then m
    else if id !in m.tasks then Unwatch(m, id)
    else Unwatch(Carry(cfg, m, m.tasks[id], JudgeUnhealthy(cfg, m.tasks[id], env.now), env), id)
  }

  // ---- runs ----

  datatype Step =
    | Submit(event: Event, extrasOk: bool)
    | AskStop(id: Id, extrasOk: bool)
    | Dispatch(env: Env)
    | Check(id: Id, passNow: Instant, env: Env)
    | StartChecker(listed: Task)
    | StopChecker(id: Id)
    | HealthVerdict(id: Id, env: Env)
    | Reported(worker: Address, report: Task, now: Instant)
    | Reboot(owners: map<Id, Address>)  // the assignments that survived the crash, whatever they are

  ghost function Apply(cfg: Config, m: MState, st: Step): MState {
    match st
    case Submit(e, ok) => AddTask(cfg, m, e, ok)
    case AskStop(id, ok) => StopRequest(cfg, m, id, ok)
    case Dispatch(env) => SendWork(cfg, m, env)
    case Check(id, now, env) =>
      if id in m.tasks then Carry(cfg, m, m.tasks[id], JudgeStopped(cfg, m.tasks[id], now), env) else m
    case StartChecker(listed) => Watch(m, listed)
    case StopChecker(id) => Unwatch(m, id)
    case HealthVerdict(id, env) => Unhealthy(cfg, m, id, env)
    case Reported(w, r, now) => Report(cfg, m, w, r, now)
    case Reboot(owners) => Reconcile(m.(owners := owners))
  }

  ghost function Run(cfg: Config, m: MState, steps: seq<Step>): MState
    decreases |steps|
  {
    if steps == [] then m else Run(cfg, Apply(cfg, m, steps[0]), steps[1..])
  }

  lemma {:induction false} RunSnoc(cfg: Config, m: MState, steps: seq<Step>, st: Step)
    ensures Run(cfg, m, steps + [st]) == Apply(cfg, Run(cfg, m, steps), st)
    decreases |steps|
  {
    if steps == [] {
      assert Run(cfg, Apply(cfg, m, st), []) == Apply(cfg, m, st);
    } else {
      assert (steps + [st])[1..] == steps[1..] + [st];
      RunSnoc(cfg, Apply(cfg, m, steps[0]), steps[1..], st);
    }
  }

  lemma RunNext(cfg: Config, m: MState, steps: seq<Step>, i: nat)
    requires i < |steps|
    ensures Run(cfg, m, steps[..i + 1]) == Apply(cfg, Run(cfg, m, steps[..i]), steps[i])
  {
    assert steps[..i + 1] == steps[..i] + [steps[i]];
    RunSnoc(cfg, m, steps[..i], steps[i]);
  }

  lemma RunFirst(cfg: Config, m: MState, steps: seq<Step>)
    requires steps != []
    ensures Run(cfg, m, steps[..1]) == Apply(cfg, m, steps[0])
  {
    assert steps[..0] == [];
    RunNext(cfg, m, steps, 0);
  }

  lemma RunLast(cfg: Config, m: MState, steps: seq<Step>)
    requires steps != []
    ensures Run(cfg, m, steps) == Apply(cfg, Run(cfg, m, steps[..|steps| - 1]), steps[|steps| - 1])
  {
    assert steps[..|steps|] == steps;
    RunNext(cfg, m, steps, |steps| - 1);
  }
}
