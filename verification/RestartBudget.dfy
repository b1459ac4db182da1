/** How often a task can be restarted over a whole run. */
module RestartBudget {
  import opened Base
  import opened Tasks
  import opened Ports
  import opened Reservations
  import opened Placement
  import opened ManagerModel
  import opened ManagerSafety
  import opened ManagerStartup

  datatype Outcome = NotPosted | NoAnswer | Refused | Cancelled | Committed

  /** How one restartTask call ends, read off the worker's answer. */
  function RestartOutcome(cfg: Config, m: MState, t: Task, env: Env): Outcome {
    match PrepareRestart(cfg, m, t, env.cluster, env.now)
    case Done(_) => NotPosted
    case Posted(_, _) =>
      match env.reply
      case Unreached => NoAnswer
      case Status(code, _) => if code != CREATED then Refused else if t.manuallyStopped then Cancelled else Committed
  }

  /** The verdict a step passes on task `id`; only the two restart paths pass any. */
  function VerdictOn(cfg: Config, m: MState, st: Step, id: Id): Verdict
    requires id in m.tasks
  {
    match st
    case Check(i, now, _) => if i == id then JudgeStopped(cfg, m.tasks[id], now) else Leave
    case HealthVerdict(i, env) => if i == id && id in m.watched then JudgeUnhealthy(cfg, m.tasks[id], env.now) else Leave
    case _ => Leave
  }

  /** 1 when the step commits a restart of `id` or has one rejected by the worker. */
  function Burns(cfg: Config, m: MState, st: Step, id: Id): nat
    requires id in m.tasks
  {
    if VerdictOn(cfg, m, st, id) == Retry && RestartOutcome(cfg, m, m.tasks[id], st.env) in {Committed, Refused} then 1 else 0
  }

  /** The task exists after every step of the run, so it is the same task throughout. */
  ghost predicate LivesThrough(cfg: Config, m: MState, steps: seq<Step>, id: Id)
    decreases |steps|
  {
    id in m.tasks && (steps != [] ==> LivesThrough(cfg, Apply(cfg, m, steps[0]), steps[1..], id))
  }

  ghost function Burned(cfg: Config, m: MState, steps: seq<Step>, id: Id): nat
    requires LivesThrough(cfg, m, steps, id)
    decreases |steps|
  {
    if steps == [] then 0
    else Burns(cfg, m, steps[0], id) + Burned(cfg, Apply(cfg, m, steps[0]), steps[1..], id)
  }

  /** No start of the task is waiting any more. */
  ghost predicate Dispatched(m: MState, id: Id) {
    id in m.tasks && !m.tasks[id].state.Pending? && Starts(m.pending, id) == 0
  }

  function Remaining(cfg: Config, t: Task): nat {
    var left := t.EffectiveMaxRestarts(cfg.maxRestarts) - t.restartCount;
    if left < 0 then 0 else left
  }

  // ---- one step ----

  /** A step about another task leaves this one alone. */
  ghost predicate Untouched(m: MState, m': MState, id: Id) {
    id in m.tasks && id in m'.tasks && m'.tasks[id] == m.tasks[id] && Starts(m'.pending, id) == Starts(m.pending, id)
  }

  lemma DeleteUntouched(m: MState, t: Task, id: Id)
    requires id in m.tasks && t.id != id
    ensures Untouched(m, DeleteTask(m, t), id)
  {
    StartsAfterPurge(m.pending, t.id, id);
  }

  /** Only record `id` may differ; no queue and no other record has moved. */
  ghost predicate OnlyRecord(m: MState, m': MState, id: Id) {
    && m'.pending == m.pending && m'.tasks.Keys == m.tasks.Keys && id in m.tasks
    && (forall x :: x in m.tasks && x != id ==> m'.tasks[x] == m.tasks[x])
  }

  /** The record of the task being restarted: its cap and policy, its count, and never Pending again. */
  ghost predicate Recounted(m': MState, t: Task, spent: int) {
    && t.id in m'.tasks && m'.tasks[t.id].id == t.id
    && m'.tasks[t.id].restartCount == t.restartCount + spent
    && m'.tasks[t.id].maxRestarts == t.maxRestarts && m'.tasks[t.id].policy == t.policy
    && (m'.tasks[t.id].state.Pending? ==> t.state.Pending?)
  }

  lemma FinishRestartCounts(cfg: Config, m: MState, r: Restart, env: Env)
    requires r.prev.id in m.tasks && r.prev == m.tasks[r.prev.id] && r.next.id == r.prev.id
    requires r.next.restartCount == r.prev.restartCount + 1 && r.next.maxRestarts == r.prev.maxRestarts
    requires r.next.policy == r.prev.policy && r.next.state.Scheduled?
    ensures var m' := FinishRestart(cfg, m, r, env.reply, NO_FAULTS, env.now);
            && OnlyRecord(m, m', r.prev.id)
            && Recounted(m', r.prev, if env.reply.Status? && (env.reply.code != CREATED || !r.prev.manuallyStopped) then 1 else 0)
  {
  }

  /** Restarting a task changes no other record and no queue, and its own count moves by what it burnt. */
  lemma RestartCounts(cfg: Config, m: MState, t: Task, env: Env)
    requires t.id in m.tasks && m.tasks[t.id] == t
    ensures var m' := RestartTask(cfg, m, t, env);
            && OnlyRecord(m, m', t.id)
            && Recounted(m', t, if RestartOutcome(cfg, m, t, env) in {Committed, Refused} then 1 else 0)
  {
    match PrepareRestart(cfg, m, t, env.cluster, env.now) {
      case Done(m') =>
      case Posted(m', r) => FinishRestartCounts(cfg, m', r, env);
    }
  }

  /** Judging one task rewrites no other record, which is why a snapshot is enough. */
  lemma CarryIsLocal(cfg: Config, m: MState, t: Task, v: Verdict, env: Env)
    requires t.id in m.tasks && m.tasks[t.id] == t
    ensures var m' := Carry(cfg, m, t, v, env);
            m'.tasks.Keys == m.tasks.Keys && m'.tasks[t.id].id == t.id &&
            forall id :: id in m.tasks && id != t.id ==> m'.tasks[id] == m.tasks[id]
  {
    match v {
      case Leave =>
      case Terminate(reason) => assert Carry(cfg, m, t, v, env).tasks == StopTerminal(m, t, reason, env.now).tasks;
      case Retry => RestartCounts(cfg, m, t, env);
    }
  }

  lemma CarryCounts(cfg: Config, m: MState, t: Task, v: Verdict, env: Env, id: Id)
    requires t.id in m.tasks && m.tasks[t.id] == t && Dispatched(m, id)
    ensures var m' := Carry(cfg, m, t, v, env);
            && Dispatched(m', id)
            && m'.tasks[id].maxRestarts == m.tasks[id].maxRestarts && m'.tasks[id].policy == m.tasks[id].policy
            && m'.tasks[id].restartCount == m.tasks[id].restartCount +
               (if id == t.id && v == Retry && RestartOutcome(cfg, m, t, env) in {Committed, Refused} then 1 else 0)
  {
    if v == Retry { RestartCounts(cfg, m, t, env); }
  }

  lemma DispatchUntouched(cfg: Config, m: MState, env: Env, id: Id)
    requires Inv(cfg, m) && ConfigOk(cfg) && Dispatched(m, id)
    requires id in SendWork(cfg, m, env).tasks
    ensures Untouched(m, SendWork(cfg, m, env), id)
  {
    if m.pending != [] {
      StartsHead(m.pending, id);
      if IsStop(m.pending[0]) { StopUntouched(cfg, m, env, id); } else { StartUntouched(cfg, m, env, id); }
    }
  }

  /** The head of the queue starts another task. */
  lemma StartUntouched(cfg: Config, m: MState, env: Env, id: Id)
    requires m.pending != [] && !IsStop(m.pending[0]) && m.pending[0].task.id != id
    requires id in m.tasks && Starts(Dequeued(m).pending, id) == Starts(m.pending, id)
    ensures Untouched(m, SendWork(cfg, m, env), id)
  {
    var e := m.pending[0];
    StartsAppend(Dequeued(m).pending, e, id);
    match PrepareDispatch(cfg, m, env.cluster, env.now) {
      case Done(_) =>
      case Posted(m', call) =>
        PostedStart(cfg, m, env.cluster, env.now);
        FinishUntouched(cfg, m', call, env, id);
    }
  }

  lemma StopUntouched(cfg: Config, m: MState, env: Env, id: Id)
    requires m.pending != [] && IsStop(m.pending[0]) && Keyed(m.tasks)
    requires id in m.tasks && Starts(Dequeued(m).pending, id) == Starts(m.pending, id)
    requires id in SendWork(cfg, m, env).tasks
    ensures Untouched(m, SendWork(cfg, m, env), id)
  {
    var e := m.pending[0];
    var t := e.task;
    StartsAppend(Dequeued(m).pending, e, id);
    if Owner(m, t.id) == "" && t.id in m.tasks && t.id != id { DeleteUntouched(Dequeued(m), m.tasks[t.id], id); }
  }

  lemma FinishUntouched(cfg: Config, m: MState, call: Call, env: Env, id: Id)
    requires id in m.tasks && call.event.task.id != id
    ensures Untouched(m, FinishDispatch(cfg, m, call, env.reply, NO_FAULTS, env.now), id)
  {
  }

  lemma SubmitUntouched(cfg: Config, m: MState, e: Event, extrasOk: bool, id: Id)
    requires Dispatched(m, id)
    ensures Untouched(m, AddTask(cfg, m, e, extrasOk), id)
  {
  }

  lemma AskStopCounts(cfg: Config, m: MState, i: Id, extrasOk: bool, id: Id)
    requires Inv(cfg, m) && Dispatched(m, id) && id in StopRequest(cfg, m, i, extrasOk).tasks
    ensures var m' := StopRequest(cfg, m, i, extrasOk);
            && Dispatched(m', id)
            && m'.tasks[id].maxRestarts == m.tasks[id].maxRestarts && m'.tasks[id].policy == m.tasks[id].policy
            && m'.tasks[id].restartCount == m.tasks[id].restartCount
  {
    if i in m.tasks {
      var t := m.tasks[i];
      if StopDeletes(cfg, m, t) {
        if i != id { DeleteUntouched(m, t, id); }
      } else {
        var flagged := m.(tasks := m.tasks[i := t.(manuallyStopped := true)]);
        SubmitUntouched(cfg, flagged, Event(Completed, t.(state := Completed, manuallyStopped := true)), extrasOk, id);
      }
    }
  }

  /** The record of `id` after a step that burnt `spent`. */
  ghost predicate Accounts(m: MState, m': MState, id: Id, spent: nat) {
    && Dispatched(m, id) && Dispatched(m', id)
    && m'.tasks[id].maxRestarts == m.tasks[id].maxRestarts && m'.tasks[id].policy == m.tasks[id].policy
    && m'.tasks[id].restartCount == m.tasks[id].restartCount + spent
  }

  lemma ReportCounts(cfg: Config, m: MState, w: Address, r: Task, now: Instant, id: Id)
    requires Dispatched(m, id) && !r.state.Pending?
    ensures Accounts(m, Report(cfg, m, w, r, now), id, 0)
  {
  }

  lemma RebootCounts(m: MState, owners: map<Id, Address>, id: Id)
    requires Keyed(m.tasks) && Dispatched(m, id)
    ensures Accounts(m, Reconcile(m.(owners := owners)), id, 0)
  {
    var m0 := m.(owners := owners);
    ScanKeepsStores(m0, Ascending(m.tasks.Keys));
    AscendingIsSorted(m.tasks.Keys);
    ScanQueues(m0, Ascending(m.tasks.Keys));
  }

  lemma VerdictAccounts(cfg: Config, m: MState, st: Step, id: Id)
    requires Keyed(m.tasks) && Dispatched(m, id) && (st.Check? || st.HealthVerdict?)
    ensures Accounts(m, Apply(cfg, m, st), id, Burns(cfg, m, st, id))
  {
    if st.id in m.tasks {
      var t := m.tasks[st.id];
      CarryCounts(cfg, m, t, if st.Check? then JudgeStopped(cfg, t, st.passNow) else JudgeUnhealthy(cfg, t, st.env.now), st.env, id);
    }
  }

  /** Every step keeps cap and policy, and raises the count by exactly what it burns. */
  lemma StepAccounts(cfg: Config, m: MState, st: Step, id: Id)
    requires Inv(cfg, m) && ConfigOk(cfg) && StepOk(st) && Dispatched(m, id)
    requires id in Apply(cfg, m, st).tasks
    ensures Accounts(m, Apply(cfg, m, st), id, Burns(cfg, m, st, id))
  {
    match st {
      case Submit(e, ok) => SubmitUntouched(cfg, m, e, ok, id);
      case AskStop(i, ok) => AskStopCounts(cfg, m, i, ok, id);
      case Dispatch(env) => DispatchUntouched(cfg, m, env, id);
      case Check(_, _, _) => VerdictAccounts(cfg, m, st, id);
      case HealthVerdict(_, _) => VerdictAccounts(cfg, m, st, id);
      case Reported(w, r, now) => ReportCounts(cfg, m, w, r, now, id);
      case StartChecker(_) =>
      case StopChecker(_) =>
      case Reboot(owners) => RebootCounts(m, owners, id);
    }
  }

  /** Both restart paths stop at the cap. */
  lemma BurnsBelowCap(cfg: Config, m: MState, st: Step, id: Id)
    requires id in m.tasks && Burns(cfg, m, st, id) > 0
    ensures Remaining(cfg, m.tasks[id]) > 0
  {
  }

  // ---- whole runs ----

  /** Once dispatched, a task's count never falls over any run through both restart paths, stops,
      reports and crashes, it equals its old value plus the restarts committed or rejected since, and
      those never exceed what the cap left. */
  lemma {:induction false} RestartsBounded(cfg: Config, m: MState, steps: seq<Step>, id: Id)
    requires Inv(cfg, m) && ConfigOk(cfg) && Dispatched(m, id)
    requires forall i :: 0 <= i < |steps| ==> StepOk(steps[i])
    requires LivesThrough(cfg, m, steps, id)
    ensures id in Run(cfg, m, steps).tasks
    ensures Run(cfg, m, steps).tasks[id].restartCount == m.tasks[id].restartCount + Burned(cfg, m, steps, id)
    ensures Burned(cfg, m, steps, id) <= Remaining(cfg, m.tasks[id])
    decreases |steps|
  {
    if steps != [] {
      StepAccounts(cfg, m, steps[0], id);
      if Burns(cfg, m, steps[0], id) > 0 { BurnsBelowCap(cfg, m, steps[0], id); }
      StepKeepsInv(cfg, m, steps[0]);
      RestartsBounded(cfg, Apply(cfg, m, steps[0]), steps[1..], id);
    }
  }

  /** The hypothesis of the bound: a committed dispatch takes the only start off the queue, records
      the task as Scheduled on the worker that accepted it, and keeps its restart count. */
  lemma CommittedDispatchIsDispatched(cfg: Config, m: MState, env: Env)
    requires Inv(cfg, m) && ConfigOk(cfg) && m.pending != [] && !IsStop(m.pending[0])
    requires PrepareDispatch(cfg, m, env.cluster, env.now).Posted? && env.reply.Status? && env.reply.code == CREATED
    ensures var t := m.pending[0].task;
            var m' := SendWork(cfg, m, env);
            && Dispatched(m', t.id) && m'.tasks[t.id] == t.(state := Scheduled)
            && Owner(m', t.id) == PrepareDispatch(cfg, m, env.cluster, env.now).call.worker
            && Owns(m'.table, Owner(m', t.id), t)
  {
    var t := m.pending[0].task;
    PostedStart(cfg, m, env.cluster, env.now);
    StartsHead(m.pending, t.id);
    var Posted(m1, call) := PrepareDispatch(cfg, m, env.cluster, env.now);
    forall k | k in KeySet(t.ports) ensures Holder(m1.table, call.worker, k) == Some(t.id) {
      ReservedEntry(m.table, call.worker, t, call.worker, k);
    }
  }
}
