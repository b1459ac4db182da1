/** The manager as an object: stores, queue and reservation table updated in place, each operation
    proved against its step of the control plane (manager/records.go, dispatch.go, restart.go,
    handlers.go, worker_sync.go, manager.go). */
module Managers {
  import opened Base
  import opened Tasks
  import opened Ports
  import opened Backoff
  import opened Queues
  import opened Stores
  import opened Reservations
  import opened Placement
  import opened ManagerModel
  import opened Checkers
  import opened References
  import ManagerSafety
  import RestartBudget

  class Manager {
    const cfg: Config
    var taskDb: map<Id, Task>
    var assignments: map<Id, Address>
    const reservations: ReservationTable
    const pending: Queue<Event>
    // every stop and forget request sent to a worker, in order
    var sent: seq<Message>
    // the tasks whose health checker has found an owner and not ended yet
    var watched: set<Id>

    ghost predicate Valid()
      reads this, pending, pending.buf
    {
      pending.Valid()
    }

    ghost function Model(): MState
      reads this, reservations, pending, pending.buf
      requires Valid()
    {
      MState(taskDb, assignments, reservations.byWorker, pending.Contents(), sent, watched)
    }

    constructor (cfg: Config, reservations: ReservationTable, pending: Queue<Event>,
                 taskDb: map<Id, Task>, assignments: map<Id, Address>)
      requires pending.Valid()
      ensures this.cfg == cfg && this.reservations == reservations && this.pending == pending
      ensures Valid()
      ensures Model() == MState(taskDb, assignments, reservations.byWorker, pending.Contents(), [], {})
    {
      this.cfg, this.reservations, this.pending := cfg, reservations, pending;
      this.taskDb, this.assignments := taskDb, assignments;
      sent, watched := [], {};
    }

    // ---- small operations ----

    method TaskWorker(id: Id) returns (w: Address)
      requires Valid()
      ensures w == Owner(Model(), id)
    {
      w := if id in assignments then assignments[id] else "";
    }

    method EnqueuePending(e: Event)
      requires Valid()
      modifies pending, pending.buf
      ensures Valid() && (pending.buf == old(pending.buf) || fresh(pending.buf))
      ensures Model() == Enqueue(old(Model()), e)
    {
      pending.Enqueue(e);
    }

    method Release(w: Address, t: Task)
      requires Valid()
      modifies reservations
      ensures Valid() && Model() == ReleaseOn(old(Model()), w, t)
    {
      reservations.Release(w, t);
    }

    method MarkFailed(id: Id, restartCount: int, reason: string, now: Instant)
      requires Valid()
      modifies this`taskDb
      ensures Valid() && Model() == ManagerModel.MarkFailed(cfg, old(Model()), id, restartCount, reason, now)
    {
      if id !in taskDb {
        return;
      }
      var backoff := RestartBackoff(cfg.delays.base, cfg.delays.max, restartCount);
      var updated := taskDb[id];
      updated := updated.(state := Failed, restartCount := restartCount, failureReason := reason);
      updated := updated.(finishTime := 0, nextRetryAt := now + backoff);
      taskDb := taskDb[id := updated];
    }

    method BestEffortStopWorkerTask(w: Address, t: Task)
      requires Valid()
      modifies this`sent
      ensures Valid() && Model() == BestEffortStop(old(Model()), w, t)
    {
      if w == "" || t.id == NIL_ID {
        return;
      }
      sent := sent + [StopMessage(w, t.(state := Completed))];
    }

    method StopTaskTerminal(t: Task, reason: string, now: Instant)
      requires Valid()
      modifies this`taskDb, this`sent, reservations
      ensures Valid() && Model() == StopTerminal(old(Model()), t, reason, now)
    {
      var w := TaskWorker(t.id);
      var dead := t.(state := Failed, failureReason := reason, finishTime := now);
      taskDb := taskDb[t.id := dead];
      Release(w, dead);
      if w == "" {
        return;
      }
      sent := sent + [StopMessage(w, dead.(state := Completed))];
    }

    /** Record, assignment, queued events and reservations all go together. */
    method DeleteTask(t: Task)
      requires Valid()
      modifies this, reservations, pending, pending.buf
      ensures Valid() && pending.buf == old(pending.buf)
      ensures Model() == ManagerModel.DeleteTask(old(Model()), t)
    {
      taskDb := taskDb - {t.id};
      var owner := TaskWorker(t.id);
      assignments := assignments - {t.id};
      var _ := pending.RemoveAllFunc(EventNames(t.id));
      if owner != "" {
        Release(owner, t);
        if t.state.Failed? && t.containerId != "" {
          BestEffortStopWorkerTask(owner, t);
        }
      }
    }

    // ---- reading ----

    /** A snapshot of the records in key order. */
    method GetTasks() returns (tasks: seq<Task>)
      ensures tasks == Listed(taskDb)
    {
      var ids := KeysInOrder(taskDb.Keys);
      AscendingIsSorted(taskDb.Keys);
      tasks := [];
      for i := 0 to |ids|
        invariant |tasks| == i && forall j :: 0 <= j < i ==> ids[j] in taskDb && tasks[j] == taskDb[ids[j]]
      {
        assert ids[i] in ids;
        tasks := tasks + [taskDb[ids[i]]];
      }
    }

    /** In every state with the invariant, the name a record holds and the text of its id both resolve
        to exactly that record, and no non-empty reference is ambiguous. */
    method ResolveTask(ref: string) returns (match_: Option<Task>, found: bool, ambiguous: bool)
      requires Valid() && ManagerSafety.Inv(cfg, Model()) && ref != ""
      ensures !ambiguous
      ensures forall id :: id in taskDb && (taskDb[id].name == ref || cfg.parse(ref) == Some(id)) ==>
                found && match_ == Some(taskDb[id])
      ensures found ==> match_.Some? && match_.value in taskDb.Values
    {
      var tasks := GetTasks();
      match_, found, ambiguous := References.ResolveRef(tasks, ref, cfg.parse);
      forall id | id in taskDb && (taskDb[id].name == ref || cfg.parse(ref) == Some(id))
        ensures found && match_ == Some(taskDb[id])
      {
        HeldRefResolves(cfg, Model(), id, ref);
        ResolvedIsMatch(tasks, ref, cfg.parse, taskDb[id], match_, found);
      }
      NeverAmbiguous(cfg, Model(), ref);
      if found { ListedInValues(taskDb, match_.value); }
    }

    // ---- accepting work ----

    method TaskNameInUse(name: string) returns (clash: bool)
      ensures clash <==> HoldsName(taskDb, name)
    {
      var rest := taskDb.Keys;
      while rest != {}
        invariant rest <= taskDb.Keys
        invariant forall id :: id in taskDb && id !in rest ==> taskDb[id].name != name
        decreases rest
      {
        var id :| id in rest;
        if taskDb[id].name == name {
          return true;
        }
        rest := rest - {id};
      }
      return false;
    }

    method AddTask(e: Event, extrasOk: bool) returns (refusal: Option<Refusal>)
      requires Valid()
      modifies this`taskDb, pending, pending.buf
      ensures Valid() && (pending.buf == old(pending.buf) || fresh(pending.buf))
      ensures refusal == Refuses(cfg, old(Model()), e, extrasOk)
      ensures Model() == ManagerModel.AddTask(cfg, old(Model()), e, extrasOk)
    {
      var t := e.task;
      var portError := ValidatePortMappings(t.ports);
      if portError.Some? || !ValidPolicy(t.policy) || !extrasOk || t.timeout < 0 || t.maxRestarts < 0 {
        return Some(InvalidTask);
      }
      if !IsStop(e) {
        if t.id in taskDb {
          return Some(AlreadyExists);
        }
        if t.name != "" {
          if cfg.parse(t.name).Some? {
            return Some(NameIsUuid);
          }
          var clash := TaskNameInUse(t.name);
          if clash {
            return Some(NameInUse);
          }
        }
        taskDb := taskDb[t.id := t.(state := Pending)];
      }
      EnqueuePending(e);
      return None;
    }

    /** The decision of StopTaskHandler once the task is resolved. */
    method StopTask(id: Id, extrasOk: bool)
      requires Valid()
      modifies this, reservations, pending, pending.buf
      ensures Valid() && (pending.buf == old(pending.buf) || fresh(pending.buf))
      ensures Model() == StopRequest(cfg, old(Model()), id, extrasOk)
    {
      if id !in taskDb {
        return;
      }
      var t := taskDb[id];
      var owner := TaskWorker(t.id);
      if t.state.Pending? || t.state.Completed? || owner == "" ||
         (t.state.Failed? && (t.AtRestartCap(cfg.maxRestarts) || t.IsTerminal())) {
        DeleteTask(t);
        return;
      }
      taskDb := taskDb[id := t.(manuallyStopped := true)];
      var _ := AddTask(Event(Completed, t.(state := Completed, manuallyStopped := true)), extrasOk);
    }

    // ---- dispatch ----

    /** SendWork up to the POST; None when there is nothing to post. */
    method PrepareDispatch(c: Cluster, now: Instant) returns (call: Option<Call>)
      requires Valid()
      modifies this, reservations, pending, pending.buf
      ensures Valid() && (pending.buf == old(pending.buf) || fresh(pending.buf))
      ensures var spec := ManagerModel.PrepareDispatch(cfg, old(Model()), c, now);
              Model() == spec.m && (call == if spec.Posted? then Some(spec.call) else None)
    {
      var item := pending.Dequeue();
      if item == None {
        return None;
      }
      var e := item.value;
      var t := e.task;
      var owner := TaskWorker(t.id);
      if owner != "" {
        if owner !in cfg.nodes {
          EnqueuePending(e);
          return None;
        }
        if IsStop(e) {
          return Some(Call(e, owner, false));
        }
        var reserved := reservations.TryReserve(owner, t);
        if !reserved {
          MarkFailed(t.id, t.restartCount, PORTS_TAKEN, now);
          return None;
        }
        return Some(StartCall(t, owner));
      }
      if IsStop(e) {
        if t.id in taskDb {
          DeleteTask(taskDb[t.id]);
        }
        return None;
      }
      if t.id !in taskDb {
        return None;
      }
      call := PlaceTask(e, c, now);
    }

    /** The start of a task that no worker owns. */
    method PlaceTask(e: Event, c: Cluster, now: Instant) returns (call: Option<Call>)
      requires Valid()
      modifies this`taskDb, this`sent, reservations, pending, pending.buf
      ensures Valid() && (pending.buf == old(pending.buf) || fresh(pending.buf))
      ensures var spec := Place(cfg, old(Model()), e, c, now);
              Model() == spec.m && (call == if spec.Posted? then Some(spec.call) else None)
    {
      var choice := SelectAndReserveWorker(cfg.nodes, reservations, e.task, "", c);
      match choice {
        case Chosen(w) => return Some(StartCall(e.task, w));
        case Transient => EnqueuePending(e);
        case Unplaceable => StopTaskTerminal(e.task, UNSCHEDULABLE, now);
      }
      return None;
    }

    /** Assignment first, record second; a failed write is followed by the restoring writes, which may
        themselves fail. */
    method CommitWrites(t: Task, w: Address, f: Faults) returns (committed: bool)
      requires Valid() && t.id in taskDb
      modifies this`taskDb, this`assignments
      ensures Valid() && (Model(), committed) == ManagerModel.CommitWrites(old(Model()), t, w, f)
    {
      var original := taskDb[t.id];
      var hadOwner := t.id in assignments;
      var oldOwner := if hadOwner then assignments[t.id] else "";
      if f.putOwner {
        RestoreAssignment(t.id, oldOwner, hadOwner, f.restoreOwner);
        assert assignments == old(assignments);
        return false;
      }
      assignments := assignments[t.id := w];
      if f.putTask {
        RestoreAssignment(t.id, oldOwner, hadOwner, f.restoreOwner);
        assert !f.restoreOwner ==> assignments == old(assignments);
        if !f.restoreTask {
          taskDb := taskDb[t.id := original];
          assert taskDb == old(taskDb);
        }
        return false;
      }
      taskDb := taskDb[t.id := t];
      return true;
    }

    method RestoreAssignment(id: Id, oldOwner: Address, existed: bool, fails: bool)
      modifies this`assignments
      ensures assignments ==
              if fails then old(assignments) else if existed then old(assignments)[id := oldOwner] else old(assignments) - {id}
    {
      if fails {
        return;
      }
      assignments := if existed then assignments[id := oldOwner] else assignments - {id};
    }

    method RollbackAcceptedWorkerTask(w: Address, t: Task, cleanup: Task, reserved: bool)
      requires Valid()
      modifies this`sent, reservations
      ensures Valid() && Model() == Rollback(old(Model()), w, t, cleanup, reserved)
    {
      if reserved {
        Release(w, t);
      }
      BestEffortStopWorkerTask(w, cleanup);
    }

    method CommitDispatch(call: Call, echo: Task, f: Faults)
      requires Valid()
      modifies this, reservations, pending, pending.buf
      ensures Valid() && (pending.buf == old(pending.buf) || fresh(pending.buf))
      ensures Model() == ManagerModel.CommitDispatch(old(Model()), call, echo, f)
    {
      var t := call.event.task;
      var cleanup := if echo.id == t.id then echo else t;
      var retry := f.readTask;
      var cancelled := !f.readTask && t.id !in taskDb;
      if !retry && !cancelled {
        if f.readOwner {
          retry := true;
        } else {
          var committed := CommitWrites(t, call.worker, f);
          retry := !committed;
        }
      }
      if cancelled || retry {
        RollbackAcceptedWorkerTask(call.worker, t, cleanup, call.reserved);
      }
      if retry {
        EnqueuePending(call.event);
      }
    }

    /** SendWork from the worker's answer on. */
    method FinishDispatch(call: Call, reply: Reply, f: Faults, now: Instant)
      requires Valid()
      modifies this, reservations, pending, pending.buf
      ensures Valid() && (pending.buf == old(pending.buf) || fresh(pending.buf))
      ensures Model() == ManagerModel.FinishDispatch(cfg, old(Model()), call, reply, f, now)
    {
      var t := call.event.task;
      if reply.Unreached? {
        if call.reserved {
          Release(call.worker, t);
        }
        EnqueuePending(call.event);
        return;
      }
      var isStop := IsStop(call.event);
      if isStop && (reply.code == NOT_FOUND || reply.code == CREATED) {
        Release(call.worker, t);
        return;
      }
      if reply.code != CREATED {
        if call.reserved {
          Release(call.worker, t);
        }
        if !isStop {
          MarkFailed(t.id, t.restartCount + 1, REJECTED, now);
        }
        return;
      }
      CommitDispatch(call, reply.echo, f);
    }

    method SendWork(env: Env)
      requires Valid()
      modifies this, reservations, pending, pending.buf
      ensures Valid() && (pending.buf == old(pending.buf) || fresh(pending.buf))
      ensures Model() == ManagerModel.SendWork(cfg, old(Model()), env)
    {
      var call := PrepareDispatch(env.cluster, env.now);
      if call.Some? {
        FinishDispatch(call.value, env.reply, NO_FAULTS, env.now);
      }
    }

    // ---- restart ----

    method PrepareRestart(t: Task, c: Cluster, now: Instant) returns (r: Option<Restart>)
      requires Valid()
      modifies this, reservations
      ensures Valid()
      ensures var spec := ManagerModel.PrepareRestart(cfg, old(Model()), t, c, now);
              Model() == spec.m && (r == if spec.Posted? then Some(spec.call) else None)
    {
      var owner := TaskWorker(t.id);
      var next := t.(state := Scheduled, restartCount := t.restartCount + 1);
      next := next.(failureReason := "", startTime := 0, finishTime := 0);
      var choice := SelectAndReserveWorker(cfg.nodes, reservations, next, owner, c);
      match choice {
        case Transient =>
          MarkFailed(t.id, t.restartCount, CANNOT_RESTART_YET, now);
          return None;
        case Unplaceable =>
          StopTaskTerminal(t, NO_WORKER, now);
          return None;
        case Chosen(w) =>
          if owner == "" || w != owner {
            next := next.(containerId := "", hostPorts := []);
          }
          return Some(Restart(t, next, w));
      }
    }

    method CommitRestart(r: Restart, echo: Task, f: Faults)
      requires Valid() && r.next.id == r.prev.id
      modifies this, reservations
      ensures Valid() && Model() == ManagerModel.CommitRestart(old(Model()), r, echo, f)
    {
      var id := r.prev.id;
      var cleanup := if echo.id == r.next.id then echo else r.next;
      if f.readTask || id !in taskDb || taskDb[id].manuallyStopped || f.readOwner {
        RollbackAcceptedWorkerTask(r.worker, r.next, cleanup, true);
        return;
      }
      var oldOwner := TaskWorker(id);
      var committed := CommitWrites(r.next, r.worker, f);
      if !committed {
        RollbackAcceptedWorkerTask(r.worker, r.next, cleanup, true);
        return;
      }
      if oldOwner != "" && oldOwner != r.worker {
        Release(oldOwner, r.prev);
        if r.prev.containerId != "" {
          BestEffortStopWorkerTask(oldOwner, r.prev);
        }
      }
    }

    /** restartTask from the worker's answer on. */
    method FinishRestart(r: Restart, reply: Reply, f: Faults, now: Instant)
      requires Valid() && r.next.id == r.prev.id
      modifies this, reservations
      ensures Valid() && Model() == ManagerModel.FinishRestart(cfg, old(Model()), r, reply, f, now)
    {
      if reply.Unreached? {
        Release(r.worker, r.next);
        MarkFailed(r.prev.id, r.prev.restartCount, UNREACHED_RESTART, now);
        return;
      }
      if reply.code != CREATED {
        Release(r.worker, r.next);
        MarkFailed(r.prev.id, r.prev.restartCount + 1, REJECTED_RESTART, now);
        return;
      }
      CommitRestart(r, reply.echo, f);
    }

    method RestartTask(t: Task, env: Env)
      requires Valid()
      modifies this, reservations
      ensures Valid() && Model() == ManagerModel.RestartTask(cfg, old(Model()), t, env)
    {
      var r := PrepareRestart(t, env.cluster, env.now);
      if r.Some? {
        FinishRestart(r.value, env.reply, NO_FAULTS, env.now);
      }
    }

    /** One iteration of restartFailedTasks. */
    method CheckTask(t: Task, passNow: Instant, env: Env)
      requires Valid()
      modifies this, reservations
      ensures Valid() && Model() == Carry(cfg, old(Model()), t, JudgeStopped(cfg, t, passNow), env)
    {
      match t.state {
        case Failed =>
          if t.manuallyStopped || t.IsTerminal() {
            return;
          }
          if !ShouldRestart(t.policy) {
            StopTaskTerminal(t, POLICY_FORBIDS, env.now);
            return;
          }
          if t.AtRestartCap(cfg.maxRestarts) {
            var reason := t.failureReason;
            if reason == "" {
              reason := CAP_REACHED;
            }
            StopTaskTerminal(t, reason, env.now);
            return;
          }
          if passNow < t.nextRetryAt {
            return;
          }
          RestartTask(t, env);
        case Completed =>
          if t.manuallyStopped || !ShouldRestartOnSuccess(t.policy) {
            return;
          }
          if t.AtRestartCap(cfg.maxRestarts) || passNow < t.nextRetryAt {
            return;
          }
          RestartTask(t, env);
        case _ =>
      }
    }

    /** The iteration as a step of a run; it leaves every other record as the listing found it. */
    method CheckListedTask(t: Task, passNow: Instant, env: Env)
      requires Valid() && Keyed(taskDb) && t.id in taskDb && taskDb[t.id] == t
      modifies this, reservations
      ensures Valid() && Model() == Apply(cfg, old(Model()), Check(t.id, passNow, env))
      ensures Keyed(taskDb) && taskDb.Keys == old(taskDb).Keys
      ensures forall id :: id in taskDb && id != t.id ==> taskDb[id] == old(taskDb)[id]
    {
      RestartBudget.CarryIsLocal(cfg, Model(), t, JudgeStopped(cfg, t, passNow), env);
      CheckTask(t, passNow, env);
    }

    /** One iteration of the pass that began in `start`. */
    method CheckNext(ids: seq<Id>, i: nat, t: Task, passNow: Instant, envs: Id -> Env, ghost start: MState)
      requires Valid() && Keyed(taskDb) && i < |ids| && ids[i] in taskDb && taskDb[ids[i]] == t
      requires Passed(cfg, start, Model(), ids[..i], passNow, envs)
      modifies this, reservations
      ensures Valid() && Passed(cfg, start, Model(), ids[..i + 1], passNow, envs)
      ensures Keyed(taskDb) && taskDb.Keys == old(taskDb).Keys
      ensures forall id :: id in taskDb && id != ids[i] ==> taskDb[id] == old(taskDb)[id]
    {
      ChecksSnoc(cfg, start, ids, i, passNow, envs);
      CheckListedTask(t, passNow, envs(ids[i]));
    }

    /** restartFailedTasks: the listing is a snapshot, yet every task is judged on its current record. */
    method RestartFailedTasks(passNow: Instant, envs: Id -> Env)
      requires Valid() && Keyed(taskDb)
      modifies this, reservations
      ensures Valid()
      ensures Model() == Run(cfg, old(Model()), Checks(Ascending(old(taskDb).Keys), passNow, envs))
    {
      var ids := KeysInOrder(taskDb.Keys);
      AscendingIsSorted(taskDb.Keys);
      var snapshot := taskDb;
      ghost var start := Model();
      assert Checks(ids[..0], passNow, envs) == [];
      for i := 0 to |ids|
        invariant Valid() && Passed(cfg, start, Model(), ids[..i], passNow, envs)
        invariant Keyed(taskDb) && taskDb.Keys == snapshot.Keys
        invariant forall j :: i <= j < |ids| ==> ids[j] in taskDb && taskDb[ids[j]] == snapshot[ids[j]]
      {
        CheckNext(ids, i, snapshot[ids[i]], passNow, envs, start);
      }
      assert ids[..|ids|] == ids;
    }

    /** A listed record gets a checker, which ends at once unless the task has an owner. */
    method StartChecker(listed: Task)
      requires Valid()
      modifies this`watched
      ensures Valid() && Model() == Watch(old(Model()), listed)
    {
      var owner := TaskWorker(listed.id);
      if Managed(listed) && owner != "" {
        watched := watched + {listed.id};
      }
    }

    /** A running checker reaches its failure threshold: it acts on the current record and ends. */
    method TaskUnhealthy(id: Id, env: Env)
      requires Valid() && id in watched
      modifies this, reservations
      ensures Valid() && Model() == Apply(cfg, old(Model()), HealthVerdict(id, env))
    {
      if id in taskDb && taskDb[id].state.Running? {
        ActOnUnhealthy(taskDb[id], env);
      }
      watched := watched - {id};
    }

    method ActOnUnhealthy(t: Task, env: Env)
      requires Valid() && t.state.Running?
      modifies this, reservations
      ensures Valid() && Model() == Carry(cfg, old(Model()), t, JudgeUnhealthy(cfg, t, env.now), env)
    {
      if t.AtRestartCap(cfg.maxRestarts) {
        StopTaskTerminal(t, UNHEALTHY, env.now);
        return;
      }
      if !ShouldRestart(t.policy) {
        StopTaskTerminal(t, UNHEALTHY, env.now);
        return;
      }
      if env.now < t.nextRetryAt {
        return;
      }
      RestartTask(t, env);
    }

    // ---- worker reports ----

    /** One report: the record is edited field by field. */
    method UpdateTask(w: Address, report: Task, now: Instant)
      requires Valid()
      modifies this`taskDb, this`sent
      ensures Valid() && Model() == Report(cfg, old(Model()), w, report, now)
    {
      if report.id !in taskDb {
        sent := sent + [ForgetMessage(w, report.id)];
        return;
      }
      var persisted := taskDb[report.id];
      if report.restartCount != persisted.restartCount {
        assert taskDb[report.id := persisted] == taskDb;
        return;
      }
      var updated := persisted.(containerId := report.containerId, hostPorts := report.hostPorts);
      if report.startTime != 0 {
        updated := updated.(startTime := report.startTime);
      }
      if report.finishTime != 0 {
        updated := updated.(finishTime := report.finishTime);
      }
      if report.state.Failed? {
        if !persisted.state.Failed? {
          var backoff := RestartBackoff(cfg.delays.base, cfg.delays.max, updated.restartCount);
          updated := updated.(nextRetryAt := now + backoff);
        }
        updated := updated.(state := Failed);
        if report.failureReason != "" {
          updated := updated.(failureReason := report.failureReason);
        }
      } else if !updated.IsTerminal() {
        updated := updated.(state := report.state);
      }
      taskDb := taskDb[report.id := updated];
    }

    // ---- startup ----

    /** Rebuilds the queue and the table from the stores; New is the only caller, so both start empty. */
    method ReconcileOnStartup()
      requires Valid() && Keyed(taskDb)
      requires pending.Contents() == [] && reservations.byWorker == map[] && watched == {}
      modifies this`assignments, reservations, pending, pending.buf
      ensures Valid() && (pending.buf == old(pending.buf) || fresh(pending.buf))
      ensures Model() == Reconcile(old(Model()))
    {
      var ids := KeysInOrder(taskDb.Keys);
      AscendingIsSorted(taskDb.Keys);
      RecoverTasks(ids);
      SweepOrphanedAssignments();
    }

    method RecoverTasks(ids: seq<Id>)
      requires Valid() && forall i :: 0 <= i < |ids| ==> ids[i] in taskDb
      modifies reservations, pending, pending.buf
      ensures Valid() && (pending.buf == old(pending.buf) || fresh(pending.buf))
      ensures Model() == RecoverAll(old(Model()), ids)
    {
      for i := 0 to |ids|
        invariant Valid() && (pending.buf == old(pending.buf) || fresh(pending.buf))
        invariant Model() == RecoverAll(old(Model()), ids[..i])
      {
        assert ids[..i + 1][..i] == ids[..i];
        RecoverTask(ids[i]);
      }
      assert ids[..|ids|] == ids;
    }

    method RecoverTask(id: Id)
      requires Valid() && id in taskDb
      modifies reservations, pending, pending.buf
      ensures Valid() && (pending.buf == old(pending.buf) || fresh(pending.buf))
      ensures Model() == Recover(old(Model()), id)
    {
      var t := taskDb[id];
      match t.state {
        case Pending => EnqueuePending(Event(Scheduled, t));
        case Running => ReclaimPorts(t);
        case Scheduled => ReclaimPorts(t);
        case _ =>
      }
    }

    method ReclaimPorts(t: Task)
      requires Valid()
      modifies reservations
      ensures Valid() && Model() == Reclaim(old(Model()), t)
    {
      var owner := TaskWorker(t.id);
      if owner == "" {
        return;
      }
      if HasPinnedHostPorts(t.ports) {
        var _ := reservations.TryReserve(owner, t);
      } else {
        PinnedIffKeys(t.ports);
      }
    }

    method SweepOrphanedAssignments()
      requires Valid()
      modifies this`assignments
      ensures Valid() && Model() == Sweep(old(Model()))
    {
      var rest := assignments.Keys;
      while rest != {}
        invariant rest <= old(assignments).Keys
        invariant assignments == map id | id in old(assignments) && (id in rest || id in taskDb) :: old(assignments)[id]
        decreases rest
      {
        var id :| id in rest;
        rest := rest - {id};
        if id !in taskDb {
          assignments := assignments - {id};
        }
      }
    }
  }

  // ---- a pass is a run of its steps ----

  function Checks(ids: seq<Id>, passNow: Instant, envs: Id -> Env): seq<Step> {
    seq(|ids|, i requires 0 <= i < |ids| => Check(ids[i], passNow, envs(ids[i])))
  }

  /** A pass that began in `start` has judged these tasks and is now in `m`. */
  ghost predicate Passed(cfg: Config, start: MState, m: MState, ids: seq<Id>, passNow: Instant, envs: Id -> Env) {
    m == Run(cfg, start, Checks(ids, passNow, envs))
  }

  lemma ChecksSnoc(cfg: Config, m: MState, ids: seq<Id>, i: nat, passNow: Instant, envs: Id -> Env)
    requires i < |ids|
    ensures Run(cfg, m, Checks(ids[..i + 1], passNow, envs)) ==
            Apply(cfg, Run(cfg, m, Checks(ids[..i], passNow, envs)), Check(ids[i], passNow, envs(ids[i])))
  {
    var steps := Checks(ids[..i], passNow, envs);
    assert Checks(ids[..i + 1], passNow, envs) == steps + [Check(ids[i], passNow, envs(ids[i]))];
    RunSnoc(cfg, m, steps, Check(ids[i], passNow, envs(ids[i])));
  }
}
