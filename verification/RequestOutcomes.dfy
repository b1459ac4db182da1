/** What the user's requests, a worker's report and the ends of a task leave behind, read off the states
    before and after (manager/records.go, handlers.go, worker_sync.go, restart.go). */
module RequestOutcomes {
  import opened Base
  import opened Tasks
  import opened Ports
  import opened Backoff
  import opened Reservations
  import opened WorkerSync
  import opened ManagerModel

  // ---- what can change ----

  /** On `w` these keys now have that holder, and every other entry is as it was. */
  ghost predicate KeysSet(tb: Table, tb': Table, w: Address, keys: set<Key>, holder: Option<Id>) {
    forall v, k {:trigger Holder(tb', v, k)} ::
      Holder(tb', v, k) == if v == w && k in keys then holder else Holder(tb, v, k)
  }

  /** The task holds none of its keys on `w` any more, and every other entry is as it was. */
  ghost predicate GivesUp(tb: Table, tb': Table, w: Address, t: Task) {
    forall v, k {:trigger Holder(tb', v, k)} ::
      Holder(tb', v, k) ==
      if v == w && k in KeySet(t.ports) && Holder(tb, v, k) == Some(t.id) then None else Holder(tb, v, k)
  }

  lemma ReleaseGivesUp(tb: Table, w: Address, t: Task)
    ensures GivesUp(tb, Released(tb, w, t), w, t)
  {
    forall v, k ensures Holder(Released(tb, w, t), v, k) ==
      if v == w && k in KeySet(t.ports) && Holder(tb, v, k) == Some(t.id) then None else Holder(tb, v, k)
    {
      ReleasedEntry(tb, w, t, v, k);
    }
  }

  lemma ReserveSets(tb: Table, w: Address, t: Task)
    ensures KeysSet(tb, Reserved(tb, w, t), w, KeySet(t.ports), Some(t.id))
  {
    forall v, k ensures Holder(Reserved(tb, w, t), v, k) ==
      if v == w && k in KeySet(t.ports) then Some(t.id) else Holder(tb, v, k)
    {
      ReservedEntry(tb, w, t, v, k);
    }
  }

  lemma ReserveThenGiveUp(tb: Table, tb1: Table, tb2: Table, w: Address, t: Task)
    requires KeysSet(tb, tb1, w, KeySet(t.ports), Some(t.id)) && GivesUp(tb1, tb2, w, t)
    ensures KeysSet(tb, tb2, w, KeySet(t.ports), None)
  {
    forall v, k ensures Holder(tb2, v, k) == if v == w && k in KeySet(t.ports) then None else Holder(tb, v, k) {
      assert Holder(tb1, v, k) == if v == w && k in KeySet(t.ports) then Some(t.id) else Holder(tb, v, k);
    }
  }

  // ---- submissions ----

  /** A start needs a new id, and a name that nobody holds and that does not read as a UUID. */
  ghost predicate FreshStart(cfg: Config, m: MState, t: Task) {
    && t.id !in m.tasks
    && (t.name == "" || (cfg.parse(t.name) == None && forall id :: id in m.tasks ==> m.tasks[id].name != t.name))
  }

  /** An event is accepted if and only if its task is well formed and, unless it is a stop, new. An accepted
      event is queued last as it came; an accepted start is also recorded as Pending; a refused one leaves no trace. */
  lemma SubmitOutcome(cfg: Config, m: MState, e: Event, extrasOk: bool)
    ensures var t := e.task;
            var stop := e.state == Completed || t.state == Completed;
            var m' := AddTask(cfg, m, e, extrasOk);
            if ValidTask(t, extrasOk) && (stop || FreshStart(cfg, m, t)) then
              && m'.pending == m.pending + [e]
              && m'.tasks == (if stop then m.tasks else m.tasks[t.id := t.(state := Pending)])
              && m' == m.(tasks := m'.tasks, pending := m'.pending)
            else m' == m
  {
    assert HoldsName(m.tasks, e.task.name) <==> !(forall id :: id in m.tasks ==> m.tasks[id].name != e.task.name);
  }

  // ---- stopping ----

  /** Nothing of the task is left: no record, no assignment, no queued event, no key on its worker. The worker
      is asked to stop the container of a failed task, and nothing else is sent. */
  ghost predicate Deleted(m: MState, m': MState, t: Task) {
    && m'.tasks == m.tasks - {t.id} && m'.owners == m.owners - {t.id} && m'.watched == m.watched
    && (forall e :: e in m'.pending <==> e in m.pending && e.task.id != t.id)
    && m'.pending == DropMatching(m.pending, EventNames(t.id))
    && (if Owner(m, t.id) == "" then m'.table == m.table else GivesUp(m.table, m'.table, Owner(m, t.id), t))
    && m'.sent == m.sent + (if Owner(m, t.id) != "" && t.state == Failed && t.containerId != "" && t.id != NIL_ID
                            then [StopMessage(Owner(m, t.id), t.(state := Completed))] else [])
  }

  lemma DeleteOutcome(m: MState, t: Task)
    ensures Deleted(m, DeleteTask(m, t), t)
  {
    DropMatchingMembers(m.pending, EventNames(t.id));
    if Owner(m, t.id) != "" { ReleaseGivesUp(m.table, Owner(m, t.id), t); }
  }

  /** What has nothing running for the user to stop. */
  predicate NothingToStop(cfg: Config, m: MState, t: Task) {
    || t.state == Pending || t.state == Completed || Owner(m, t.id) == ""
    || (t.state == Failed && (t.finishTime != 0 || t.restartCount >= if t.maxRestarts > 0 then t.maxRestarts else cfg.maxRestarts))
  }

  /** A user's stop deletes a task if and only if it has nothing running. Otherwise the record gets the flag and
      nothing else, and exactly one stop of it, flagged too, is queued last. */
  lemma StopOutcome(cfg: Config, m: MState, id: Id, extrasOk: bool)
    requires Keyed(m.tasks)
    ensures var m' := StopRequest(cfg, m, id, extrasOk);
            if id !in m.tasks then m' == m
            else if NothingToStop(cfg, m, m.tasks[id]) then Deleted(m, m', m.tasks[id])
            else
              var t := m.tasks[id];
              && m'.tasks == m.tasks[id := t.(manuallyStopped := true)]
              && m'.pending == m.pending +
                 (if ValidTask(t, extrasOk) then [Event(Completed, t.(state := Completed, manuallyStopped := true))] else [])
              && m' == m.(tasks := m'.tasks, pending := m'.pending)
  {
    if id in m.tasks {
      var t := m.tasks[id];
      if NothingToStop(cfg, m, t) {
        DeleteOutcome(m, t);
      } else {
        SubmitOutcome(cfg, m.(tasks := m.tasks[id := t.(manuallyStopped := true)]),
                      Event(Completed, t.(state := Completed, manuallyStopped := true)), extrasOk);
      }
    }
  }

  // ---- the ends of a task ----

  /** The record is `t`, failed for good; its keys on its worker are free; the worker is told to stop it. */
  ghost predicate EndedAs(m: MState, m': MState, t: Task, now: Instant) {
    && t.id in m'.tasks && OthersKept(m.tasks, m'.tasks, t.id)
    && m'.tasks[t.id] == t.(state := Failed, finishTime := now, failureReason := m'.tasks[t.id].failureReason)
    && m'.owners == m.owners && m'.pending == m.pending && m'.watched == m.watched
    && GivesUp(m.table, m'.table, Owner(m, t.id), t)
    && m'.sent == m.sent + (if Owner(m, t.id) == "" then [] else [StopMessage(Owner(m, t.id), t.(state := Completed, finishTime := now, failureReason := m'.tasks[t.id].failureReason))])
  }

  lemma EndingOutcome(m: MState, t: Task, reason: string, now: Instant)
    ensures EndedAs(m, StopTerminal(m, t, reason, now), t, now)
    ensures StopTerminal(m, t, reason, now).tasks[t.id].failureReason == reason
  {
    ReleaseGivesUp(m.table, Owner(m, t.id), t.(state := Failed, failureReason := reason, finishTime := now));
  }

  /** The record, if there is one, is failed with that count, may be retried once the backoff of that count
      has run out, and is otherwise as it was; no other record and no assignment has changed. */
  ghost predicate FailedWith(cfg: Config, m: MState, m': MState, id: Id, count: int, now: Instant) {
    && m'.owners == m.owners && m'.watched == m.watched && m'.tasks.Keys == m.tasks.Keys
    && OthersKept(m.tasks, m'.tasks, id)
    && (id in m.tasks ==>
          m'.tasks[id] == m.tasks[id].(state := Failed, restartCount := count, finishTime := 0,
            failureReason := m'.tasks[id].failureReason, nextRetryAt := now + Schedule(cfg.delays.base, cfg.delays.max, count)))
  }

  lemma MarkFailedOutcome(cfg: Config, m: MState, id: Id, count: int, reason: string, now: Instant)
    ensures var m' := MarkFailed(cfg, m, id, count, reason, now);
            && FailedWith(cfg, m, m', id, count, now)
            && (id in m.tasks ==> m'.tasks[id].failureReason == reason)
            && m' == m.(tasks := m'.tasks)
  {
  }

  // ---- reports ----

  /** Container and published ports are the reported ones, and so is each time that is set, and the state unless the
      failure it meets is final. Identity, policy, count and stop flag stay. */
  ghost predicate TakesOver(record: Task, report: Task, r: Task) {
    && SameIdentity(record, r)
    && r.containerId == report.containerId && r.hostPorts == report.hostPorts
    && r.startTime == (if report.startTime != 0 then report.startTime else record.startTime)
    && r.finishTime == (if report.finishTime != 0 then report.finishTime else record.finishTime)
    && r.state == (if r.finishTime != 0 && (record.state == Failed || report.state == Failed) then Failed else report.state)
  }

  lemma CurrentReportOutcome(d: Delays, record: Task, report: Task, now: Instant)
    requires report.restartCount == record.restartCount
    ensures TakesOver(record, report, Fold(d, record, report, now))
  {
  }

  /** A report of an unknown task makes the manager ask its sender, and only that, to forget the task. One of
      another restart attempt changes nothing. One of the current attempt takes over that record and nothing else. */
  lemma ReportOutcome(cfg: Config, m: MState, w: Address, r: Task, now: Instant)
    requires Keyed(m.tasks)
    ensures var m' := Report(cfg, m, w, r, now);
            if r.id !in m.tasks then m' == m.(sent := m.sent + [ForgetMessage(w, r.id)])
            else if r.restartCount != m.tasks[r.id].restartCount then m' == m
            else
              && r.id in m'.tasks && OthersKept(m.tasks, m'.tasks, r.id) && m' == m.(tasks := m'.tasks)
              && TakesOver(m.tasks[r.id], r, m'.tasks[r.id])
  {
    if r.id in m.tasks {
      assert m.tasks[r.id := m.tasks[r.id]] == m.tasks;
      if r.restartCount == m.tasks[r.id].restartCount { CurrentReportOutcome(cfg.delays, m.tasks[r.id], r, now); }
    }
  }
}
