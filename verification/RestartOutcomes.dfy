/** What one restart leaves behind, whatever the worker answers (manager/restart.go). */
module RestartOutcomes {
  import opened Base
  import opened Tasks
  import opened Ports
  import opened Reservations
  import opened Placement
  import opened ManagerModel
  import opened ManagerSafety
  import opened RequestOutcomes

  // ---- what is posted ----

  /** The next attempt of `t` on `w`: one restart more, no trace of the last attempt's times and failure, and
      everything else as it was, except that another worker is told neither container nor published ports. */
  ghost predicate Attempt(t: Task, next: Task, owner: Address, w: Address) {
    && next.state == Scheduled && next.restartCount == t.restartCount + 1
    && next.failureReason == "" && next.startTime == 0 && next.finishTime == 0
    && next.containerId == (if w == owner then t.containerId else "")
    && next.hostPorts == (if w == owner then t.hostPorts else [])
    && next == t.(state := next.state, restartCount := next.restartCount, failureReason := "", startTime := 0,
                  finishTime := 0, containerId := next.containerId, hostPorts := next.hostPorts)
  }

  /** A restart is posted if and only if the task is placed, to the worker chosen, with all its keys reserved
      there; nothing else has changed. Otherwise it is failed without costing a restart when the trouble may
      pass, and ended when no worker can take it. */
  lemma RestartIsPostedIff(cfg: Config, m: MState, t: Task, c: Cluster, now: Instant)
    requires ConfigOk(cfg)
    ensures var owner := Owner(m, t.id);
            match Select(cfg.nodes, m.table, NextAttempt(t), owner, c).0
            case Chosen(w) =>
              && PrepareRestart(cfg, m, t, c, now).Posted?
              && var Posted(m1, r) := PrepareRestart(cfg, m, t, c, now);
              && r.prev == t && r.worker == w && w != "" && Attempt(t, r.next, owner, w)
              && KeysSet(m.table, m1.table, w, KeySet(t.ports), Some(t.id)) && m1 == m.(table := m1.table)
            case Transient =>
              && PrepareRestart(cfg, m, t, c, now).Done?
              && var Done(m1) := PrepareRestart(cfg, m, t, c, now);
              FailedWith(cfg, m, m1, t.id, t.restartCount, now) && m1 == m.(tasks := m1.tasks)
            case Unplaceable =>
              && PrepareRestart(cfg, m, t, c, now).Done?
              && EndedAs(m, PrepareRestart(cfg, m, t, c, now).m, t, now)
  {
    match Select(cfg.nodes, m.table, NextAttempt(t), Owner(m, t.id), c).0 {
      case Chosen(w) =>
        PlacementSound(cfg.nodes, m.table, NextAttempt(t), Owner(m, t.id), c);
        ReserveSets(m.table, w, NextAttempt(t));
      case Transient => MarkFailedOutcome(cfg, m, t.id, t.restartCount, CANNOT_RESTART_YET, now);
      case Unplaceable => EndingOutcome(m, t, NO_WORKER, now);
    }
  }

  // ---- what the answer does ----

  /** What the previous owner `o` is asked when the task leaves it for `w`. */
  function Farewell(o: Address, w: Address, t: Task): seq<Message> {
    if o != "" && o != w && t.containerId != "" && t.id != NIL_ID then [StopMessage(o, t.(state := Completed))] else []
  }

  /** A commit writes record and assignment. If that moves the task, the previous owner is asked, once, to stop
      the old container, and only its keys there are given up; otherwise no message is sent and no key moves. */
  ghost predicate Moved(m: MState, m': MState, r: Restart) {
    var o := Owner(m, r.prev.id);
    && m'.tasks == m.tasks[r.next.id := r.next] && m'.owners == m.owners[r.next.id := r.worker]
    && m'.pending == m.pending && m'.watched == m.watched
    && m'.sent == m.sent + Farewell(o, r.worker, r.prev)
    && (if o != "" && o != r.worker then GivesUp(m.table, m'.table, o, r.prev) else m'.table == m.table)
  }

  /** Nothing is kept of a restart the task no longer wants: its keys are free and the worker is asked to stop. */
  ghost predicate CalledOff(m: MState, m': MState, r: Restart, echo: Task) {
    && GivesUp(m.table, m'.table, r.worker, r.next)
    && m' == m.(table := m'.table, sent := m.sent +
         (if r.worker == "" || r.next.id == NIL_ID then []
          else [StopMessage(r.worker, (if echo.id == r.next.id then echo else r.next).(state := Completed))]))
  }

  lemma CommitMoves(m: MState, r: Restart, echo: Task)
    requires r.next.id == r.prev.id && r.prev.id in m.tasks && !m.tasks[r.prev.id].manuallyStopped
    ensures Moved(m, CommitRestart(m, r, echo, NO_FAULTS), r)
  {
    var o := Owner(m, r.prev.id);
    var committed := m.(tasks := m.tasks[r.next.id := r.next], owners := m.owners[r.next.id := r.worker]);
    assert CommitRestart(m, r, echo, NO_FAULTS) == LeaveOldOwner(committed, r, o);
    ReleaseGivesUp(m.table, o, r.prev);
  }

  lemma CommitCallsOff(m: MState, r: Restart, echo: Task)
    requires r.prev.id in m.tasks ==> m.tasks[r.prev.id].manuallyStopped
    ensures CalledOff(m, CommitRestart(m, r, echo, NO_FAULTS), r, echo)
  {
    ReleaseGivesUp(m.table, r.worker, r.next);
  }

  /** A 201, in whatever state it finds the manager: the restart is committed if and only if the record is
      still there and the user has not stopped it meanwhile, and otherwise called off. */
  lemma RestartAccepted(cfg: Config, m: MState, r: Restart, reply: Reply, now: Instant)
    requires r.next.id == r.prev.id && reply.Status? && reply.code == 201
    ensures var m' := FinishRestart(cfg, m, r, reply, NO_FAULTS, now);
            if r.prev.id in m.tasks && !m.tasks[r.prev.id].manuallyStopped then Moved(m, m', r)
            else CalledOff(m, m', r, reply.echo)
  {
    assert FinishRestart(cfg, m, r, reply, NO_FAULTS, now) == CommitRestart(m, r, reply.echo, NO_FAULTS);
    if r.prev.id in m.tasks && !m.tasks[r.prev.id].manuallyStopped {
      CommitMoves(m, r, reply.echo);
    } else {
      CommitCallsOff(m, r, reply.echo);
    }
  }

  /** Any other answer, or none, likewise: the keys are free, and the record is failed with one restart more if
      the worker refused and the same number if it never answered. */
  lemma RestartTurnedDown(cfg: Config, m: MState, r: Restart, reply: Reply, now: Instant)
    requires reply.Status? ==> reply.code != 201
    ensures var m' := FinishRestart(cfg, m, r, reply, NO_FAULTS, now);
            && GivesUp(m.table, m'.table, r.worker, r.next)
            && FailedWith(cfg, m, m', r.prev.id, r.prev.restartCount + (if reply.Status? then 1 else 0), now)
            && m' == m.(table := m'.table, tasks := m'.tasks)
  {
    ReleaseGivesUp(m.table, r.worker, r.next);
    var freed := ReleaseOn(m, r.worker, r.next);
    if reply.Unreached? {
      MarkFailedOutcome(cfg, freed, r.prev.id, r.prev.restartCount, UNREACHED_RESTART, now);
    } else {
      MarkFailedOutcome(cfg, freed, r.prev.id, r.prev.restartCount + 1, REJECTED_RESTART, now);
    }
  }

  /** A restart of the current record that its worker accepts, from listing to commit: the task has all its keys
      on that worker, none on the previous one if it was another, and the previous one, then and only then, is
      asked to stop the container it had. */
  lemma RestartMoves(cfg: Config, m: MState, t: Task, env: Env)
    requires ConfigOk(cfg) && t.id in m.tasks && m.tasks[t.id] == t && !t.manuallyStopped
    requires Select(cfg.nodes, m.table, NextAttempt(t), Owner(m, t.id), env.cluster).0.Chosen?
    requires env.reply.Status? && env.reply.code == 201
    ensures var o := Owner(m, t.id);
            var w := Select(cfg.nodes, m.table, NextAttempt(t), o, env.cluster).0.worker;
            var m' := RestartTask(cfg, m, t, env);
            && t.id in m'.tasks && Attempt(t, m'.tasks[t.id], o, w) && OthersKept(m.tasks, m'.tasks, t.id)
            && m'.owners == m.owners[t.id := w] && m'.pending == m.pending
            && m'.sent == m.sent + Farewell(o, w, t)
            && (forall k :: k in KeySet(t.ports) ==> Holder(m'.table, w, k) == Some(t.id))
            && (o != "" && o != w ==> forall k :: k in KeySet(t.ports) ==> Holder(m'.table, o, k) != Some(t.id))
  {
    RestartIsPostedIff(cfg, m, t, env.cluster, env.now);
    var Posted(m1, r) := PrepareRestart(cfg, m, t, env.cluster, env.now);
    RestartAccepted(cfg, m1, r, env.reply, env.now);
  }

  /** One that its worker refuses or never answers leaves assignment, queue and messages alone, and the task
      without its keys on that worker, its own or another. */
  lemma RestartFails(cfg: Config, m: MState, t: Task, env: Env)
    requires ConfigOk(cfg) && t.id in m.tasks && m.tasks[t.id] == t
    requires Select(cfg.nodes, m.table, NextAttempt(t), Owner(m, t.id), env.cluster).0.Chosen?
    requires env.reply.Status? ==> env.reply.code != 201
    ensures var w := Select(cfg.nodes, m.table, NextAttempt(t), Owner(m, t.id), env.cluster).0.worker;
            var m' := RestartTask(cfg, m, t, env);
            && FailedWith(cfg, m, m', t.id, t.restartCount + (if env.reply.Status? then 1 else 0), env.now)
            && KeysSet(m.table, m'.table, w, KeySet(t.ports), None)
            && m'.pending == m.pending && m'.sent == m.sent
  {
    RestartIsPostedIff(cfg, m, t, env.cluster, env.now);
    var Posted(m1, r) := PrepareRestart(cfg, m, t, env.cluster, env.now);
    RestartTurnedDown(cfg, m1, r, env.reply, env.now);
    ReserveThenGiveUp(m.table, m1.table, RestartTask(cfg, m, t, env).table, r.worker, t);
  }
}
