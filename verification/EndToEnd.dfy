/** Manager and worker together: what a stop and a restart come to when each side does its part, each at any
    later time (manager/handlers.go, manager/dispatch.go, manager/restart.go, manager/worker_sync.go, worker/worker.go). */
module EndToEnd {
  import opened Base
  import opened Tasks
  import opened Ports
  import opened Reservations
  import opened Placement
  import opened WorkerSync
  import opened ManagerModel
  import opened ManagerSafety
  import opened RequestOutcomes
  import opened DispatchOutcomes
  import opened RestartOutcomes
  import opened RestartDecisions
  import W = WorkerModel
  import WorkerOutcomes

  /** The stop that the user's request leaves in the queue. */
  function UserStop(t: Task): Event {
    Event(Completed, t.(state := Completed, manuallyStopped := true))
  }

  // ---- a user's stop ----

  /** The request flags the record and queues the stop; any later dispatch that finds it at the head posts exactly
      it to the task's worker, whatever else has happened meanwhile; that worker, if it knows the task, queues it. */
  lemma StopTravels(cfg: Config, m: MState, id: Id, extrasOk: bool, later: MState, c: Cluster, now: Instant, s: W.WState)
    requires Keyed(m.tasks) && id in m.tasks && !NothingToStop(cfg, m, m.tasks[id]) && ValidTask(m.tasks[id], extrasOk)
    requires later.pending != [] && later.pending[0] == UserStop(m.tasks[id])
    requires Owner(later, id) != "" && Owner(later, id) in cfg.nodes && id in s.db
    ensures var m1 := StopRequest(cfg, m, id, extrasOk);
            id in m1.tasks && m1.tasks[id].manuallyStopped && m1.pending == m.pending + [UserStop(m.tasks[id])]
    ensures var p := PrepareDispatch(cfg, later, c, now);
            p.Posted? && p.call.event == UserStop(m.tasks[id]) && p.call.worker == Owner(later, id)
    ensures W.AddTask(s, UserStop(m.tasks[id]).task, extrasOk) == s.(queue := s.queue + [UserStop(m.tasks[id]).task])
  {
    StopOutcome(cfg, m, id, extrasOk);
    StopIsPosted(cfg, later, c, now);
    WorkerOutcomes.AcceptOutcome(s, UserStop(m.tasks[id]).task, extrasOk);
  }

  /** When its turn comes on the worker, the container that runs for the task is gone, whichever one the manager
      knew of. Once the worker's record has been reported the manager has the task ended with that record's
      container and time, and no pass will ever restart or end it again. */
  lemma StopArrives(cfg: Config, t: Task, s: W.WState, o: W.Oracle, m: MState, w: Address, seen: Instant)
    requires Keyed(s.db) && s.queue != [] && s.queue[0] == UserStop(t).task && t.id in s.db
    requires s.db[t.id].state in {Running, Completed, Failed} && o.client && !o.stop.remove.Broken?
    requires Keyed(m.tasks) && t.id in m.tasks && m.tasks[t.id].restartCount == t.restartCount && m.tasks[t.id].manuallyStopped
    ensures var s' := W.RunTask(s, o);
            var m' := Report(cfg, m, w, s'.db[t.id], seen);
            && t.id in s'.db && t.id in m'.tasks
            && (s.db[t.id].containerId != "" ==> s.db[t.id].containerId !in s'.daemon.live)
            && m'.tasks[t.id].state in {Completed, Failed} && m'.tasks[t.id].finishTime == o.now
            && m'.tasks[t.id].containerId == s'.db[t.id].containerId
            && !Over(cfg, m'.tasks[t.id]) && forall at :: !Due(cfg, m'.tasks[t.id], at)
  {
    WorkerOutcomes.StopTurn(s, o);
    ReportOutcome(cfg, m, w, W.RunTask(s, o).db[t.id], seen);
  }

  // ---- a restart ----

  ghost predicate WorkerRuns(s: W.WState, id: Id, c: ContainerId) {
    id in s.db && s.db[id].state == Running && s.db[id].containerId == c && c in s.daemon.live
  }

  /** The start of `next` as its worker queues it, given what it has on record. */
  ghost predicate QueuedAs(s: W.WState, next: Task, queued: Task) {
    queued == (if next.id in s.db then W.Inherit(next, s.db[next.id]) else next)
  }

  /** A restart that stays where it is: both sides know the same container before and after, the old one is gone,
      the new one runs, the count is one up, and the ports are still the task's. */
  lemma RestartRoundTrip(cfg: Config, m: MState, t: Task, env: Env, s: W.WState, o: W.Oracle, seen: Instant)
    requires ConfigOk(cfg) && Keyed(m.tasks) && t.id in m.tasks && m.tasks[t.id] == t && !t.manuallyStopped
    requires Owner(m, t.id) != "" && Select(cfg.nodes, m.table, NextAttempt(t), Owner(m, t.id), env.cluster).0 == Chosen(Owner(m, t.id))
    requires env.reply.Status? && env.reply.code == 201
    requires Keyed(s.db) && t.id in s.db && s.db[t.id].containerId == t.containerId
    requires s.queue != [] && QueuedAs(s, NextAttempt(t), s.queue[0]) && WorkerOutcomes.GoesThrough(s, s.queue[0], o)
    requires W.FreshRun(s.daemon, o.run) && (t.containerId != "" ==> t.containerId in s.daemon.born)
    ensures var m1 := RestartTask(cfg, m, t, env);
            var s' := W.RunTask(s, o);
            && t.id in s'.db && t.id in m1.tasks && m1.tasks[t.id] == NextAttempt(t)
            && var m' := Report(cfg, m1, Owner(m, t.id), s'.db[t.id], seen);
            && t.id in m'.tasks && m'.tasks[t.id].containerId == s'.db[t.id].containerId
            && WorkerRuns(s', t.id, m'.tasks[t.id].containerId) && m'.tasks[t.id].state == Running
            && (t.containerId != "" ==> t.containerId !in s'.daemon.live)
            && m'.tasks[t.id].restartCount == t.restartCount + 1
            && Owns(m'.table, Owner(m', t.id), t) && m'.sent == m.sent
  {
    RestartMoves(cfg, m, t, env);
    WorkerOutcomes.StartTurn(s, o);
    ReportOutcome(cfg, RestartTask(cfg, m, t, env), Owner(m, t.id), W.RunTask(s, o).db[t.id], seen);
  }

  /** A restart that moves the task: its old worker is sent a stop which, when its turn comes there, removes
      the old container, so that only the one on the new worker is left. */
  lemma RelocationRoundTrip(cfg: Config, m: MState, t: Task, env: Env, former: W.WState, o: W.Oracle)
    requires ConfigOk(cfg) && Keyed(m.tasks) && t.id in m.tasks && m.tasks[t.id] == t && !t.manuallyStopped && t.id != NIL_ID
    requires Select(cfg.nodes, m.table, NextAttempt(t), Owner(m, t.id), env.cluster).0.Chosen?
    requires Owner(m, t.id) != "" && Select(cfg.nodes, m.table, NextAttempt(t), Owner(m, t.id), env.cluster).0 != Chosen(Owner(m, t.id))
    requires env.reply.Status? && env.reply.code == 201 && t.containerId != ""
    requires Keyed(former.db) && t.id in former.db && former.db[t.id].state in {Running, Completed, Failed} && former.db[t.id].containerId == t.containerId
    requires former.queue != [] && former.queue[0] == t.(state := Completed) && o.client && !o.stop.remove.Broken?
    ensures var m1 := RestartTask(cfg, m, t, env);
            && m1.sent == m.sent + [StopMessage(Owner(m, t.id), former.queue[0])]
            && t.id in m1.tasks && m1.tasks[t.id].containerId == "" && Owner(m1, t.id) != Owner(m, t.id)
            && forall k :: k in KeySet(t.ports) ==> Holder(m1.table, Owner(m, t.id), k) != Some(t.id)
    ensures t.containerId !in W.RunTask(former, o).daemon.live
  {
    RestartMoves(cfg, m, t, env);
    WorkerOutcomes.StopTurn(former, o);
  }
}
