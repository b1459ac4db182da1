/** What one dispatch leaves behind, whatever the worker answers (manager/dispatch.go). */
module DispatchOutcomes {
  import opened Base
  import opened Tasks
  import opened Ports
  import opened Reservations
  import opened Placement
  import opened ManagerModel
  import opened RequestOutcomes

  /** The queue without its oldest event, and everything else as it was. */
  function Rest(m: MState): MState
    requires m.pending != []
  {
    m.(pending := m.pending[1..])
  }

  // ---- stops ----

  /** The oldest event stops a task that a configured worker owns. */
  ghost predicate StopAtHead(cfg: Config, m: MState) {
    && m.pending != [] && (m.pending[0].state == Completed || m.pending[0].task.state == Completed)
    && Owner(m, m.pending[0].task.id) != "" && Owner(m, m.pending[0].task.id) in cfg.nodes
  }

  /** Exactly that event goes to that worker; nothing is reserved for it. */
  lemma StopIsPosted(cfg: Config, m: MState, c: Cluster, now: Instant)
    requires StopAtHead(cfg, m)
    ensures PrepareDispatch(cfg, m, c, now) == Posted(Rest(m), Call(m.pending[0], Owner(m, m.pending[0].task.id), false))
  {
  }

  /** A stop that its worker has taken, or whose task the worker does not know, frees the task's keys there and
      nothing else; a refused one is dropped without a trace; one without an answer is queued again, last. */
  lemma StopAnswered(cfg: Config, m: MState, env: Env)
    requires StopAtHead(cfg, m)
    ensures var e := m.pending[0];
            var m' := SendWork(cfg, m, env);
            && m' == m.(pending := m'.pending, table := m'.table)
            && m'.pending == m.pending[1..] + (if env.reply == Unreached then [e] else [])
            && (if env.reply != Unreached && env.reply.code in {201, 404}
                then GivesUp(m.table, m'.table, Owner(m, e.task.id), e.task)
                else m'.table == m.table)
  {
    StopIsPosted(cfg, m, env.cluster, env.now);
    ReleaseGivesUp(m.table, Owner(m, m.pending[0].task.id), m.pending[0].task);
  }

  /** So whoever was refused a port only because of the stopped task can have it now. */
  lemma StopMakesRoom(cfg: Config, m: MState, env: Env, u: Task)
    requires StopAtHead(cfg, m) && env.reply.Status? && env.reply.code in {201, 404}
    requires var t := m.pending[0].task;
             forall k :: k in KeySet(u.ports) ==>
               Holder(m.table, Owner(m, t.id), k) == None || (k in KeySet(t.ports) && Holder(m.table, Owner(m, t.id), k) == Some(t.id))
    ensures forall k :: k in KeySet(u.ports) ==> Holder(SendWork(cfg, m, env).table, Owner(m, m.pending[0].task.id), k) == None
    ensures !Conflicts(SendWork(cfg, m, env).table, Owner(m, m.pending[0].task.id), u, false)
  {
    StopAnswered(cfg, m, env);
  }

  /** A stop of a task that no worker owns deletes the record, if there is one. */
  lemma UnownedStop(cfg: Config, m: MState, env: Env)
    requires m.pending != [] && (m.pending[0].state == Completed || m.pending[0].task.state == Completed)
    requires Keyed(m.tasks) && Owner(m, m.pending[0].task.id) == ""
    ensures var t := m.pending[0].task;
            var m' := SendWork(cfg, m, env);
            if t.id in m.tasks then Deleted(Rest(m), m', m.tasks[t.id]) && m'.sent == m.sent && m'.table == m.table
            else m' == Rest(m)
  {
    var t := m.pending[0].task;
    if t.id in m.tasks { DeleteOutcome(Rest(m), m.tasks[t.id]); }
  }

  /** An event for a worker that is not configured, start or stop, waits behind the others. */
  lemma UnknownOwnerWaits(cfg: Config, m: MState, env: Env)
    requires m.pending != [] && Owner(m, m.pending[0].task.id) != "" && Owner(m, m.pending[0].task.id) !in cfg.nodes
    ensures SendWork(cfg, m, env) == m.(pending := m.pending[1..] + [m.pending[0]])
  {
  }

  // ---- starts ----

  ghost predicate StartAtHead(m: MState) {
    m.pending != [] && m.pending[0].state != Completed && m.pending[0].task.state != Completed
  }

  /** Another task holds a key this one needs on `w`. */
  ghost predicate Taken(m: MState, w: Address, t: Task) {
    exists k :: k in KeySet(t.ports) && Holder(m.table, w, k).Some? && Holder(m.table, w, k) != Some(t.id)
  }

  /** A start is posted if and only if its task has a configured owner that has its ports to give, or has no
      owner, is still recorded, and is placed; a start with an owner goes nowhere else. It is posted as
      Scheduled with all its keys reserved on that worker, and no other entry, record or assignment changed. */
  lemma StartIsPostedIff(cfg: Config, m: MState, c: Cluster, now: Instant)
    requires StartAtHead(m)
    ensures var t := m.pending[0].task;
            var owner := Owner(m, t.id);
            PrepareDispatch(cfg, m, c, now).Posted? <==>
              if owner != "" then owner in cfg.nodes && !Taken(m, owner, t)
              else t.id in m.tasks && Select(cfg.nodes, m.table, t, "", c).0.Chosen?
    ensures PrepareDispatch(cfg, m, c, now).Posted? ==>
              var t := m.pending[0].task;
              var Posted(m1, call) := PrepareDispatch(cfg, m, c, now);
              && (Owner(m, t.id) != "" ==> call.worker == Owner(m, t.id))
              && (Owner(m, t.id) == "" ==> Select(cfg.nodes, m.table, t, "", c).0 == Chosen(call.worker))
              && call.event == Event(Scheduled, t.(state := Scheduled)) && call.reserved
              && KeysSet(m.table, m1.table, call.worker, KeySet(t.ports), Some(t.id))
              && m1 == Rest(m).(table := m1.table)
  {
    var t := m.pending[0].task;
    var owner := Owner(m, t.id);
    assert Conflicts(m.table, owner, t, true) <==> Taken(m, owner, t) by {
      if k :| k in KeySet(t.ports) && Blocks(m.table, owner, k, t.id, true) { assert Holder(m.table, owner, k) != Some(t.id); }
      if k :| k in KeySet(t.ports) && Holder(m.table, owner, k).Some? && Holder(m.table, owner, k) != Some(t.id) {
        assert Blocks(m.table, owner, k, t.id, true);
      }
    }
    if PrepareDispatch(cfg, m, c, now).Posted? { ReserveSets(m.table, PrepareDispatch(cfg, m, c, now).call.worker, t); }
  }

  /** What a start that is not posted comes to. */
  lemma StartNotPosted(cfg: Config, m: MState, env: Env)
    requires StartAtHead(m) && !PrepareDispatch(cfg, m, env.cluster, env.now).Posted?
    ensures var e := m.pending[0];
            var t := e.task;
            var owner := Owner(m, t.id);
            var m' := SendWork(cfg, m, env);
            if owner != "" then
              if owner in cfg.nodes
              then FailedWith(cfg, m, m', t.id, t.restartCount, env.now) && m' == Rest(m).(tasks := m'.tasks)
              else m' == m.(pending := m.pending[1..] + [e])
            else if t.id !in m.tasks then m' == Rest(m)
            else if Select(cfg.nodes, m.table, t, "", env.cluster).0 == Transient then m' == m.(pending := m.pending[1..] + [e])
            else EndedAs(Rest(m), m', t, env.now) && m'.sent == m.sent
  {
    var t := m.pending[0].task;
    StartIsPostedIff(cfg, m, env.cluster, env.now);
    MarkFailedOutcome(cfg, Rest(m), t.id, t.restartCount, PORTS_TAKEN, env.now);
    EndingOutcome(Rest(m), t, UNSCHEDULABLE, env.now);
  }

  /** The state in which the answer to a posted start finds the manager is any state at all. Without an answer
      the keys are free and the start waits again; a refusal frees them too, fails the record and costs a restart;
      an acceptance writes record and assignment and nothing else, or, if the record is gone, frees the keys and
      sends a stop. */
  lemma StartAnswered(cfg: Config, m: MState, call: Call, reply: Reply, now: Instant)
    requires call.reserved && !IsStop(call.event)
    ensures var t, w := call.event.task, call.worker;
            var m' := FinishDispatch(cfg, m, call, reply, NO_FAULTS, now);
            match reply
            case Unreached => GivesUp(m.table, m'.table, w, t) && m' == m.(table := m'.table, pending := m.pending + [call.event])
            case Status(code, echo) =>
              if code != 201 then
                && GivesUp(m.table, m'.table, w, t) && FailedWith(cfg, m, m', t.id, t.restartCount + 1, now)
                && m' == m.(table := m'.table, tasks := m'.tasks)
              else if t.id in m.tasks then m' == m.(tasks := m.tasks[t.id := t], owners := m.owners[t.id := w])
              else
                && GivesUp(m.table, m'.table, w, t)
                && m' == m.(table := m'.table, sent := m.sent +
                     (if w == "" || t.id == NIL_ID then []
                      else [StopMessage(w, (if echo.id == t.id then echo else t).(state := Completed))]))
  {
    var t, w := call.event.task, call.worker;
    ReleaseGivesUp(m.table, w, t);
    MarkFailedOutcome(cfg, ReleaseOn(m, w, t), t.id, t.restartCount + 1, REJECTED, now);
  }

  /** Both halves together: whether the task holds its keys on the worker afterwards is decided by the answer,
      and its event is back in the queue, last, if and only if there was none. */
  lemma StartDispatched(cfg: Config, m: MState, env: Env)
    requires StartAtHead(m) && m.pending[0].task.id in m.tasks && PrepareDispatch(cfg, m, env.cluster, env.now).Posted?
    ensures var t := m.pending[0].task.(state := Scheduled);
            var w := PrepareDispatch(cfg, m, env.cluster, env.now).call.worker;
            var m' := SendWork(cfg, m, env);
            var accepted := env.reply.Status? && env.reply.code == 201;
            && KeysSet(m.table, m'.table, w, KeySet(t.ports), if accepted then Some(t.id) else None)
            && m'.pending == m.pending[1..] + (if env.reply == Unreached then [Event(Scheduled, t)] else [])
            && m'.sent == m.sent && m'.watched == m.watched
            && m'.owners == (if accepted then m.owners[t.id := w] else m.owners)
            && (accepted ==> m'.tasks == m.tasks[t.id := t])
            && (env.reply == Unreached ==> m'.tasks == m.tasks)
            && (env.reply != Unreached && !accepted ==> FailedWith(cfg, m, m', t.id, t.restartCount + 1, env.now))
  {
    StartIsPostedIff(cfg, m, env.cluster, env.now);
    var Posted(m1, call) := PrepareDispatch(cfg, m, env.cluster, env.now);
    StartAnswered(cfg, m1, call, env.reply, env.now);
    var m' := SendWork(cfg, m, env);
    var accepted := env.reply.Status? && env.reply.code == 201;
    if !accepted { ReserveThenGiveUp(m.table, m1.table, m'.table, call.worker, call.event.task); }
  }
}
