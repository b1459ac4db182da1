/** After a worker's 201: both writes or neither, whatever ran in between and whatever the stores do. */
module CommitAtomicity {
  import opened Tasks
  import opened Reservations
  import opened Placement
  import opened ManagerModel
  import opened ManagerSafety

  // ---- the two outcomes ----

  /** Record and assignment both say the task runs on `w`, and `w` is not asked to stop anything. */
  ghost predicate Recorded(m: MState, m': MState, t: Task, w: Address) {
    && t.id in m.tasks && m'.tasks == m.tasks[t.id := t] && m'.owners == m.owners[t.id := w]
    && |m.sent| <= |m'.sent| && forall i :: |m.sent| <= i < |m'.sent| ==> m'.sent[i].worker != w
  }

  /** The stores are as the commit found them, the task's keys on `w` are given back, and `w` is asked
      to stop the task it has just accepted. */
  ghost predicate Undone(m: MState, m': MState, t: Task, w: Address) {
    && m'.tasks == m.tasks && m'.owners == m.owners
    && m'.table == Released(m.table, w, t)
    && (exists stop: Task :: stop.id == t.id && m'.sent == m.sent + [StopFor(w, stop)])
  }

  /** The one combination of failures that leaves the stores disagreeing: the record could not be
      written, the assignment could not be put back, and it was not `w` to begin with. */
  predicate Stranded(m: MState, id: Id, w: Address, f: Faults) {
    && !f.readTask && !f.readOwner && !f.putOwner && f.putTask && f.restoreOwner
    && !(id in m.owners && m.owners[id] == w)
  }

  predicate RealTarget(id: Id, w: Address) {
    id != NIL_ID && w != ""
  }

  lemma CommitWritesOutcome(m: MState, t: Task, w: Address, f: Faults)
    requires t.id in m.tasks && !f.readTask && !f.readOwner
    ensures var (m', ok) := CommitWrites(m, t, w, f);
            && m'.table == m.table && m'.sent == m.sent && m'.pending == m.pending
            && (ok <==> !f.putOwner && !f.putTask)
            && (ok ==> Recorded(m, m', t, w))
            && (!ok ==> m'.tasks == m.tasks && (m'.owners == m.owners <==> !Stranded(m, t.id, w, f)))
  {
  }

  // ---- the start path of SendWork ----

  /** From any state the manager may have moved to since the POST: the commit is all or nothing, except
      exactly when the failures strand the assignment. A failed store call puts the same event back on
      the queue. */
  lemma DispatchCommitIsAtomic(m: MState, call: Call, echo: Task, f: Faults)
    requires call.reserved && RealTarget(call.event.task.id, call.worker)
    ensures var t := call.event.task;
            var m' := CommitDispatch(m, call, echo, f);
            (Recorded(m, m', t, call.worker) && m'.table == m.table) || Undone(m, m', t, call.worker)
            <==> !(t.id in m.tasks && Stranded(m, t.id, call.worker, f))
    ensures var t := call.event.task;
            var lost := !f.readTask && t.id !in m.tasks;
            var faulty := f.readTask || f.readOwner || f.putOwner || f.putTask;
            CommitDispatch(m, call, echo, f).pending == if !lost && faulty then m.pending + [call.event] else m.pending
  {
    var t, w := call.event.task, call.worker;
    var m' := CommitDispatch(m, call, echo, f);
    var cleanup := CleanupTask(echo, t);
    assert m'.sent == m.sent + [StopFor(w, cleanup)] || m'.sent == m.sent;
    if t.id in m.tasks && !f.readTask && !f.readOwner {
      CommitWritesOutcome(m, t, w, f);
      if f.putOwner || f.putTask { assert m'.sent[|m.sent|] == StopFor(w, cleanup); }
    }
  }

  /** A dispatch that loses its record meanwhile never brings it back, and its event is dropped rather
      than retried. */
  lemma DispatchNeverRevives(m: MState, call: Call, echo: Task, f: Faults)
    requires !f.readTask && call.event.task.id !in m.tasks && call.reserved && RealTarget(call.event.task.id, call.worker)
    ensures var m' := CommitDispatch(m, call, echo, f);
            Undone(m, m', call.event.task, call.worker) && m'.pending == m.pending
  {
  }

  // ---- restartTask ----

  /** The same for a restart, which also gives way to a stop the user asked for meanwhile. */
  lemma RestartCommitIsAtomic(m: MState, r: Restart, echo: Task, f: Faults)
    requires r.next.id == r.prev.id && RealTarget(r.prev.id, r.worker)
    ensures var id := r.prev.id;
            var m' := CommitRestart(m, r, echo, f);
            Recorded(m, m', r.next, r.worker) || Undone(m, m', r.next, r.worker)
            <==> !(id in m.tasks && !m.tasks[id].manuallyStopped && Stranded(m, id, r.worker, f))
  {
    var id, w := r.prev.id, r.worker;
    var m' := CommitRestart(m, r, echo, f);
    var cleanup := CleanupTask(echo, r.next);
    assert cleanup.id == id;
    if f.readTask || id !in m.tasks || m.tasks[id].manuallyStopped || f.readOwner {
      assert m'.sent == m.sent + [StopFor(w, cleanup)];
    } else {
      CommitWritesOutcome(m, r.next, w, f);
      if f.putOwner || f.putTask {
        assert m'.sent == m.sent + [StopFor(w, cleanup)] && m'.sent[|m.sent|] == StopFor(w, cleanup);
      }
    }
  }

  /** A deleted record stays deleted, and a manually stopped one is not overwritten. */
  lemma RestartRespectsTheUser(m: MState, r: Restart, echo: Task, f: Faults)
    requires r.next.id == r.prev.id && RealTarget(r.prev.id, r.worker)
    requires r.prev.id in m.tasks ==> m.tasks[r.prev.id].manuallyStopped
    ensures Undone(m, CommitRestart(m, r, echo, f), r.next, r.worker)
  {
  }

  /** A restart over both its halves: prepared from any record in one state, its 201 processed in any
      other, so whatever steps, halves of steps and crashes came between. Only a failing restore write
      can break the all-or-nothing outcome. */
  lemma RestartSpansAnything(cfg: Config, m: MState, t: Task, c: Cluster, now: Instant, later: MState, echo: Task, f: Faults)
    requires ConfigOk(cfg) && t.id != NIL_ID && !f.restoreOwner
    requires PrepareRestart(cfg, m, t, c, now).Posted?
    ensures var r := PrepareRestart(cfg, m, t, c, now).call;
            var m' := FinishRestart(cfg, later, r, Status(CREATED, echo), f, now);
            && r.worker in cfg.nodes && r.next.id == t.id
            && (Recorded(later, m', r.next, r.worker) || Undone(later, m', r.next, r.worker))
            && (t.id !in later.tasks ==> t.id !in m'.tasks)
            && (t.id in later.tasks && later.tasks[t.id].manuallyStopped ==> m'.tasks == later.tasks)
  {
    PlacementSound(cfg.nodes, m.table, NextAttempt(t), Owner(m, t.id), c);
    var r := PrepareRestart(cfg, m, t, c, now).call;
    RestartCommitIsAtomic(later, r, echo, f);
    if t.id !in later.tasks || later.tasks[t.id].manuallyStopped { RestartRespectsTheUser(later, r, echo, f); }
  }

  /** The whole start path likewise. */
  lemma DispatchSpansAnything(cfg: Config, m: MState, c: Cluster, now: Instant, later: MState, echo: Task, f: Faults)
    requires ConfigOk(cfg) && m.pending != [] && !IsStop(m.pending[0]) && m.pending[0].task.id != NIL_ID && !f.restoreOwner
    requires PrepareDispatch(cfg, m, c, now).Posted?
    ensures var call := PrepareDispatch(cfg, m, c, now).call;
            var m' := FinishDispatch(cfg, later, call, Status(CREATED, echo), f, now);
            var t := call.event.task;
            && call.worker in cfg.nodes && t.id == m.pending[0].task.id
            && (Recorded(later, m', t, call.worker) || Undone(later, m', t, call.worker))
            && (t.id !in later.tasks ==> t.id !in m'.tasks)
  {
    PostedStart(cfg, m, c, now);
    var call := PrepareDispatch(cfg, m, c, now).call;
    DispatchCommitIsAtomic(later, call, echo, f);
    assert FinishDispatch(cfg, later, call, Status(CREATED, echo), f, now) == CommitDispatch(later, call, echo, f);
  }

  // ---- reservations when the halves are interleaved ----

  /** The start path of SendWork does not release an owner that appeared while its POST was in flight:
      its commit keeps every reservation backed, whatever other operations hold in flight, exactly when
      what the task holds on other workers is held by those. */
  lemma DispatchCommitBackedIff(m: MState, call: Call, echo: Task, moves: set<Move>)
    requires var t := call.event.task;
             Backed(m, moves + {MoveOf(t, call.worker)}) && t.id in m.tasks && m.tasks[t.id].ports == t.ports
    ensures Backed(CommitDispatch(m, call, echo, NO_FAULTS), moves) <==> ElsewhereInFlight(m, call, moves)
  {
    CommitBackedIff(m, call, moves);
  }
}
