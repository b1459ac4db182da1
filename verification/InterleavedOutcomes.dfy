/** The user's stop and a terminal failure when operations interleave: exactly which steps undo them. */
module InterleavedOutcomes {
  import opened Base
  import opened Tasks
  import opened Reservations
  import opened Placement
  import opened ManagerModel
  import opened ManagerSafety
  import opened ManagerStartup
  import opened RestartBudget
  import opened ManualStops
  import opened TerminalTasks
  import opened Interleaving

  // ---- the user's stop ----

  /** The step writes over the record a task from before the stop: a queued or posted start, or a record
      listed earlier that is ended now. */
  predicate Unstops(cfg: Config, s: IState, st: IStep, id: Id) {
    match st
    case Whole(step) => Forgets(cfg, s.m, step, id)
    case PostStart(c, _) =>
      && s.dispatch == None && s.m.pending != [] && StartsTask(s.m.pending[0], id) && !s.m.pending[0].task.manuallyStopped
      && Owner(s.m, id) == "" && Select(cfg.nodes, s.m.table, s.m.pending[0].task, "", c).0.Unplaceable?
    case AnswerStart(reply, f, _) =>
      && s.dispatch.Some? && Commits(s.m, s.dispatch.value, reply, f)
      && s.dispatch.value.event.task.id == id && !s.dispatch.value.event.task.manuallyStopped
    case PostRestart(t, c, _) =>
      t.id == id && !t.manuallyStopped && Select(cfg.nodes, s.m.table, NextAttempt(t), Owner(s.m, id), c).0.Unplaceable?
    case EndListed(t, _, _) => t.id == id && !t.manuallyStopped
    case _ => false
  }

  /** A restart in flight never undoes the stop: its commit looks at the record. */
  lemma AnsweredRestartKeepsStop(cfg: Config, m: MState, r: Restart, reply: Reply, f: Faults, now: Instant, id: Id)
    requires r.next.id == r.prev.id && Stopped(m, id)
    ensures Stopped(FinishRestart(cfg, m, r, reply, f, now), id)
  {
  }

  lemma AnsweredStartUnstopsIff(cfg: Config, m: MState, call: Call, reply: Reply, f: Faults, now: Instant, id: Id)
    requires Stopped(m, id) && !f.restoreOwner
    ensures var m' := FinishDispatch(cfg, m, call, reply, f, now);
            id in m'.tasks &&
            (Stopped(m', id) <==> !(Commits(m, call, reply, f) && call.event.task.id == id && !call.event.task.manuallyStopped))
  {
  }

  lemma PostedStartUnstopsIff(cfg: Config, s: IState, c: Cluster, now: Instant, id: Id)
    requires Stopped(s.m, id) && Keyed(s.m.tasks) && s.dispatch == None && id in PrepareDispatch(cfg, s.m, c, now).m.tasks
    ensures Stopped(PrepareDispatch(cfg, s.m, c, now).m, id) <==> !Unstops(cfg, s, PostStart(c, now), id)
  {
  }

  /** Every step keeps the user's stop exactly unless it is one of those. */
  lemma StopSurvivesStepIff(cfg: Config, s: IState, st: IStep, id: Id)
    requires IInv(cfg, s) && Assumed(s, st) && Stopped(s.m, id) && id in IApply(cfg, s, st).m.tasks
    ensures Stopped(IApply(cfg, s, st).m, id) <==> !Unstops(cfg, s, st, id)
  {
    match st {
      case Whole(step) => StopSurvivesIff(cfg, s.m, step, id);
      case PostStart(c, now) => if s.dispatch == None { PostedStartUnstopsIff(cfg, s, c, now, id); }
      case AnswerStart(reply, f, now) => if s.dispatch.Some? { AnsweredStartUnstopsIff(cfg, s.m, s.dispatch.value, reply, f, now, id); }
      case PostRestart(t, c, now) =>
      case EndListed(t, reason, now) =>
      case AnswerRestart(i, reply, f, now) =>
        if i < |s.restarts| {
          assert s.restarts[i] in s.restarts;
          AnsweredRestartKeepsStop(cfg, s.m, s.restarts[i], reply, f, now, id);
        }
      case Crash(owners) => ScanKeepsStores(s.m.(owners := owners), Ascending(s.m.tasks.Keys));
    }
  }

  // ---- a terminal failure ----

  /** A dispatch that takes a start of the task off the queue and does not leave it there or end the task. */
  predicate DispatchRevives(cfg: Config, m: MState, t: Task, c: Cluster, reply: Reply) {
    var owner := Owner(m, t.id);
    if owner != "" then owner in cfg.nodes && (Conflicts(m.table, owner, t, true) || reply.Status?)
    else Select(cfg.nodes, m.table, t, "", c).0.Chosen? && reply.Status?
  }

  /** The step commits or fails an attempt that was made before the task was ended. */
  predicate Revives(cfg: Config, s: IState, st: IStep, id: Id) {
    match st
    case Whole(Dispatch(env)) =>
      s.m.pending != [] && StartsTask(s.m.pending[0], id) && DispatchRevives(cfg, s.m, s.m.pending[0].task, env.cluster, env.reply)
    case PostStart(c, _) =>
      && s.dispatch == None && s.m.pending != [] && StartsTask(s.m.pending[0], id)
      && Owner(s.m, id) in cfg.nodes && Owner(s.m, id) != "" && Conflicts(s.m.table, Owner(s.m, id), s.m.pending[0].task, true)
    case AnswerStart(reply, f, _) =>
      && s.dispatch.Some? && StartsTask(s.dispatch.value.event, id)
      && (Commits(s.m, s.dispatch.value, reply, f) || (reply.Status? && reply.code != CREATED))
    case PostRestart(t, c, _) =>
      t.id == id && Select(cfg.nodes, s.m.table, NextAttempt(t), Owner(s.m, id), c).0.Transient?
    case AnswerRestart(i, reply, f, _) =>
      i < |s.restarts| && s.restarts[i].prev.id == id && id in s.m.tasks &&
      (!Accepted(reply) || (!s.m.tasks[id].manuallyStopped && !f.readTask && !f.readOwner && !f.putOwner && !f.putTask))
    case _ => false
  }

  lemma PostRevivesIff(cfg: Config, m: MState, c: Cluster, now: Instant, id: Id)
    requires Keyed(m.tasks) && Ended(m, id) && id in PrepareDispatch(cfg, m, c, now).m.tasks
    ensures Ended(PrepareDispatch(cfg, m, c, now).m, id) <==> !Revives(cfg, IState(m, None, []), PostStart(c, now), id)
  {
  }

  lemma AnswerRevivesIff(cfg: Config, m: MState, call: Call, reply: Reply, f: Faults, now: Instant, id: Id)
    requires Ended(m, id) && !f.restoreOwner && (StartsTask(call.event, id) ==> call.event.task.state.Scheduled?)
    ensures var m' := FinishDispatch(cfg, m, call, reply, f, now);
            id in m'.tasks &&
            (Ended(m', id) <==>
             !(StartsTask(call.event, id) && (Commits(m, call, reply, f) || (reply.Status? && reply.code != CREATED))))
  {
  }

  lemma DispatchRevivesIff(cfg: Config, m: MState, env: Env, id: Id)
    requires Keyed(m.tasks) && Ended(m, id) && id in SendWork(cfg, m, env).tasks
    ensures Ended(SendWork(cfg, m, env), id) <==> !Revives(cfg, IState(m, None, []), Whole(Dispatch(env)), id)
  {
    match PrepareDispatch(cfg, m, env.cluster, env.now) {
      case Done(_) => PostRevivesIff(cfg, m, env.cluster, env.now, id);
      case Posted(m', call) =>
        if !IsStop(m.pending[0]) { PostedStart(cfg, m, env.cluster, env.now); }
        AnswerRevivesIff(cfg, m', call, env.reply, NO_FAULTS, env.now, id);
    }
  }

  lemma AnsweredRestartRevivesIff(cfg: Config, m: MState, r: Restart, reply: Reply, f: Faults, now: Instant, id: Id)
    requires Ended(m, id) && !f.restoreOwner && r.next.id == r.prev.id && r.next.state.Scheduled?
    ensures var m' := FinishRestart(cfg, m, r, reply, f, now);
            id in m'.tasks &&
            (Ended(m', id) <==>
             !(r.prev.id == id &&
               (!Accepted(reply) || (!m.tasks[id].manuallyStopped && !f.readTask && !f.readOwner && !f.putOwner && !f.putTask))))
  {
  }

  lemma PostedRestartRevivesIff(cfg: Config, m: MState, t: Task, c: Cluster, now: Instant, id: Id)
    requires Ended(m, id)
    ensures var m' := PrepareRestart(cfg, m, t, c, now).m;
            id in m'.tasks &&
            (Ended(m', id) <==> !(t.id == id && Select(cfg.nodes, m.table, NextAttempt(t), Owner(m, id), c).0.Transient?))
  {
  }

  lemma WholeRevivesIff(cfg: Config, s: IState, step: Step, id: Id)
    requires Keyed(s.m.tasks) && !step.Reboot? && Ended(s.m, id) && id in Apply(cfg, s.m, step).tasks
    ensures Ended(Apply(cfg, s.m, step), id) <==> !Revives(cfg, s, Whole(step), id)
  {
    var m := s.m;
    match step {
      case Dispatch(env) => DispatchRevivesIff(cfg, m, env, id);
      case Check(i, now, env) => if i in m.tasks { CarryOnOther(cfg, m, m.tasks[i], JudgeStopped(cfg, m.tasks[i], now), env, id); }
      case HealthVerdict(i, env) => if i in m.tasks { CarryOnOther(cfg, m, m.tasks[i], JudgeUnhealthy(cfg, m.tasks[i], env.now), env, id); }
      case _ => RequestLeavesEnded(cfg, m, step, id);
    }
  }

  /** Every step keeps a terminal failure exactly unless it is one of those. */
  lemma EndedSurvivesStepIff(cfg: Config, s: IState, st: IStep, id: Id)
    requires IInv(cfg, s) && Assumed(s, st) && Ended(s.m, id) && id in IApply(cfg, s, st).m.tasks
    ensures Ended(IApply(cfg, s, st).m, id) <==> !Revives(cfg, s, st, id)
  {
    match st {
      case Whole(step) => WholeRevivesIff(cfg, s, step, id);
      case PostStart(c, now) => if s.dispatch == None { PostRevivesIff(cfg, s.m, c, now, id); }
      case AnswerStart(reply, f, now) => if s.dispatch.Some? { AnswerRevivesIff(cfg, s.m, s.dispatch.value, reply, f, now, id); }
      case PostRestart(t, c, now) => PostedRestartRevivesIff(cfg, s.m, t, c, now, id);
      case EndListed(t, reason, now) =>
      case AnswerRestart(i, reply, f, now) =>
        if i < |s.restarts| {
          assert s.restarts[i] in s.restarts;
          AnsweredRestartRevivesIff(cfg, s.m, s.restarts[i], reply, f, now, id);
        }
      case Crash(owners) => ScanKeepsStores(s.m.(owners := owners), Ascending(s.m.tasks.Keys));
    }
  }

  // ---- whole interleaved runs ----

  ghost predicate AlwaysThere(cfg: Config, s: IState, steps: seq<IStep>, id: Id)
    decreases |steps|
  {
    id in s.m.tasks && (steps != [] ==> AlwaysThere(cfg, IApply(cfg, s, steps[0]), steps[1..], id))
  }

  ghost predicate AlwaysStopped(cfg: Config, s: IState, steps: seq<IStep>, id: Id)
    decreases |steps|
  {
    Stopped(s.m, id) && (steps != [] ==> AlwaysStopped(cfg, IApply(cfg, s, steps[0]), steps[1..], id))
  }

  ghost predicate NeverUnstops(cfg: Config, s: IState, steps: seq<IStep>, id: Id)
    decreases |steps|
  {
    steps != [] ==> !Unstops(cfg, s, steps[0], id) && NeverUnstops(cfg, IApply(cfg, s, steps[0]), steps[1..], id)
  }

  ghost predicate AlwaysEnded(cfg: Config, s: IState, steps: seq<IStep>, id: Id)
    decreases |steps|
  {
    Ended(s.m, id) && (steps != [] ==> AlwaysEnded(cfg, IApply(cfg, s, steps[0]), steps[1..], id))
  }

  ghost predicate NeverRevives(cfg: Config, s: IState, steps: seq<IStep>, id: Id)
    decreases |steps|
  {
    steps != [] ==> !Revives(cfg, s, steps[0], id) && NeverRevives(cfg, IApply(cfg, s, steps[0]), steps[1..], id)
  }

  /** Over any interleaving, a task the user stopped stays stopped until it is deleted, and an ended one
      stays ended, exactly when no step writes an attempt from before over it. */
  lemma {:induction false} OutcomesLastIff(cfg: Config, s: IState, steps: seq<IStep>, id: Id)
    requires AlwaysInv(cfg, s, steps) && AllAssumed(cfg, s, steps) && AlwaysThere(cfg, s, steps, id)
    ensures Stopped(s.m, id) ==> (AlwaysStopped(cfg, s, steps, id) <==> NeverUnstops(cfg, s, steps, id))
    ensures Ended(s.m, id) ==> (AlwaysEnded(cfg, s, steps, id) <==> NeverRevives(cfg, s, steps, id))
    decreases |steps|
  {
    if steps != [] {
      var next := IApply(cfg, s, steps[0]);
      OutcomesLastIff(cfg, next, steps[1..], id);
      if Stopped(s.m, id) { StopSurvivesStepIff(cfg, s, steps[0], id); }
      if Ended(s.m, id) { EndedSurvivesStepIff(cfg, s, steps[0], id); }
    }
  }
}
