/** A stop the user asked for is never undone by the restart machinery (markStopRequested in
    manager/restart.go), and exactly when a queued start forgets it. */
module ManualStops {
  import opened Base
  import opened Tasks
  import opened Reservations
  import opened Placement
  import opened ManagerModel
  import opened ManagerSafety
  import opened ManagerStartup
  import opened RestartBudget

  /** The record exists and carries the user's stop. */
  predicate Stopped(m: MState, id: Id) {
    id in m.tasks && m.tasks[id].manuallyStopped
  }

  /** A dispatch of `t` writes it over the record: the worker that owns it, or one that can take it,
      accepts it, or no worker can take it and it is ended. */
  predicate WritesOver(cfg: Config, m: MState, t: Task, env: Env) {
    var owner := Owner(m, t.id);
    if owner != "" then owner in cfg.nodes && !Conflicts(m.table, owner, t, true) && Accepted(env.reply)
    else match Select(cfg.nodes, m.table, t, "", env.cluster).0
         case Chosen(_) => Accepted(env.reply)
         case Unplaceable => true
         case Transient => false
  }

  /** The stop is forgotten by one step only: a dispatch that takes a start of the task from before the
      stop off the queue and writes it over the record. */
  predicate Forgets(cfg: Config, m: MState, st: Step, id: Id) {
    && st.Dispatch? && m.pending != [] && StartsTask(m.pending[0], id)
    && !m.pending[0].task.manuallyStopped && WritesOver(cfg, m, m.pending[0].task, st.env)
  }

  lemma DispatchForgetsIff(cfg: Config, m: MState, env: Env, id: Id)
    requires Keyed(m.tasks) && Stopped(m, id) && id in SendWork(cfg, m, env).tasks
    ensures SendWork(cfg, m, env).tasks[id].manuallyStopped <==> !Forgets(cfg, m, Dispatch(env), id)
  {
    if m.pending != [] && !IsStop(m.pending[0]) {
      match PrepareDispatch(cfg, m, env.cluster, env.now) {
        case Posted(m', call) =>
          PostedStart(cfg, m, env.cluster, env.now);
          AnswerForgetsIff(cfg, m', call, env.reply, env.now, id);
        case Done(_) =>
      }
    }
  }

  lemma AnswerForgetsIff(cfg: Config, m: MState, call: Call, reply: Reply, now: Instant, id: Id)
    requires !IsStop(call.event) && Stopped(m, id)
    ensures var m' := FinishDispatch(cfg, m, call, reply, NO_FAULTS, now);
            id in m'.tasks &&
            (m'.tasks[id].manuallyStopped <==>
             !(Accepted(reply) && call.event.task.id == id && !call.event.task.manuallyStopped))
  {
  }

  /** Restarting a stopped task cannot put it back to Scheduled, whatever the worker answers. */
  lemma RestartLeavesStopped(cfg: Config, m: MState, t: Task, env: Env)
    requires t.id in m.tasks && m.tasks[t.id] == t && t.manuallyStopped
    ensures var m' := RestartTask(cfg, m, t, env);
            && Stopped(m', t.id) && (m'.tasks[t.id].state.Scheduled? ==> t.state.Scheduled?)
            && m'.owners == m.owners
  {
  }

  lemma CarryKeepsStop(cfg: Config, m: MState, t: Task, v: Verdict, env: Env, id: Id)
    requires t.id in m.tasks && m.tasks[t.id] == t && Stopped(m, id)
    ensures Settled(m, Carry(cfg, m, t, v, env), id)
  {
    if v == Retry {
      if t.id == id { RestartLeavesStopped(cfg, m, t, env); } else { RestartCounts(cfg, m, t, env); }
    }
  }

  /** The stop is kept, and the record has not gone back to Scheduled. */
  predicate Settled(m: MState, m': MState, id: Id) {
    Stopped(m, id) && Stopped(m', id) && (m'.tasks[id].state.Scheduled? ==> m.tasks[id].state.Scheduled?)
  }

  predicate SaysScheduled(st: Step, id: Id) {
    st.Reported? && st.report.id == id && st.report.state.Scheduled?
  }

  lemma RequestsKeepStop(cfg: Config, m: MState, st: Step, id: Id)
    requires st.Submit? || st.AskStop? || st.StartChecker? || st.StopChecker? || st.Reboot?
    requires Keyed(m.tasks) && Stopped(m, id) && id in Apply(cfg, m, st).tasks
    ensures Settled(m, Apply(cfg, m, st), id)
  {
    if st.Reboot? { ScanKeepsStores(m.(owners := st.owners), Ascending(m.tasks.Keys)); }
  }

  lemma ReportsKeepStop(cfg: Config, m: MState, st: Step, id: Id)
    requires st.Reported? && Keyed(m.tasks) && Stopped(m, id)
    ensures Stopped(Apply(cfg, m, st), id) && (!SaysScheduled(st, id) ==> Settled(m, Apply(cfg, m, st), id))
  {
  }

  lemma VerdictsKeepStop(cfg: Config, m: MState, st: Step, id: Id)
    requires (st.Check? || st.HealthVerdict?) && Keyed(m.tasks) && Stopped(m, id)
    ensures Settled(m, Apply(cfg, m, st), id)
  {
    if st.id in m.tasks {
      var t := m.tasks[st.id];
      CarryKeepsStop(cfg, m, t, if st.Check? then JudgeStopped(cfg, t, st.passNow) else JudgeUnhealthy(cfg, t, st.env.now), st.env, id);
    }
  }

  /** Every step keeps the stop, exactly unless it is the one above. */
  lemma StopSurvivesIff(cfg: Config, m: MState, st: Step, id: Id)
    requires Keyed(m.tasks) && Stopped(m, id) && id in Apply(cfg, m, st).tasks
    ensures Stopped(Apply(cfg, m, st), id) <==> !Forgets(cfg, m, st, id)
  {
    match st {
      case Dispatch(env) => DispatchForgetsIff(cfg, m, env, id);
      case Check(_, _, _) => VerdictsKeepStop(cfg, m, st, id);
      case HealthVerdict(_, _) => VerdictsKeepStop(cfg, m, st, id);
      case Reported(_, _, _) => ReportsKeepStop(cfg, m, st, id);
      case _ => RequestsKeepStop(cfg, m, st, id);
    }
  }

  lemma StepLeavesStopped(cfg: Config, m: MState, st: Step, id: Id)
    requires Inv(cfg, m) && ConfigOk(cfg) && StepOk(st) && Stopped(m, id) && Dispatched(m, id) && id in Apply(cfg, m, st).tasks
    ensures Stopped(Apply(cfg, m, st), id) && (!SaysScheduled(st, id) ==> Settled(m, Apply(cfg, m, st), id))
  {
    match st {
      case Dispatch(env) => DispatchUntouched(cfg, m, env, id);
      case Check(_, _, _) => VerdictsKeepStop(cfg, m, st, id);
      case HealthVerdict(_, _) => VerdictsKeepStop(cfg, m, st, id);
      case Reported(_, _, _) => ReportsKeepStop(cfg, m, st, id);
      case _ => RequestsKeepStop(cfg, m, st, id);
    }
  }

  /** Over whole runs: once a dispatched task is stopped by the user it stays stopped, and no restart
      policy, health check or crash ever schedules it again; only its worker may still report it so. */
  lemma {:induction false} StopIsFinal(cfg: Config, m: MState, steps: seq<Step>, id: Id)
    requires Inv(cfg, m) && ConfigOk(cfg) && Stopped(m, id) && Dispatched(m, id)
    requires forall i :: 0 <= i < |steps| ==> StepOk(steps[i])
    requires LivesThrough(cfg, m, steps, id)
    ensures Stopped(Run(cfg, m, steps), id)
    ensures Run(cfg, m, steps).tasks[id].state.Scheduled? ==>
              m.tasks[id].state.Scheduled? || exists i :: 0 <= i < |steps| && SaysScheduled(steps[i], id)
    decreases |steps|
  {
    if steps != [] {
      var m1 := Apply(cfg, m, steps[0]);
      StepLeavesStopped(cfg, m, steps[0], id);
      StepAccounts(cfg, m, steps[0], id);
      StepKeepsInv(cfg, m, steps[0]);
      StopIsFinal(cfg, m1, steps[1..], id);
      assert Run(cfg, m, steps) == Run(cfg, m1, steps[1..]);
      if i :| 0 <= i < |steps[1..]| && SaysScheduled(steps[1..][i], id) { assert SaysScheduled(steps[i + 1], id); }
    }
  }
}
