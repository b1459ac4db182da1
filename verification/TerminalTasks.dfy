/** What ends a task and what leaves it retryable (stopTaskTerminal, markFailed and the judgement of
    restartFailedTasks in manager/restart.go). */
module TerminalTasks {
  import opened Base
  import opened Tasks
  import opened WorkerSync
  import opened ManagerModel
  import opened ManagerSafety
  import opened ManagerStartup
  import opened RestartBudget
  import opened RestartSpacing

  predicate Ended(m: MState, id: Id) {
    id in m.tasks && m.tasks[id].IsTerminal()
  }

  lemma CarryOnOther(cfg: Config, m: MState, t: Task, v: Verdict, env: Env, id: Id)
    requires t.id in m.tasks && m.tasks[t.id] == t && id in m.tasks && (t.id != id || v == Leave)
    ensures var m' := Carry(cfg, m, t, v, env); id in m'.tasks && m'.tasks[id] == m.tasks[id]
  {
    if v == Retry { RestartCounts(cfg, m, t, env); }
  }

  lemma RequestLeavesEnded(cfg: Config, m: MState, st: Step, id: Id)
    requires !st.Dispatch? && !st.Check? && !st.HealthVerdict?
    requires Keyed(m.tasks) && Ended(m, id) && id in Apply(cfg, m, st).tasks
    ensures Ended(Apply(cfg, m, st), id)
  {
    if st.Reboot? { ScanKeepsStores(m.(owners := st.owners), Ascending(m.tasks.Keys)); }
  }

  lemma StepLeavesEnded(cfg: Config, m: MState, st: Step, id: Id)
    requires Inv(cfg, m) && ConfigOk(cfg) && StepOk(st) && Dispatched(m, id) && Ended(m, id) && id in Apply(cfg, m, st).tasks
    ensures Ended(Apply(cfg, m, st), id) && VerdictOn(cfg, m, st, id) == Leave
  {
    match st {
      case Dispatch(env) => DispatchUntouched(cfg, m, env, id);
      case Check(i, now, env) => if i in m.tasks { CarryOnOther(cfg, m, m.tasks[i], JudgeStopped(cfg, m.tasks[i], now), env, id); }
      case HealthVerdict(i, env) => if i in m.tasks { CarryOnOther(cfg, m, m.tasks[i], JudgeUnhealthy(cfg, m.tasks[i], env.now), env, id); }
      case _ => RequestLeavesEnded(cfg, m, st, id);
    }
  }

  /** Over whole runs: an ended task stays ended, nothing is ever decided about it again, and not one
      more restart is spent on it, until a user deletes it. */
  lemma {:induction false} TerminalIsFinal(cfg: Config, m: MState, steps: seq<Step>, id: Id)
    requires Inv(cfg, m) && ConfigOk(cfg) && Dispatched(m, id) && Ended(m, id)
    requires forall i :: 0 <= i < |steps| ==> StepOk(steps[i])
    requires LivesThrough(cfg, m, steps, id)
    ensures Ended(Run(cfg, m, steps), id)
    ensures forall st :: VerdictOn(cfg, Run(cfg, m, steps), st, id) == Leave
    ensures Burned(cfg, m, steps, id) == 0
    decreases |steps|
  {
    if steps != [] {
      StepLeavesEnded(cfg, m, steps[0], id);
      StepAccounts(cfg, m, steps[0], id);
      StepKeepsInv(cfg, m, steps[0]);
      TerminalIsFinal(cfg, Apply(cfg, m, steps[0]), steps[1..], id);
    }
  }

  /** A restart that got no answer or was refused leaves the task retryable: unless the user stopped it,
      its policy forbids it or the cap is reached, the next pass restarts it if and only if the backoff
      has run out. */
  lemma FailedRestartIsRetried(cfg: Config, m: MState, t: Task, env: Env, now: Instant)
    requires t.id in m.tasks && m.tasks[t.id] == t && Fails(cfg, m, t, env)
    ensures var failed := RestartTask(cfg, m, t, env).tasks[t.id];
            && failed.state.Failed? && !failed.IsTerminal()
            && (JudgeStopped(cfg, failed, now) == Retry <==>
                  && !t.manuallyStopped && ShouldRestart(t.policy)
                  && CountAfter(cfg, m, t, env) < t.EffectiveMaxRestarts(cfg.maxRestarts)
                  && RetryAt(cfg.delays, CountAfter(cfg, m, t, env), env.now) <= now)
  {
    FailureArms(cfg, m, t, env);
  }

  /** Beyond policy or cap the next pass ends the task instead. */
  lemma FailedRestartIsEnded(cfg: Config, m: MState, t: Task, env: Env, now: Instant, pass: Env)
    requires t.id in m.tasks && m.tasks[t.id] == t && Fails(cfg, m, t, env) && !t.manuallyStopped
    requires !ShouldRestart(t.policy) || CountAfter(cfg, m, t, env) >= t.EffectiveMaxRestarts(cfg.maxRestarts)
    ensures var m' := RestartTask(cfg, m, t, env);
            t.id in m'.tasks && Ended(Carry(cfg, m', m'.tasks[t.id], JudgeStopped(cfg, m'.tasks[t.id], now), pass), t.id)
  {
    FailureLeaves(cfg, m, t, env);
  }

  /** What a failed attempt leaves of the record. */
  lemma FailureLeaves(cfg: Config, m: MState, t: Task, env: Env)
    requires t.id in m.tasks && m.tasks[t.id] == t && Fails(cfg, m, t, env)
    ensures var m' := RestartTask(cfg, m, t, env);
            t.id in m'.tasks &&
            var failed := m'.tasks[t.id];
            && failed.id == t.id && failed.state.Failed? && failed.finishTime == 0
            && failed.restartCount == CountAfter(cfg, m, t, env) && failed.maxRestarts == t.maxRestarts
            && failed.policy == t.policy && failed.manuallyStopped == t.manuallyStopped
  {
  }
}
