/** Restart attempts of a task are kept apart by its exponential backoff, over whole runs. */
module RestartSpacing {
  import opened Base
  import opened Tasks
  import opened Backoff
  import opened WorkerSync
  import opened ManagerModel
  import opened ManagerSafety
  import opened ManagerStartup
  import opened RestartBudget

  /** The clock a step reads when it changes a record. */
  function Clock(st: Step): Option<Instant> {
    match st
    case Dispatch(env) => Some(env.now)
    case Check(_, _, env) => Some(env.now)
    case HealthVerdict(_, env) => Some(env.now)
    case Reported(_, _, now) => Some(now)
    case _ => None
  }

  predicate NotBefore(st: Step, t0: Instant) {
    Clock(st).Some? ==> t0 <= Clock(st).value
  }

  /** The backoff armed by a failure number `count` at `t0` is still in force, or a longer one is. */
  ghost predicate Armed(cfg: Config, m: MState, id: Id, t0: Instant, count: int) {
    Dispatched(m, id) && m.tasks[id].restartCount >= count && m.tasks[id].nextRetryAt >= RetryAt(cfg.delays, count, t0)
  }

  /** Later failures with higher counts arm later deadlines. */
  lemma LaterDeadline(d: Delays, count: int, t0: Instant, count': int, t1: Instant)
    requires count <= count' && t0 <= t1
    ensures RetryAt(d, count, t0) <= RetryAt(d, count', t1)
  {
    ScheduleBounds(d.base, d.max, count, count');
  }

  lemma RestartKeepsArmed(cfg: Config, m: MState, t: Task, env: Env, t0: Instant, count: int)
    requires t.id in m.tasks && m.tasks[t.id] == t && t.restartCount >= count && t.nextRetryAt >= RetryAt(cfg.delays, count, t0)
    requires t0 <= env.now
    ensures var m' := RestartTask(cfg, m, t, env);
            t.id in m'.tasks && m'.tasks[t.id].nextRetryAt >= RetryAt(cfg.delays, count, t0)
  {
    LaterDeadline(cfg.delays, count, t0, t.restartCount, env.now);
    match PrepareRestart(cfg, m, t, env.cluster, env.now) {
      case Done(m') =>
      case Posted(m', r) =>
        if Fails(cfg, m, t, env) {
          FailureArms(cfg, m, t, env);
          LaterDeadline(cfg.delays, count, t0, CountAfter(cfg, m, t, env), env.now);
        } else {
          CommittedKeepsDeadline(cfg, m', r, env);
        }
    }
  }

  lemma CommittedKeepsDeadline(cfg: Config, m: MState, r: Restart, env: Env)
    requires r.prev.id in m.tasks && m.tasks[r.prev.id] == r.prev && r.next.id == r.prev.id && r.next.nextRetryAt == r.prev.nextRetryAt
    requires Accepted(env.reply)
    ensures var m' := FinishRestart(cfg, m, r, env.reply, NO_FAULTS, env.now);
            r.prev.id in m'.tasks && m'.tasks[r.prev.id].nextRetryAt == r.prev.nextRetryAt
  {
  }

  lemma CarryKeepsArmed(cfg: Config, m: MState, t: Task, v: Verdict, env: Env, id: Id, t0: Instant, count: int)
    requires t.id in m.tasks && m.tasks[t.id] == t && Armed(cfg, m, id, t0, count) && t0 <= env.now
    ensures var m' := Carry(cfg, m, t, v, env);
            id in m'.tasks && m'.tasks[id].nextRetryAt >= RetryAt(cfg.delays, count, t0)
  {
    if v == Retry {
      if t.id == id { RestartKeepsArmed(cfg, m, t, env, t0, count); } else { RestartCounts(cfg, m, t, env); }
    }
  }

  lemma RequestKeepsDeadline(cfg: Config, m: MState, st: Step, id: Id)
    requires (st.Submit? || st.AskStop? || st.StartChecker? || st.StopChecker? || st.Reboot?) && Inv(cfg, m) && id in m.tasks && id in Apply(cfg, m, st).tasks
    ensures Apply(cfg, m, st).tasks[id].nextRetryAt == m.tasks[id].nextRetryAt
  {
    if st.Reboot? { ScanKeepsStores(m.(owners := st.owners), Ascending(m.tasks.Keys)); }
  }

  lemma ReportKeepsArmed(cfg: Config, m: MState, st: Step, id: Id, t0: Instant, count: int)
    requires st.Reported? && Armed(cfg, m, id, t0, count) && t0 <= st.now
    ensures var m' := Apply(cfg, m, st);
            id in m'.tasks && m'.tasks[id].nextRetryAt >= RetryAt(cfg.delays, count, t0)
  {
    LaterDeadline(cfg.delays, count, t0, m.tasks[id].restartCount, st.now);
  }

  /** No step that reads a clock past `t0` moves the deadline back. */
  lemma StepKeepsArmed(cfg: Config, m: MState, st: Step, id: Id, t0: Instant, count: int)
    requires Inv(cfg, m) && ConfigOk(cfg) && StepOk(st) && Armed(cfg, m, id, t0, count) && NotBefore(st, t0)
    requires id in Apply(cfg, m, st).tasks
    ensures Armed(cfg, Apply(cfg, m, st), id, t0, count)
  {
    StepAccounts(cfg, m, st, id);
    match st {
      case Dispatch(env) => DispatchUntouched(cfg, m, env, id);
      case Check(i, now, env) => if i in m.tasks { CarryKeepsArmed(cfg, m, m.tasks[i], JudgeStopped(cfg, m.tasks[i], now), env, id, t0, count); }
      case HealthVerdict(i, env) => if i in m.tasks { CarryKeepsArmed(cfg, m, m.tasks[i], JudgeUnhealthy(cfg, m.tasks[i], env.now), env, id, t0, count); }
      case Reported(_, _, _) => ReportKeepsArmed(cfg, m, st, id, t0, count);
      case _ => RequestKeepsDeadline(cfg, m, st, id);
    }
  }

  lemma {:induction false} RunKeepsArmed(cfg: Config, m: MState, steps: seq<Step>, id: Id, t0: Instant, count: int)
    requires Inv(cfg, m) && ConfigOk(cfg) && Armed(cfg, m, id, t0, count) && LivesThrough(cfg, m, steps, id)
    requires forall i :: 0 <= i < |steps| ==> StepOk(steps[i]) && NotBefore(steps[i], t0)
    ensures Armed(cfg, Run(cfg, m, steps), id, t0, count)
    decreases |steps|
  {
    if steps != [] {
      StepKeepsArmed(cfg, m, steps[0], id, t0, count);
      StepKeepsInv(cfg, m, steps[0]);
      RunKeepsArmed(cfg, Apply(cfg, m, steps[0]), steps[1..], id, t0, count);
    }
  }

  /** When a pass or a checker that means to restart looks at the time. */
  function DecidedAt(st: Step): Instant
    requires st.Check? || st.HealthVerdict?
  {
    if st.Check? then st.passNow else st.env.now
  }

  /** Neither path decides to restart before the deadline. */
  lemma RetryIsDue(cfg: Config, m: MState, st: Step, id: Id)
    requires id in m.tasks && VerdictOn(cfg, m, st, id) == Retry
    ensures DecidedAt(st) >= m.tasks[id].nextRetryAt
  {
  }

  predicate Fails(cfg: Config, m: MState, t: Task, env: Env) {
    RestartOutcome(cfg, m, t, env) in {NoAnswer, Refused}
  }

  /** The number of restarts counted once the failed attempt is: a refused one costs a slot. */
  function CountAfter(cfg: Config, m: MState, t: Task, env: Env): int {
    t.restartCount + (if RestartOutcome(cfg, m, t, env) == Refused then 1 else 0)
  }

  lemma FailureArms(cfg: Config, m: MState, t: Task, env: Env)
    requires t.id in m.tasks && m.tasks[t.id] == t && Fails(cfg, m, t, env)
    ensures var m' := RestartTask(cfg, m, t, env);
            t.id in m'.tasks && m'.tasks[t.id].nextRetryAt == RetryAt(cfg.delays, CountAfter(cfg, m, t, env), env.now)
  {
  }

  lemma FailedRestartArms(cfg: Config, m: MState, id: Id, env: Env)
    requires Inv(cfg, m) && ConfigOk(cfg) && Dispatched(m, id) && Fails(cfg, m, m.tasks[id], env)
    ensures var m' := RestartTask(cfg, m, m.tasks[id], env);
            Inv(cfg, m') && Armed(cfg, m', id, env.now, CountAfter(cfg, m, m.tasks[id], env))
  {
    CarryKeeps(cfg, m, id, Retry, env, GROUNDED);
    CarryCounts(cfg, m, m.tasks[id], Retry, env, id);
    FailureArms(cfg, m, m.tasks[id], env);
  }

  /** A restart that got no answer or was refused arms a backoff; whatever happens afterwards, through
      both restart paths, reports, stops and crashes, nothing restarts the task before it has run out. */
  lemma RestartsAreSpaced(cfg: Config, m: MState, id: Id, failed: Env, steps: seq<Step>, again: Step, m1: MState)
    requires Inv(cfg, m) && ConfigOk(cfg) && Dispatched(m, id) && Fails(cfg, m, m.tasks[id], failed)
    requires m1 == RestartTask(cfg, m, m.tasks[id], failed) && LivesThrough(cfg, m1, steps, id)
    requires forall i :: 0 <= i < |steps| ==> StepOk(steps[i]) && NotBefore(steps[i], failed.now)
    requires id in Run(cfg, m1, steps).tasks && VerdictOn(cfg, Run(cfg, m1, steps), again, id) == Retry
    ensures DecidedAt(again) >= failed.now + Schedule(cfg.delays.base, cfg.delays.max, CountAfter(cfg, m, m.tasks[id], failed))
  {
    FailedRestartArms(cfg, m, id, failed);
    RunKeepsArmed(cfg, m1, steps, id, failed.now, CountAfter(cfg, m, m.tasks[id], failed));
    RetryIsDue(cfg, Run(cfg, m1, steps), again, id);
  }
}
