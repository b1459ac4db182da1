/** Which tasks a pass or a health checker may restart or end, and which it must leave alone
    (restartFailedTasks in manager/restart.go, manager/healthcheck.go). */
module RestartDecisions {
  import opened Tasks
  import opened Backoff
  import opened ManagerModel
  import opened ManagerSafety
  import opened ManagerStartup
  import opened RequestOutcomes
  import opened RestartBudget
  import opened RestartOutcomes

  // ---- the decisions, read off the record ----

  predicate BelowCap(cfg: Config, t: Task) {
    t.restartCount < if t.maxRestarts > 0 then t.maxRestarts else cfg.maxRestarts
  }

  /** A pass restarts a task that exited cleanly under one of two policies, or whose failure is not final under
      one of four; never one the user stopped, one at its cap, or one within its backoff. */
  predicate Due(cfg: Config, t: Task, now: Instant) {
    && !t.manuallyStopped && BelowCap(cfg, t) && t.nextRetryAt <= now
    && (|| (t.state == Completed && t.policy in {"always", "unless-stopped"})
        || (t.state == Failed && t.finishTime == 0 && t.policy in {"", "on-failure", "always", "unless-stopped"}))
  }

  /** It ends one whose failure is not final yet, under any other policy or at its cap. */
  predicate Over(cfg: Config, t: Task) {
    && t.state == Failed && t.finishTime == 0 && !t.manuallyStopped
    && !(BelowCap(cfg, t) && t.policy in {"", "on-failure", "always", "unless-stopped"})
  }

  /** A checker that has seen enough failures restarts a running task under one of four policies, below its cap
      and out of its backoff. */
  predicate SickDue(cfg: Config, t: Task, now: Instant) {
    t.state == Running && BelowCap(cfg, t) && t.policy in {"", "on-failure", "always", "unless-stopped"} && t.nextRetryAt <= now
  }

  predicate SickOver(cfg: Config, t: Task) {
    t.state == Running && !(BelowCap(cfg, t) && t.policy in {"", "on-failure", "always", "unless-stopped"})
  }

  lemma PassDecides(cfg: Config, t: Task, now: Instant)
    ensures JudgeStopped(cfg, t, now) == Retry <==> Due(cfg, t, now)
    ensures JudgeStopped(cfg, t, now).Terminate? <==> Over(cfg, t)
  {
  }

  lemma CheckerDecides(cfg: Config, t: Task, now: Instant)
    ensures JudgeUnhealthy(cfg, t, now) == Retry <==> SickDue(cfg, t, now)
    ensures JudgeUnhealthy(cfg, t, now).Terminate? <==> SickOver(cfg, t)
  {
  }

  // ---- one decision ----

  /** The backoff armed now has not run out yet. */
  lemma FailingChanges(cfg: Config, m: MState, m': MState, id: Id, count: int, now: Instant)
    requires id in m.tasks && m.tasks[id].nextRetryAt <= now && FailedWith(cfg, m, m', id, count, now)
    ensures m'.tasks[id] != m.tasks[id]
  {
    ScheduleBounds(cfg.delays.base, cfg.delays.max, count, count);
  }

  /** A restart out of its backoff leaves its mark on the record whatever becomes of it, unless it is called
      off for the user. */
  lemma RestartShows(cfg: Config, m: MState, t: Task, env: Env)
    requires ConfigOk(cfg) && t.id in m.tasks && m.tasks[t.id] == t && t.nextRetryAt <= env.now
    requires !t.state.Scheduled? && !t.IsTerminal()
    ensures var m' := RestartTask(cfg, m, t, env);
            t.id in m'.tasks && (m'.tasks[t.id] == t <==> RestartOutcome(cfg, m, t, env) == Cancelled)
  {
    RestartIsPostedIff(cfg, m, t, env.cluster, env.now);
    match PrepareRestart(cfg, m, t, env.cluster, env.now) {
      case Done(m') => if m'.tasks[t.id].finishTime == 0 { FailingChanges(cfg, m, m', t.id, t.restartCount, env.now); }
      case Posted(m1, r) =>
        if env.reply.Status? && env.reply.code == CREATED {
          RestartAccepted(cfg, m1, r, env.reply, env.now);
        } else {
          RestartTurnedDown(cfg, m1, r, env.reply, env.now);
          FailingChanges(cfg, m1, RestartTask(cfg, m, t, env), t.id, t.restartCount + (if env.reply.Status? then 1 else 0), env.now);
        }
    }
  }

  /** A pass rewrites the record it looks at if and only if the task is due for a restart or over; one it leaves
      alone costs nothing anywhere; one that is over is ended as it stands. */
  lemma PassActsIff(cfg: Config, m: MState, id: Id, passNow: Instant, env: Env)
    requires ConfigOk(cfg) && Keyed(m.tasks) && id in m.tasks && passNow <= env.now
    ensures var t := m.tasks[id];
            var m' := Apply(cfg, m, Check(id, passNow, env));
            && id in m'.tasks && OthersKept(m.tasks, m'.tasks, id)
            && (m'.tasks[id] != t <==> Due(cfg, t, passNow) || Over(cfg, t))
            && (!Due(cfg, t, passNow) && !Over(cfg, t) ==> m' == m)
            && (Over(cfg, t) ==> EndedAs(m, m', t, env.now))
            && (Due(cfg, t, passNow) ==> m' == RestartTask(cfg, m, t, env))
  {
    var t := m.tasks[id];
    PassDecides(cfg, t, passNow);
    CarryIsLocal(cfg, m, t, JudgeStopped(cfg, t, passNow), env);
    match JudgeStopped(cfg, t, passNow) {
      case Retry => RestartShows(cfg, m, t, env);
      case Terminate(reason) => EndingOutcome(m, t, reason, env.now);
      case Leave =>
    }
  }

  /** So does a checker's verdict, but for a restart called off because the user has stopped the task. Either way
      the checker is gone. */
  lemma VerdictActsIff(cfg: Config, m: MState, id: Id, env: Env)
    requires ConfigOk(cfg) && Keyed(m.tasks) && id in m.tasks && id in m.watched
    ensures var t := m.tasks[id];
            var m' := Apply(cfg, m, HealthVerdict(id, env));
            && id in m'.tasks && OthersKept(m.tasks, m'.tasks, id) && m'.watched == m.watched - {id}
            && (m'.tasks[id] != t <==>
                  SickOver(cfg, t) || (SickDue(cfg, t, env.now) && RestartOutcome(cfg, m, t, env) != Cancelled))
            && (!SickDue(cfg, t, env.now) && !SickOver(cfg, t) ==> m' == m.(watched := m'.watched))
            && (SickDue(cfg, t, env.now) ==> m' == RestartTask(cfg, m, t, env).(watched := m'.watched))
  {
    var t := m.tasks[id];
    CheckerDecides(cfg, t, env.now);
    CarryIsLocal(cfg, m, t, JudgeUnhealthy(cfg, t, env.now), env);
    if SickDue(cfg, t, env.now) { RestartShows(cfg, m, t, env); RestartKeepsWatch(cfg, m, t, env); }
  }

  lemma RestartKeepsWatch(cfg: Config, m: MState, t: Task, env: Env)
    ensures RestartTask(cfg, m, t, env).watched == m.watched
  {
    match PrepareRestart(cfg, m, t, env.cluster, env.now) {
      case Done(_) =>
      case Posted(m1, r) => FinishKeepsWatch(cfg, m1, r, env);
    }
  }

  lemma FinishKeepsWatch(cfg: Config, m: MState, r: Restart, env: Env)
    ensures FinishRestart(cfg, m, r, env.reply, NO_FAULTS, env.now).watched == m.watched
  {
  }

  /** A checker stays for a listed task if and only if that was running with an http or tcp check and the task has
      an owner; starting one changes nothing else. */
  lemma CheckerStaysIff(cfg: Config, m: MState, listed: Task)
    ensures Apply(cfg, m, StartChecker(listed)) == m.(watched := m.watched +
              if listed.state == Running && listed.health in {HttpCheck, TcpCheck} && Owner(m, listed.id) != "" then {listed.id} else {})
  {
    assert m.watched + {} == m.watched;
  }

  // ---- passes and checkers, over and over ----

  predicate IsDecision(st: Step) {
    (st.Check? && st.passNow <= st.env.now) || st.StartChecker? || st.StopChecker? || st.HealthVerdict?
  }

  /** The step is not a pass that finds the task due or over. */
  predicate PassedBy(cfg: Config, t: Task, st: Step) {
    st.Check? && st.id == t.id ==> !Due(cfg, t, st.passNow) && !Over(cfg, t)
  }

  /** The record is `t` before and after every step of the run. */
  ghost predicate StaysAs(cfg: Config, m: MState, steps: seq<Step>, t: Task)
    decreases |steps|
  {
    t.id in m.tasks && m.tasks[t.id] == t && (steps != [] ==> StaysAs(cfg, Apply(cfg, m, steps[0]), steps[1..], t))
  }

  lemma DecisionIsLocal(cfg: Config, m: MState, st: Step)
    requires Keyed(m.tasks) && IsDecision(st)
    ensures var m' := Apply(cfg, m, st);
            && Keyed(m'.tasks) && m'.tasks.Keys == m.tasks.Keys
            && forall id :: id in m.tasks && !((st.Check? || st.HealthVerdict?) && st.id == id) ==> m'.tasks[id] == m.tasks[id]
  {
    if (st.Check? || st.HealthVerdict?) && st.id in m.tasks {
      var t := m.tasks[st.id];
      CarryIsLocal(cfg, m, t, if st.Check? then JudgeStopped(cfg, t, st.passNow) else JudgeUnhealthy(cfg, t, st.env.now), st.env);
    }
  }

  /** However often the loops go round, over whatever other tasks: a stopped task's record stays as it is
      throughout if and only if it is not over and due at none of the times at which a pass looks at it. */
  lemma {:induction false} LeftAloneIff(cfg: Config, m: MState, steps: seq<Step>, id: Id)
    requires ConfigOk(cfg) && Keyed(m.tasks) && id in m.tasks && m.tasks[id].state in {Completed, Failed}
    requires forall i :: 0 <= i < |steps| ==> IsDecision(steps[i])
    ensures StaysAs(cfg, m, steps, m.tasks[id]) <==>
            forall i :: 0 <= i < |steps| ==> PassedBy(cfg, m.tasks[id], steps[i])
    decreases |steps|
  {
    if steps != [] {
      var t, st := m.tasks[id], steps[0];
      var m1 := Apply(cfg, m, st);
      DecisionIsLocal(cfg, m, st);
      if st.Check? && st.id == id { PassActsIff(cfg, m, id, st.passNow, st.env); }
      if st.HealthVerdict? && st.id == id { CheckerDecides(cfg, t, st.env.now); }
      if m1.tasks[id] == t {
        LeftAloneIff(cfg, m1, steps[1..], id);
        assert forall i :: 0 < i < |steps| ==> steps[i] == steps[1..][i - 1];
      } else {
        assert !StaysAs(cfg, m, steps, t);
      }
    }
  }

  // ---- whole runs ----

  /** Whatever has happened to a dispatched task since, a restart decided on is one that the policy and the cap it
      was dispatched with permit: for a clean exit one of two policies, for anything else one of four. */
  lemma {:induction false} RestartsArePermitted(cfg: Config, m: MState, steps: seq<Step>, st: Step, id: Id)
    requires Inv(cfg, m) && ConfigOk(cfg) && Dispatched(m, id) && LivesThrough(cfg, m, steps, id)
    requires forall i :: 0 <= i < |steps| ==> StepOk(steps[i])
    requires id in Run(cfg, m, steps).tasks && VerdictOn(cfg, Run(cfg, m, steps), st, id) == Retry
    ensures var now := Run(cfg, m, steps).tasks[id];
            && m.tasks[id].policy in {"", "on-failure", "always", "unless-stopped"}
            && (now.state == Completed ==> m.tasks[id].policy in {"always", "unless-stopped"})
            && now.restartCount < (if m.tasks[id].maxRestarts > 0 then m.tasks[id].maxRestarts else cfg.maxRestarts)
            && (now.manuallyStopped ==> st.HealthVerdict?)
    decreases |steps|
  {
    if steps == [] {
      if st.Check? { PassDecides(cfg, m.tasks[id], st.passNow); } else { CheckerDecides(cfg, m.tasks[id], st.env.now); }
    } else {
      StepAccounts(cfg, m, steps[0], id);
      StepKeepsInv(cfg, m, steps[0]);
      RestartsArePermitted(cfg, Apply(cfg, m, steps[0]), steps[1..], st, id);
    }
  }

  /** In particular a task whose policy permits no restart is never restarted, over any run through both restart
      paths, reports, stops and crashes. */
  lemma {:induction false} ForbiddenNeverRestarts(cfg: Config, m: MState, steps: seq<Step>, id: Id)
    requires Inv(cfg, m) && ConfigOk(cfg) && Dispatched(m, id) && LivesThrough(cfg, m, steps, id)
    requires forall i :: 0 <= i < |steps| ==> StepOk(steps[i])
    requires m.tasks[id].policy !in {"", "on-failure", "always", "unless-stopped"}
    ensures Burned(cfg, m, steps, id) == 0
    ensures id in Run(cfg, m, steps).tasks && Run(cfg, m, steps).tasks[id].restartCount == m.tasks[id].restartCount
    decreases |steps|
  {
    if steps != [] {
      StepAccounts(cfg, m, steps[0], id);
      StepKeepsInv(cfg, m, steps[0]);
      ForbiddenNeverRestarts(cfg, Apply(cfg, m, steps[0]), steps[1..], id);
    }
  }
}
