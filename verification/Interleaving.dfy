/** Operations split at their POST: one dispatch and any number of restarts in flight, arbitrary other
    steps and halves of steps between, failing stores at every commit, and crashes. */
module Interleaving {
  import opened Base
  import opened Tasks
  import opened Ports
  import opened Reservations
  import opened Placement
  import opened ManagerModel
  import opened ManagerSafety
  import opened ManagerStartup

  /** The loops that restart and end tasks work on records they listed or fetched earlier, so a restart or
      an ending may be based on a record that others have changed since.

      The manager, the call its dispatch loop is waiting for, and the restarts the other loops are
      waiting for. */
  datatype IState = IState(m: MState, dispatch: Option<Call>, restarts: seq<Restart>)

  datatype IStep =
    | Whole(step: Step)
    | PostStart(cluster: Cluster, now: Instant)
    | AnswerStart(reply: Reply, faults: Faults, now: Instant)
    | PostRestart(listed: Task, cluster: Cluster, now: Instant)
    | EndListed(listed: Task, reason: string, now: Instant)
    | AnswerRestart(index: nat, reply: Reply, faults: Faults, now: Instant)
    | Crash(owners: map<Id, Address>)

  const START := IState(EMPTY, None, [])

  function Without(rs: seq<Restart>, i: nat): seq<Restart>
    requires i < |rs|
  {
    rs[..i] + rs[i + 1..]
  }

  ghost function IApply(cfg: Config, s: IState, st: IStep): IState {
    match st
    case Whole(step) => s.(m := Apply(cfg, s.m, step))
    case PostStart(c, now) =>
      if s.dispatch.Some? then s
      else (match PrepareDispatch(cfg, s.m, c, now)
            case Done(m') => s.(m := m')
            case Posted(m', call) => s.(m := m', dispatch := Some(call)))
    case AnswerStart(reply, f, now) =>
      if s.dispatch == None then s
      else s.(m := FinishDispatch(cfg, s.m, s.dispatch.value, reply, f, now), dispatch := None)
    case PostRestart(t, c, now) =>
      (match PrepareRestart(cfg, s.m, t, c, now)
       case Done(m') => s.(m := m')
       case Posted(m', r) => s.(m := m', restarts := s.restarts + [r]))
    case EndListed(t, reason, now) => s.(m := StopTerminal(s.m, t, reason, now))
    case AnswerRestart(i, reply, f, now) =>
      if i >= |s.restarts| then s
      else s.(m := FinishRestart(cfg, s.m, s.restarts[i], reply, f, now), restarts := Without(s.restarts, i))
    case Crash(owners) => IState(Reconcile(s.m.(owners := owners)), None, [])
  }

  ghost function IRun(cfg: Config, s: IState, steps: seq<IStep>): IState
    decreases |steps|
  {
    if steps == [] then s else IRun(cfg, IApply(cfg, s, steps[0]), steps[1..])
  }

  // ---- the invariant ----

  ghost function RestartMoves(rs: seq<Restart>): set<Move> {
    set r | r in rs :: MoveOf(r.next, r.worker)
  }

  ghost function FlightOf(s: IState): Flight {
    var others := Flight(None, RestartMoves(s.restarts), false);
    if s.dispatch.Some? then WithCall(others, s.dispatch.value) else others
  }

  predicate CallShape(cfg: Config, call: Call) {
    !IsStop(call.event) ==> call.reserved && call.event.task.state.Scheduled? && call.worker in cfg.nodes
  }

  predicate RestartShape(r: Restart) {
    r.next.id == r.prev.id && r.next.ports == r.prev.ports && r.next.name == r.prev.name && r.next.state.Scheduled?
  }

  ghost predicate IInv(cfg: Config, s: IState) {
    && Holds(cfg, s.m, FlightOf(s))
    && (s.dispatch.Some? ==> CallShape(cfg, s.dispatch.value))
    && (forall r :: r in s.restarts ==> RestartShape(r))
  }

  /** What the surroundings provide: one dispatch loop, worker reports that are never Pending, and restoring
      writes that succeed. */
  predicate Assumed(s: IState, st: IStep) {
    match st
    case Whole(step) => !step.Reboot? && StepOk(step) && (step.Dispatch? ==> s.dispatch == None)
    case AnswerStart(_, f, _) => !f.restoreOwner
    case AnswerRestart(_, _, f, _) => !f.restoreOwner
    case _ => true
  }

  /** Where a step can go wrong, and exactly when it does not. A submitted id has no start left in flight
      or on the queue and agrees with the restarts of its earlier life that are in flight. A committed
      start finds nothing of its task on other workers but what is in flight. A posted restart has the
      identity the record has by now, and an ended task leaves no name, start, move or key that disagrees. */
  ghost predicate Safe(cfg: Config, s: IState, st: IStep) {
    match st
    case Whole(Submit(e, ok)) => SubmitSafe(cfg, s.m, e, ok, FlightOf(s))
    case AnswerStart(reply, f, _) => s.dispatch.Some? ==> CommitSafe(s, reply, f)
    case PostRestart(t, c, _) => RestartSafe(cfg, s.m, t, c, FlightOf(s))
    case EndListed(t, _, _) => EndSafe(cfg, s.m, t, FlightOf(s))
    case _ => true
  }

  ghost predicate CommitSafe(s: IState, reply: Reply, f: Faults)
    requires s.dispatch.Some?
  {
    Commits(s.m, s.dispatch.value, reply, f) ==> ElsewhereInFlight(s.m, s.dispatch.value, RestartMoves(s.restarts))
  }

  ghost predicate AllAssumed(cfg: Config, s: IState, steps: seq<IStep>)
    decreases |steps|
  {
    steps != [] ==> Assumed(s, steps[0]) && AllAssumed(cfg, IApply(cfg, s, steps[0]), steps[1..])
  }

  ghost predicate AllSafe(cfg: Config, s: IState, steps: seq<IStep>)
    decreases |steps|
  {
    steps != [] ==> Safe(cfg, s, steps[0]) && AllSafe(cfg, IApply(cfg, s, steps[0]), steps[1..])
  }

  /** The invariant holds before the run and after each of its steps. */
  ghost predicate AlwaysInv(cfg: Config, s: IState, steps: seq<IStep>)
    decreases |steps|
  {
    IInv(cfg, s) && (steps != [] ==> AlwaysInv(cfg, IApply(cfg, s, steps[0]), steps[1..]))
  }

  // ---- every half keeps it ----

  lemma Loosened(cfg: Config, m: MState)
    requires Inv(cfg, m)
    ensures IInv(cfg, IState(m, None, []))
  {
  }

  lemma PostStartKeeps(cfg: Config, s: IState, c: Cluster, now: Instant)
    requires IInv(cfg, s) && ConfigOk(cfg)
    ensures IInv(cfg, IApply(cfg, s, PostStart(c, now)))
  {
    if s.dispatch == None {
      PrepareDispatchKeeps(cfg, s.m, c, now, FlightOf(s));
    }
  }

  /** The answer to a dispatch keeps the invariant exactly unless it commits a start whose task has
      meanwhile been given keys elsewhere that nothing in flight accounts for. */
  lemma AnswerStartKeepsIff(cfg: Config, s: IState, reply: Reply, f: Faults, now: Instant)
    requires IInv(cfg, s) && s.dispatch.Some? && !f.restoreOwner
    ensures IInv(cfg, IApply(cfg, s, AnswerStart(reply, f, now))) <==> CommitSafe(s, reply, f)
  {
    var call := s.dispatch.value;
    if !IsStop(call.event) { assert MoveOf(call.event.task, call.worker) in FlightOf(s).moves; }
    FinishDispatchKeepsIff(cfg, s.m, call, reply, f, now, FlightOf(s.(dispatch := None)));
  }

  lemma OneMoreRestart(s: IState, m: MState, r: Restart)
    ensures FlightOf(s.(m := m, restarts := s.restarts + [r])) == WithRestart(FlightOf(s), r)
  {
  }

  /** Posting or ending a restart prepared from any record of the task, current, outdated or deleted. */
  lemma PostRestartKeepsIff(cfg: Config, s: IState, t: Task, c: Cluster, now: Instant)
    requires IInv(cfg, s) && ConfigOk(cfg)
    ensures IInv(cfg, IApply(cfg, s, PostRestart(t, c, now))) <==> RestartSafe(cfg, s.m, t, c, FlightOf(s))
    ensures PrepareRestart(cfg, s.m, t, c, now).Posted? ==>
              (IInv(cfg, IApply(cfg, s, PostRestart(t, c, now))) <==> Agrees(s.m.tasks, t.id, t.name, t.ports))
  {
    PrepareRestartKeepsIff(cfg, s.m, t, c, now, FlightOf(s));
    match PrepareRestart(cfg, s.m, t, c, now) {
      case Done(_) =>
      case Posted(m', r) => OneMoreRestart(s, m', r);
    }
  }

  lemma EndListedKeepsIff(cfg: Config, s: IState, t: Task, reason: string, now: Instant)
    requires IInv(cfg, s)
    ensures IInv(cfg, IApply(cfg, s, EndListed(t, reason, now))) <==> EndSafe(cfg, s.m, t, FlightOf(s))
  {
    StopTerminalKeepsIff(cfg, s.m, t, reason, now, FlightOf(s));
  }

  lemma CarryRevivesIff(cfg: Config, m: MState, t: Task, v: Verdict, env: Env)
    requires t.id !in m.tasks
    ensures t.id in Carry(cfg, m, t, v, env).tasks <==> v.Terminate? || (v == Retry && Unplaced(cfg, m, t, env))
  {
  }

  /** A pass or checker that works on a record deleted since it was listed brings the record back exactly
      when it ends the task, because policy or cap say so or because no worker can take it: ending writes
      the listed record without looking. */
  lemma DeletedRecordRevivedIff(cfg: Config, m: MState, t: Task, now: Instant, env: Env)
    requires t.id !in m.tasks
    ensures var v := JudgeStopped(cfg, t, now);
            t.id in Carry(cfg, m, t, v, env).tasks <==> v.Terminate? || (v == Retry && Unplaced(cfg, m, t, env))
    ensures var v := JudgeUnhealthy(cfg, t, now);
            t.id in Carry(cfg, m, t, v, env).tasks <==> v.Terminate? || (v == Retry && Unplaced(cfg, m, t, env))
  {
    CarryRevivesIff(cfg, m, t, JudgeStopped(cfg, t, now), env);
    CarryRevivesIff(cfg, m, t, JudgeUnhealthy(cfg, t, now), env);
  }

  predicate Unplaced(cfg: Config, m: MState, t: Task, env: Env) {
    Select(cfg.nodes, m.table, NextAttempt(t), Owner(m, t.id), env.cluster).0.Unplaceable?
  }

  /** Accepting a submission keeps the invariant exactly unless it starts a new life of an id whose earlier
      life has a start in flight or on the queue, or a restart in flight with another name or other ports. */
  lemma SubmitKeepsIff(cfg: Config, s: IState, e: Event, extrasOk: bool)
    requires IInv(cfg, s)
    ensures IInv(cfg, IApply(cfg, s, Whole(Submit(e, extrasOk)))) <==>
            (Refuses(cfg, s.m, e, extrasOk) == None && !IsStop(e) ==>
               && !StartInFlight(s, e.task.id) && Starts(s.m.pending, e.task.id) == 0
               && forall r :: r in s.restarts && r.next.id == e.task.id ==> r.next.name == e.task.name && r.next.ports == e.task.ports)
  {
    AddTaskKeepsIff(cfg, s.m, e, extrasOk, FlightOf(s));
    FreshInFlight(s, e.task);
  }

  lemma FreshInFlight(s: IState, t: Task)
    ensures FreshId(s.m, FlightOf(s), t) <==>
            && !StartInFlight(s, t.id) && Starts(s.m.pending, t.id) == 0
            && forall r :: r in s.restarts && r.next.id == t.id ==> r.next.name == t.name && r.next.ports == t.ports
  {
    if FreshId(s.m, FlightOf(s), t) {
      forall r | r in s.restarts && r.next.id == t.id ensures r.next.name == t.name && r.next.ports == t.ports {
        assert MoveOf(r.next, r.worker) in FlightOf(s).moves;
      }
    }
  }

  lemma OneRestartLess(s: IState, i: nat)
    requires i < |s.restarts|
    ensures FlightOf(s) == WithRestart(FlightOf(s.(restarts := Without(s.restarts, i))), s.restarts[i])
    ensures forall r :: r in Without(s.restarts, i) ==> r in s.restarts
  {
  }

  lemma AnswerRestartKeeps(cfg: Config, s: IState, i: nat, reply: Reply, f: Faults, now: Instant)
    requires IInv(cfg, s) && !f.restoreOwner
    ensures IInv(cfg, IApply(cfg, s, AnswerRestart(i, reply, f, now)))
  {
    if i < |s.restarts| {
      OneRestartLess(s, i);
      assert s.restarts[i] in s.restarts && MoveOf(s.restarts[i].next, s.restarts[i].worker) in FlightOf(s).moves;
      FinishRestartKeeps(cfg, s.m, s.restarts[i], reply, f, now, FlightOf(s.(restarts := Without(s.restarts, i))));
    }
  }

  lemma WholeKeepsIff(cfg: Config, s: IState, step: Step)
    requires IInv(cfg, s) && ConfigOk(cfg) && Assumed(s, Whole(step))
    ensures IInv(cfg, IApply(cfg, s, Whole(step))) <==> Safe(cfg, s, Whole(step))
  {
    if step.Submit? {
      AddTaskKeepsIff(cfg, s.m, step.event, step.extrasOk, FlightOf(s));
    } else {
      StepKeeps(cfg, s.m, step, FlightOf(s));
    }
  }

  /** Every operation and every half of one keeps the invariant, whatever else is in flight, exactly
      when it is safe. */
  lemma IStepKeepsIff(cfg: Config, s: IState, st: IStep)
    requires IInv(cfg, s) && ConfigOk(cfg) && Assumed(s, st)
    ensures IInv(cfg, IApply(cfg, s, st)) <==> Safe(cfg, s, st)
  {
    match st {
      case Whole(step) => WholeKeepsIff(cfg, s, step);
      case PostStart(c, now) => PostStartKeeps(cfg, s, c, now);
      case AnswerStart(reply, f, now) => if s.dispatch.Some? { AnswerStartKeepsIff(cfg, s, reply, f, now); }
      case PostRestart(t, c, now) => PostRestartKeepsIff(cfg, s, t, c, now);
      case EndListed(t, reason, now) => EndListedKeepsIff(cfg, s, t, reason, now);
      case AnswerRestart(i, reply, f, now) => AnswerRestartKeeps(cfg, s, i, reply, f, now);
      case Crash(owners) =>
        StartupEstablishesInv(cfg, s.m.(owners := owners));
        Loosened(cfg, Reconcile(s.m.(owners := owners)));
    }
  }

  lemma IRunNext(cfg: Config, s: IState, steps: seq<IStep>, i: nat)
    requires i < |steps|
    ensures IRun(cfg, s, steps[..i + 1]) == IApply(cfg, IRun(cfg, s, steps[..i]), steps[i])
  {
    assert steps[..i + 1] == steps[..i] + [steps[i]];
    IRunSnoc(cfg, s, steps[..i], steps[i]);
  }

  lemma IRunLast(cfg: Config, s: IState, steps: seq<IStep>)
    requires steps != []
    ensures IRun(cfg, s, steps) == IApply(cfg, IRun(cfg, s, steps[..|steps| - 1]), steps[|steps| - 1])
  {
    assert steps[..|steps|] == steps;
    IRunNext(cfg, s, steps, |steps| - 1);
  }

  lemma {:induction false} IRunSnoc(cfg: Config, s: IState, steps: seq<IStep>, st: IStep)
    ensures IRun(cfg, s, steps + [st]) == IApply(cfg, IRun(cfg, s, steps), st)
    decreases |steps|
  {
    if steps == [] {
      assert IRun(cfg, IApply(cfg, s, st), []) == IApply(cfg, s, st);
    } else {
      assert (steps + [st])[1..] == steps[1..] + [st];
      IRunSnoc(cfg, IApply(cfg, s, steps[0]), steps[1..], st);
    }
  }

  // ---- whole runs ----

  /** Over any interleaving, the invariant holds at every moment exactly when every step is safe. */
  lemma {:induction false} InterleavedRunKeepsIff(cfg: Config, s: IState, steps: seq<IStep>)
    requires IInv(cfg, s) && ConfigOk(cfg) && AllAssumed(cfg, s, steps)
    ensures AlwaysInv(cfg, s, steps) <==> AllSafe(cfg, s, steps)
    decreases |steps|
  {
    if steps != [] {
      IStepKeepsIff(cfg, s, steps[0]);
      if IInv(cfg, IApply(cfg, s, steps[0])) { InterleavedRunKeepsIff(cfg, IApply(cfg, s, steps[0]), steps[1..]); }
    }
  }

  lemma {:induction false} AlwaysAtEnd(cfg: Config, s: IState, steps: seq<IStep>)
    requires AlwaysInv(cfg, s, steps)
    ensures IInv(cfg, IRun(cfg, s, steps))
    decreases |steps|
  {
    if steps != [] { AlwaysAtEnd(cfg, IApply(cfg, s, steps[0]), steps[1..]); }
  }

  /** An operation in flight to `w` whose task pins `k`. */
  ghost predicate HeldInFlight(s: IState, w: Address, k: Key, id: Id) {
    || (s.dispatch.Some? && !IsStop(s.dispatch.value.event) && s.dispatch.value.worker == w &&
        s.dispatch.value.event.task.id == id && k in KeySet(s.dispatch.value.event.task.ports))
    || exists r :: r in s.restarts && r.worker == w && r.next.id == id && k in KeySet(r.next.ports)
  }

  predicate StartInFlight(s: IState, id: Id) {
    s.dispatch.Some? && !IsStop(s.dispatch.value.event) && s.dispatch.value.event.task.id == id
  }

  lemma MovesInFlight(s: IState, w: Address, k: Key, id: Id)
    requires MoveHolds(FlightOf(s).moves, w, k, id)
    ensures HeldInFlight(s, w, k, id)
  {
  }

  /** From a fresh manager, whatever the interleaving: a held port key is pinned either by a record
      assigned to that worker or by an operation in flight to it; a Pending record has exactly one start,
      on the queue or in flight, and never both; names stay distinct; and once nothing is in flight
      every reservation is backed. */
  lemma InterleavedSafety(cfg: Config, steps: seq<IStep>)
    requires ConfigOk(cfg) && AllAssumed(cfg, START, steps) && AllSafe(cfg, START, steps)
    ensures var s := IRun(cfg, START, steps);
            && (forall w, k, id :: Holder(s.m.table, w, k) == Some(id) ==>
                  OwnerHolds(s.m.tasks, s.m.owners, w, k, id) || HeldInFlight(s, w, k, id))
            && (forall id :: id in s.m.tasks && s.m.tasks[id].state.Pending? ==>
                  Starts(s.m.pending, id) == if StartInFlight(s, id) then 0 else 1)
            && (forall id :: Starts(s.m.pending, id) <= 1)
            && NamesOk(cfg, s.m.tasks)
            && (s.dispatch == None && s.restarts == [] ==> Backed(s.m, {}))
  {
    Loosened(cfg, EMPTY);
    InterleavedRunKeepsIff(cfg, START, steps);
    AlwaysAtEnd(cfg, START, steps);
    var s := IRun(cfg, START, steps);
    forall w, k, id | Holder(s.m.table, w, k) == Some(id)
      ensures OwnerHolds(s.m.tasks, s.m.owners, w, k, id) || HeldInFlight(s, w, k, id)
    {
      assert Justified(s.m.tasks, s.m.owners, w, k, id, FlightOf(s).moves);
      if MoveHolds(FlightOf(s).moves, w, k, id) { MovesInFlight(s, w, k, id); }
    }
    if s.dispatch == None && s.restarts == [] { assert FlightOf(s).moves == {}; }
  }
}
