/** Runs the code can take, one for each promise it keeps only on a condition: what goes wrong without it. */
module Counterexamples {
  import opened Base
  import opened Tasks
  import opened Ports
  import opened Reservations
  import opened Placement
  import opened WorkerSync
  import opened Checkers
  import opened ManagerModel
  import opened ManagerSafety
  import opened ManagerStartup
  import opened RestartBudget
  import opened CommitAtomicity
  import opened ManualStops
  import opened TerminalTasks
  import opened Interleaving

  /** Only `w` is offered and can be asked, with nothing in use there. */
  function Only(w: Address): Cluster {
    Cluster(Some(Occupied([], [])), {w}, map[w := Occupied([], [])], false, 0, false, false)
  }

  const NOBODY := Cluster(None, {}, map[], false, 0, false, false)

  /** A task as a user submits it: restarted on success too, and with a pinned host port. */
  predicate Newcomer(cfg: Config, t: Task) {
    && t.state.Pending? && ValidTask(t, true) && (t.name == "" || cfg.parse(t.name) == None)
    && ShouldRestartOnSuccess(t.policy) && t.EffectiveMaxRestarts(cfg.maxRestarts) > 0 && HasPinnedHostPorts(t.ports)
    && t.containerId == "" && t.hostPorts == [] && t.failureReason == "" && t.restartCount == 0 && !t.manuallyStopped
    && t.nextRetryAt == 0 && t.startTime == 0 && t.finishTime == 0 && t.id != NIL_ID
  }

  /** The task as its worker reports it once the container has exited cleanly. */
  function Exited(t: Task, now: Instant): Task {
    t.(state := Completed, containerId := "c", startTime := now, finishTime := now)
  }

  lemma Admitted(cfg: Config, tb: Table, t: Task, w: Address)
    requires w in cfg.nodes && ValidPorts(t.ports) && forall k :: Holder(tb, w, k) == None
    ensures Select(cfg.nodes, tb, t, "", Only(w)) == (Chosen(w), Reserved(tb, w, t))
  {
    assert KeySet(t.ports) !! BusyKeys(t, Occupied([], []), false);
    assert w in Able(cfg.nodes, tb, t, Only(w));
    var able := Able(cfg.nodes, tb, t, Only(w));
    assert able[0] in able && 0 % |able| == 0;
  }

  // ---- states with one task in them ----

  /** One record, with its owner if any, its keys in `tb`, and a queue. */
  function One(t: Task, owner: Option<Address>, tb: Table, q: seq<Event>): MState {
    MState(map[t.id := t], if owner == None then map[] else map[t.id := owner.value], tb, q, [], {})
  }

  lemma SubmittedFirst(cfg: Config, t: Task)
    requires Newcomer(cfg, t)
    ensures Apply(cfg, EMPTY, Submit(Event(Pending, t), true)) == One(t, None, map[], [Event(Pending, t)])
  {
  }

  lemma PostedTo(cfg: Config, t: Task, a: Address, now: Instant)
    requires a in cfg.nodes && Newcomer(cfg, t)
    ensures PrepareDispatch(cfg, One(t, None, map[], [Event(Pending, t)]), Only(a), now) ==
            Posted(One(t, None, Reserved(map[], a, t), []), StartCall(t, a))
  {
    Admitted(cfg, map[], t, a);
  }

  /** The start of `t` is in flight to `a`. */
  function InFlight(t: Task, a: Address): IState {
    IState(One(t, None, Reserved(map[], a, t), []), Some(StartCall(t, a)), [])
  }

  /** One more atomic operation. */
  lemma WholeStep(cfg: Config, steps: seq<IStep>, i: nat, before: IState, step: Step, m: MState)
    requires i < |steps| && steps[i] == Whole(step) && IRun(cfg, START, steps[..i]) == before && Apply(cfg, before.m, step) == m
    ensures IRun(cfg, START, steps[..i + 1]) == before.(m := m)
  {
    IRunNext(cfg, START, steps, i);
  }

  lemma Launched(cfg: Config, t: Task, a: Address, now: Instant, steps: seq<IStep>)
    requires a in cfg.nodes && Newcomer(cfg, t)
    requires |steps| >= 2 && steps[0] == Whole(Submit(Event(Pending, t), true)) && steps[1] == PostStart(Only(a), now)
    ensures IRun(cfg, START, steps[..2]) == InFlight(t, a)
  {
    SubmittedFirst(cfg, t);
    PostedTo(cfg, t, a, now);
    assert steps[..0] == [];
    IRunNext(cfg, START, steps, 0);
    IRunNext(cfg, START, steps, 1);
  }

  /** A committed start over whatever record the task has by then. */
  lemma RecordingOne(cfg: Config, before: Task, t: Task, a: Address, owner: Option<Address>, tb: Table, q: seq<Event>, echo: Task, now: Instant)
    requires before.id == t.id && t.state.Pending?
    ensures FinishDispatch(cfg, One(before, owner, tb, q), StartCall(t, a), Status(CREATED, echo), NO_FAULTS, now) ==
            One(t.(state := Scheduled), Some(a), tb, q)
  {
  }

  // ---- an accepted start that was overtaken ----

  lemma ReportedExit(cfg: Config, t: Task, a: Address, tb: Table, q: seq<Event>, now: Instant)
    requires Newcomer(cfg, t)
    ensures Apply(cfg, One(t, None, tb, q), Reported(a, Exited(t, now), now)) == One(Exited(t, now), None, tb, q)
  {
  }

  /** What a restart on another worker records. */
  function Moved(t: Task): Task {
    NextAttempt(t).(containerId := "", hostPorts := [])
  }

  lemma RestartedOn(cfg: Config, t: Task, b: Address, tb: Table, q: seq<Event>, echo: Task, now: Instant)
    requires ConfigOk(cfg) && b in cfg.nodes && Newcomer(cfg, t) && forall k :: Holder(tb, b, k) == None
    ensures Apply(cfg, One(Exited(t, now), None, tb, q), Check(t.id, now, Env(Only(b), Status(CREATED, echo), now))) ==
            One(Moved(t), Some(b), Reserved(tb, b, Moved(t)), q)
  {
    Admitted(cfg, tb, NextAttempt(Exited(t, now)), b);
    assert Moved(Exited(t, now)) == Moved(t);
  }

  /** The start of a task is in flight to `a`; before its 201 is processed the worker reports that the
      container has exited cleanly, and the next pass restarts the task, which has no owner yet, on `b`. */
  function Overtaken(t: Task, a: Address, b: Address, echo: Task, now: Instant): seq<IStep> {
    [Whole(Submit(Event(Pending, t), true)),
     PostStart(Only(a), now),
     Whole(Reported(a, Exited(t, now), now)),
     Whole(Check(t.id, now, Env(Only(b), Status(CREATED, echo), now))),
     AnswerStart(Status(CREATED, echo), NO_FAULTS, now)]
  }

  lemma OvertakenExit(cfg: Config, t: Task, a: Address, b: Address, echo: Task, now: Instant)
    requires a in cfg.nodes && Newcomer(cfg, t)
    ensures IRun(cfg, START, Overtaken(t, a, b, echo, now)[..3]) ==
            IState(One(Exited(t, now), None, Reserved(map[], a, t), []), Some(StartCall(t, a)), [])
  {
    var steps := Overtaken(t, a, b, echo, now);
    Launched(cfg, t, a, now, steps);
    ReportedExit(cfg, t, a, Reserved(map[], a, t), [], now);
    IRunNext(cfg, START, steps, 2);
  }

  lemma OvertakenRestart(cfg: Config, t: Task, a: Address, b: Address, echo: Task, now: Instant)
    requires ConfigOk(cfg) && a in cfg.nodes && b in cfg.nodes && a != b && Newcomer(cfg, t)
    ensures IRun(cfg, START, Overtaken(t, a, b, echo, now)[..4]) ==
            IState(One(Moved(t), Some(b), Reserved(Reserved(map[], a, t), b, Moved(t)), []), Some(StartCall(t, a)), [])
  {
    var tb := Reserved(map[], a, t);
    OvertakenExit(cfg, t, a, b, echo, now);
    forall k ensures Holder(tb, b, k) == None { ReservedEntry(map[], a, t, b, k); }
    RestartedOn(cfg, t, b, tb, [], echo, now);
    IRunNext(cfg, START, Overtaken(t, a, b, echo, now), 3);
  }

  lemma OvertakenEnd(cfg: Config, t: Task, a: Address, b: Address, echo: Task, now: Instant)
    requires ConfigOk(cfg) && a in cfg.nodes && b in cfg.nodes && a != b && Newcomer(cfg, t)
    ensures IRun(cfg, START, Overtaken(t, a, b, echo, now)) ==
            IState(One(t.(state := Scheduled), Some(a), Reserved(Reserved(map[], a, t), b, Moved(t)), []), None, [])
  {
    var steps := Overtaken(t, a, b, echo, now);
    OvertakenRestart(cfg, t, a, b, echo, now);
    RecordingOne(cfg, Moved(t), t, a, Some(b), Reserved(Reserved(map[], a, t), b, Moved(t)), [], echo, now);
    IRunLast(cfg, START, steps);
  }

  /** The overtaken start commits over the restart and leaves the keys on `b` to a task that is
      assigned to `a`, with nothing in flight to release them. */
  lemma StartLeavesKeysBehind(cfg: Config, t: Task, a: Address, b: Address, echo: Task, now: Instant)
    requires ConfigOk(cfg) && a in cfg.nodes && b in cfg.nodes && a != b && Newcomer(cfg, t)
    ensures var s := IRun(cfg, START, Overtaken(t, a, b, echo, now));
            && s.dispatch == None && s.restarts == []
            && Owner(s.m, t.id) == a && Owns(s.m.table, b, t) && !Backed(s.m, {})
  {
    OvertakenEnd(cfg, t, a, b, echo, now);
    KeysWithoutReason(IRun(cfg, START, Overtaken(t, a, b, echo, now)).m, Reserved(map[], a, t), b, Moved(t));
  }

  /** Keys just reserved for a task that is assigned elsewhere, or whose record does not pin them, lack a reason. */
  lemma KeysWithoutReason(m: MState, before: Table, b: Address, t: Task)
    requires m.table == Reserved(before, b, t) && HasPinnedHostPorts(t.ports)
    requires forall k :: k in KeySet(t.ports) ==> !OwnerHolds(m.tasks, m.owners, b, k, t.id)
    ensures Owns(m.table, b, t) && !Backed(m, {})
  {
    forall k | k in KeySet(t.ports) ensures Holder(m.table, b, k) == Some(t.id) { ReservedEntry(before, b, t, b, k); }
    PinnedIffKeys(t.ports);
    var k :| k in KeySet(t.ports);
    assert !Justified(m.tasks, m.owners, b, k, t.id, {});
  }

  // ---- an id used for a second life ----

  /** Stopping a task whose start is in flight deletes its record. */
  lemma Cancelled(cfg: Config, t: Task, a: Address, now: Instant, steps: seq<IStep>)
    requires a in cfg.nodes && Newcomer(cfg, t)
    requires |steps| >= 3 && steps[0] == Whole(Submit(Event(Pending, t), true)) && steps[1] == PostStart(Only(a), now)
    requires steps[2] == Whole(AskStop(t.id, true))
    ensures IRun(cfg, START, steps[..3]) == IState(Nothing(Reserved(map[], a, t)), Some(StartCall(t, a)), [])
  {
    Launched(cfg, t, a, now, steps);
    IRunNext(cfg, START, steps, 2);
    StopWhileInFlight(cfg, t, a);
  }

  lemma StopWhileInFlight(cfg: Config, t: Task, a: Address)
    requires t.state.Pending?
    ensures IApply(cfg, InFlight(t, a), Whole(AskStop(t.id, true))) == IState(Nothing(Reserved(map[], a, t)), Some(StartCall(t, a)), [])
  {
    PendingDeleted(cfg, t, Reserved(map[], a, t));
  }

  /** No record and no event, only reservations. */
  function Nothing(tb: Table): MState {
    MState(map[], map[], tb, [], [], {})
  }

  lemma PendingDeleted(cfg: Config, t: Task, tb: Table)
    requires t.state.Pending?
    ensures StopRequest(cfg, One(t, None, tb, []), t.id, true) == Nothing(tb)
  {
    assert map[t.id := t] - {t.id} == map[];
  }

  /** `u` is submitted under the id of `t` while the start of `t`, since cancelled, is in flight. */
  function Reused(t: Task, u: Task, a: Address, echo: Task, now: Instant): seq<IStep> {
    [Whole(Submit(Event(Pending, t), true)),
     PostStart(Only(a), now),
     Whole(AskStop(t.id, true)),
     Whole(Submit(Event(Pending, u), true)),
     AnswerStart(Status(CREATED, echo), NO_FAULTS, now),
     PostStart(Only(a), now),
     AnswerStart(Status(CREATED, echo), NO_FAULTS, now)]
  }

  lemma ReusedResubmit(cfg: Config, t: Task, u: Task, a: Address, echo: Task, now: Instant)
    requires a in cfg.nodes && Newcomer(cfg, t) && Newcomer(cfg, u) && u.id == t.id
    ensures IRun(cfg, START, Reused(t, u, a, echo, now)[..4]) ==
            IState(One(u, None, Reserved(map[], a, t), [Event(Pending, u)]), Some(StartCall(t, a)), [])
  {
    var steps := Reused(t, u, a, echo, now);
    Cancelled(cfg, t, a, now, steps);
    IRunNext(cfg, START, steps, 3);
  }

  lemma ReusedFirstAnswer(cfg: Config, t: Task, u: Task, a: Address, echo: Task, now: Instant)
    requires a in cfg.nodes && Newcomer(cfg, t) && Newcomer(cfg, u) && u.id == t.id
    ensures IRun(cfg, START, Reused(t, u, a, echo, now)[..5]) ==
            IState(One(t.(state := Scheduled), Some(a), Reserved(map[], a, t), [Event(Pending, u)]), None, [])
  {
    ReusedResubmit(cfg, t, u, a, echo, now);
    RecordingOne(cfg, u, t, a, None, Reserved(map[], a, t), [Event(Pending, u)], echo, now);
    IRunNext(cfg, START, Reused(t, u, a, echo, now), 4);
  }

  /** A start of a task that `a` owns is posted there again. */
  lemma PostedToOwner(cfg: Config, before: Task, u: Task, a: Address, tb: Table, now: Instant)
    requires a in cfg.nodes && a != "" && before.id == u.id && !IsStop(Event(Pending, u)) && !Conflicts(tb, a, u, true)
    ensures PrepareDispatch(cfg, One(before, Some(a), tb, [Event(Pending, u)]), Only(a), now) ==
            Posted(One(before, Some(a), Reserved(tb, a, u), []), StartCall(u, a))
  {
  }

  lemma ReusedSecondPost(cfg: Config, t: Task, u: Task, a: Address, echo: Task, now: Instant)
    requires ConfigOk(cfg) && a in cfg.nodes && Newcomer(cfg, t) && Newcomer(cfg, u) && u.id == t.id
    ensures IRun(cfg, START, Reused(t, u, a, echo, now)[..6]) ==
            IState(One(t.(state := Scheduled), Some(a), Reserved(Reserved(map[], a, t), a, u), []), Some(StartCall(u, a)), [])
  {
    var tb := Reserved(map[], a, t);
    ReusedFirstAnswer(cfg, t, u, a, echo, now);
    forall k ensures !Blocks(tb, a, k, u.id, true) { ReservedEntry(map[], a, t, a, k); }
    PostedToOwner(cfg, t.(state := Scheduled), u, a, tb, now);
    IRunNext(cfg, START, Reused(t, u, a, echo, now), 5);
  }

  lemma ReusedEnd(cfg: Config, t: Task, u: Task, a: Address, echo: Task, now: Instant)
    requires ConfigOk(cfg) && a in cfg.nodes && Newcomer(cfg, t) && Newcomer(cfg, u) && u.id == t.id
    ensures IRun(cfg, START, Reused(t, u, a, echo, now)) ==
            IState(One(u.(state := Scheduled), Some(a), Reserved(Reserved(map[], a, t), a, u), []), None, [])
  {
    var steps := Reused(t, u, a, echo, now);
    ReusedSecondPost(cfg, t, u, a, echo, now);
    RecordingOne(cfg, t.(state := Scheduled), u, a, Some(a), Reserved(Reserved(map[], a, t), a, u), [], echo, now);
    IRunLast(cfg, START, steps);
  }

  /** The cancelled start commits over the new task of that id, the new task's own start then commits over
      it, and the keys of the first life stay reserved for a task that does not pin them. */
  lemma ReusedIdLeavesKeysBehind(cfg: Config, t: Task, u: Task, a: Address, echo: Task, now: Instant)
    requires ConfigOk(cfg) && a in cfg.nodes && Newcomer(cfg, t) && Newcomer(cfg, u) && u.id == t.id
    requires KeySet(t.ports) !! KeySet(u.ports)
    ensures var s := IRun(cfg, START, Reused(t, u, a, echo, now));
            && s.dispatch == None && s.restarts == [] && s.m.pending == []
            && s.m.tasks == map[u.id := u.(state := Scheduled)] && Owns(s.m.table, a, t) && !Backed(s.m, {})
  {
    ReusedEnd(cfg, t, u, a, echo, now);
    OverwrittenKeysRemain(IRun(cfg, START, Reused(t, u, a, echo, now)).m, t, u, a);
  }

  /** The keys of the first life are pinned by no record of the second. */
  lemma OverwrittenKeysRemain(m: MState, t: Task, u: Task, a: Address)
    requires m == One(u.(state := Scheduled), Some(a), Reserved(Reserved(map[], a, t), a, u), [])
    requires u.id == t.id && HasPinnedHostPorts(t.ports) && KeySet(t.ports) !! KeySet(u.ports)
    ensures Owns(m.table, a, t) && !Backed(m, {})
  {
    forall k | k in KeySet(t.ports) ensures Holder(m.table, a, k) == Some(t.id) {
      ReservedEntry(Reserved(map[], a, t), a, u, a, k);
      ReservedEntry(map[], a, t, a, k);
    }
    PinnedIffKeys(t.ports);
    var k :| k in KeySet(t.ports);
    assert !Justified(m.tasks, m.owners, a, k, t.id, {});
  }

  /** `v` takes the name of the cancelled `t`, and `u` its id, before the start of `t` is answered. */
  function Renamed(t: Task, v: Task, u: Task, a: Address, echo: Task, now: Instant): seq<IStep> {
    [Whole(Submit(Event(Pending, t), true)),
     PostStart(Only(a), now),
     Whole(AskStop(t.id, true)),
     Whole(Submit(Event(Pending, v), true)),
     Whole(Submit(Event(Pending, u), true)),
     AnswerStart(Status(CREATED, echo), NO_FAULTS, now)]
  }

  /** Both new tasks, with the start of `t` still in flight. */
  function Renewed(t: Task, v: Task, u: Task, a: Address): MState {
    MState(map[v.id := v][u.id := u], map[], Reserved(map[], a, t), [Event(Pending, v), Event(Pending, u)], [], {})
  }

  lemma SubmittedBoth(cfg: Config, t: Task, v: Task, u: Task, a: Address)
    requires Newcomer(cfg, v) && Newcomer(cfg, u) && v.id != u.id && u.name == ""
    ensures var m := One(v, None, Reserved(map[], a, t), [Event(Pending, v)]);
            && AddTask(cfg, Nothing(Reserved(map[], a, t)), Event(Pending, v), true) == m
            && AddTask(cfg, m, Event(Pending, u), true) == Renewed(t, v, u, a)
  {
  }

  lemma RenamedResubmit(cfg: Config, t: Task, v: Task, u: Task, a: Address, echo: Task, now: Instant)
    requires a in cfg.nodes && Newcomer(cfg, t) && Newcomer(cfg, v) && Newcomer(cfg, u)
    requires u.id == t.id && v.id != t.id && u.name == ""
    ensures IRun(cfg, START, Renamed(t, v, u, a, echo, now)[..5]) == IState(Renewed(t, v, u, a), Some(StartCall(t, a)), [])
  {
    var steps := Renamed(t, v, u, a, echo, now);
    SubmittedBoth(cfg, t, v, u, a);
    RenamedFirst(cfg, t, v, u, a, echo, now);
    IRunNext(cfg, START, steps, 4);
  }

  lemma RenamedFirst(cfg: Config, t: Task, v: Task, u: Task, a: Address, echo: Task, now: Instant)
    requires a in cfg.nodes && Newcomer(cfg, t) && Newcomer(cfg, v)
    ensures IRun(cfg, START, Renamed(t, v, u, a, echo, now)[..4]) ==
            IState(One(v, None, Reserved(map[], a, t), [Event(Pending, v)]), Some(StartCall(t, a)), [])
  {
    var steps := Renamed(t, v, u, a, echo, now);
    Cancelled(cfg, t, a, now, steps);
    IRunNext(cfg, START, steps, 3);
  }

  lemma AnswerFinishes(cfg: Config, s: IState, reply: Reply, f: Faults, now: Instant)
    requires s.dispatch.Some?
    ensures IApply(cfg, s, AnswerStart(reply, f, now)) == s.(m := FinishDispatch(cfg, s.m, s.dispatch.value, reply, f, now), dispatch := None)
  {
  }

  lemma OldNameReturns(cfg: Config, t: Task, v: Task, u: Task, a: Address, echo: Task, now: Instant)
    requires u.id == t.id && v.id != t.id && t.name != "" && v.name == t.name && t.state.Pending?
    ensures !NamesOk(cfg, FinishDispatch(cfg, Renewed(t, v, u, a), StartCall(t, a), Status(CREATED, echo), NO_FAULTS, now).tasks)
  {
    var tasks := FinishDispatch(cfg, Renewed(t, v, u, a), StartCall(t, a), Status(CREATED, echo), NO_FAULTS, now).tasks;
    assert t.id in tasks && v.id in tasks && tasks[t.id].name == tasks[v.id].name;
  }

  /** The cancelled start writes the old record, and with it the old name, over the new one. */
  lemma ReusedIdDoublesName(cfg: Config, t: Task, v: Task, u: Task, a: Address, echo: Task, now: Instant)
    requires a in cfg.nodes && Newcomer(cfg, t) && Newcomer(cfg, v) && Newcomer(cfg, u)
    requires u.id == t.id && v.id != t.id && t.name != "" && v.name == t.name && u.name == ""
    ensures var s := IRun(cfg, START, Renamed(t, v, u, a, echo, now));
            && s.dispatch == None && s.restarts == [] && !NamesOk(cfg, s.m.tasks)
  {
    var steps := Renamed(t, v, u, a, echo, now);
    RenamedResubmit(cfg, t, v, u, a, echo, now);
    OldNameReturns(cfg, t, v, u, a, echo, now);
    AnswerFinishes(cfg, IState(Renewed(t, v, u, a), Some(StartCall(t, a)), []), Status(CREATED, echo), NO_FAULTS, now);
    IRunLast(cfg, START, steps);
  }

  // ---- a listed record that has been deleted ----

  /** The task exits cleanly, the user deletes it, another task takes its name, and a pass that listed it
      before ends it. */
  function ListedTooLong(t: Task, v: Task, a: Address, echo: Task, now: Instant): seq<IStep> {
    [Whole(Submit(Event(Pending, t), true)),
     PostStart(Only(a), now),
     AnswerStart(Status(CREATED, echo), NO_FAULTS, now),
     Whole(Reported(a, Exited(t, now), now)),
     Whole(AskStop(t.id, true)),
     Whole(Submit(Event(Pending, v), true)),
     PostRestart(Exited(t, now), NOBODY, now)]
  }

  predicate RunsAndExits(t: Task, a: Address, echo: Task, now: Instant, steps: seq<IStep>) {
    && |steps| >= 4
    && steps[0] == Whole(Submit(Event(Pending, t), true)) && steps[1] == PostStart(Only(a), now)
    && steps[2] == AnswerStart(Status(CREATED, echo), NO_FAULTS, now)
    && steps[3] == Whole(Reported(a, Exited(t, now), now))
  }

  lemma ListedAndCommitted(cfg: Config, t: Task, a: Address, echo: Task, now: Instant, steps: seq<IStep>)
    requires a in cfg.nodes && Newcomer(cfg, t) && RunsAndExits(t, a, echo, now, steps)
    ensures IRun(cfg, START, steps[..3]) == IState(One(t.(state := Scheduled), Some(a), Reserved(map[], a, t), []), None, [])
  {
    Launched(cfg, t, a, now, steps);
    RecordingOne(cfg, t, t, a, None, Reserved(map[], a, t), [], echo, now);
    IRunNext(cfg, START, steps, 2);
  }

  lemma ListedAndExited(cfg: Config, t: Task, a: Address, echo: Task, now: Instant, steps: seq<IStep>)
    requires a in cfg.nodes && Newcomer(cfg, t) && RunsAndExits(t, a, echo, now, steps)
    ensures IRun(cfg, START, steps[..4]) == IState(One(Exited(t, now), Some(a), Reserved(map[], a, t), []), None, [])
  {
    ListedAndCommitted(cfg, t, a, echo, now, steps);
    ReportedExitOwned(cfg, t, a, Reserved(map[], a, t), now);
    WholeStep(cfg, steps, 3, IState(One(t.(state := Scheduled), Some(a), Reserved(map[], a, t), []), None, []),
              Reported(a, Exited(t, now), now), One(Exited(t, now), Some(a), Reserved(map[], a, t), []));
  }

  lemma ListedAndDeleted(cfg: Config, t: Task, a: Address, echo: Task, now: Instant, steps: seq<IStep>)
    requires ConfigOk(cfg) && a in cfg.nodes && Newcomer(cfg, t) && RunsAndExits(t, a, echo, now, steps)
    requires |steps| >= 5 && steps[4] == Whole(AskStop(t.id, true))
    ensures IRun(cfg, START, steps[..5]) == IState(Nothing(map[]), None, [])
  {
    ListedAndExited(cfg, t, a, echo, now, steps);
    DeletedAfterExit(cfg, t, a, now);
    WholeStep(cfg, steps, 4, IState(One(Exited(t, now), Some(a), Reserved(map[], a, t), []), None, []), AskStop(t.id, true), Nothing(map[]));
  }

  lemma ReportedExitOwned(cfg: Config, t: Task, a: Address, tb: Table, now: Instant)
    requires Newcomer(cfg, t)
    ensures Apply(cfg, One(t.(state := Scheduled), Some(a), tb, []), Reported(a, Exited(t, now), now)) == One(Exited(t, now), Some(a), tb, [])
  {
  }

  lemma DeletedAfterExit(cfg: Config, t: Task, a: Address, now: Instant)
    requires a != ""
    ensures Apply(cfg, One(Exited(t, now), Some(a), Reserved(map[], a, t), []), AskStop(t.id, true)) == Nothing(map[])
  {
    ReleaseUndoesReserve(map[], a, t);
    assert Released(Reserved(map[], a, t), a, Exited(t, now)) == map[];
    assert map[t.id := Exited(t, now)] - {t.id} == map[] && map[t.id := a] - {t.id} == map[];
  }

  lemma {:induction false} NoneAble(nodes: seq<Address>, tb: Table, t: Task)
    ensures Able(nodes, tb, t, NOBODY) == []
  {
    if nodes != [] { NoneAble(nodes[..|nodes| - 1], tb, t); }
  }

  lemma EndedByNobody(cfg: Config, m: MState, t: Task, now: Instant)
    requires m.owners == map[]
    ensures PrepareRestart(cfg, m, t, NOBODY, now) == Done(StopTerminal(m, t, NO_WORKER, now))
    ensures Ended(StopTerminal(m, t, NO_WORKER, now), t.id)
  {
    NoneAble(cfg.nodes, m.table, NextAttempt(t));
  }

  lemma PostPrepares(cfg: Config, s: IState, t: Task, c: Cluster, now: Instant)
    ensures IApply(cfg, s, PostRestart(t, c, now)).m == PrepareRestart(cfg, s.m, t, c, now).m
  {
  }

  lemma TwoHolders(cfg: Config, m: MState, t: Task, v: Task, now: Instant)
    requires m.owners == map[] && v.id in m.tasks && m.tasks[v.id] == v && v.id != t.id && v.name == t.name != ""
    ensures !NamesOk(cfg, PrepareRestart(cfg, m, t, NOBODY, now).m.tasks)
  {
    EndedByNobody(cfg, m, t, now);
    var tasks := PrepareRestart(cfg, m, t, NOBODY, now).m.tasks;
    assert t.id in tasks && v.id in tasks && tasks[t.id].name == tasks[v.id].name;
  }

  /** The deleted task is back, failed for good, and with it the name another task holds by now. */
  lemma DeletedTaskComesBack(cfg: Config, t: Task, v: Task, a: Address, echo: Task, now: Instant)
    requires ConfigOk(cfg) && a in cfg.nodes && Newcomer(cfg, t) && Newcomer(cfg, v) && v.id != t.id && v.name == t.name != ""
    ensures var steps := ListedTooLong(t, v, a, echo, now);
            var s := IRun(cfg, START, steps);
            && t.id !in IRun(cfg, START, steps[..6]).m.tasks && Ended(s.m, t.id)
            && s.dispatch == None && s.restarts == [] && !NamesOk(cfg, s.m.tasks)
  {
    var steps := ListedTooLong(t, v, a, echo, now);
    ListedAndDeleted(cfg, t, a, echo, now, steps);
    ResubmittedAlone(cfg, v);
    IRunNext(cfg, START, steps, 5);
    var s := IRun(cfg, START, steps[..6]);
    EndedByNobody(cfg, s.m, Exited(t, now), now);
    TwoHolders(cfg, s.m, Exited(t, now), v, now);
    PostPrepares(cfg, s, Exited(t, now), NOBODY, now);
    NobodyPosts(cfg, s, Exited(t, now), now);
    IRunLast(cfg, START, steps);
  }

  lemma ResubmittedAlone(cfg: Config, u: Task)
    requires Newcomer(cfg, u)
    ensures Apply(cfg, Nothing(map[]), Submit(Event(Pending, u), true)) == One(u, None, map[], [Event(Pending, u)])
  {
  }

  lemma NobodyPosts(cfg: Config, s: IState, t: Task, now: Instant)
    requires s.m.owners == map[]
    ensures var s' := IApply(cfg, s, PostRestart(t, NOBODY, now)); s'.dispatch == s.dispatch && s'.restarts == s.restarts
  {
    EndedByNobody(cfg, s.m, t, now);
  }

  // ---- a listed record of an earlier life ----

  /** The task exits cleanly, the user deletes it and submits `u` under its id, and a pass that listed it
      before restarts it. */
  function ListedLifeBefore(t: Task, u: Task, a: Address, echo: Task, now: Instant): seq<IStep> {
    [Whole(Submit(Event(Pending, t), true)),
     PostStart(Only(a), now),
     AnswerStart(Status(CREATED, echo), NO_FAULTS, now),
     Whole(Reported(a, Exited(t, now), now)),
     Whole(AskStop(t.id, true)),
     Whole(Submit(Event(Pending, u), true)),
     PostRestart(Exited(t, now), Only(a), now),
     AnswerRestart(0, Status(CREATED, echo), NO_FAULTS, now),
     PostStart(Only(a), now),
     AnswerStart(Status(CREATED, echo), NO_FAULTS, now)]
  }

  lemma RelistedResubmit(cfg: Config, t: Task, u: Task, a: Address, echo: Task, now: Instant)
    requires ConfigOk(cfg) && a in cfg.nodes && Newcomer(cfg, t) && Newcomer(cfg, u)
    ensures IRun(cfg, START, ListedLifeBefore(t, u, a, echo, now)[..6]) == IState(One(u, None, map[], [Event(Pending, u)]), None, [])
  {
    var steps := ListedLifeBefore(t, u, a, echo, now);
    ListedAndDeleted(cfg, t, a, echo, now, steps);
    ResubmittedAlone(cfg, u);
    WholeStep(cfg, steps, 5, IState(Nothing(map[]), None, []), Submit(Event(Pending, u), true), One(u, None, map[], [Event(Pending, u)]));
  }

  function StaleRestart(t: Task, a: Address, now: Instant): Restart {
    Restart(Exited(t, now), Moved(t), a)
  }

  lemma PostedStale(cfg: Config, t: Task, u: Task, a: Address, now: Instant)
    requires ConfigOk(cfg) && a in cfg.nodes && Newcomer(cfg, t) && u.id == t.id
    ensures PrepareRestart(cfg, One(u, None, map[], [Event(Pending, u)]), Exited(t, now), Only(a), now) ==
            Posted(One(u, None, Reserved(map[], a, t), [Event(Pending, u)]), StaleRestart(t, a, now))
  {
    Admitted(cfg, map[], NextAttempt(Exited(t, now)), a);
    assert Reserved(map[], a, NextAttempt(Exited(t, now))) == Reserved(map[], a, t);
    assert NextAttempt(Exited(t, now)).(containerId := "", hostPorts := []) == Moved(t);
  }

  lemma CommittedStale(cfg: Config, t: Task, u: Task, a: Address, echo: Task, now: Instant)
    requires u.id == t.id && !u.manuallyStopped
    ensures FinishRestart(cfg, One(u, None, Reserved(map[], a, t), [Event(Pending, u)]), StaleRestart(t, a, now), Status(CREATED, echo), NO_FAULTS, now) ==
            One(Moved(t), Some(a), Reserved(map[], a, t), [Event(Pending, u)])
  {
  }

  lemma RelistedPosted(cfg: Config, t: Task, u: Task, a: Address, echo: Task, now: Instant)
    requires ConfigOk(cfg) && a in cfg.nodes && Newcomer(cfg, t) && Newcomer(cfg, u) && u.id == t.id
    ensures IRun(cfg, START, ListedLifeBefore(t, u, a, echo, now)[..7]) ==
            IState(One(u, None, Reserved(map[], a, t), [Event(Pending, u)]), None, [StaleRestart(t, a, now)])
  {
    RelistedResubmit(cfg, t, u, a, echo, now);
    PostedStale(cfg, t, u, a, now);
    IRunNext(cfg, START, ListedLifeBefore(t, u, a, echo, now), 6);
  }

  lemma RelistedCommitted(cfg: Config, t: Task, u: Task, a: Address, echo: Task, now: Instant)
    requires ConfigOk(cfg) && a in cfg.nodes && Newcomer(cfg, t) && Newcomer(cfg, u) && u.id == t.id
    ensures IRun(cfg, START, ListedLifeBefore(t, u, a, echo, now)[..8]) ==
            IState(One(Moved(t), Some(a), Reserved(map[], a, t), [Event(Pending, u)]), None, [])
  {
    RelistedPosted(cfg, t, u, a, echo, now);
    CommittedStale(cfg, t, u, a, echo, now);
    assert Without([StaleRestart(t, a, now)], 0) == [];
    IRunNext(cfg, START, ListedLifeBefore(t, u, a, echo, now), 7);
  }

  lemma RelistedSecondPost(cfg: Config, t: Task, u: Task, a: Address, echo: Task, now: Instant)
    requires ConfigOk(cfg) && a in cfg.nodes && Newcomer(cfg, t) && Newcomer(cfg, u) && u.id == t.id
    ensures IRun(cfg, START, ListedLifeBefore(t, u, a, echo, now)[..9]) ==
            IState(One(Moved(t), Some(a), Reserved(Reserved(map[], a, t), a, u), []), Some(StartCall(u, a)), [])
  {
    var tb := Reserved(map[], a, t);
    RelistedCommitted(cfg, t, u, a, echo, now);
    forall k ensures !Blocks(tb, a, k, u.id, true) { ReservedEntry(map[], a, t, a, k); }
    PostedToOwner(cfg, Moved(t), u, a, tb, now);
    IRunNext(cfg, START, ListedLifeBefore(t, u, a, echo, now), 8);
  }

  lemma RelistedEnd(cfg: Config, t: Task, u: Task, a: Address, echo: Task, now: Instant)
    requires ConfigOk(cfg) && a in cfg.nodes && Newcomer(cfg, t) && Newcomer(cfg, u) && u.id == t.id
    ensures IRun(cfg, START, ListedLifeBefore(t, u, a, echo, now)) ==
            IState(One(u.(state := Scheduled), Some(a), Reserved(Reserved(map[], a, t), a, u), []), None, [])
  {
    var steps := ListedLifeBefore(t, u, a, echo, now);
    RelistedSecondPost(cfg, t, u, a, echo, now);
    RecordingOne(cfg, Moved(t), u, a, Some(a), Reserved(Reserved(map[], a, t), a, u), [], echo, now);
    IRunLast(cfg, START, steps);
  }

  /** The restart of the earlier life commits over the new task, whose own start then commits over it, and
      the earlier life's keys stay reserved for a task that does not pin them. */
  lemma EarlierLifeLeavesKeysBehind(cfg: Config, t: Task, u: Task, a: Address, echo: Task, now: Instant)
    requires ConfigOk(cfg) && a in cfg.nodes && Newcomer(cfg, t) && Newcomer(cfg, u) && u.id == t.id
    requires KeySet(t.ports) !! KeySet(u.ports)
    ensures var s := IRun(cfg, START, ListedLifeBefore(t, u, a, echo, now));
            && s.dispatch == None && s.restarts == [] && s.m.pending == []
            && s.m.tasks == map[u.id := u.(state := Scheduled)] && Owns(s.m.table, a, t) && !Backed(s.m, {})
  {
    RelistedEnd(cfg, t, u, a, echo, now);
    OverwrittenKeysRemain(IRun(cfg, START, ListedLifeBefore(t, u, a, echo, now)).m, t, u, a);
  }

  // ---- a restart in flight for a task that is ended meanwhile ----

  /** One loop restarts the exited task while another, which listed it too, ends it. */
  function EndedInFlight(t: Task, a: Address, reason: string, echo: Task, now: Instant): seq<IStep> {
    [Whole(Submit(Event(Pending, t), true)),
     PostStart(Only(a), now),
     AnswerStart(Status(CREATED, echo), NO_FAULTS, now),
     Whole(Reported(a, Exited(t, now), now)),
     PostRestart(Exited(t, now), Only(a), now),
     EndListed(Exited(t, now), reason, now),
     AnswerRestart(0, Status(CREATED, echo), NO_FAULTS, now)]
  }

  lemma RestartAtHome(cfg: Config, t: Task, a: Address, now: Instant)
    requires ConfigOk(cfg) && a in cfg.nodes && Newcomer(cfg, t)
    ensures var m := One(Exited(t, now), Some(a), Reserved(map[], a, t), []);
            var p := PrepareRestart(cfg, m, Exited(t, now), Only(a), now);
            p.Posted? && p.m.tasks == m.tasks && p.call == Restart(Exited(t, now), NextAttempt(Exited(t, now)), a)
  {
    var tb, next := Reserved(map[], a, t), NextAttempt(Exited(t, now));
    forall k ensures !Blocks(tb, a, k, next.id, true) { ReservedEntry(map[], a, t, a, k); }
    assert Fits(next, Occupied([], []), true);
    assert OwnerKeeps(cfg.nodes, tb, next, a, Only(a));
  }

  lemma PostedInFlight(cfg: Config, t: Task, a: Address, reason: string, echo: Task, now: Instant)
    requires ConfigOk(cfg) && a in cfg.nodes && Newcomer(cfg, t)
    ensures var s := IRun(cfg, START, EndedInFlight(t, a, reason, echo, now)[..5]);
            && s.m.tasks == map[t.id := Exited(t, now)]
            && s.restarts == [Restart(Exited(t, now), NextAttempt(Exited(t, now)), a)]
  {
    var steps := EndedInFlight(t, a, reason, echo, now);
    ListedAndExited(cfg, t, a, echo, now, steps);
    PostedAtHome(cfg, t, a, now, steps, One(Exited(t, now), Some(a), Reserved(map[], a, t), []));
  }

  lemma PostedAtHome(cfg: Config, t: Task, a: Address, now: Instant, steps: seq<IStep>, m: MState)
    requires ConfigOk(cfg) && a in cfg.nodes && Newcomer(cfg, t)
    requires |steps| > 4 && steps[4] == PostRestart(Exited(t, now), Only(a), now)
    requires m == One(Exited(t, now), Some(a), Reserved(map[], a, t), []) && IRun(cfg, START, steps[..4]) == IState(m, None, [])
    ensures var s := IRun(cfg, START, steps[..5]);
            && s.m.tasks == m.tasks
            && s.restarts == [Restart(Exited(t, now), NextAttempt(Exited(t, now)), a)]
  {
    var p := PrepareRestart(cfg, m, Exited(t, now), Only(a), now);
    assert p.Posted? && p.m.tasks == m.tasks && p.call == Restart(Exited(t, now), NextAttempt(Exited(t, now)), a) by {
      RestartAtHome(cfg, t, a, now);
    }
    PostAdds(cfg, steps, 4, IState(m, None, []), Exited(t, now), Only(a), now, p);
  }

  lemma PostAdds(cfg: Config, steps: seq<IStep>, i: nat, s: IState, t: Task, c: Cluster, now: Instant, p: Prepared<Restart>)
    requires i < |steps| && steps[i] == PostRestart(t, c, now) && IRun(cfg, START, steps[..i]) == s
    requires p == PrepareRestart(cfg, s.m, t, c, now) && p.Posted?
    ensures IRun(cfg, START, steps[..i + 1]) == s.(m := p.m, restarts := s.restarts + [p.call])
  {
    IRunNext(cfg, START, steps, i);
  }

  lemma EndWrites(cfg: Config, s: IState, t: Task, reason: string, now: Instant)
    ensures var s' := IApply(cfg, s, EndListed(t, reason, now));
            Ended(s'.m, t.id) && s'.m.tasks[t.id].manuallyStopped == t.manuallyStopped && s'.restarts == s.restarts
  {
  }

  lemma EndedWhilePosted(cfg: Config, t: Task, a: Address, reason: string, echo: Task, now: Instant)
    requires ConfigOk(cfg) && a in cfg.nodes && Newcomer(cfg, t)
    ensures var s := IRun(cfg, START, EndedInFlight(t, a, reason, echo, now)[..6]);
            && Ended(s.m, t.id) && !s.m.tasks[t.id].manuallyStopped
            && s.restarts == [Restart(Exited(t, now), NextAttempt(Exited(t, now)), a)]
  {
    var steps := EndedInFlight(t, a, reason, echo, now);
    PostedInFlight(cfg, t, a, reason, echo, now);
    EndWrites(cfg, IRun(cfg, START, steps[..5]), Exited(t, now), reason, now);
    IRunNext(cfg, START, steps, 5);
  }

  lemma CommittedOverEnd(cfg: Config, s: IState, r: Restart, echo: Task, now: Instant)
    requires s.restarts == [r] && r.next.id == r.prev.id && r.prev.id in s.m.tasks && !s.m.tasks[r.prev.id].manuallyStopped
    ensures var m := IApply(cfg, s, AnswerRestart(0, Status(CREATED, echo), NO_FAULTS, now)).m;
            r.prev.id in m.tasks && m.tasks[r.prev.id] == r.next
  {
  }

  /** The restart commits over the terminal failure: the ended task is Scheduled again. */
  lemma RestartRevivesEndedTask(cfg: Config, t: Task, a: Address, reason: string, echo: Task, now: Instant)
    requires ConfigOk(cfg) && a in cfg.nodes && Newcomer(cfg, t)
    ensures var steps := EndedInFlight(t, a, reason, echo, now);
            && Ended(IRun(cfg, START, steps[..6]).m, t.id)
            && t.id in IRun(cfg, START, steps).m.tasks && IRun(cfg, START, steps).m.tasks[t.id].state.Scheduled?
  {
    var steps := EndedInFlight(t, a, reason, echo, now);
    EndedWhilePosted(cfg, t, a, reason, echo, now);
    CommittedOverEnd(cfg, IRun(cfg, START, steps[..6]), Restart(Exited(t, now), NextAttempt(Exited(t, now)), a), echo, now);
    IRunLast(cfg, START, steps);
  }

  // ---- a commit whose restoring write fails too ----

  /** The record cannot be written and the assignment cannot be put back. */
  const FAILED_RESTORE := Faults(false, false, false, true, true, false)

  function StrandedCommit(t: Task, a: Address, echo: Task, now: Instant): seq<IStep> {
    [Whole(Submit(Event(Pending, t), true)), PostStart(Only(a), now), AnswerStart(Status(CREATED, echo), FAILED_RESTORE, now)]
  }

  lemma AnswerCommits(cfg: Config, s: IState, reply: Reply, f: Faults, now: Instant)
    requires s.dispatch.Some? && !IsStop(s.dispatch.value.event) && Accepted(reply)
    ensures IApply(cfg, s, AnswerStart(reply, f, now)).m == CommitDispatch(s.m, s.dispatch.value, reply.echo, f)
  {
  }

  lemma FailedRestore(m: MState, t: Task, a: Address, echo: Task)
    requires t.id in m.tasks && m.tasks[t.id].state.Pending? && Owner(m, t.id) == "" && a != "" && t.id != NIL_ID && t.id !in m.owners
    ensures var m' := CommitDispatch(m, StartCall(t, a), echo, FAILED_RESTORE);
            && Owner(m', t.id) == a && t.id in m'.tasks && m'.tasks[t.id].state.Pending?
            && !Recorded(m, m', t.(state := Scheduled), a) && !Undone(m, m', t.(state := Scheduled), a)
  {
    DispatchCommitIsAtomic(m, StartCall(t, a), echo, FAILED_RESTORE);
  }

  /** Afterwards the task is assigned to a worker that has been told to stop it, while its record is
      still Pending: neither outcome of a commit. */
  lemma FailedRestoreStrands(cfg: Config, t: Task, a: Address, echo: Task, now: Instant)
    requires ConfigOk(cfg) && a in cfg.nodes && Newcomer(cfg, t)
    ensures var m := IRun(cfg, START, StrandedCommit(t, a, echo, now)[..2]).m;
            var m' := IRun(cfg, START, StrandedCommit(t, a, echo, now)).m;
            && Owner(m', t.id) == a && t.id in m'.tasks && m'.tasks[t.id].state.Pending?
            && !Recorded(m, m', t.(state := Scheduled), a) && !Undone(m, m', t.(state := Scheduled), a)
  {
    var steps := StrandedCommit(t, a, echo, now);
    Launched(cfg, t, a, now, steps);
    AnswerCommits(cfg, InFlight(t, a), Status(CREATED, echo), FAILED_RESTORE, now);
    IRunLast(cfg, START, steps);
    FailedRestore(InFlight(t, a).m, t, a, echo);
  }

  // ---- a queued start that forgets the user's stop ----

  /** The answer to a start is lost, so it is queued again; the worker had accepted it, its container exits,
      the task is restarted on `b`, stopped by the user, and the old start is dispatched. */
  function StaleStart(t: Task, a: Address, b: Address, echo: Task, now: Instant): seq<Step> {
    [Submit(Event(Pending, t), true),
     Dispatch(Env(Only(a), Unreached, now)),
     Reported(a, Exited(t, now), now),
     Check(t.id, now, Env(Only(b), Status(CREATED, echo), now)),
     AskStop(t.id, true),
     Dispatch(Env(Only(b), Status(CREATED, echo), now))]
  }

  function Requeued(t: Task): Event {
    Event(Scheduled, t.(state := Scheduled))
  }

  lemma Unanswered(cfg: Config, t: Task, a: Address, now: Instant)
    requires a in cfg.nodes && Newcomer(cfg, t)
    ensures SendWork(cfg, One(t, None, map[], [Event(Pending, t)]), Env(Only(a), Unreached, now)) == One(t, None, map[], [Requeued(t)])
  {
    PostedTo(cfg, t, a, now);
    ReleaseUndoesReserve(map[], a, t);
  }

  lemma FirstSubmitted(cfg: Config, t: Task, steps: seq<Step>)
    requires Newcomer(cfg, t) && steps != [] && steps[0] == Submit(Event(Pending, t), true)
    ensures Run(cfg, EMPTY, steps[..1]) == One(t, None, map[], [Event(Pending, t)])
  {
    SubmittedFirst(cfg, t);
    RunFirst(cfg, EMPTY, steps);
  }

  lemma StaleAndQueued(cfg: Config, t: Task, a: Address, b: Address, echo: Task, now: Instant)
    requires a in cfg.nodes && Newcomer(cfg, t)
    ensures Run(cfg, EMPTY, StaleStart(t, a, b, echo, now)[..2]) == One(t, None, map[], [Requeued(t)])
  {
    var steps := StaleStart(t, a, b, echo, now);
    FirstSubmitted(cfg, t, steps);
    Unanswered(cfg, t, a, now);
    RunNext(cfg, EMPTY, steps, 1);
  }

  lemma StaleAndExited(cfg: Config, t: Task, a: Address, b: Address, echo: Task, now: Instant)
    requires a in cfg.nodes && Newcomer(cfg, t)
    ensures Run(cfg, EMPTY, StaleStart(t, a, b, echo, now)[..3]) == One(Exited(t, now), None, map[], [Requeued(t)])
  {
    StaleAndQueued(cfg, t, a, b, echo, now);
    ReportedExit(cfg, t, a, map[], [Requeued(t)], now);
    RunNext(cfg, EMPTY, StaleStart(t, a, b, echo, now), 2);
  }

  lemma StaleAndMoved(cfg: Config, t: Task, a: Address, b: Address, echo: Task, now: Instant)
    requires ConfigOk(cfg) && a in cfg.nodes && b in cfg.nodes && Newcomer(cfg, t)
    ensures Run(cfg, EMPTY, StaleStart(t, a, b, echo, now)[..4]) == One(Moved(t), Some(b), Reserved(map[], b, Moved(t)), [Requeued(t)])
  {
    StaleAndExited(cfg, t, a, b, echo, now);
    RestartedOn(cfg, t, b, map[], [Requeued(t)], echo, now);
    RunNext(cfg, EMPTY, StaleStart(t, a, b, echo, now), 3);
  }

  /** The user's stop flags the record and is queued behind the old start. */
  lemma StopBehind(cfg: Config, t: Task, b: Address, tb: Table)
    requires b != "" && Newcomer(cfg, t)
    ensures var m := StopRequest(cfg, One(Moved(t), Some(b), tb, [Requeued(t)]), t.id, true);
            && Stopped(m, t.id) && Owner(m, t.id) == b && m.table == tb
            && m.pending != [] && m.pending[0] == Requeued(t)
  {
  }

  lemma StaleAndStopped(cfg: Config, t: Task, a: Address, b: Address, echo: Task, now: Instant)
    requires ConfigOk(cfg) && a in cfg.nodes && b in cfg.nodes && Newcomer(cfg, t)
    ensures var m := Run(cfg, EMPTY, StaleStart(t, a, b, echo, now)[..5]);
            && Stopped(m, t.id) && Owner(m, t.id) == b && m.table == Reserved(map[], b, Moved(t))
            && m.pending != [] && m.pending[0] == Requeued(t)
  {
    StaleAndMoved(cfg, t, a, b, echo, now);
    StopBehind(cfg, t, b, Reserved(map[], b, Moved(t)));
    RunNext(cfg, EMPTY, StaleStart(t, a, b, echo, now), 4);
  }

  lemma OwnKeysDoNotConflict(t: Task, b: Address)
    ensures !Conflicts(Reserved(map[], b, Moved(t)), b, t.(state := Scheduled), true)
  {
    forall k ensures !Blocks(Reserved(map[], b, Moved(t)), b, k, t.id, true) { ReservedEntry(map[], b, Moved(t), b, k); }
  }

  lemma StaleStartCommits(cfg: Config, m: MState, t: Task, b: Address, env: Env)
    requires Inv(cfg, m) && ConfigOk(cfg) && b in cfg.nodes && Owner(m, t.id) == b && m.table == Reserved(map[], b, Moved(t))
    requires m.pending != [] && m.pending[0] == Requeued(t) && Accepted(env.reply)
    ensures var m' := SendWork(cfg, m, env); t.id in m'.tasks && m'.tasks[t.id] == t.(state := Scheduled)
  {
    OwnKeysDoNotConflict(t, b);
    CommittedDispatchIsDispatched(cfg, m, env);
  }

  lemma StaleInv(cfg: Config, t: Task, a: Address, b: Address, echo: Task, now: Instant)
    requires ConfigOk(cfg)
    ensures Inv(cfg, Run(cfg, EMPTY, StaleStart(t, a, b, echo, now)[..5]))
  {
    RunKeepsInv(cfg, EMPTY, StaleStart(t, a, b, echo, now)[..5]);
  }

  /** The user's stop is gone, and the task is Scheduled again. */
  lemma QueuedStartForgetsStop(cfg: Config, t: Task, a: Address, b: Address, echo: Task, now: Instant)
    requires ConfigOk(cfg) && a in cfg.nodes && b in cfg.nodes && Newcomer(cfg, t)
    ensures var steps := StaleStart(t, a, b, echo, now);
            && Stopped(Run(cfg, EMPTY, steps[..5]), t.id)
            && t.id in Run(cfg, EMPTY, steps).tasks && !Stopped(Run(cfg, EMPTY, steps), t.id)
  {
    var steps := StaleStart(t, a, b, echo, now);
    StaleAndStopped(cfg, t, a, b, echo, now);
    StaleInv(cfg, t, a, b, echo, now);
    StaleStartCommits(cfg, Run(cfg, EMPTY, steps[..5]), t, b, Env(Only(b), Status(CREATED, echo), now));
    RunLast(cfg, EMPTY, steps);
  }

  // ---- a report that ends a retryable task ----

  function Started(t: Task, now: Instant): Task {
    t.(state := Running, containerId := "c", startTime := now)
  }

  /** A checked task runs on `a`; a restart for its health gets no answer, so it is to be retried; then its
      old container exits cleanly. */
  function ExitWhileRetrying(t: Task, a: Address, echo: Task, now: Instant): seq<Step> {
    [Submit(Event(Pending, t), true),
     Dispatch(Env(Only(a), Status(CREATED, echo), now)),
     Reported(a, Started(t, now), now),
     StartChecker(Started(t, now)),
     HealthVerdict(t.id, Env(Only(a), Unreached, now)),
     Reported(a, Exited(t, now), now)]
  }

  lemma CommittedOn(cfg: Config, t: Task, a: Address, echo: Task, now: Instant)
    requires a in cfg.nodes && Newcomer(cfg, t)
    ensures SendWork(cfg, One(t, None, map[], [Event(Pending, t)]), Env(Only(a), Status(CREATED, echo), now)) ==
            One(t.(state := Scheduled), Some(a), Reserved(map[], a, t), [])
  {
    PostedTo(cfg, t, a, now);
    RecordingOne(cfg, t, t, a, None, Reserved(map[], a, t), [], echo, now);
  }

  lemma ScheduledOn(cfg: Config, t: Task, a: Address, echo: Task, now: Instant)
    requires a in cfg.nodes && Newcomer(cfg, t)
    ensures Run(cfg, EMPTY, ExitWhileRetrying(t, a, echo, now)[..2]) == One(t.(state := Scheduled), Some(a), Reserved(map[], a, t), [])
  {
    var steps := ExitWhileRetrying(t, a, echo, now);
    FirstSubmitted(cfg, t, steps);
    DispatchedOn(cfg, steps, t, a, echo, now, Run(cfg, EMPTY, steps[..1]));
  }

  lemma DispatchedOn(cfg: Config, steps: seq<Step>, t: Task, a: Address, echo: Task, now: Instant, m: MState)
    requires a in cfg.nodes && Newcomer(cfg, t) && m == One(t, None, map[], [Event(Pending, t)])
    requires |steps| > 1 && steps[1] == Dispatch(Env(Only(a), Status(CREATED, echo), now)) && Run(cfg, EMPTY, steps[..1]) == m
    ensures Run(cfg, EMPTY, steps[..2]) == One(t.(state := Scheduled), Some(a), Reserved(map[], a, t), [])
  {
    CommittedOn(cfg, t, a, echo, now);
    RunNext(cfg, EMPTY, steps, 1);
  }

  lemma RunningOn(cfg: Config, t: Task, a: Address, echo: Task, now: Instant)
    requires a in cfg.nodes && Newcomer(cfg, t)
    ensures Run(cfg, EMPTY, ExitWhileRetrying(t, a, echo, now)[..3]) == One(Started(t, now), Some(a), Reserved(map[], a, t), [])
  {
    ScheduledOn(cfg, t, a, echo, now);
    StartReported(cfg, t, a, Reserved(map[], a, t), now);
    RunNext(cfg, EMPTY, ExitWhileRetrying(t, a, echo, now), 2);
  }

  lemma StartReported(cfg: Config, t: Task, a: Address, tb: Table, now: Instant)
    requires Newcomer(cfg, t)
    ensures Apply(cfg, One(t.(state := Scheduled), Some(a), tb, []), Reported(a, Started(t, now), now)) == One(Started(t, now), Some(a), tb, [])
  {
  }

  /** Running on `a`, with a health checker. */
  function Watched(t: Task, a: Address, now: Instant): MState {
    One(Started(t, now), Some(a), Reserved(map[], a, t), []).(watched := {t.id})
  }

  lemma WatchedOn(cfg: Config, t: Task, a: Address, echo: Task, now: Instant)
    requires ConfigOk(cfg) && a in cfg.nodes && Newcomer(cfg, t) && t.health.HttpCheck?
    ensures Run(cfg, EMPTY, ExitWhileRetrying(t, a, echo, now)[..4]) == Watched(t, a, now)
  {
    RunningOn(cfg, t, a, echo, now);
    RunNext(cfg, EMPTY, ExitWhileRetrying(t, a, echo, now), 3);
    assert CanWatch(One(Started(t, now), Some(a), Reserved(map[], a, t), []), Started(t, now));
  }

  lemma RestartUnanswered(cfg: Config, t: Task, a: Address, now: Instant)
    requires ConfigOk(cfg) && a in cfg.nodes && Newcomer(cfg, t)
    ensures RestartOutcome(cfg, Watched(t, a, now), Started(t, now), Env(Only(a), Unreached, now)) == NoAnswer
  {
    var tb, next := Reserved(map[], a, t), NextAttempt(Started(t, now));
    forall k ensures !Blocks(tb, a, k, next.id, true) { ReservedEntry(map[], a, t, a, k); }
    assert Fits(next, Occupied([], []), true);
    assert OwnerKeeps(cfg.nodes, tb, next, a, Only(a));
  }

  /** The record the unanswered restart leaves is to be retried. */
  ghost predicate Retryable(cfg: Config, r: Task, due: Time) {
    r.state.Failed? && !r.IsTerminal() && r.restartCount == 0 &&
    forall now: Instant :: JudgeStopped(cfg, r, now) == Retry <==> due <= now
  }

  lemma UnansweredIsRetried(cfg: Config, t: Task, a: Address, now: Instant)
    requires ConfigOk(cfg) && a in cfg.nodes && Newcomer(cfg, t)
    ensures var m := RestartTask(cfg, Watched(t, a, now), Started(t, now), Env(Only(a), Unreached, now));
            t.id in m.tasks && Retryable(cfg, m.tasks[t.id], RetryAt(cfg.delays, 0, now))
  {
    var m, env := Watched(t, a, now), Env(Only(a), Unreached, now);
    RestartUnanswered(cfg, t, a, now);
    FailureLeaves(cfg, m, Started(t, now), env);
    forall later: Instant
      ensures JudgeStopped(cfg, RestartTask(cfg, m, Started(t, now), env).tasks[t.id], later) == Retry <==> RetryAt(cfg.delays, 0, now) <= later
    {
      FailedRestartIsRetried(cfg, m, Started(t, now), env, later);
    }
  }

  lemma CheckerRestarts(cfg: Config, m: MState, id: Id, env: Env)
    requires id in m.watched && id in m.tasks && JudgeUnhealthy(cfg, m.tasks[id], env.now) == Retry
    ensures Apply(cfg, m, HealthVerdict(id, env)).tasks == RestartTask(cfg, m, m.tasks[id], env).tasks
  {
  }

  lemma WaitingToRetry(cfg: Config, t: Task, a: Address, echo: Task, now: Instant)
    requires ConfigOk(cfg) && a in cfg.nodes && Newcomer(cfg, t) && t.health.HttpCheck?
    ensures var m := Run(cfg, EMPTY, ExitWhileRetrying(t, a, echo, now)[..5]);
            t.id in m.tasks && Retryable(cfg, m.tasks[t.id], RetryAt(cfg.delays, 0, now))
  {
    WatchedOn(cfg, t, a, echo, now);
    CheckerRestarts(cfg, Watched(t, a, now), t.id, Env(Only(a), Unreached, now));
    UnansweredIsRetried(cfg, t, a, now);
    RunNext(cfg, EMPTY, ExitWhileRetrying(t, a, echo, now), 4);
  }

  predicate NothingDecided(cfg: Config, r: Task, now: Instant) {
    JudgeStopped(cfg, r, now) == Leave && JudgeUnhealthy(cfg, r, now) == Leave
  }

  lemma ExitEnds(cfg: Config, m: MState, t: Task, a: Address, due: Time, now: Instant, later: Instant)
    requires t.id in m.tasks && Retryable(cfg, m.tasks[t.id], due) && t.restartCount == 0
    ensures var m' := Apply(cfg, m, Reported(a, Exited(t, now), now));
            Ended(m', t.id) && NothingDecided(cfg, m'.tasks[t.id], later)
  {
    ReportEndsIff(cfg.delays, m.tasks[t.id], Exited(t, now), now);
  }

  /** The task was to be restarted once its backoff has run out; its clean exit, which its policy answers
      with a restart, ends it for good. */
  lemma ExitEndsRetryableTask(cfg: Config, t: Task, a: Address, echo: Task, now: Instant, later: Instant)
    requires ConfigOk(cfg) && a in cfg.nodes && Newcomer(cfg, t) && t.health.HttpCheck?
    ensures var steps := ExitWhileRetrying(t, a, echo, now);
            var before, after := Run(cfg, EMPTY, steps[..5]), Run(cfg, EMPTY, steps);
            && t.id in before.tasks && Retryable(cfg, before.tasks[t.id], RetryAt(cfg.delays, 0, now))
            && Ended(after, t.id) && NothingDecided(cfg, after.tasks[t.id], later)
  {
    var steps := ExitWhileRetrying(t, a, echo, now);
    WaitingToRetry(cfg, t, a, echo, now);
    ExitEnds(cfg, Run(cfg, EMPTY, steps[..5]), t, a, RetryAt(cfg.delays, 0, now), now, later);
    RunLast(cfg, EMPTY, steps);
  }
}
