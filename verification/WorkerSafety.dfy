/** No container is lost: what every worker operation keeps, and exactly when it does not. */
module WorkerSafety {
  import opened Base
  import opened Tasks
  import opened Ports
  import opened WorkerModel

  /** Each live container is the one on its task's record. */
  ghost predicate NoneLost(s: WState) {
    forall c :: c in s.daemon.live ==>
      c != "" && c in s.daemon.born && s.daemon.born[c] in s.db && s.db[s.daemon.born[c]].containerId == c
  }

  predicate IsStart(t: Task) {
    t.state.Scheduled?
  }

  /** A queued start names a known task and carries no container but the recorded one; no task has two. */
  ghost predicate QueueOk(db: map<Id, Task>, q: seq<Task>) {
    && (forall i :: 0 <= i < |q| && IsStart(q[i]) ==>
          q[i].id in db && (q[i].containerId == "" || q[i].containerId == db[q[i].id].containerId))
    && (forall i, j :: 0 <= i < j < |q| && IsStart(q[i]) && IsStart(q[j]) ==> q[i].id != q[j].id)
  }

  ghost predicate NeverPending(db: map<Id, Task>) {
    forall id :: id in db ==> !db[id].state.Pending?
  }

  ghost predicate WInv(s: WState) {
    NoneLost(s) && QueueOk(s.db, s.queue) && Keyed(s.db) && NeverPending(s.db)
  }

  // ---- accepting ----

  /** What the worker relies on for a start: none queued for the task, and no container but the recorded one. */
  ghost predicate AcceptSafe(s: WState, t: Task) {
    IsStart(t) ==>
      && (forall i :: 0 <= i < |s.queue| && IsStart(s.queue[i]) ==> s.queue[i].id != t.id)
      && (t.containerId == "" || (t.id in s.db && t.containerId == s.db[t.id].containerId))
  }

  lemma AcceptKeeps(s: WState, t: Task, extrasOk: bool)
    requires WInv(s) && AcceptSafe(s, t)
    ensures WInv(AddTask(s, t, extrasOk))
  {
  }

  /** Accepting a start loses a container at once exactly when the start names another container than
      the live one on the record. */
  lemma AcceptLosesIff(s: WState, t: Task, extrasOk: bool)
    requires WInv(s)
    ensures NoneLost(AddTask(s, t, extrasOk)) <==>
            !(Accepts(s, t, extrasOk) && IsStart(t) && t.id in s.db && t.containerId != "" &&
              t.containerId != s.db[t.id].containerId && HoldsLive(s, t.id))
  {
  }

  /** The task's recorded container exists and was made for it. */
  ghost predicate HoldsLive(s: WState, id: Id) {
    id in s.db && s.db[id].containerId in s.daemon.live &&
    s.db[id].containerId in s.daemon.born && s.daemon.born[s.db[id].containerId] == id
  }

  // ---- the run loop ----

  /** A record may be replaced freely while its task has no live container, or keeps it. */
  lemma PutKeeps(s: WState, t: Task)
    requires WInv(s) && t.id in s.db && !t.state.Pending?
    requires t.containerId == s.db[t.id].containerId || s.db[t.id].containerId == "" || !HoldsLive(s, t.id)
    requires forall i :: 0 <= i < |s.queue| && IsStart(s.queue[i]) && s.queue[i].id == t.id ==>
               s.queue[i].containerId == "" || s.queue[i].containerId == t.containerId
    ensures WInv(Put(s, t))
  {
  }

  lemma DequeueKeeps(s: WState)
    requires WInv(s) && s.queue != []
    ensures WInv(s.(queue := s.queue[1..]))
    ensures IsStart(s.queue[0]) ==>
              forall i :: 0 <= i < |s.queue[1..]| && IsStart(s.queue[1..][i]) ==> s.queue[1..][i].id != s.queue[0].id
  {
  }

  lemma StopKeepsDaemon(s: WState, cid: ContainerId, o: StopCalls)
    requires WInv(s)
    ensures WInv(s.(daemon := DaemonStop(s.daemon, cid, o).0))
    ensures DaemonStop(s.daemon, cid, o).1 ==> cid !in DaemonStop(s.daemon, cid, o).0.live
  {
  }

  /** A start of the task gets as far as creating a container. */
  predicate ReachesCreate(t: Task, o: Oracle) {
    ValidTask(t, o.extrasOk) && o.client && (t.containerId == "" || !o.stop.remove.Broken?) && o.run.prepared
  }

  /** Starting replaces the recorded container by at most one new one, whichever docker call fails,
      exactly unless a create call fails after the daemon has made the container. */
  lemma StartKeepsIff(s: WState, t: Task, o: Oracle)
    requires WInv(s) && t.id in s.db && FreshRun(s.daemon, o.run) && IsStart(t)
    requires t.containerId == s.db[t.id].containerId
    requires forall i :: 0 <= i < |s.queue| && IsStart(s.queue[i]) ==> s.queue[i].id != t.id
    ensures WInv(StartTask(s, t, o)) <==> !(ReachesCreate(t, o) && o.run.creation.Unanswered?)
    ensures NoneLost(StartTask(s, t, o)) <==> !(ReachesCreate(t, o) && o.run.creation.Unanswered?)
  {
    var begun := t.(startTime := o.now, hostPorts := []);
    if !ValidTask(t, o.extrasOk) {
      PutKeeps(s, FailWith(t.(hostPorts := []), INVALID));
    } else if !o.client {
      PutKeeps(s, FailWith(begun, NO_CLIENT));
    } else if t.containerId == "" {
      RunKeepsIff(s, begun, o);
    } else {
      StopKeepsDaemon(s, t.containerId, o.stop);
      var s' := s.(daemon := DaemonStop(s.daemon, t.containerId, o.stop).0);
      if DaemonStop(s.daemon, t.containerId, o.stop).1 {
        RunKeepsIff(s', begun.(containerId := ""), o);
      } else {
        PutKeeps(s', FailWith(begun, OLD_CONTAINER));
      }
    }
  }

  lemma RunKeepsIff(s: WState, t: Task, o: Oracle)
    requires WInv(s) && t.id in s.db && FreshRun(s.daemon, o.run) && t.containerId == ""
    requires s.db[t.id].containerId == "" || s.db[t.id].containerId !in s.daemon.live
    requires forall i :: 0 <= i < |s.queue| && IsStart(s.queue[i]) ==> s.queue[i].id != t.id
    ensures WInv(RunContainer(s, t, o)) <==> !(o.run.prepared && o.run.creation.Unanswered?)
    ensures NoneLost(RunContainer(s, t, o)) <==> !(o.run.prepared && o.run.creation.Unanswered?)
  {
    var r := DaemonRun(s.daemon, t.id, o.run);
    var t' := RunContainer(s, t, o).db[t.id];
    assert RunContainer(s, t, o) == Put(s.(daemon := r.daemon), t');
    if o.run.prepared && o.run.creation.Unanswered? {
      assert o.run.creation.cid in r.daemon.live && r.daemon.born[o.run.creation.cid] == t.id && t'.containerId == "";
    } else {
      NewContainerKeeps(s, t', r.daemon);
    }
  }

  /** At most one container appears, and the task's record names it; the task had none before. */
  lemma NewContainerKeeps(s: WState, t: Task, d: Daemon)
    requires WInv(s) && t.id in s.db && !t.state.Pending? && !HoldsLive(s, t.id)
    requires forall i :: 0 <= i < |s.queue| && IsStart(s.queue[i]) ==> s.queue[i].id != t.id
    requires forall c :: c in s.daemon.born ==> c in d.born && d.born[c] == s.daemon.born[c]
    requires forall c :: c in d.live ==> c in s.daemon.live || (c != "" && c == t.containerId && c in d.born && d.born[c] == t.id)
    ensures WInv(Put(s.(daemon := d), t))
  {
  }

  lemma StopKeeps(s: WState, t: Task, o: Oracle)
    requires WInv(s)
    requires t.id in s.db && s.db[t.id].containerId != "" ==> t.containerId == s.db[t.id].containerId
    ensures WInv(StopTask(s, t, o).0)
    ensures StopTask(s, t, o).1 ==> t.containerId !in StopTask(s, t, o).0.daemon.live
  {
  }

  /** The turn takes a start off the queue that gets as far as creating a container. */
  predicate TurnCreates(s: WState, o: Oracle) {
    s.queue != [] && s.queue[0].id in s.db &&
    var persisted := s.db[s.queue[0].id];
    var t := MergeQueued(s.queue[0], persisted);
    t.state.Scheduled? && ValidStateTransition(persisted.state, Scheduled) && ReachesCreate(t, o)
  }

  /** A turn of the run loop loses a container exactly when its create call fails after the daemon has
      made the container: the worker never learns the id. */
  lemma TurnLosesIff(s: WState, o: Oracle)
    requires WInv(s) && FreshRun(s.daemon, o.run)
    ensures WInv(RunTask(s, o)) <==> !(TurnCreates(s, o) && o.run.creation.Unanswered?)
    ensures NoneLost(RunTask(s, o)) <==> !(TurnCreates(s, o) && o.run.creation.Unanswered?)
  {
    if s.queue != [] {
      var q := s.queue[0];
      var s1 := s.(queue := s.queue[1..]);
      DequeueKeeps(s);
      if q.id in s.db {
        var t := MergeQueued(q, s.db[q.id]);
        if ValidStateTransition(s.db[q.id].state, t.state) {
          if t.state.Scheduled? { StartKeepsIff(s1, t, o); }
          else if t.state.Completed? { StopKeeps(s1, t, o); }
        }
      }
    }
  }

  // ---- polling and forgetting ----

  lemma PollKeeps(s: WState, id: Id, o: Oracle)
    requires WInv(s)
    ensures WInv(Poll(s, id, o))
  {
  }

  /** Forgetting loses a container exactly when the record is inactive and its container still exists:
      an inactive record is dropped without stopping anything. */
  lemma ForgetLosesIff(s: WState, id: Id, o: Oracle)
    requires WInv(s)
    ensures WInv(ForgetTask(s, id, o).0) <==> !(id in s.db && !IsActive(s.db[id]) && HoldsLive(s, id))
    ensures NoneLost(ForgetTask(s, id, o).0) <==> !(id in s.db && !IsActive(s.db[id]) && HoldsLive(s, id))
  {
    if id in s.db {
      var t := s.db[id];
      PurgeKeeps(s, id);
      var purged := Purged(s, id);
      if IsActive(t) && t.containerId != "" {
        StopKeeps(purged, t, o);
        var (s', ok) := StopTask(purged, t, o);
        if ok {
          assert s'.db[id].containerId == t.containerId && !IsActive(s'.db[id]);
          DropKeeps(s', id);
        }
      } else if HoldsLive(s, id) {
        assert t.containerId in ForgetTask(s, id, o).0.daemon.live;
      } else {
        DropKeeps(purged, id);
      }
    }
  }

  lemma PurgeKeeps(s: WState, id: Id)
    requires WInv(s)
    ensures var s' := Purged(s, id);
            WInv(s') && forall i :: 0 <= i < |s'.queue| ==> s'.queue[i].id != id
  {
    PurgedQueue(s.db, s.queue, id);
  }

  lemma {:induction false} PurgedQueue(db: map<Id, Task>, q: seq<Task>, id: Id)
    requires QueueOk(db, q)
    ensures var r := DropMatching(q, TaskNames(id));
            QueueOk(db, r) && (forall i :: 0 <= i < |r| ==> r[i].id != id) && (forall x :: x in r ==> x in q)
  {
    if q != [] {
      var front, last := q[..|q| - 1], q[|q| - 1];
      PurgedQueue(db, front, id);
      var r := DropMatching(front, TaskNames(id));
      forall i | 0 <= i < |r| && IsStart(r[i]) && IsStart(last) ensures r[i].id != last.id {
        assert r[i] in front;
        var j :| 0 <= j < |front| && front[j] == r[i];
        assert q[j] == r[i];
      }
    }
  }

  lemma DropKeeps(s: WState, id: Id)
    requires WInv(s) && !HoldsLive(s, id)
    requires forall i :: 0 <= i < |s.queue| ==> s.queue[i].id != id
    ensures WInv(s.(db := s.db - {id}))
  {
  }

  // ---- whole runs ----

  /** What the environment of a step must respect: the accept condition, fresh container ids, no create
      call that fails after taking effect, and no forgetting of an inactive record whose container
      still exists. */
  ghost predicate WStepOk(s: WState, st: WStep) {
    match st
    case Accept(t, _) => AcceptSafe(s, t)
    case Turn(o) => FreshRun(s.daemon, o.run) && !(TurnCreates(s, o) && o.run.creation.Unanswered?)
    case Look(_, _) => true
    case Crash => true
    case Forget(id, _) => !(id in s.db && !IsActive(s.db[id]) && HoldsLive(s, id))
  }

  ghost predicate WRunOk(s: WState, steps: seq<WStep>)
    decreases |steps|
  {
    steps != [] ==> WStepOk(s, steps[0]) && WRunOk(WApply(s, steps[0]), steps[1..])
  }

  lemma WStepKeeps(s: WState, st: WStep)
    requires WInv(s) && WStepOk(s, st)
    ensures WInv(WApply(s, st))
  {
    match st {
      case Accept(t, ok) => AcceptKeeps(s, t, ok);
      case Turn(o) => TurnLosesIff(s, o);
      case Look(id, o) => PollKeeps(s, id, o);
      case Forget(id, o) => ForgetLosesIff(s, id, o);
      case Crash =>
    }
  }

  /** Whichever calls fail along the way, short of a create that took effect without an answer, every live
      container stays on its task's record, there
      is at most one per task, and no record a manager could fetch is ever Pending. */
  lemma {:induction false} NoContainerLost(s: WState, steps: seq<WStep>)
    requires WInv(s) && WRunOk(s, steps)
    ensures var s' := WRun(s, steps);
            && WInv(s')
            && (forall b, c :: b in s'.daemon.live && c in s'.daemon.live && b != c ==> s'.daemon.born[b] != s'.daemon.born[c])
            && (forall id :: id in s'.db ==> !s'.db[id].state.Pending?)
    decreases |steps|
  {
    if steps != [] {
      WStepKeeps(s, steps[0]);
      NoContainerLost(WApply(s, steps[0]), steps[1..]);
    }
  }

  /** Worker records are never Pending on any run at all, safe or not. */
  lemma {:induction false} WorkerNeverPending(s: WState, steps: seq<WStep>)
    requires NeverPending(s.db)
    ensures NeverPending(WRun(s, steps).db)
    decreases |steps|
  {
    if steps != [] {
      StepNeverPending(s, steps[0]);
      WorkerNeverPending(WApply(s, steps[0]), steps[1..]);
    }
  }

  lemma StepNeverPending(s: WState, st: WStep)
    requires NeverPending(s.db)
    ensures NeverPending(WApply(s, st).db)
  {
    match st {
      case Accept(t, ok) =>
      case Turn(o) => if s.queue != [] { TurnNeverPending(s, o); }
      case Look(id, o) =>
      case Crash =>
      case Forget(id, o) => if id in s.db { StopNeverPending(Purged(s, id), s.db[id], o); }
    }
  }

  lemma StopNeverPending(s: WState, t: Task, o: Oracle)
    requires NeverPending(s.db)
    ensures NeverPending(StopTask(s, t, o).0.db)
  {
  }

  lemma StartNeverPending(s: WState, t: Task, o: Oracle)
    requires NeverPending(s.db)
    ensures NeverPending(StartTask(s, t, o).db)
  {
  }

  lemma TurnNeverPending(s: WState, o: Oracle)
    requires NeverPending(s.db) && s.queue != []
    ensures NeverPending(RunTask(s, o).db)
  {
    var q := s.queue[0];
    var s1 := s.(queue := s.queue[1..]);
    if q.id in s.db || q.state.Scheduled? {
      var s2 := if q.id in s.db then s1 else Put(s1, q);
      var t := MergeQueued(q, s2.db[q.id]);
      StartNeverPending(s2, t, o);
      StopNeverPending(s2, t, o);
    }
  }

  predicate Succeeds(calls: RunCalls) {
    calls.prepared && calls.creation.Created? && calls.started && calls.attached
  }

  /** Why one queued start per task matters: with two, each carrying the recorded container, the second
      run removes that old container again and leaves the first run's new one on no record. */
  lemma TwoStartsLoseOne(s: WState, t: Task, first: Oracle, second: Oracle)
    requires WInv(s) && s.queue == [] && t.id in s.db && s.db[t.id].state.Running?
    requires IsStart(t) && HoldsLive(s, t.id) && t.containerId == s.db[t.id].containerId
    requires ValidTask(t, true) && first.extrasOk && second.extrasOk && first.client && second.client
    requires !first.stop.remove.Broken? && !second.stop.remove.Broken?
    requires Succeeds(first.run) && FreshRun(s.daemon, first.run)
    requires Succeeds(second.run) && FreshRun(s.daemon, second.run) && second.run.creation != first.run.creation
    ensures !NoneLost(RunTask(RunTask(AddTask(AddTask(s, t, true), t, true), first), second))
  {
    var queued := Inherit(t, s.db[t.id]);
    var s2 := s.(db := s.db[t.id := queued], queue := [queued, queued]);
    assert AddTask(AddTask(s, t, true), t, true) == s2;
    FirstOfTwo(s2, queued, first);
    SecondOfTwo(RunTask(s2, first), queued, first.run.creation.cid, second);
  }

  lemma FirstOfTwo(s: WState, q: Task, o: Oracle)
    requires s.queue == [q, q] && IsStart(q) && q.id in s.db && s.db[q.id] == q && q.containerId != "" && ValidTask(q, o.extrasOk)
    requires o.client && !o.stop.remove.Broken? && Succeeds(o.run) && FreshRun(s.daemon, o.run)
    ensures var s' := RunTask(s, o);
            && s'.queue == [q] && q.id in s'.db && s'.db[q.id].state.Running?
            && o.run.creation.cid in s'.daemon.live && s'.daemon.born == s.daemon.born[o.run.creation.cid := q.id]
  {
  }

  lemma SecondOfTwo(s: WState, q: Task, c: ContainerId, o: Oracle)
    requires s.queue == [q] && IsStart(q) && q.id in s.db && s.db[q.id].state.Running? && q.containerId != "" && ValidTask(q, o.extrasOk)
    requires c in s.daemon.live && c in s.daemon.born && s.daemon.born[c] == q.id && c != q.containerId
    requires o.client && !o.stop.remove.Broken? && Succeeds(o.run) && o.run.creation.cid != c
    ensures !NoneLost(RunTask(s, o))
  {
    var s' := RunTask(s, o);
    assert c in s'.daemon.live && s'.daemon.born[c] == q.id && s'.db[q.id].containerId == o.run.creation.cid;
  }

  // ---- from a fresh worker ----

  const FRESH := WState(map[], [], Daemon({}, map[]))

  predicate Startable(t: Task, o: Oracle) {
    IsStart(t) && t.containerId == "" && ValidTask(t, true) && o.extrasOk && o.client && FreshRun(FRESH.daemon, o.run)
  }

  lemma StartedFresh(t: Task, o: Oracle, steps: seq<WStep>)
    requires Startable(t, o) && |steps| >= 2 && steps[0] == Accept(t, true) && steps[1] == Turn(o)
    ensures WRun(FRESH, steps[..2]) == RunTask(WState(map[t.id := t], [t], FRESH.daemon), o)
  {
    assert steps[..0] == [];
    WRunNext(FRESH, steps, 0);
    WRunNext(FRESH, steps, 1);
  }

  /** The first create call takes effect without an answer: the container lives, and no record names it. */
  lemma UnansweredCreateLoses(t: Task, o: Oracle)
    requires Startable(t, o) && o.run.prepared && o.run.creation.Unanswered?
    ensures !NoneLost(WRun(FRESH, [Accept(t, true), Turn(o)]))
  {
    var steps := [Accept(t, true), Turn(o)];
    StartedFresh(t, o, steps);
    assert steps[..2] == steps;
    TurnLosesIff(WState(map[t.id := t], [t], FRESH.daemon), o);
  }

  lemma RunningFresh(t: Task, o: Oracle)
    requires Startable(t, o) && Succeeds(o.run)
    ensures var s := RunTask(WState(map[t.id := t], [t], FRESH.daemon), o);
            WInv(s) && t.id in s.db && s.db[t.id].state.Running? && HoldsLive(s, t.id)
  {
    TurnLosesIff(WState(map[t.id := t], [t], FRESH.daemon), o);
  }

  lemma ExitKeepsContainer(s: WState, id: Id, o: Oracle)
    requires WInv(s) && id in s.db && s.db[id].state.Running? && HoldsLive(s, id)
    requires o.client && o.inspection == Exited(0) && !o.timedOut
    ensures var s' := Poll(s, id, o); WInv(s') && id in s'.db && s'.db[id].state.Completed? && HoldsLive(s', id)
  {
    PollKeeps(s, id, o);
  }

  /** A container that exits by itself is not removed; forgetting its Completed record, as a manager that
      has deleted the task asks for, leaves it on no record. */
  lemma ForgettingLoses(t: Task, start: Oracle, look: Oracle, forget: Oracle)
    requires Startable(t, start) && Succeeds(start.run) && look.client && look.inspection == Exited(0) && !look.timedOut
    ensures !NoneLost(WRun(FRESH, [Accept(t, true), Turn(start), Look(t.id, look), Forget(t.id, forget)]))
  {
    var steps := [Accept(t, true), Turn(start), Look(t.id, look), Forget(t.id, forget)];
    StartedFresh(t, start, steps);
    RunningFresh(t, start);
    ExitKeepsContainer(WRun(FRESH, steps[..2]), t.id, look);
    WRunNext(FRESH, steps, 2);
    WRunNext(FRESH, steps, 3);
    assert steps[..4] == steps;
    ForgetLosesIff(WRun(FRESH, steps[..3]), t.id, forget);
  }

  /** A start that names a container the worker has since replaced loses the one that runs. */
  lemma OutdatedStartLoses(t: Task, again: Task, start: Oracle)
    requires Startable(t, start) && Succeeds(start.run)
    requires IsStart(again) && again.id == t.id && ValidTask(again, true)
    requires again.containerId != "" && again.containerId != start.run.creation.cid
    ensures !NoneLost(WRun(FRESH, [Accept(t, true), Turn(start), Accept(again, true)]))
  {
    var steps := [Accept(t, true), Turn(start), Accept(again, true)];
    StartedFresh(t, start, steps);
    RunningFresh(t, start);
    WRunNext(FRESH, steps, 2);
    assert steps[..3] == steps;
    AcceptLosesIff(WRun(FRESH, steps[..2]), again, true);
  }
}
