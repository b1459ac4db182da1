/** The worker's operations split at their docker calls: the run loop holds no lock during them, so starts
    are accepted, records inspected and tasks forgotten meanwhile (worker/worker.go). */
module WorkerInterleaving {
  import opened Base
  import opened Tasks
  import opened Ports
  import opened WorkerModel
  import opened WorkerSafety

  /** What the run loop has in hand: a start whose old container is still to be removed, one ready to
      create its container, one with a record to save, or a stop before or after its docker call. */
  datatype Job =
    | Idle
    | Starting(t: Task)
    | Cleared(t: Task)
    | Recording(t: Task)
    | Stopping(t: Task)
    | Ending(t: Task)

  /** A forget that has read the record `t` and, if it was active, stopped its container. */
  datatype Forgetting = Forgetting(t: Task, stopped: bool)

  datatype JState = JState(s: WState, job: Job, forgets: seq<Forgetting>)

  datatype JStep =
    | Receive(t: Task, extrasOk: bool)
    | Take
    | Remove(o: Oracle)
    | Create(o: Oracle)
    | Save(now: Instant)
    | Inspect(id: Id, o: Oracle)
    | StopListed(c: ContainerId, calls: StopCalls)  // a timeout stops the container of the record it listed
    | ForgetStop(id: Id, o: Oracle)
    | ForgetFinish(index: nat, now: Instant)
    | Restart

  /** The locked part of a turn: what the loop takes in hand. */
  function TakeNext(s: WState): (WState, Job) {
    if s.queue == [] then (s, Idle)
    else
      var q := s.queue[0];
      var s1 := s.(queue := s.queue[1..]);
      if q.id !in s.db && !q.state.Scheduled? then (s1, Idle)
      else
        var s2 := if q.id in s.db then s1 else Put(s1, q);
        var persisted := s2.db[q.id];
        var t := MergeQueued(q, persisted);
        (s2, if !ValidStateTransition(persisted.state, t.state) then Idle
             else if t.state.Scheduled? then Starting(t)
             else if t.state.Completed? then Stopping(t)
             else Idle)
  }

  /** The docker call that removes a container: the old one of a start, or the one of a stop. */
  function RemoveOld(d: Daemon, job: Job, o: Oracle): (Daemon, Job) {
    match job
    case Starting(t) =>
      if !ValidTask(t, o.extrasOk) then (d, Recording(FailWith(t.(hostPorts := []), INVALID)))
      else
        var begun := t.(startTime := o.now, hostPorts := []);
        if !o.client then (d, Recording(FailWith(begun, NO_CLIENT)))
        else if begun.containerId == "" then (d, Cleared(begun))
        else
          var (d', ok) := DaemonStop(d, begun.containerId, o.stop);
          (d', if ok then Cleared(begun.(containerId := "")) else Recording(FailWith(begun, OLD_CONTAINER)))
    case Stopping(t) =>
      if !o.client then (d, Idle) else (DaemonStop(d, t.containerId, o.stop).0, Ending(t))
    case _ => (d, job)
  }

  function SaveJob(s: WState, job: Job, now: Instant): (WState, Job) {
    match job
    case Recording(t) => (Put(s, t), Idle)
    case Ending(t) => (if t.id in s.db then Put(s, EndedRecord(t, s.db[t.id], now)) else s, Idle)
    case _ => (s, job)
  }

  /** A forget up to and including its docker call. */
  function BeginForget(s: WState, id: Id, o: Oracle): (WState, Option<Forgetting>) {
    if id !in s.db then (s, None)
    else
      var t := s.db[id];
      var purged := Purged(s, id);
      if !(IsActive(t) && t.containerId != "") then (purged, Some(Forgetting(t, true)))
      else if !o.client then (purged, None)
      else
        var (d, ok) := DaemonStop(s.daemon, t.containerId, o.stop);
        (purged.(daemon := d), Some(Forgetting(t, ok)))
  }

  /** The rest of it, on the record found by then. */
  function EndForget(s: WState, f: Forgetting, now: Instant): WState {
    if f.t.id !in s.db then s
    else if IsActive(f.t) && f.t.containerId != "" then
      if f.stopped then s.(db := s.db - {f.t.id}) else Put(s, EndedRecord(f.t, s.db[f.t.id], now))
    else if s.db[f.t.id].containerId != "" && IsActive(s.db[f.t.id]) then s
    else s.(db := s.db - {f.t.id})
  }

  function JApply(j: JState, st: JStep): JState {
    match st
    case Receive(t, ok) => j.(s := AddTask(j.s, t, ok))
    case Take => if j.job != Idle then j else var (s, job) := TakeNext(j.s); j.(s := s, job := job)
    case Remove(o) => var (d, job) := RemoveOld(j.s.daemon, j.job, o); j.(s := j.s.(daemon := d), job := job)
    case Create(o) =>
      if !j.job.Cleared? then j
      else
        var r := DaemonRun(j.s.daemon, j.job.t.id, o.run);
        j.(s := j.s.(daemon := r.daemon), job := Recording(RunRecord(j.job.t, r, o)))
    case Save(now) => var (s, job) := SaveJob(j.s, j.job, now); j.(s := s, job := job)
    case Inspect(id, o) => j.(s := Poll(j.s, id, o))
    case StopListed(c, calls) => j.(s := j.s.(daemon := DaemonStop(j.s.daemon, c, calls).0))
    case ForgetStop(id, o) =>
      var (s, f) := BeginForget(j.s, id, o);
      j.(s := s, forgets := if f.Some? then j.forgets + [f.value] else j.forgets)
    case ForgetFinish(i, now) =>
      if i >= |j.forgets| then j
      else j.(s := EndForget(j.s, j.forgets[i], now), forgets := j.forgets[..i] + j.forgets[i + 1..])
    case Restart => JState(j.s.(queue := []), Idle, [])
  }

  ghost function JRun(j: JState, steps: seq<JStep>): JState
    decreases |steps|
  {
    if steps == [] then j else JRun(JApply(j, steps[0]), steps[1..])
  }

  // ---- the parts make up the operations ----

  /** A turn whose parts run without anything between is the atomic turn. */
  lemma TurnIsItsParts(j: JState, o: Oracle)
    requires j.job == Idle
    ensures JApply(JApply(JApply(JApply(j, Take), Remove(o)), Create(o)), Save(o.now)) == j.(s := RunTask(j.s, o))
  {
  }

  /** So is a forget. */
  lemma ForgetIsItsParts(s: WState, id: Id, o: Oracle)
    requires Keyed(s.db)
    ensures var (s', f) := BeginForget(s, id, o);
            (if f.Some? then EndForget(s', f.value, o.now) else s') == ForgetTask(s, id, o).0
  {
  }

  // ---- the invariant ----

  /** The run loop knows container `c` of task `id`, and will remove or record it. */
  predicate InHand(job: Job, c: ContainerId, id: Id) {
    (job.Starting? || job.Recording?) && job.t.id == id && job.t.containerId == c
  }

  predicate OnRecord(s: WState, c: ContainerId) {
    c in s.daemon.born && s.daemon.born[c] in s.db && s.db[s.daemon.born[c]].containerId == c
  }

  /** Each live container is the one on its task's record or the one the run loop has in hand. */
  ghost predicate NoneStray(s: WState, job: Job) {
    forall c :: c in s.daemon.live ==> c != "" && c in s.daemon.born && (OnRecord(s, c) || InHand(job, c, s.daemon.born[c]))
  }

  /** A queued start carries no container but the recorded one; no task has two. */
  ghost predicate StartsOk(db: map<Id, Task>, q: seq<Task>) {
    && (forall i :: 0 <= i < |q| && IsStart(q[i]) && q[i].id in db ==>
          q[i].containerId == "" || q[i].containerId == db[q[i].id].containerId)
    && (forall i, j :: 0 <= i < j < |q| && IsStart(q[i]) && IsStart(q[j]) ==> q[i].id != q[j].id)
  }

  /** Container `c` on a queued start of the job's task is still right when the job has saved its record. */
  predicate Outlasts(job: Job, c: ContainerId) {
    c == "" || ((job.Recording? || job.Stopping? || job.Ending?) && c == job.t.containerId)
  }

  /** Saving the job's record will replace no other container. */
  ghost predicate JobOk(s: WState, job: Job) {
    job.Idle? ||
    (&& !job.t.state.Pending?
     && (forall i :: 0 <= i < |s.queue| && IsStart(s.queue[i]) && s.queue[i].id == job.t.id ==> Outlasts(job, s.queue[i].containerId))
     && (job.Cleared? ==> job.t.containerId == "")
     && (job.t.id in s.db ==> RecordOk(s, job)))
  }

  ghost predicate RecordOk(s: WState, job: Job)
    requires !job.Idle? && job.t.id in s.db
  {
    var c := s.db[job.t.id].containerId;
    match job
    case Cleared(t) => !HoldsLive(s, t.id)
    case Recording(t) => c == t.containerId || !HoldsLive(s, t.id)
    case _ => c == "" || c == job.t.containerId
  }

  ghost predicate JInv(j: JState) {
    NoneStray(j.s, j.job) && StartsOk(j.s.db, j.s.queue) && Keyed(j.s.db) && NeverPending(j.s.db) && JobOk(j.s, j.job)
  }

  // ---- what each step keeps ----

  /** The record a start is accepted with names this container. */
  function Carried(s: WState, t: Task): ContainerId {
    if t.id in s.db then Inherit(t, s.db[t.id]).containerId else t.containerId
  }

  /** Only the record knows the task's live container. */
  ghost predicate OnlyRecordKnows(s: WState, job: Job, id: Id) {
    HoldsLive(s, id) && !InHand(job, s.db[id].containerId, id)
  }

  /** What the worker relies on to accept a start: none queued for the task, no container but the recorded
      one if that lives, and while the run loop is busy with the task, no container that it may replace. */
  ghost predicate AcceptOk(s: WState, job: Job, t: Task) {
    && (forall i :: 0 <= i < |s.queue| && IsStart(s.queue[i]) ==> s.queue[i].id != t.id)
    && (t.id in s.db && Carried(s, t) != s.db[t.id].containerId ==> !OnlyRecordKnows(s, job, t.id))
    && (!job.Idle? && job.t.id == t.id ==> Outlasts(job, Carried(s, t)))
  }

  lemma AcceptKeepsIff(j: JState, t: Task, extrasOk: bool)
    requires JInv(j)
    ensures JInv(JApply(j, Receive(t, extrasOk))) <==> (Accepts(j.s, t, extrasOk) && IsStart(t) ==> AcceptOk(j.s, j.job, t))
  {
    if Accepts(j.s, t, extrasOk) && IsStart(t) {
      if AcceptOk(j.s, j.job, t) { AcceptStartKeeps(j, t, extrasOk); } else { AcceptStartBreaks(j, t, extrasOk); }
    }
  }

  lemma AcceptStartKeeps(j: JState, t: Task, extrasOk: bool)
    requires JInv(j) && Accepts(j.s, t, extrasOk) && IsStart(t) && AcceptOk(j.s, j.job, t)
    ensures JInv(JApply(j, Receive(t, extrasOk)))
  {
  }

  lemma AcceptStartBreaks(j: JState, t: Task, extrasOk: bool)
    requires JInv(j) && Accepts(j.s, t, extrasOk) && IsStart(t) && !AcceptOk(j.s, j.job, t)
    ensures !JInv(JApply(j, Receive(t, extrasOk)))
  {
    var s' := AddTask(j.s, t, extrasOk);
    assert s'.queue[|j.s.queue|].id == t.id && s'.queue[|j.s.queue|].containerId == Carried(j.s, t) && IsStart(s'.queue[|j.s.queue|]);
    if i :| 0 <= i < |j.s.queue| && IsStart(j.s.queue[i]) && j.s.queue[i].id == t.id {
      assert s'.queue[i] == j.s.queue[i];
    }
  }

  lemma TakeKeeps(j: JState)
    requires JInv(j)
    ensures JInv(JApply(j, Take))
  {
    if j.job == Idle && j.s.queue != [] {
      var q, rest := j.s.queue[0], j.s.queue[1..];
      assert forall i :: 0 <= i < |rest| ==> rest[i] == j.s.queue[i + 1];
    }
  }

  lemma RemoveKeeps(j: JState, o: Oracle)
    requires JInv(j)
    ensures JInv(JApply(j, Remove(o)))
  {
  }

  /** A new container gets an id that no container has had and no record names. */
  ghost predicate NewId(s: WState, calls: RunCalls) {
    FreshRun(s.daemon, calls) && (!calls.creation.NotCreated? ==> forall id :: id in s.db ==> s.db[id].containerId != calls.creation.cid)
  }

  /** A create call loses its container exactly when it takes effect without an answer. */
  lemma CreateLosesIff(j: JState, o: Oracle)
    requires JInv(j) && NewId(j.s, o.run)
    ensures var unanswered := j.job.Cleared? && o.run.prepared && o.run.creation.Unanswered?;
            && (JInv(JApply(j, Create(o))) <==> !unanswered)
            && (unanswered ==> !NoneStray(JApply(j, Create(o)).s, JApply(j, Create(o)).job))
  {
    if j.job.Cleared? && o.run.prepared && o.run.creation.Unanswered? {
      assert o.run.creation.cid in JApply(j, Create(o)).s.daemon.live;
    }
  }

  lemma SaveKeeps(j: JState, now: Instant)
    requires JInv(j)
    ensures JInv(JApply(j, Save(now)))
  {
  }

  /** Containers may go at any time, and a record may be rewritten as long as it names the same container. */
  lemma ShrinkKeeps(j: JState, d: Daemon)
    requires JInv(j) && d.live <= j.s.daemon.live && d.born == j.s.daemon.born
    ensures JInv(j.(s := j.s.(daemon := d)))
  {
  }

  lemma SameContainerKeeps(j: JState, t: Task)
    requires JInv(j) && t.id in j.s.db && t.containerId == j.s.db[t.id].containerId && !t.state.Pending?
    ensures JInv(j.(s := Put(j.s, t)))
  {
  }

  lemma LookKeeps(j: JState, id: Id, o: Oracle)
    requires JInv(j)
    ensures JInv(JApply(j, Inspect(id, o)))
  {
    if id in j.s.db && j.s.db[id].state.Running? {
      var t := j.s.db[id];
      if o.timedOut {
        var d := if t.containerId != "" && o.client then DaemonStop(j.s.daemon, t.containerId, o.stop).0 else j.s.daemon;
        ShrinkKeeps(j, d);
        SameContainerKeeps(j.(s := j.s.(daemon := d)), FailWith(t.(hostPorts := []), TIMED_OUT));
      } else {
        SameContainerKeeps(j, Observed(t, o));
      }
    }
  }

  lemma StopListedKeeps(j: JState, c: ContainerId, calls: StopCalls)
    requires JInv(j)
    ensures JInv(JApply(j, StopListed(c, calls)))
  {
  }

  lemma {:induction false} PurgedStarts(db: map<Id, Task>, q: seq<Task>, id: Id)
    requires StartsOk(db, q)
    ensures var r := DropMatching(q, TaskNames(id)); StartsOk(db, r) && forall x :: x in r ==> x in q && x.id != id
  {
    if q != [] {
      var front, last := q[..|q| - 1], q[|q| - 1];
      PurgedStarts(db, front, id);
      var r := DropMatching(front, TaskNames(id));
      forall i | 0 <= i < |r| && IsStart(r[i]) && IsStart(last) ensures r[i].id != last.id {
        assert r[i] in front;
        var k :| 0 <= k < |front| && front[k] == r[i];
        assert q[k] == r[i];
      }
    }
  }

  lemma ForgetStopKeeps(j: JState, id: Id, o: Oracle)
    requires JInv(j)
    ensures JInv(JApply(j, ForgetStop(id, o)))
  {
    PurgedStarts(j.s.db, j.s.queue, id);
    var r := DropMatching(j.s.queue, TaskNames(id));
    forall i | 0 <= i < |r| ensures exists k :: 0 <= k < |j.s.queue| && j.s.queue[k] == r[i] { assert r[i] in j.s.queue; }
  }

  /** What the second half of a forget does to the record it finds: nothing, drop it, or overwrite it. */
  predicate Drops(s: WState, f: Forgetting) {
    f.t.id in s.db &&
    if IsActive(f.t) && f.t.containerId != "" then f.stopped
    else !(s.db[f.t.id].containerId != "" && IsActive(s.db[f.t.id]))
  }

  predicate Overwrites(s: WState, f: Forgetting) {
    f.t.id in s.db && IsActive(f.t) && f.t.containerId != "" && !f.stopped
  }

  /** A forget loses a container exactly when only the record knows it and the record is dropped, or is
      overwritten by one that names another. */
  lemma ForgetFinishLosesIff(j: JState, i: nat, now: Instant)
    requires JInv(j) && i < |j.forgets|
    ensures var f := j.forgets[i];
            var j' := JApply(j, ForgetFinish(i, now));
            NoneStray(j'.s, j'.job) <==>
            !(OnlyRecordKnows(j.s, j.job, f.t.id) &&
              (Drops(j.s, f) || (Overwrites(j.s, f) && f.t.containerId != j.s.db[f.t.id].containerId)))
  {
    var f, s := j.forgets[i], j.s;
    if OnlyRecordKnows(s, j.job, f.t.id) {
      var c := s.db[f.t.id].containerId;
      assert c in s.daemon.live && s.daemon.born[c] == f.t.id;
    }
  }

  ghost predicate ForgetOk(j: JState, f: Forgetting) {
    && (Drops(j.s, f) ==> !OnlyRecordKnows(j.s, j.job, f.t.id))
    && (Overwrites(j.s, f) ==> f.t.containerId == j.s.db[f.t.id].containerId)
  }

  lemma ForgetFinishKeeps(j: JState, i: nat, now: Instant)
    requires JInv(j) && i < |j.forgets| && ForgetOk(j, j.forgets[i])
    ensures JInv(JApply(j, ForgetFinish(i, now)))
  {
    var f := j.forgets[i];
    if Overwrites(j.s, f) { SameContainerKeeps(j, EndedRecord(f.t, j.s.db[f.t.id], now)); }
    else if Drops(j.s, f) { DroppedRecordKeeps(j, f.t.id); }
  }

  lemma DroppedRecordKeeps(j: JState, id: Id)
    requires JInv(j) && id in j.s.db && !OnlyRecordKnows(j.s, j.job, id)
    ensures JInv(j.(s := j.s.(db := j.s.db - {id})))
  {
  }

  /** A crash loses a container exactly when the run loop has made it and not yet recorded it. */
  lemma CrashLosesIff(j: JState)
    requires JInv(j)
    ensures JInv(JApply(j, Restart)) <==> !Unrecorded(j)
    ensures NoneStray(JApply(j, Restart).s, Idle) <==> !Unrecorded(j)
  {
  }

  ghost predicate Unrecorded(j: JState) {
    exists c :: c in j.s.daemon.live && c in j.s.daemon.born && InHand(j.job, c, j.s.daemon.born[c]) && !OnRecord(j.s, c)
  }

  // ---- whole runs ----

  ghost predicate JStepOk(j: JState, st: JStep) {
    match st
    case Receive(t, ok) => Accepts(j.s, t, ok) && IsStart(t) ==> AcceptOk(j.s, j.job, t)
    case Create(o) => NewId(j.s, o.run) && !(j.job.Cleared? && o.run.prepared && o.run.creation.Unanswered?)
    case ForgetFinish(i, _) => i < |j.forgets| ==> ForgetOk(j, j.forgets[i])
    case Restart => !Unrecorded(j)
    case _ => true
  }

  ghost predicate JRunOk(j: JState, steps: seq<JStep>)
    decreases |steps|
  {
    steps != [] ==> JStepOk(j, steps[0]) && JRunOk(JApply(j, steps[0]), steps[1..])
  }

  lemma JStepKeeps(j: JState, st: JStep)
    requires JInv(j) && JStepOk(j, st)
    ensures JInv(JApply(j, st))
  {
    match st {
      case Receive(t, ok) => AcceptKeepsIff(j, t, ok);
      case Take => TakeKeeps(j);
      case Remove(o) => RemoveKeeps(j, o);
      case Create(o) => CreateLosesIff(j, o);
      case Save(now) => SaveKeeps(j, now);
      case Inspect(id, o) => LookKeeps(j, id, o);
      case StopListed(c, calls) => StopListedKeeps(j, c, calls);
      case ForgetStop(id, o) => ForgetStopKeeps(j, id, o);
      case ForgetFinish(i, now) => if i < |j.forgets| { ForgetFinishKeeps(j, i, now); }
      case Restart => CrashLosesIff(j);
    }
  }

  /** Whatever is accepted, inspected, timed out or forgotten during the docker calls of the run loop, and
      whichever of those fail: every live container is the one on its task's record or the one the loop has
      in hand, and between turns there is at most one per task, on its record. */
  lemma {:induction false} NoContainerStrays(j: JState, steps: seq<JStep>)
    requires JInv(j) && JRunOk(j, steps)
    ensures var j' := JRun(j, steps);
            && JInv(j')
            && (forall c :: c in j'.s.daemon.live ==> OnRecord(j'.s, c) || InHand(j'.job, c, j'.s.daemon.born[c]))
            && (j'.job == Idle ==> NoneLost(j'.s))
            && (j'.job == Idle ==>
                  forall b, c :: b in j'.s.daemon.live && c in j'.s.daemon.live && b != c ==> j'.s.daemon.born[b] != j'.s.daemon.born[c])
    decreases |steps|
  {
    if steps != [] {
      JStepKeeps(j, steps[0]);
      NoContainerStrays(JApply(j, steps[0]), steps[1..]);
    }
  }

  // ---- what goes wrong otherwise ----

  lemma {:induction false} JRunAppend(j: JState, a: seq<JStep>, b: seq<JStep>)
    ensures JRun(j, a + b) == JRun(JRun(j, a), b)
    decreases |a|
  {
    if a == [] {
      assert a + b == b;
    } else {
      assert (a + b)[1..] == a[1..] + b;
      JRunAppend(JApply(j, a[0]), a[1..], b);
    }
  }

  const NEW := JState(FRESH, Idle, [])

  /** A whole start after it was taken off the queue, or with that. */
  function Executed(o: Oracle): seq<JStep> {
    [Remove(o), Create(o), Save(o.now)]
  }

  lemma ExecutedRuns(j: JState, o: Oracle)
    ensures JRun(j, Executed(o)) == JApply(JApply(JApply(j, Remove(o)), Create(o)), Save(o.now))
  {
    var j1 := JApply(j, Remove(o));
    assert Executed(o)[1..] == [Create(o), Save(o.now)] && [Create(o), Save(o.now)][1..] == [Save(o.now)];
    assert JRun(j1, [Create(o), Save(o.now)]) == JRun(JApply(j1, Create(o)), [Save(o.now)]);
  }

  /** A first start, executed without anything between. */
  function FirstStart(t: Task, o: Oracle): seq<JStep> {
    [Receive(t, true), Take] + Executed(o)
  }

  /** The worker runs task `id` in container `c` and has nothing else to do. */
  ghost predicate Serves(j: JState, id: Id, c: ContainerId) {
    && j.job == Idle && j.forgets == [] && j.s.queue == [] && id in j.s.db && j.s.db[id].id == id && j.s.db[id].state.Running?
    && j.s.db[id].containerId == c && c != "" && c in j.s.daemon.live && j.s.daemon.born == map[c := id]
  }

  lemma FirstStartServes(t: Task, o: Oracle)
    requires Startable(t, o) && Succeeds(o.run)
    ensures Serves(JRun(NEW, FirstStart(t, o)), t.id, o.run.creation.cid)
  {
    var j := JState(WState(map[t.id := t], [t], FRESH.daemon), Idle, []);
    JRunAppend(NEW, [Receive(t, true), Take], Executed(o));
    TwoSteps(NEW, Receive(t, true), Take);
    assert JApply(NEW, Receive(t, true)) == j;
    ExecutedRuns(JApply(j, Take), o);
    TurnIsItsParts(j, o);
  }

  predicate Restartable(r: Task, id: Id) {
    IsStart(r) && r.id == id && r.containerId == "" && ValidTask(r, true)
  }

  /** Every docker call of a start goes well, and its container gets a new id. */
  predicate GoesWell(o: Oracle, used: set<ContainerId>) {
    o.extrasOk && o.client && !o.stop.remove.Broken? && Succeeds(o.run) && o.run.creation.cid != "" && o.run.creation.cid !in used
  }

  /** The restart has been taken in hand, with what has been done since. */
  ghost predicate Restarting(j: JState, id: Id, c: ContainerId) {
    && j.job.Starting? && j.job.t.id == id && j.job.t.containerId == c && ValidTask(j.job.t, true)
    && id in j.s.db && j.s.db[id].state.Scheduled? && j.s.db[id].containerId == c && j.s.db[id].id == id && j.s.daemon.born == map[c := id]
  }

  lemma RestartTaken(j: JState, r: Task, id: Id, c: ContainerId)
    requires Serves(j, id, c) && Restartable(r, id)
    ensures var j' := JApply(JApply(j, Receive(r, true)), Take); Restarting(j', id, c) && j'.s.queue == [] && j'.forgets == []
  {
  }

  /** Executing the start in hand leaves the task running in the new container. */
  lemma RestartExecuted(j: JState, id: Id, c: ContainerId, o: Oracle)
    requires Restarting(j, id, c) && GoesWell(o, {c})
    ensures var j' := JRun(j, Executed(o));
            && j'.job == Idle && j'.s.queue == j.s.queue && j'.forgets == j.forgets
            && id in j'.s.db && j'.s.db[id].id == id && j'.s.db[id].state.Running? && j'.s.db[id].containerId == o.run.creation.cid
            && o.run.creation.cid in j'.s.daemon.live && j'.s.daemon.born == map[c := id, o.run.creation.cid := id]
  {
    ExecutedRuns(j, o);
  }

  // A second start accepted while the first is executed.

  lemma SecondQueued(j: JState, r: Task, id: Id, c: ContainerId)
    requires Restarting(j, id, c) && Restartable(r, id) && j.s.queue == []
    ensures var j' := JApply(j, Receive(r, true));
            Restarting(j', id, c) && j'.forgets == j.forgets && |j'.s.queue| == 1 &&
            IsStart(j'.s.queue[0]) && j'.s.queue[0].id == id && j'.s.queue[0].containerId == c && ValidTask(j'.s.queue[0], true)
  {
  }

  lemma SecondLoses(j: JState, id: Id, c: ContainerId, mid: ContainerId, o: Oracle)
    requires j.job == Idle && |j.s.queue| == 1 && ValidTask(j.s.queue[0], true)
    requires IsStart(j.s.queue[0]) && j.s.queue[0].id == id && j.s.queue[0].containerId == c && c != "" && c != mid
    requires id in j.s.db && j.s.db[id].state.Running? && j.s.db[id].containerId == mid
    requires mid in j.s.daemon.live && j.s.daemon.born == map[c := id, mid := id] && GoesWell(o, {c, mid})
    ensures !NoneLost(JRun(j, [Take] + Executed(o)).s)
  {
    JRunAppend(j, [Take], Executed(o));
    assert JRun(j, [Take]) == JApply(j, Take);
    ExecutedRuns(JApply(j, Take), o);
    var s' := JRun(j, [Take] + Executed(o)).s;
    assert mid in s'.daemon.live && s'.daemon.born[mid] == id && s'.db[id].containerId == o.run.creation.cid;
  }

  /** A retried restart is accepted while the first is executed: none is queued, and it carries the recorded
      container. Its turn removes that container again, and the one the first made is on no record. */
  lemma StartDuringStartLoses(t: Task, r: Task, first: Oracle, second: Oracle, third: Oracle)
    requires Startable(t, first) && Succeeds(first.run) && Restartable(r, t.id)
    requires GoesWell(second, {first.run.creation.cid}) && GoesWell(third, {first.run.creation.cid, second.run.creation.cid})
    ensures !NoneLost(JRun(NEW, FirstStart(t, first) + [Receive(r, true), Take, Receive(r, true)] + Executed(second) + ([Take] + Executed(third))).s)
  {
    var c := first.run.creation.cid;
    var begin, meanwhile := FirstStart(t, first), [Receive(r, true), Take, Receive(r, true)];
    var j1 := JRun(NEW, begin);
    FirstStartServes(t, first);
    RestartTaken(j1, r, t.id, c);
    var j2 := JApply(JApply(j1, Receive(r, true)), Take);
    SecondQueued(j2, r, t.id, c);
    var j3 := JApply(j2, Receive(r, true));
    ThreeSteps(j1, Receive(r, true), Take, Receive(r, true));
    RestartExecuted(j3, t.id, c, second);
    SecondLoses(JRun(j3, Executed(second)), t.id, c, second.run.creation.cid, third);
    JRunAppend(NEW, begin, meanwhile);
    JRunAppend(NEW, begin + meanwhile, Executed(second));
    JRunAppend(NEW, begin + meanwhile + Executed(second), [Take] + Executed(third));
  }

  lemma TwoSteps(j: JState, a: JStep, b: JStep)
    ensures JRun(j, [a, b]) == JApply(JApply(j, a), b)
  {
    assert [a, b][1..] == [b];
    assert JRun(JApply(j, a), [b]) == JApply(JApply(j, a), b);
  }

  lemma ThreeSteps(j: JState, a: JStep, b: JStep, c: JStep)
    ensures JRun(j, [a, b, c]) == JApply(JApply(JApply(j, a), b), c)
  {
    assert [a, b, c][1..] == [b, c];
    TwoSteps(JApply(j, a), b, c);
  }

  // A forget that began before the start was executed.

  lemma ForgetBegun(j: JState, id: Id, c: ContainerId, o: Oracle)
    requires Restarting(j, id, c) && c != "" && o.client && !o.stop.remove.Broken? && j.forgets == []
    ensures var j' := JApply(j, ForgetStop(id, o));
            && Restarting(j', id, c) && |j'.forgets| == 1
            && j'.forgets[0].t.id == id && IsActive(j'.forgets[0].t) && j'.forgets[0].t.containerId != "" && j'.forgets[0].stopped
  {
  }

  lemma ForgetDropsNew(j: JState, id: Id, c: ContainerId, now: Instant)
    requires j.forgets != [] && j.forgets[0].t.id == id && IsActive(j.forgets[0].t) && j.forgets[0].t.containerId != "" && j.forgets[0].stopped
    requires c in j.s.daemon.live && c in j.s.daemon.born && j.s.daemon.born[c] == id && id in j.s.db
    ensures !NoneLost(JApply(j, ForgetFinish(0, now)).s)
  {
    assert c in JApply(j, ForgetFinish(0, now)).s.daemon.live;
  }

  /** The forget reads the record and stops the old container; the start then makes and records a new one;
      the forget drops the record all the same. */
  lemma ForgetDuringStartLoses(t: Task, r: Task, first: Oracle, forget: Oracle, second: Oracle)
    requires Startable(t, first) && Succeeds(first.run) && Restartable(r, t.id) && forget.client && !forget.stop.remove.Broken?
    requires GoesWell(second, {first.run.creation.cid})
    ensures !NoneLost(JRun(NEW, FirstStart(t, first) + [Receive(r, true), Take, ForgetStop(t.id, forget)] + Executed(second) + [ForgetFinish(0, second.now)]).s)
  {
    var c := first.run.creation.cid;
    var begin, meanwhile := FirstStart(t, first), [Receive(r, true), Take, ForgetStop(t.id, forget)];
    var j1 := JRun(NEW, begin);
    FirstStartServes(t, first);
    RestartTaken(j1, r, t.id, c);
    var j2 := JApply(JApply(j1, Receive(r, true)), Take);
    ForgetBegun(j2, t.id, c, forget);
    var j3 := JApply(j2, ForgetStop(t.id, forget));
    ThreeSteps(j1, Receive(r, true), Take, ForgetStop(t.id, forget));
    RestartExecuted(j3, t.id, c, second);
    var j4 := JRun(j3, Executed(second));
    ForgetDropsNew(j4, t.id, second.run.creation.cid, second.now);
    JRunAppend(NEW, begin, meanwhile);
    JRunAppend(NEW, begin + meanwhile, Executed(second));
    JRunAppend(NEW, begin + meanwhile + Executed(second), [ForgetFinish(0, second.now)]);
    assert JRun(j4, [ForgetFinish(0, second.now)]) == JApply(j4, ForgetFinish(0, second.now));
  }

  // A crash between the docker calls and the record.

  /** The container of a start lives, and the record it was to go on is lost with the process. */
  lemma CrashDuringStartLoses(t: Task, o: Oracle)
    requires Startable(t, o) && Succeeds(o.run)
    ensures !NoneLost(JRun(NEW, [Receive(t, true), Take] + [Remove(o), Create(o), Restart]).s)
  {
    var j := JApply(JApply(NEW, Receive(t, true)), Take);
    JRunAppend(NEW, [Receive(t, true), Take], [Remove(o), Create(o), Restart]);
    TwoSteps(NEW, Receive(t, true), Take);
    ThreeSteps(j, Remove(o), Create(o), Restart);
    var s' := JApply(JApply(JApply(j, Remove(o)), Create(o)), Restart).s;
    assert o.run.creation.cid in s'.daemon.live && s'.daemon.born[o.run.creation.cid] == t.id && s'.db[t.id].containerId == "";
  }
}
