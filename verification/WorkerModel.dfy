/** The worker's task lifecycle over an abstract container daemon (worker/worker.go, task/task.go). */
module WorkerModel {
  import opened Base
  import opened Tasks
  import opened Ports

  // ---- the daemon ----

  /** Containers that exist (created and not removed), and for which task every container was ever created. */
  datatype Daemon = Daemon(live: set<ContainerId>, born: map<ContainerId, Id>)

  /** The result of one daemon call: done, no such container, or another error, after which the
      container may be gone all the same. */
  datatype CallResult = Ok | Missing | Broken(gone: bool)

  /** The calls behind docker.Stop. A failing stop call is not fatal: removal is forced. */
  datatype StopCalls = StopCalls(stop: CallResult, remove: CallResult)

  /** A create call: answered with an id, failed without effect, or failed after the daemon had made
      the container, whose id the caller then never learns. */
  datatype Creation = Created(cid: ContainerId) | NotCreated | Unanswered(cid: ContainerId)

  /** The calls behind docker.Run: pull and configuration, create, start, log attachment, and the
      removal that cleans up when one of the last two fails. */
  datatype RunCalls = RunCalls(
    prepared: bool, creation: Creation, started: bool, attached: bool, cleanup: CallResult)

  datatype Inspection = NoContainer | NoState | Exited(code: int) | Unhealthy | Healthy

  /** The daemon's answers during one worker operation. */
  datatype Oracle = Oracle(
    client: bool,  // whether a docker client could be made
    extrasOk: bool,  // whether the env and security options are valid
    stop: StopCalls,
    run: RunCalls,
    inspection: Inspection,
    published: seq<PortMapping>,
    timedOut: bool,
    now: Instant)

  function Gone(d: Daemon, c: ContainerId, r: CallResult): Daemon {
    if r == Broken(false) then d else d.(live := d.live - {c})
  }

  /** docker.Stop: an error is reported exactly when there is no id or the removal breaks. */
  function DaemonStop(d: Daemon, c: ContainerId, calls: StopCalls): (Daemon, bool) {
    if c == "" then (d, false) else (Gone(d, c, calls.remove), !calls.remove.Broken?)
  }

  datatype RunResult = RunResult(daemon: Daemon, cid: ContainerId, ok: bool)

  /** docker.Run: on failure the id of a container it could not clean up is kept for a later attempt. */
  function DaemonRun(d: Daemon, id: Id, calls: RunCalls): RunResult {
    if !calls.prepared || calls.creation.NotCreated? then RunResult(d, "", false)
    else
      var c := calls.creation.cid;
      var d' := Daemon(d.live + {c}, d.born[c := id]);
      if calls.creation.Unanswered? then RunResult(d', "", false)
      else if calls.started && calls.attached then RunResult(d', c, true)
      else RunResult(Gone(d', c, calls.cleanup), if calls.cleanup.Ok? then "" else c, false)
  }

  /** A new container gets an id no container has had. */
  predicate FreshRun(d: Daemon, calls: RunCalls) {
    calls.creation.NotCreated? || (calls.creation.cid != "" && calls.creation.cid !in d.born)
  }

  // ---- the worker ----

  datatype WState = WState(db: map<Id, Task>, queue: seq<Task>, daemon: Daemon)

  function Put(s: WState, t: Task): WState {
    s.(db := s.db[t.id := t])
  }

  /** A start inherits from the worker's record what it does not carry itself. */
  function Inherit(t: Task, persisted: Task): Task {
    t.(containerId := if t.containerId == "" then persisted.containerId else t.containerId,
       hostPorts := if t.hostPorts == [] then persisted.hostPorts else t.hostPorts)
  }

  /** AddTask: starts are recorded and queued, anything else is queued only for a known task. */
  predicate Accepts(s: WState, t: Task, extrasOk: bool) {
    ValidTask(t, extrasOk) && (t.state.Scheduled? || t.id in s.db)
  }

  function AddTask(s: WState, t: Task, extrasOk: bool): WState {
    if !Accepts(s, t, extrasOk) then s
    else if t.state.Scheduled? then
      var queued := if t.id in s.db then Inherit(t, s.db[t.id]) else t;
      Put(s, queued).(queue := s.queue + [queued])
    else s.(queue := s.queue + [t])
  }

  function MergeQueued(queued: Task, persisted: Task): Task {
    var filled := if queued.containerId == "" then queued.(containerId := persisted.containerId) else queued;
    if filled.state.Completed? && persisted.containerId != "" then filled.(containerId := persisted.containerId) else filled
  }

  const INVALID := "invalid task"
  const NO_CLIENT := "could not create docker client"
  const OLD_CONTAINER := "could not remove previous container"
  const START_FAILED := "container failed to start"

  function FailWith(t: Task, reason: string): Task {
    t.(state := Failed, failureReason := reason)
  }

  function StartTask(s: WState, t: Task, o: Oracle): WState {
    if !ValidTask(t, o.extrasOk) then Put(s, FailWith(t.(hostPorts := []), INVALID))
    else
      var begun := t.(startTime := o.now, hostPorts := []);
      if !o.client then Put(s, FailWith(begun, NO_CLIENT))
      else if begun.containerId == "" then RunContainer(s, begun, o)
      else
        var (d, ok) := DaemonStop(s.daemon, begun.containerId, o.stop);
        var s' := s.(daemon := d);
        if ok then RunContainer(s', begun.(containerId := ""), o) else Put(s', FailWith(begun, OLD_CONTAINER))
  }

  function RunContainer(s: WState, t: Task, o: Oracle): WState {
    var r := DaemonRun(s.daemon, t.id, o.run);
    Put(s.(daemon := r.daemon), RunRecord(t, r, o))
  }

  /** What a start records of a run. */
  function RunRecord(t: Task, r: RunResult, o: Oracle): Task {
    if r.ok then t.(containerId := r.cid, state := Running, hostPorts := if o.inspection.NoContainer? then [] else o.published)
    else FailWith(if r.cid != "" then t.(containerId := r.cid) else t, START_FAILED)
  }

  /** What a stop records over the record it finds afterwards. */
  function EndedRecord(t: Task, persisted: Task, now: Instant): Task {
    var ended := t.(finishTime := now);
    if ended.failureReason != "" then ended.(state := Failed)
    else if persisted.state.Failed? then ended.(state := Failed, failureReason := persisted.failureReason)
    else ended.(state := Completed)
  }

  /** StopTask; the second result says whether the container was removed without an error. */
  function StopTask(s: WState, t: Task, o: Oracle): (WState, bool) {
    if !o.client then (s, false)
    else
      var (d, ok) := DaemonStop(s.daemon, t.containerId, o.stop);
      var s' := s.(daemon := d);
      if t.id !in s.db then (s', false)
      else (Put(s', EndedRecord(t, s.db[t.id], o.now)), ok)
  }

  /** One turn of the run loop. */
  function RunTask(s: WState, o: Oracle): WState {
    if s.queue == [] then s
    else
      var q := s.queue[0];
      var s1 := s.(queue := s.queue[1..]);
      if q.id !in s.db && !q.state.Scheduled? then s1
      else
        var s2 := if q.id in s.db then s1 else Put(s1, q);
        var persisted := s2.db[q.id];
        var t := MergeQueued(q, persisted);
        if !ValidStateTransition(persisted.state, t.state) then s2
        else if t.state.Scheduled? then StartTask(s2, t, o)
        else if t.state.Completed? then StopTask(s2, t, o).0
        else s2
  }

  const TIMED_OUT := "task timed out"
  const NO_INSPECTION := "container inspection failed"
  const UNHEALTHY := "container reported unhealthy"
  const BAD_EXIT := "container exited with an error"

  /** timeoutTask on a record that was Running when the pass began. */
  function TimeoutTask(s: WState, t: Task, o: Oracle): WState {
    var s' := if t.containerId != "" && o.client then s.(daemon := DaemonStop(s.daemon, t.containerId, o.stop).0) else s;
    if t.id in s.db && s.db[t.id].state.Running?
    then Put(s', FailWith(s.db[t.id].(hostPorts := []), TIMED_OUT))
    else s'
  }

  /** What an inspection makes of a Running record. */
  function Observed(t: Task, o: Oracle): Task {
    if !o.client || o.inspection.NoContainer? || o.inspection.NoState? then FailWith(t.(hostPorts := []), NO_INSPECTION)
    else
      var seen := t.(hostPorts := o.published);
      match o.inspection
      case Exited(code) =>
        if code == 0 then seen.(state := Completed, finishTime := o.now, failureReason := "") else FailWith(seen, BAD_EXIT)
      case Unhealthy => FailWith(seen, UNHEALTHY)
      case _ => seen
  }

  /** updateTasks for one record. */
  function Poll(s: WState, id: Id, o: Oracle): WState {
    if id !in s.db || !s.db[id].state.Running? then s
    else if o.timedOut then TimeoutTask(s, s.db[id], o)
    else Put(s, Observed(s.db[id], o))
  }

  function TaskNames(id: Id): Task -> bool {
    (t: Task) => t.id == id
  }

  /** No queued event of the task is left. */
  function Purged(s: WState, id: Id): WState {
    s.(queue := DropMatching(s.queue, TaskNames(id)))
  }

  predicate IsActive(t: Task) {
    t.state.Scheduled? || t.state.Running?
  }

  /** ForgetTask; the second result says whether the record is gone. */
  function ForgetTask(s: WState, id: Id, o: Oracle): (WState, bool) {
    if id !in s.db then (s, false)
    else
      var t := s.db[id];
      var purged := Purged(s, id);
      var (s', ok) := if IsActive(t) && t.containerId != "" then StopTask(purged, t, o) else (purged, true);
      if !ok then (s', false)
      else if id in s'.db && s'.db[id].containerId != "" && IsActive(s'.db[id]) then (s', false)
      else (s'.(db := s'.db - {id}), true)
  }

  // ---- runs ----

  datatype WStep =
    | Accept(t: Task, extrasOk: bool)
    | Turn(o: Oracle)
    | Look(id: Id, o: Oracle)
    | Forget(id: Id, o: Oracle)
    | Crash  // the queue is in memory; records and containers survive

  function WApply(s: WState, st: WStep): WState {
    match st
    case Accept(t, ok) => AddTask(s, t, ok)
    case Turn(o) => RunTask(s, o)
    case Look(id, o) => Poll(s, id, o)
    case Forget(id, o) => ForgetTask(s, id, o).0
    case Crash => s.(queue := [])
  }

  function WRun(s: WState, steps: seq<WStep>): WState
    decreases |steps|
  {
    if steps == [] then s else WRun(WApply(s, steps[0]), steps[1..])
  }

  lemma {:induction false} WRunSnoc(s: WState, steps: seq<WStep>, st: WStep)
    ensures WRun(s, steps + [st]) == WApply(WRun(s, steps), st)
    decreases |steps|
  {
    if steps == [] {
      assert WRun(WApply(s, st), []) == WApply(s, st);
    } else {
      assert (steps + [st])[1..] == steps[1..] + [st];
      WRunSnoc(WApply(s, steps[0]), steps[1..], st);
    }
  }

  lemma WRunNext(s: WState, steps: seq<WStep>, i: nat)
    requires i < |steps|
    ensures WRun(s, steps[..i + 1]) == WApply(WRun(s, steps[..i]), steps[i])
  {
    assert steps[..i + 1] == steps[..i] + [steps[i]];
    WRunSnoc(s, steps[..i], steps[i]);
  }
}
