/** What acceptance, the run loop, an inspection and a forget make of a task and its container
    (worker/worker.go). */
module WorkerOutcomes {
  import opened Base
  import opened Tasks
  import opened Ports
  import opened WorkerModel

  // ---- what can change ----

  /** Of all containers at most `c` has gone, and it has unless the removal was refused. */
  ghost predicate Removed(d: Daemon, d': Daemon, c: ContainerId, removal: CallResult) {
    && d'.born == d.born
    && forall x :: x in d'.live <==> x in d.live && (x != c || removal == Broken(false))
  }

  // ---- acceptance ----

  /** A start is accepted if its task is well formed, and anything else if the task is also known. What is accepted
      is queued last; a start, filled in with the container and ports on record if it names none, is recorded. */
  lemma AcceptOutcome(s: WState, t: Task, extrasOk: bool)
    ensures var s' := AddTask(s, t, extrasOk);
            if !ValidTask(t, extrasOk) || (t.state != Scheduled && t.id !in s.db) then s' == s
            else if t.state != Scheduled then s' == s.(queue := s.queue + [t])
            else
              && t.id in s'.db && OthersKept(s.db, s'.db, t.id) && s' == s.(db := s'.db, queue := s.queue + [s'.db[t.id]])
              && s'.db[t.id] == t.(containerId := s'.db[t.id].containerId, hostPorts := s'.db[t.id].hostPorts)
              && s'.db[t.id].containerId == (if t.containerId == "" && t.id in s.db then s.db[t.id].containerId else t.containerId)
              && s'.db[t.id].hostPorts == (if t.hostPorts == [] && t.id in s.db then s.db[t.id].hostPorts else t.hostPorts)
  {
  }

  // ---- stops ----

  ghost predicate StopNext(s: WState) {
    s.queue != [] && s.queue[0].state == Completed && s.queue[0].id in s.db
  }

  /** The container a stop goes for: whatever it names, the recorded one if there is one. */
  function Target(stop: Task, record: Task): ContainerId {
    if record.containerId != "" then record.containerId else stop.containerId
  }

  /** The record is the stop's, ended now: Failed if stop or record carries a failure, Completed otherwise. */
  ghost predicate EndedNow(ended: Task, stop: Task, record: Task, now: Instant) {
    && ended.state == (if stop.failureReason != "" || record.state == Failed then Failed else Completed)
    && ended.failureReason == (if stop.failureReason == "" && record.state == Failed then record.failureReason else stop.failureReason)
    && ended == stop.(state := ended.state, failureReason := ended.failureReason,
                      finishTime := now, containerId := Target(stop, record))
  }

  lemma StopOutcome(s: WState, stop: Task, t: Task, o: Oracle)
    requires stop.id in s.db && t == stop.(containerId := Target(stop, s.db[stop.id])) && o.client
    ensures var s' := StopTask(s, t, o).0;
            && s'.queue == s.queue && stop.id in s'.db && OthersKept(s.db, s'.db, stop.id) && EndedNow(s'.db[stop.id], stop, s.db[stop.id], o.now)
            && (if t.containerId == "" then s'.daemon == s.daemon else Removed(s.daemon, s'.daemon, t.containerId, o.stop.remove))
  {
  }

  /** A turn that takes a stop acts on a task that is Running, Completed or Failed and on no other, and only with a
      docker client. It removes the task's container, and no other, unless docker refuses, and ends the record. */
  lemma StopTurn(s: WState, o: Oracle)
    requires Keyed(s.db) && StopNext(s)
    ensures var stop, record := s.queue[0], s.db[s.queue[0].id];
            var s' := RunTask(s, o);
            if !o.client || record.state == Pending || record.state == Scheduled then s' == s.(queue := s.queue[1..])
            else
              && s'.queue == s.queue[1..] && stop.id in s'.db && OthersKept(s.db, s'.db, stop.id) && EndedNow(s'.db[stop.id], stop, record, o.now)
              && (if Target(stop, record) == "" then s'.daemon == s.daemon
                  else Removed(s.daemon, s'.daemon, Target(stop, record), o.stop.remove))
  {
    var stop, record := s.queue[0], s.db[s.queue[0].id];
    var t := stop.(containerId := Target(stop, record));
    assert MergeQueued(stop, record) == t;
    if o.client { StopOutcome(s.(queue := s.queue[1..]), stop, t, o); }
  }

  // ---- containers ----

  /** A run succeeds if and only if every call of it goes through. Its container exists afterwards if and only if
      the create call took effect and was not undone: only a run that fails with the id in hand cleans up, unless
      docker refuses that too. The caller has the id if it was told and the clean-up is not known to have worked. */
  lemma RunOutcome(d: Daemon, id: Id, calls: RunCalls)
    ensures var r := DaemonRun(d, id, calls);
            var made := calls.prepared && !calls.creation.NotCreated?;
            var told := calls.prepared && calls.creation.Created?;
            && (r.ok <==> told && calls.started && calls.attached)
            && (made ==> r.daemon.born == d.born[calls.creation.cid := id]) && (!made ==> r.daemon == d)
            && (made ==> forall c :: c in r.daemon.live <==>
                  if c == calls.creation.cid then !told || r.ok || calls.cleanup == Broken(false) else c in d.live)
            && r.cid == (if told && (r.ok || calls.cleanup != Ok) then calls.creation.cid else "")
  {
  }

  // ---- starts ----

  ghost predicate StartNext(s: WState) {
    s.queue != [] && s.queue[0].state == Scheduled
  }

  /** The container a start removes first: the one it names, or else the recorded one. */
  function Previous(s: WState, start: Task): ContainerId {
    if start.containerId == "" && start.id in s.db then s.db[start.id].containerId else start.containerId
  }

  /** Every call a start needs goes through. */
  predicate GoesThrough(s: WState, start: Task, o: Oracle) {
    && ValidTask(start, o.extrasOk) && o.client
    && (Previous(s, start) == "" || o.stop.remove == Ok || o.stop.remove == Missing)
    && o.run.prepared && o.run.creation.Created? && o.run.started && o.run.attached
  }

  ghost predicate Restarted(s: WState, s': WState, start: Task, o: Oracle) {
    && o.run.creation.Created? && start.id in s'.db
    && s'.db[start.id] == start.(state := Running, containerId := o.run.creation.cid, startTime := o.now,
                                 hostPorts := if o.inspection == NoContainer then [] else o.published)
    && s'.daemon.born == s.daemon.born[o.run.creation.cid := start.id]
    && (forall c :: c in s'.daemon.live <==>
          c == o.run.creation.cid || (c in s.daemon.live && !(Previous(s, start) != "" && c == Previous(s, start))))
  }

  /** The previous container may have gone and one made by this start may have come; there is no other change. */
  ghost predicate NoOtherContainer(s: WState, s': WState, start: Task, o: Oracle) {
    && (forall c :: c in s'.daemon.live && c !in s.daemon.live ==> !o.run.creation.NotCreated? && c == o.run.creation.cid)
    && (forall c :: c in s.daemon.live && c !in s'.daemon.live ==>
          c == Previous(s, start) || (!o.run.creation.NotCreated? && c == o.run.creation.cid))
  }

  lemma StartSucceeds(s: WState, start: Task, t: Task, o: Oracle)
    requires t == start.(containerId := Previous(s, start)) && start.id in s.db && start.state == Scheduled
    requires GoesThrough(s, start, o)
    ensures var s' := StartTask(s, t, o);
            s'.queue == s.queue && start.id in s'.db && OthersKept(s.db, s'.db, start.id) && Restarted(s, s', start, o)
  {
  }

  /** A run that stops half way fails the task and may leave the container it made. */
  lemma RunFails(s: WState, t: Task, o: Oracle)
    requires !(o.run.prepared && o.run.creation.Created? && o.run.started && o.run.attached)
    ensures var s' := RunContainer(s, t, o);
            && s'.queue == s.queue && t.id in s'.db && OthersKept(s.db, s'.db, t.id)
            && s'.db[t.id].state == Failed && s'.db[t.id].failureReason != ""
            && forall c :: (c in s.daemon.live <==> c in s'.daemon.live) || (!o.run.creation.NotCreated? && c == o.run.creation.cid)
  {
  }

  lemma StartFails(s: WState, start: Task, t: Task, o: Oracle)
    requires t == start.(containerId := Previous(s, start)) && start.id in s.db && start.state == Scheduled
    requires !GoesThrough(s, start, o)
    ensures var s' := StartTask(s, t, o);
            && s'.queue == s.queue && start.id in s'.db && OthersKept(s.db, s'.db, start.id) && NoOtherContainer(s, s', start, o)
            && s'.db[start.id].state == Failed && s'.db[start.id].failureReason != ""
  {
    if ValidTask(t, o.extrasOk) && o.client {
      var begun := t.(startTime := o.now, hostPorts := []);
      if t.containerId == "" {
        RunFails(s, begun, o);
      } else if !o.stop.remove.Broken? {
        RunFails(s.(daemon := DaemonStop(s.daemon, t.containerId, o.stop).0), begun.(containerId := ""), o);
      }
    }
  }

  /** A turn that takes a start acts whatever the record says, and without one. If every call it needs goes through
      the task runs, as the start has it, in the new container, the previous one is gone and no other has changed;
      if one does not, the task has failed for a reason. */
  lemma StartTurn(s: WState, o: Oracle)
    requires Keyed(s.db) && StartNext(s)
    ensures var start := s.queue[0];
            var s' := RunTask(s, o);
            && s'.queue == s.queue[1..] && start.id in s'.db && OthersKept(s.db, s'.db, start.id)
            && (if GoesThrough(s, start, o) then Restarted(s, s', start, o)
                else NoOtherContainer(s, s', start, o) && s'.db[start.id].state == Failed && s'.db[start.id].failureReason != "")
  {
    var start := s.queue[0];
    var s1 := s.(queue := s.queue[1..]);
    var s2 := if start.id in s.db then s1 else Put(s1, start);
    var t := start.(containerId := Previous(s, start));
    assert Previous(s2, start) == Previous(s, start) && MergeQueued(start, s2.db[start.id]) == t;
    if GoesThrough(s, start, o) { StartSucceeds(s2, start, t, o); } else { StartFails(s2, start, t, o); }
  }

  /** What is neither a start nor the stop of a known task is dropped. */
  lemma OtherTurn(s: WState, o: Oracle)
    requires s.queue != [] && !StartNext(s) && !StopNext(s)
    ensures RunTask(s, o) == s.(queue := s.queue[1..])
  {
  }

  // ---- inspections ----

  /** Only a Running record is looked at. It fails, retryable, when it has run too long or when docker shows no sound
      container: none, none with a state, an error exit or an unhealthy one. It completes, now, if and only if the
      container exited without an error. Otherwise it runs on. Only a task that has run too long loses its container. */
  lemma PollOutcome(s: WState, id: Id, o: Oracle)
    requires Keyed(s.db)
    ensures var s' := Poll(s, id, o);
            if id !in s.db || s.db[id].state != Running then s' == s
            else
              var t, r := s.db[id], s'.db[id];
              var fails := !o.client || o.inspection in {NoContainer, NoState, Unhealthy} || (o.inspection.Exited? && o.inspection.code != 0);
              var exits := o.client && o.inspection == Exited(0);
              && s'.queue == s.queue && id in s'.db && OthersKept(s.db, s'.db, id)
              && (if o.timedOut && o.client && t.containerId != ""
                  then Removed(s.daemon, s'.daemon, t.containerId, o.stop.remove) else s'.daemon == s.daemon)
              && r.state == (if o.timedOut || fails then Failed else if exits then Completed else Running)
              && r.finishTime == (if !o.timedOut && exits then o.now else t.finishTime)
              && r.hostPorts == (if o.timedOut || !o.client || o.inspection in {NoContainer, NoState} then [] else o.published)
              && (r.state == Failed ==> r.failureReason != "") && (r.state == Completed ==> r.failureReason == "")
              && r == t.(state := r.state, finishTime := r.finishTime, hostPorts := r.hostPorts, failureReason := r.failureReason)
              && (r.state == Running ==> r.failureReason == t.failureReason)
  {
  }

  // ---- forgetting ----

  /** A forget fails if and only if the task is unknown, or it is scheduled or running with a container that the
      worker cannot remove. Otherwise the record is gone, and the container of a scheduled or running task with it.
      Either way no event of a known task is left, the other events keep their order, and no other record and no
      other container changes. */
  lemma ForgetOutcome(s: WState, id: Id, o: Oracle)
    requires Keyed(s.db)
    ensures var (s', ok) := ForgetTask(s, id, o);
            if id !in s.db then s' == s && !ok
            else
              var t := s.db[id];
              var stops := (t.state == Scheduled || t.state == Running) && t.containerId != "";
              && (ok <==> !(stops && (!o.client || o.stop.remove.Broken?)))
              && (ok <==> id !in s'.db) && s'.db - {id} == s.db - {id}
              && (if stops && o.client then Removed(s.daemon, s'.daemon, t.containerId, o.stop.remove) else s'.daemon == s.daemon)
              && s'.queue == DropMatching(s.queue, TaskNames(id))
              && (forall e :: e in s'.queue <==> e in s.queue && e.id != id)
  {
    DropMatchingMembers(s.queue, TaskNames(id));
  }
}
