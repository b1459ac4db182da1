/** The worker and its docker client as objects, each operation proved against its step (worker/worker.go, task/task.go). */
module Workers {
  import opened Base
  import opened Tasks
  import opened Ports
  import opened Queues
  import opened Stores
  import opened WorkerModel

  class Docker {
    var daemon: Daemon

    constructor (daemon: Daemon)
      ensures this.daemon == daemon
    {
      this.daemon := daemon;
    }

    method Remove(c: ContainerId, r: CallResult)
      modifies this
      ensures daemon == Gone(old(daemon), c, r)
    {
      match r {
        case Ok => daemon := daemon.(live := daemon.live - {c});
        case Missing => daemon := daemon.(live := daemon.live - {c});
        case Broken(gone) => if gone { daemon := daemon.(live := daemon.live - {c}); }
      }
    }

    /** Stop, then remove by force; only the removal decides the result. */
    method Stop(c: ContainerId, calls: StopCalls) returns (ok: bool)
      modifies this
      ensures (daemon, ok) == DaemonStop(old(daemon), c, calls)
    {
      if c == "" {
        return false;
      }
      Remove(c, calls.remove);
      ok := !calls.remove.Broken?;
    }

    /** Create and start; a container that fails to start is removed again, and kept track of if that fails. */
    method Run(id: Id, calls: RunCalls) returns (cid: ContainerId, ok: bool)
      modifies this
      ensures RunResult(daemon, cid, ok) == DaemonRun(old(daemon), id, calls)
    {
      if !calls.prepared || calls.creation.NotCreated? {
        return "", false;
      }
      var c := calls.creation.cid;
      daemon := Daemon(daemon.live + {c}, daemon.born[c := id]);
      if calls.creation.Unanswered? {
        return "", false;
      }
      if calls.started && calls.attached {
        return c, true;
      }
      Remove(c, calls.cleanup);
      return if calls.cleanup.Ok? then "" else c, false;
    }
  }

  class Worker {
    var db: map<Id, Task>
    const queue: Queue<Task>
    const docker: Docker

    ghost predicate Valid()
      reads this, queue, queue.buf
    {
      queue.Valid()
    }

    ghost function View(): WState
      reads this, queue, queue.buf, docker
      requires Valid()
    {
      WState(db, queue.Contents(), docker.daemon)
    }

    constructor (queue: Queue<Task>, docker: Docker)
      requires queue.Valid()
      ensures this.queue == queue && this.docker == docker && db == map[]
      ensures Valid() && View() == WState(map[], queue.Contents(), docker.daemon)
    {
      this.queue, this.docker := queue, docker;
      db := map[];
    }

    method AddTask(t: Task, extrasOk: bool) returns (accepted: bool)
      requires Valid()
      modifies this, queue, queue.buf
      ensures Valid() && (queue.buf == old(queue.buf) || fresh(queue.buf))
      ensures accepted <==> Accepts(old(View()), t, extrasOk)
      ensures View() == WorkerModel.AddTask(old(View()), t, extrasOk)
    {
      if !ValidTask(t, extrasOk) {
        return false;
      }
      var queued := t;
      if t.state.Scheduled? {
        if t.id in db {
          var persisted := db[t.id];
          if queued.containerId == "" {
            queued := queued.(containerId := persisted.containerId);
          }
          if |queued.hostPorts| == 0 {
            queued := queued.(hostPorts := persisted.hostPorts);
          }
        }
        db := db[queued.id := queued];
      } else if t.id !in db {
        return false;
      }
      queue.Enqueue(queued);
      return true;
    }

    /** Dequeue, merge with the record, check the transition, act. */
    method RunTask(o: Oracle)
      requires Valid()
      modifies this, queue, queue.buf, docker
      ensures Valid() && queue.buf == old(queue.buf)
      ensures View() == WorkerModel.RunTask(old(View()), o)
    {
      var next := queue.Dequeue();
      if next == None {
        return;
      }
      var t := next.value;
      if t.id !in db {
        if !t.state.Scheduled? {
          return;
        }
        db := db[t.id := t];
      }
      var persisted := db[t.id];
      if t.containerId == "" {
        t := t.(containerId := persisted.containerId);
      }
      if t.state.Completed? && persisted.containerId != "" {
        t := t.(containerId := persisted.containerId);
      }
      if ValidStateTransition(persisted.state, t.state) {
        match t.state {
          case Scheduled => StartTask(t, o);
          case Completed => var _ := StopTask(t, o);
          case _ =>
        }
      }
    }

    method StartTask(t: Task, o: Oracle)
      requires Valid()
      modifies this`db, docker
      ensures Valid() && View() == WorkerModel.StartTask(old(View()), t, o)
    {
      var t := t;
      if !ValidTask(t, o.extrasOk) {
        t := FailWith(t.(hostPorts := []), INVALID);
        db := db[t.id := t];
        return;
      }
      t := t.(startTime := o.now, hostPorts := []);
      if !o.client {
        t := FailWith(t, NO_CLIENT);
        db := db[t.id := t];
        return;
      }
      if t.containerId != "" {
        var stopped := docker.Stop(t.containerId, o.stop);
        if !stopped {
          t := FailWith(t, OLD_CONTAINER);
          db := db[t.id := t];
          return;
        }
        t := t.(containerId := "");
      }
      RunContainer(t, o);
    }

    method RunContainer(t: Task, o: Oracle)
      requires Valid()
      modifies this`db, docker
      ensures Valid() && View() == WorkerModel.RunContainer(old(View()), t, o)
    {
      var t := t;
      var cid, ok := docker.Run(t.id, o.run);
      if !ok {
        if cid != "" {
          t := t.(containerId := cid);
        }
        t := FailWith(t, START_FAILED);
        db := db[t.id := t];
        return;
      }
      t := t.(containerId := cid, state := Running);
      t := t.(hostPorts := if o.inspection.NoContainer? then [] else o.published);
      db := db[t.id := t];
    }

    method StopTask(t: Task, o: Oracle) returns (ok: bool)
      requires Valid()
      modifies this`db, docker
      ensures Valid() && (View(), ok) == WorkerModel.StopTask(old(View()), t, o)
    {
      if !o.client {
        return false;
      }
      var stopped := docker.Stop(t.containerId, o.stop);
      if t.id !in db {
        return false;
      }
      var ended := t.(finishTime := o.now);
      if ended.failureReason != "" {
        ended := ended.(state := Failed);
      } else if db[t.id].state.Failed? {
        ended := ended.(state := Failed, failureReason := db[t.id].failureReason);
      } else {
        ended := ended.(state := Completed);
      }
      db := db[t.id := ended];
      return stopped;
    }

    /** The record is dropped unless its container could not be stopped. */
    method ForgetTask(id: Id, o: Oracle) returns (forgotten: bool)
      requires Valid()
      modifies this, queue, queue.buf, docker
      ensures Valid() && queue.buf == old(queue.buf)
      ensures (View(), forgotten) == WorkerModel.ForgetTask(old(View()), id, o)
    {
      if id !in db {
        return false;
      }
      var t := db[id];
      PurgeQueue(id);
      var ok := StopIfActive(t, o);
      if !ok {
        return false;
      }
      if id in db && db[id].containerId != "" && IsActive(db[id]) {
        return false;
      }
      db := db - {id};
      return true;
    }

    method StopIfActive(t: Task, o: Oracle) returns (ok: bool)
      requires Valid()
      modifies this`db, docker
      ensures Valid()
      ensures (View(), ok) == if IsActive(t) && t.containerId != "" then WorkerModel.StopTask(old(View()), t, o) else (old(View()), true)
    {
      if !IsActive(t) || t.containerId == "" {
        return true;
      }
      ok := StopTask(t, o);
    }

    method PurgeQueue(id: Id)
      requires Valid()
      modifies queue, queue.buf
      ensures Valid() && queue.buf == old(queue.buf)
      ensures View() == Purged(old(View()), id)
    {
      var _ := queue.RemoveAllFunc(TaskNames(id));
    }

    method TimeoutTask(t: Task, o: Oracle)
      requires Valid()
      modifies this`db, docker
      ensures Valid() && View() == WorkerModel.TimeoutTask(old(View()), t, o)
      ensures Keyed(old(db)) ==> Keyed(db) && db.Keys == old(db).Keys && forall x :: x in db && x != t.id ==> db[x] == old(db)[x]
    {
      if t.containerId != "" && o.client {
        var _ := docker.Stop(t.containerId, o.stop);
      }
      if t.id in db && db[t.id].state.Running? {
        var failed := FailWith(db[t.id].(hostPorts := []), TIMED_OUT);
        db := db[failed.id := failed];
      }
    }

    /** One record of the pass, given its snapshot. */
    method UpdateTask(t: Task, o: Oracle)
      requires Valid() && Keyed(db) && t.id in db && db[t.id] == t
      modifies this`db, docker
      ensures Valid() && View() == Poll(old(View()), t.id, o)
      ensures Keyed(db) && db.Keys == old(db).Keys && forall x :: x in db && x != t.id ==> db[x] == old(db)[x]
    {
      if !t.state.Running? {
        return;
      }
      if o.timedOut {
        TimeoutTask(t, o);
        return;
      }
      var updated := Observed(db[t.id], o);
      db := db[t.id := updated];
    }

    /** One pass: every record Running in the snapshot is timed out or inspected, in key order. */
    method UpdateTasks(oracles: Id -> Oracle)
      requires Valid() && Keyed(db)
      modifies this`db, docker
      ensures Valid()
      ensures View() == WRun(old(View()), Looks(Ascending(old(db).Keys), oracles))
    {
      var ids := KeysInOrder(db.Keys);
      AscendingIsSorted(db.Keys);
      var snapshot := db;
      assert Looks(ids[..0], oracles) == [];
      for i := 0 to |ids|
        invariant Valid() && View() == WRun(old(View()), Looks(ids[..i], oracles))
        invariant Keyed(db) && db.Keys == snapshot.Keys
        invariant forall j :: i <= j < |ids| ==> ids[j] in db && db[ids[j]] == snapshot[ids[j]]
      {
        LooksSnoc(old(View()), ids, i, oracles);
        UpdateTask(snapshot[ids[i]], oracles(ids[i]));
      }
      assert ids[..|ids|] == ids;
    }
  }

  function Looks(ids: seq<Id>, oracles: Id -> Oracle): seq<WStep> {
    seq(|ids|, i requires 0 <= i < |ids| => Look(ids[i], oracles(ids[i])))
  }

  lemma LooksSnoc(s: WState, ids: seq<Id>, i: nat, oracles: Id -> Oracle)
    requires i < |ids|
    ensures WRun(s, Looks(ids[..i + 1], oracles)) == Poll(WRun(s, Looks(ids[..i], oracles)), ids[i], oracles(ids[i]))
  {
    var steps := Looks(ids[..i], oracles);
    assert Looks(ids[..i + 1], oracles) == steps + [Look(ids[i], oracles(ids[i]))];
    WRunSnoc(s, steps, Look(ids[i], oracles(ids[i])));
  }
}
