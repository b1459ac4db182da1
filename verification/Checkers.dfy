/** The health-checker registry and its reconciliation (manager/checkers.go, manager/healthcheck.go). */
module Checkers {
  import opened Base
  import opened Tasks

  /** One checker instance; its identity is the object itself. */
  class Handle {
    const task: Id
    var cancelled: bool

    constructor (task: Id)
      ensures this.task == task && !cancelled
    {
      this.task := task;
      cancelled := false;
    }

    method Cancel()
      modifies this
      ensures cancelled
    {
      cancelled := true;
    }
  }

  predicate Managed(t: Task) {
    t.state.Running? && (t.health.HttpCheck? || t.health.TcpCheck?)
  }

  ghost function ManagedIds(tasks: seq<Task>): set<Id> {
    set t | t in tasks && Managed(t) :: t.id
  }

  class CheckerSet {
    var byTask: map<Id, Handle>
    // every handle ever made for this set
    ghost var made: set<Handle>

    /** Contexts are conserved: a handle is live exactly while it is the one registered for its task. */
    ghost predicate Valid()
      reads this, made
    {
      && (forall id :: id in byTask ==> byTask[id] in made && byTask[id].task == id)
      && (forall h :: h in made ==> (!h.cancelled <==> h.task in byTask && byTask[h.task] == h))
    }

    constructor ()
      ensures Valid() && byTask == map[] && made == {}
    {
      byTask, made := map[], {};
    }

    /** Registers a fresh checker unless one is running; a refused one is cancelled on the spot. */
    method StartChecker(id: Id) returns (h: Handle)
      requires Valid()
      modifies this
      ensures Valid() && fresh(h) && h.task == id && made == old(made) + {h}
      ensures byTask == if id in old(byTask) then old(byTask) else old(byTask)[id := h]
      ensures h.cancelled <==> id in old(byTask)
    {
      h := new Handle(id);
      if id in byTask {
        h.Cancel();
      } else {
        byTask := byTask[id := h];
      }
      made := made + {h};
    }

    method Stop(id: Id)
      requires Valid()
      modifies this, made
      ensures Valid() && made == old(made) && byTask == old(byTask) - {id}
      ensures forall h :: h in made ==> h.cancelled == (old(h.cancelled) || h.task == id)
    {
      if id in byTask {
        byTask[id].Cancel();
        byTask := byTask - {id};
      }
    }

    method StopAllExcept(keep: set<Id>) returns (stopped: set<Id>)
      requires Valid()
      modifies this, made
      ensures Valid() && made == old(made)
      ensures stopped == old(byTask).Keys - keep
      ensures byTask == old(byTask) - stopped
      ensures forall h :: h in made ==> h.cancelled == (old(h.cancelled) || h.task in stopped)
    {
      var doomed := byTask.Keys - keep;
      stopped := {};
      while doomed - stopped != {}
        invariant Valid() && made == old(made) && stopped <= doomed
        invariant byTask == old(byTask) - stopped
        invariant forall h :: h in made ==> h.cancelled == (old(h.cancelled) || h.task in stopped)
        decreases doomed - stopped
      {
        var id :| id in doomed - stopped;
        Stop(id);
        stopped := stopped + {id};
      }
    }

    /** A checker whose goroutine has ended. If a newer one has taken its place, that one stays. */
    method Finished(h: Handle)
      requires Valid() && h in made
      modifies this, h
      ensures Valid() && made == old(made) && h.cancelled
      ensures byTask == if h.task in old(byTask) && old(byTask)[h.task] == h then old(byTask) - {h.task} else old(byTask)
    {
      h.Cancel();
      if h.task in byTask && byTask[h.task] == h {
        byTask := byTask - {h.task};
      }
    }

    /** One pass over a snapshot: afterwards exactly its Running http/tcp-checked tasks are registered,
        and those that already were keep their checker. */
    method Reconcile(tasks: seq<Task>)
      requires Valid()
      requires forall i, j :: 0 <= i < j < |tasks| ==> tasks[i].id != tasks[j].id
      modifies this, made
      ensures Valid() && old(made) <= made && fresh(made - old(made))
      ensures byTask.Keys == ManagedIds(tasks)
      ensures forall id :: id in byTask && id in old(byTask) ==> byTask[id] == old(byTask)[id]
    {
      var seen: set<Id> := {};
      for i := 0 to |tasks|
        invariant Valid() && old(made) <= made && fresh(made - old(made))
        invariant forall id :: id in seen <==> exists j :: 0 <= j < i && tasks[j].id == id
        invariant forall j :: 0 <= j < i ==> (tasks[j].id in byTask <==> Managed(tasks[j]))
        invariant forall id :: id in byTask && id in old(byTask) ==> byTask[id] == old(byTask)[id]
        invariant forall id :: id !in seen ==> (id in byTask <==> id in old(byTask))
      {
        var t := tasks[i];
        assert t.id !in seen;
        seen := seen + {t.id};
        if !Managed(t) {
          Stop(t.id);
        } else if t.id !in byTask {
          var _ := StartChecker(t.id);
        }
      }
      var _ := StopAllExcept(seen);
      forall id ensures id in byTask.Keys <==> id in ManagedIds(tasks) {
        if id in byTask.Keys {
          assert id in seen;
          var j :| 0 <= j < |tasks| && tasks[j].id == id;
          assert tasks[j] in tasks;
        }
      }
    }
  }

  // ---- when a checker gives up ----

  /** The last `retries` probes up to and including index `i` all failed. */
  predicate FailedStreak(healthy: seq<bool>, i: int, retries: nat) {
    0 <= i < |healthy| && i + 1 >= retries && forall j :: i + 1 - retries <= j <= i ==> !healthy[j]
  }

  /** The failure counter of runChecker: a task is declared unhealthy at the first probe that ends a
      streak of `retries` failures, and not at all when there is none. */
  method ProbeLoop(healthy: seq<bool>, retries: nat) returns (verdict: Option<nat>)
    requires retries > 0
    ensures verdict == None ==> forall i :: !FailedStreak(healthy, i, retries)
    ensures verdict.Some? ==> FailedStreak(healthy, verdict.value, retries) &&
                              forall i :: 0 <= i < verdict.value ==> !FailedStreak(healthy, i, retries)
  {
    var failures := 0;
    for i := 0 to |healthy|
      invariant 0 <= failures <= i && failures < retries
      invariant forall j :: i - failures <= j < i ==> !healthy[j]
      invariant failures < i ==> healthy[i - failures - 1]
      invariant forall j :: 0 <= j < i ==> !FailedStreak(healthy, j, retries)
    {
      if healthy[i] {
        failures := 0;
        continue;
      }
      failures := failures + 1;
      if failures < retries {
        continue;
      }
      return Some(i);
    }
    return None;
  }
}
