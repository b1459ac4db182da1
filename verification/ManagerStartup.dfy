/** Startup reconciliation from whatever a crash left in the stores (manager/manager.go, manager/assignment.go). */
module ManagerStartup {
  import opened Base
  import opened Tasks
  import opened Ports
  import opened Reservations
  import opened ManagerModel
  import opened ManagerSafety

  predicate Active(t: Task) {
    t.state.Running? || t.state.Scheduled?
  }

  ghost function Scanned(m: MState, ids: seq<Id>): MState {
    RecoverAll(m.(table := map[], pending := [], watched := {}), ids)
  }

  lemma {:induction false} ScanKeepsStores(m: MState, ids: seq<Id>)
    ensures var m' := Scanned(m, ids); m'.tasks == m.tasks && m'.owners == m.owners && m'.sent == m.sent
  {
    if ids != [] { ScanKeepsStores(m, ids[..|ids| - 1]); }
  }

  // ---- the queue ----

  /** The start event of a recovered Pending record. */
  function RestartOf(m: MState, id: Id): Event
    requires id in m.tasks
  {
    Event(Scheduled, m.tasks[id])
  }

  ghost predicate QueueInKeyOrder(m: MState, q: seq<Event>, ids: seq<Id>) {
    && (forall e :: e in q ==> e.task.id in ids && e.task.id in m.tasks && e == RestartOf(m, e.task.id) && e.task.state.Pending?)
    && (forall i, j :: 0 <= i < j < |q| ==> q[i].task.id < q[j].task.id)
    && (forall id :: id in ids && id in m.tasks && m.tasks[id].state.Pending? ==> RestartOf(m, id) in q)
  }

  lemma {:induction false} ScanQueues(m: MState, ids: seq<Id>)
    requires Keyed(m.tasks) && StrictlyAscending(ids)
    ensures QueueInKeyOrder(m, Scanned(m, ids).pending, ids)
    ensures CountsPending(m, Scanned(m, ids).pending, ids)
  {
    if ids != [] {
      var front, last := ids[..|ids| - 1], ids[|ids| - 1];
      assert ids == front + [last];
      ScanQueues(m, front);
      ScanKeepsStores(m, front);
      assert forall x :: x in front ==> x < last;
      var q := Scanned(m, front).pending;
      QueueStep(m, q, front, last);
      assert Scanned(m, ids).pending ==
             if last in m.tasks && m.tasks[last].state.Pending? then q + [RestartOf(m, last)] else q;
    }
  }

  ghost predicate CountsPending(m: MState, q: seq<Event>, ids: seq<Id>) {
    forall id :: Starts(q, id) == if id in ids && id in m.tasks && m.tasks[id].state.Pending? then 1 else 0
  }

  lemma QueueStep(m: MState, q: seq<Event>, front: seq<Id>, last: Id)
    requires Keyed(m.tasks) && QueueInKeyOrder(m, q, front) && CountsPending(m, q, front)
    requires forall x :: x in front ==> x < last
    ensures var q' := if last in m.tasks && m.tasks[last].state.Pending? then q + [RestartOf(m, last)] else q;
            QueueInKeyOrder(m, q', front + [last]) && CountsPending(m, q', front + [last])
  {
    if last in m.tasks && m.tasks[last].state.Pending? {
      var e := RestartOf(m, last);
      forall id ensures Starts(q + [e], id) == Starts(q, id) + (if id == last then 1 else 0) { StartsAppend(q, e, id); }
      forall i | 0 <= i < |q| ensures q[i].task.id < last { assert q[i] in q; }
    }
  }

  // ---- the table ----

  ghost predicate HoldsNothing(tb: Table, w: Address, t: Task) {
    forall k :: k in KeySet(t.ports) ==> Holder(tb, w, k) != Some(t.id)
  }

  /** Every entry belongs to a scanned Running or Scheduled record, and each of those holds all of
      its keys on its owner or none of them. */
  ghost predicate TableOfActive(m: MState, tb: Table, ids: seq<Id>) {
    && (forall w, k {:trigger Holder(tb, w, k)} :: Holder(tb, w, k).Some? ==>
          var id := Holder(tb, w, k).value; id in ids && id in m.tasks && Active(m.tasks[id]) && w == Owner(m, id) && w != "")
    && (forall id {:trigger m.tasks[id]} :: id in ids && id in m.tasks ==>
          Owns(tb, Owner(m, id), m.tasks[id]) || HoldsNothing(tb, Owner(m, id), m.tasks[id]))
  }

  lemma {:induction false} ScanReserves(m: MState, ids: seq<Id>)
    requires Keyed(m.tasks) && StrictlyAscending(ids)
    ensures BackedIn(m.tasks, m.owners, Scanned(m, ids).table, {})
    ensures TableOfActive(m, Scanned(m, ids).table, ids)
    ensures NoEmptyRow(Scanned(m, ids).table)
  {
    if ids != [] {
      var front, last := ids[..|ids| - 1], ids[|ids| - 1];
      assert ids == front + [last];
      ScanReserves(m, front);
      ScanKeepsStores(m, front);
      var before := Scanned(m, front);
      assert forall x :: x in front ==> x < last;
      if last in m.tasks && Active(m.tasks[last]) {
        ReclaimStep(m, before, front, m.tasks[last]);
      } else {
        assert Scanned(m, ids).table == before.table;
        if last in m.tasks { assert HoldsNothing(before.table, Owner(m, last), m.tasks[last]); }
      }
    }
  }

  lemma ReclaimStep(m: MState, before: MState, front: seq<Id>, t: Task)
    requires Keyed(m.tasks) && t.id in m.tasks && m.tasks[t.id] == t && Active(t) && t.id !in front
    requires before.tasks == m.tasks && before.owners == m.owners
    requires Backed(before, {}) && TableOfActive(m, before.table, front) && NoEmptyRow(before.table)
    ensures var m' := Reclaim(before, t);
            Backed(m', {}) && TableOfActive(m, m'.table, front + [t.id]) && NoEmptyRow(m'.table)
  {
    var w := Owner(m, t.id);
    var tb := before.table;
    var tb' := Reclaim(before, t).table;
    if w == "" || Conflicts(tb, w, t, true) {
      assert HoldsNothing(tb, w, t);
    } else {
      ReserveStartsMove(before, w, t, {});
      KeepsRows(tb, w, t);
      forall v, k ensures Holder(tb', v, k) == if v == w && k in KeySet(t.ports) then Some(t.id) else Holder(tb, v, k) {
        ReservedEntry(tb, w, t, v, k);
      }
      NobodyLoses(tb, w, t);
      forall id | id in front && id in m.tasks
        ensures Owns(tb', Owner(m, id), m.tasks[id]) || HoldsNothing(tb', Owner(m, id), m.tasks[id])
      {
      }
    }
  }

  /** A reservation without conflict overwrites no other task's entry. */
  lemma NobodyLoses(tb: Table, w: Address, t: Task)
    requires !Conflicts(tb, w, t, true)
    ensures forall v, k {:trigger Holder(tb, v, k)} :: Holder(tb, v, k).Some? && Holder(tb, v, k) != Some(t.id) ==>
              Holder(Reserved(tb, w, t), v, k) == Holder(tb, v, k)
  {
  }

  /** Two active records want the same key on the same worker. */
  ghost predicate Clash(m: MState, a: Id, b: Id)
    requires a in m.tasks && b in m.tasks
  {
    a != b && Active(m.tasks[a]) && Active(m.tasks[b]) && Owner(m, a) == Owner(m, b) != "" &&
    KeySet(m.tasks[a].ports) * KeySet(m.tasks[b].ports) != {}
  }

  ghost predicate Clashing(m: MState, id: Id)
    requires id in m.tasks
  {
    exists other :: other in m.tasks && Clash(m, other, id)
  }

  ghost predicate ReclaimedOrClashing(m: MState, tb: Table, id: Id)
    requires id in m.tasks
  {
    Owns(tb, Owner(m, id), m.tasks[id]) || Clashing(m, id)
  }

  ghost predicate AllReclaimedOrClashing(m: MState, tb: Table, ids: seq<Id>) {
    forall id :: id in ids && id in m.tasks && Active(m.tasks[id]) && Owner(m, id) != "" ==> ReclaimedOrClashing(m, tb, id)
  }

  lemma {:induction false} ScanReclaims(m: MState, ids: seq<Id>)
    requires Keyed(m.tasks) && StrictlyAscending(ids)
    ensures AllReclaimedOrClashing(m, Scanned(m, ids).table, ids)
  {
    if ids != [] {
      var front, last := ids[..|ids| - 1], ids[|ids| - 1];
      ScanReclaims(m, front);
      ScanReserves(m, front);
      ScanKeepsStores(m, front);
      assert last !in front;
      ReclaimOneMore(m, Scanned(m, front), front, last);
      assert ids == front + [last];
      assert Scanned(m, ids) == Recover(Scanned(m, front), last);
    }
  }

  lemma ReclaimOneMore(m: MState, before: MState, front: seq<Id>, last: Id)
    requires Keyed(m.tasks) && last !in front && before.tasks == m.tasks && before.owners == m.owners
    requires Backed(before, {}) && TableOfActive(m, before.table, front) && AllReclaimedOrClashing(m, before.table, front)
    ensures AllReclaimedOrClashing(m, Recover(before, last).table, front + [last])
  {
    if last in m.tasks && Active(m.tasks[last]) && Owner(m, last) != "" {
      ReclaimOrClash(m, before, front, m.tasks[last]);
    } else {
      assert Recover(before, last).table == before.table;
    }
  }

  lemma ReclaimOrClash(m: MState, before: MState, front: seq<Id>, t: Task)
    requires Keyed(m.tasks) && t.id in m.tasks && m.tasks[t.id] == t && Active(t) && t.id !in front && Owner(m, t.id) != ""
    requires before.tasks == m.tasks && before.owners == m.owners
    requires Backed(before, {}) && TableOfActive(m, before.table, front)
    ensures ReclaimedOrClashing(m, Reclaim(before, t).table, t.id)
    ensures forall id :: id in front && id in m.tasks && Owns(before.table, Owner(m, id), m.tasks[id]) ==>
              Owns(Reclaim(before, t).table, Owner(m, id), m.tasks[id])
  {
    var w, tb := Owner(m, t.id), before.table;
    if Conflicts(tb, w, t, true) {
      var k :| k in KeySet(t.ports) && Blocks(tb, w, k, t.id, true);
      var other := Holder(tb, w, k).value;
      assert k in KeySet(m.tasks[other].ports) * KeySet(t.ports);
      assert Clash(m, other, t.id);
    } else {
      NobodyLoses(tb, w, t);
      forall k | k in KeySet(t.ports) ensures Holder(Reserved(tb, w, t), w, k) == Some(t.id) { ReservedEntry(tb, w, t, w, k); }
    }
  }

  // ---- what startup leaves behind ----

  /** From any persisted tasks and assignments, including those a crash between two writes leaves:
      the queue holds one start per Pending record, in key order; assignments survive exactly for
      known tasks; and reservations are held only by Running or Scheduled records on their owners,
      all keys or none. */
  lemma StartupShape(m: MState)
    requires Keyed(m.tasks)
    ensures var m' := Reconcile(m);
            && m'.tasks == m.tasks
            && QueueInKeyOrder(m, m'.pending, Ascending(m.tasks.Keys))
            && (forall id :: id in m'.owners <==> id in m.owners && id in m.tasks)
            && (forall id :: id in m'.owners ==> m'.owners[id] == m.owners[id])
            && TableOfActive(m, m'.table, Ascending(m.tasks.Keys))
            && NoEmptyRow(m'.table)
  {
    var ids := Ascending(m.tasks.Keys);
    AscendingIsSorted(m.tasks.Keys);
    ScanKeepsStores(m, ids);
    ScanQueues(m, ids);
    ScanReserves(m, ids);
  }

  /** Every owned active record gets all of its ports back, unless another active record of the same
      worker wants one of them too. */
  lemma StartupReclaims(m: MState, id: Id)
    requires Keyed(m.tasks) && id in m.tasks && Active(m.tasks[id]) && Owner(m, id) != "" && !Clashing(m, id)
    ensures Owns(Reconcile(m).table, Owner(m, id), m.tasks[id])
  {
    AscendingIsSorted(m.tasks.Keys);
    ScanReclaims(m, Ascending(m.tasks.Keys));
  }

  /** Startup establishes the invariant of the control plane from nothing but well-keyed records with
      distinct names. */
  lemma StartupEstablishesInv(cfg: Config, m: MState)
    requires Keyed(m.tasks) && NamesOk(cfg, m.tasks)
    ensures Inv(cfg, Reconcile(m))
  {
    var ids := Ascending(m.tasks.Keys);
    AscendingIsSorted(m.tasks.Keys);
    ScanKeepsStores(m, ids);
    ScanQueues(m, ids);
    ScanReserves(m, ids);
    var m' := Reconcile(m);
    assert m'.pending == Scanned(m, ids).pending && m'.table == Scanned(m, ids).table;
    forall id ensures id in ids <==> id in m.tasks { assert id in ids <==> id in m.tasks.Keys; }
    forall w, k | Holder(m'.table, w, k).Some?
      ensures Justified(m'.tasks, m'.owners, w, k, Holder(m'.table, w, k).value, {})
    {
      assert Justified(m.tasks, m.owners, w, k, Holder(m'.table, w, k).value, {});
    }
  }

  // ---- whole runs ----

  predicate StepOk(st: Step) {
    st.Reported? ==> !st.report.state.Pending?
  }

  /** What a step needs while `fl` is in flight: an idle dispatcher for a dispatch, and for a submission
      an id whose earlier life is over or agrees. */
  ghost predicate StepAllowed(cfg: Config, m: MState, st: Step, fl: Flight) {
    && StepOk(st)
    && (st.Dispatch? ==> fl.starting == None)
    && (st.Submit? ==> SubmitSafe(cfg, m, st.event, st.extrasOk, fl))
  }

  /** Every operation, run as one atomic step, keeps the invariant under whatever else is in flight. */
  lemma StepKeeps(cfg: Config, m: MState, st: Step, fl: Flight)
    requires Holds(cfg, m, fl) && ConfigOk(cfg) && StepAllowed(cfg, m, st, fl) && !st.Reboot?
    ensures Holds(cfg, Apply(cfg, m, st), fl)
  {
    match st {
      case Submit(e, ok) => AddTaskKeepsIff(cfg, m, e, ok, fl);
      case AskStop(id, ok) => StopRequestKeeps(cfg, m, id, ok, fl);
      case Dispatch(env) => DispatchKeeps(cfg, m, env, fl);
      case Check(id, now, env) => if id in m.tasks { CarryKeeps(cfg, m, id, JudgeStopped(cfg, m.tasks[id], now), env, fl); }
      case StartChecker(_) =>
      case StopChecker(_) =>
      case HealthVerdict(id, env) => if id in m.tasks { CarryKeeps(cfg, m, id, JudgeUnhealthy(cfg, m.tasks[id], env.now), env, fl); }
      case Reported(w, r, now) => ReportKeeps(cfg, m, w, r, now, fl);
    }
  }

  lemma StepKeepsInv(cfg: Config, m: MState, st: Step)
    requires Inv(cfg, m) && ConfigOk(cfg) && StepOk(st)
    ensures Inv(cfg, Apply(cfg, m, st))
  {
    if st.Reboot? {
      StartupEstablishesInv(cfg, m.(owners := st.owners));
    } else {
      if st.Submit? && st.event.task.id !in m.tasks { UnknownIdIsFresh(cfg, m, st.event.task); }
      StepKeeps(cfg, m, st, GROUNDED);
    }
  }

  /** Over any run of atomic operations and crashes: reservations are backed, no accepted task is lost
      or doubled, and names stay distinct. */
  lemma {:induction false} RunKeepsInv(cfg: Config, m: MState, steps: seq<Step>)
    requires Inv(cfg, m) && ConfigOk(cfg)
    requires forall i :: 0 <= i < |steps| ==> StepOk(steps[i])
    ensures Inv(cfg, Run(cfg, m, steps))
    decreases |steps|
  {
    if steps != [] {
      StepKeepsInv(cfg, m, steps[0]);
      RunKeepsInv(cfg, Apply(cfg, m, steps[0]), steps[1..]);
    }
  }

  const EMPTY := MState(map[], map[], map[], [], [], {})

  /** The same from a fresh manager, spelled out: a held port key is pinned by a record assigned to
      that worker, so a task's reservations sit on one worker; and each Pending record has exactly one
      queued start, each queued start names a record with the same ports. */
  lemma ReachableStates(cfg: Config, steps: seq<Step>)
    requires ConfigOk(cfg) && forall i :: 0 <= i < |steps| ==> StepOk(steps[i])
    ensures var m := Run(cfg, EMPTY, steps);
            && (forall w, k, id :: Holder(m.table, w, k) == Some(id) ==>
                  id in m.tasks && k in KeySet(m.tasks[id].ports) && Owner(m, id) == w)
            && (forall v, w, j, k, id :: Holder(m.table, v, j) == Some(id) && Holder(m.table, w, k) == Some(id) ==> v == w)
            && (forall id :: id in m.tasks && m.tasks[id].state.Pending? ==> Starts(m.pending, id) == 1)
            && (forall e :: e in m.pending && !IsStop(e) ==>
                  e.task.id in m.tasks && e.task.ports == m.tasks[e.task.id].ports && Starts(m.pending, e.task.id) == 1)
  {
    RunKeepsInv(cfg, EMPTY, steps);
    var m := Run(cfg, EMPTY, steps);
    forall w, k, id | Holder(m.table, w, k) == Some(id)
      ensures id in m.tasks && k in KeySet(m.tasks[id].ports) && Owner(m, id) == w
    {
      assert Justified(m.tasks, m.owners, w, k, id, {});
    }
    forall e | e in m.pending && !IsStop(e) ensures Starts(m.pending, e.task.id) == 1 {
      var i :| 0 <= i < |m.pending| && m.pending[i] == e;
      StartsSome(m.pending, i, e.task.id);
    }
  }
}
