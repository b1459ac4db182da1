/** What every step of the control plane keeps. */
module ManagerSafety {
  import opened Base
  import opened Tasks
  import opened Ports
  import opened Reservations
  import opened Placement
  import opened WorkerSync
  import opened ManagerModel

  // ---- the queue, counted ----

  predicate StartsTask(e: Event, id: Id) {
    !IsStop(e) && e.task.id == id
  }

  /** How many queued start events name `id`. */
  function Starts(q: seq<Event>, id: Id): nat {
    if q == [] then 0
    else Starts(q[..|q| - 1], id) + (if StartsTask(q[|q| - 1], id) then 1 else 0)
  }

  lemma StartsAppend(q: seq<Event>, e: Event, id: Id)
    ensures Starts(q + [e], id) == Starts(q, id) + (if StartsTask(e, id) then 1 else 0)
  {
  }

  lemma {:induction false} StartsHead(q: seq<Event>, id: Id)
    requires q != []
    ensures Starts(q, id) == Starts(q[1..], id) + (if StartsTask(q[0], id) then 1 else 0)
  {
    var front, last := q[..|q| - 1], q[|q| - 1];
    if front != [] {
      StartsHead(front, id);
      assert q[1..] == front[1..] + [last];
      StartsAppend(front[1..], last, id);
    } else {
      assert q == [last] && q[1..] == [];
    }
  }

  lemma {:induction false} StartsAfterPurge(q: seq<Event>, gone: Id, id: Id)
    ensures Starts(DropMatching(q, EventNames(gone)), id) == if id == gone then 0 else Starts(q, id)
  {
    if q != [] {
      var front, last := q[..|q| - 1], q[|q| - 1];
      StartsAfterPurge(front, gone, id);
      StartsAppend(DropMatching(front, EventNames(gone)), last, id);
    }
  }

  lemma {:induction false} StartsNone(q: seq<Event>, id: Id)
    requires forall i :: 0 <= i < |q| ==> !StartsTask(q[i], id)
    ensures Starts(q, id) == 0
  {
    if q != [] { StartsNone(q[..|q| - 1], id); }
  }

  lemma {:induction false} StartsSome(q: seq<Event>, i: nat, id: Id)
    requires i < |q| && StartsTask(q[i], id)
    ensures Starts(q, id) > 0
  {
    var front := q[..|q| - 1];
    if i < |front| { StartsSome(front, i, id); }
  }

  // ---- the invariants ----

  /** Keys of one task identity held on `worker` by an operation that has yet to commit or give up. */
  datatype Move = Move(id: Id, name: string, ports: seq<PortMapping>, worker: Address)

  function MoveOf(t: Task, w: Address): Move {
    Move(t.id, t.name, t.ports, w)
  }

  /** What the operations in flight account for: `starting` is the task whose only start has left the
      queue and is not yet dealt with, `moves` the keys they hold. When `strict`, no record can have
      been deleted under an operation, so every queued start names one. */
  datatype Flight = Flight(starting: Option<Id>, moves: set<Move>, strict: bool)

  const GROUNDED := Flight(None, {}, true)

  function Landed(fl: Flight, id: Id): Flight {
    if fl.starting == Some(id) then fl.(starting := None) else fl
  }

  /** Whatever carries this identity carries that of the record, if there is one. */
  predicate Agrees(tasks: map<Id, Task>, id: Id, name: string, ports: seq<PortMapping>) {
    id in tasks ==> tasks[id].ports == ports && tasks[id].name == name
  }

  ghost predicate QueueMatches(tasks: map<Id, Task>, q: seq<Event>, strict: bool) {
    forall e :: e in q && !IsStop(e) ==>
      Agrees(tasks, e.task.id, e.task.name, e.task.ports) && (strict ==> e.task.id in tasks)
  }

  ghost predicate MovesMatch(tasks: map<Id, Task>, moves: set<Move>) {
    forall mv :: mv in moves ==> Agrees(tasks, mv.id, mv.name, mv.ports)
  }

  /** No accepted task is lost or doubled: a Pending record has exactly one queued start unless its
      start is in flight, no task ever has two, and one in flight has none left. */
  ghost predicate Accounted(tasks: map<Id, Task>, q: seq<Event>, starting: Option<Id>) {
    && (forall id :: Starts(q, id) <= 1)
    && (forall id :: id in tasks && tasks[id].state.Pending? && starting != Some(id) ==> Starts(q, id) == 1)
    && (starting.Some? ==> Starts(q, starting.value) == 0)
  }

  /** Non-empty names are pairwise distinct and never read as a UUID. */
  ghost predicate NamesOk(cfg: Config, tasks: map<Id, Task>) {
    && (forall id :: id in tasks && tasks[id].name != "" ==> cfg.parse(tasks[id].name) == None)
    && (forall a, b :: a in tasks && b in tasks && a != b && tasks[a].name != "" ==> tasks[a].name != tasks[b].name)
  }

  ghost predicate Records(cfg: Config, m: MState, fl: Flight) {
    && Keyed(m.tasks) && NamesOk(cfg, m.tasks)
    && QueueMatches(m.tasks, m.pending, fl.strict) && MovesMatch(m.tasks, fl.moves)
    && Accounted(m.tasks, m.pending, fl.starting)
  }

  ghost predicate MoveHolds(moves: set<Move>, w: Address, k: Key, id: Id) {
    exists mv :: mv in moves && mv.id == id && mv.worker == w && k in KeySet(mv.ports)
  }

  predicate OwnerHolds(tasks: map<Id, Task>, owners: map<Id, Address>, w: Address, k: Key, id: Id) {
    id in tasks && k in KeySet(tasks[id].ports) && id in owners && owners[id] == w
  }

  /** Why task `id` may hold key `k` on worker `w`: its record pins the key and is assigned to `w`, or
      an operation in flight holds it there. */
  ghost predicate Justified(tasks: map<Id, Task>, owners: map<Id, Address>, w: Address, k: Key, id: Id, moves: set<Move>) {
    w != "" && (OwnerHolds(tasks, owners, w, k, id) || MoveHolds(moves, w, k, id))
  }

  ghost predicate BackedIn(tasks: map<Id, Task>, owners: map<Id, Address>, tb: Table, moves: set<Move>) {
    forall w, k {:trigger Holder(tb, w, k)} ::
      Holder(tb, w, k).Some? ==> Justified(tasks, owners, w, k, Holder(tb, w, k).value, moves)
  }

  ghost predicate Backed(m: MState, moves: set<Move>) {
    BackedIn(m.tasks, m.owners, m.table, moves)
  }

  /** The invariant while `fl` is in flight. */
  ghost predicate Holds(cfg: Config, m: MState, fl: Flight) {
    Records(cfg, m, fl) && Backed(m, fl.moves)
  }

  /** The invariant between atomic operations. */
  ghost predicate Inv(cfg: Config, m: MState) {
    Holds(cfg, m, GROUNDED)
  }

  predicate ConfigOk(cfg: Config) {
    "" !in cfg.nodes
  }

  // ---- moves ----

  lemma MoveAdded(moves: set<Move>, mv: Move, w: Address, k: Key, id: Id)
    ensures MoveHolds(moves + {mv}, w, k, id) <==>
            MoveHolds(moves, w, k, id) || (mv.id == id && mv.worker == w && k in KeySet(mv.ports))
  {
  }

  // ---- the table ----

  lemma ReleaseKeepsBacked(m: MState, w: Address, t: Task, moves: set<Move>)
    requires Backed(m, moves)
    ensures Backed(ReleaseOn(m, w, t), moves)
  {
    forall v, k ensures Holder(Released(m.table, w, t), v, k).Some? ==> Holder(Released(m.table, w, t), v, k) == Holder(m.table, v, k) {
      ReleasedEntry(m.table, w, t, v, k);
    }
  }

  /** Releasing a move's keys ends it. */
  lemma ReleaseEndsMove(m: MState, w: Address, t: Task, moves: set<Move>)
    requires Backed(m, moves + {MoveOf(t, w)})
    ensures Backed(ReleaseOn(m, w, t), moves)
  {
    forall v, k | Holder(Released(m.table, w, t), v, k).Some?
      ensures Justified(m.tasks, m.owners, v, k, Holder(Released(m.table, w, t), v, k).value, moves)
    {
      ReleasedEntry(m.table, w, t, v, k);
      assert Holder(Released(m.table, w, t), v, k) == Holder(m.table, v, k);
      MoveAdded(moves, MoveOf(t, w), v, k, Holder(m.table, v, k).value);
    }
  }

  /** Reserving starts one, unless the task is at home there. */
  lemma ReserveStartsMove(m: MState, w: Address, t: Task, moves: set<Move>)
    requires Backed(m, moves) && w != ""
    ensures Backed(m.(table := Reserved(m.table, w, t)), moves + {MoveOf(t, w)})
    ensures t.id in m.tasks && m.tasks[t.id].ports == t.ports && Owner(m, t.id) == w ==>
              Backed(m.(table := Reserved(m.table, w, t)), moves)
  {
    forall v, k | Holder(Reserved(m.table, w, t), v, k).Some?
      ensures Justified(m.tasks, m.owners, v, k, Holder(Reserved(m.table, w, t), v, k).value, moves + {MoveOf(t, w)})
      ensures t.id in m.tasks && m.tasks[t.id].ports == t.ports && Owner(m, t.id) == w ==>
                Justified(m.tasks, m.owners, v, k, Holder(Reserved(m.table, w, t), v, k).value, moves)
    {
      ReservedEntry(m.table, w, t, v, k);
      MoveAdded(moves, MoveOf(t, w), v, k, Holder(Reserved(m.table, w, t), v, k).value);
      if !(v == w && k in KeySet(t.ports)) { assert Holder(m.table, v, k).Some?; }
    }
  }

  /** Where the keys of a task still sit after it has been committed to `w`. */
  function LeftBehind(m: MState, t: Task, w: Address): set<Move> {
    var before := Owner(m, t.id);
    if before == "" || before == w then {} else {MoveOf(t, before)}
  }

  function Committed(m: MState, t: Task, w: Address): MState {
    m.(owners := m.owners[t.id := w], tasks := m.tasks[t.id := t])
  }

  /** Committing a new owner turns the move around: what is held on the previous owner is now
      without a backing assignment. */
  lemma CommitTurnsMove(m: MState, t: Task, w: Address, moves: set<Move>)
    requires Backed(m, moves + {MoveOf(t, w)})
    requires t.id in m.tasks && m.tasks[t.id].ports == t.ports
    ensures Backed(Committed(m, t, w), moves + LeftBehind(m, t, w))
  {
  }

  // ---- the records ----

  /** Rewriting one record without touching its identity, and not back to Pending, settles it. */
  lemma RewriteKeeps(cfg: Config, m: MState, t: Task, fl: Flight)
    requires t.id in m.tasks && !t.state.Pending?
    requires t.ports == m.tasks[t.id].ports && t.name == m.tasks[t.id].name
    ensures Records(cfg, m, fl) ==>
              Records(cfg, m.(tasks := m.tasks[t.id := t]), fl) && Records(cfg, m.(tasks := m.tasks[t.id := t]), Landed(fl, t.id))
    ensures Backed(m, fl.moves) ==> Backed(m.(tasks := m.tasks[t.id := t]), fl.moves)
  {
  }

  lemma MarkFailedKeeps(cfg: Config, m: MState, id: Id, count: int, reason: string, now: Instant, fl: Flight)
    requires Holds(cfg, m, fl)
    ensures Holds(cfg, MarkFailed(cfg, m, id, count, reason, now), fl)
    ensures Holds(cfg, MarkFailed(cfg, m, id, count, reason, now), Landed(fl, id))
  {
    if id in m.tasks {
      RewriteKeeps(cfg, m, MarkFailed(cfg, m, id, count, reason, now).tasks[id], fl);
    }
  }

  /** The name of `t` can be written to its record: it is no other record's and no UUID. */
  ghost predicate NameFree(cfg: Config, tasks: map<Id, Task>, t: Task) {
    t.name != "" ==> cfg.parse(t.name) == None && forall id :: id in tasks && id != t.id ==> tasks[id].name != t.name
  }

  ghost predicate StartsAgree(q: seq<Event>, t: Task) {
    forall e :: e in q && StartsTask(e, t.id) ==> e.task.name == t.name && e.task.ports == t.ports
  }

  ghost predicate MovesAgree(moves: set<Move>, t: Task) {
    forall mv :: mv in moves && mv.id == t.id ==> mv.name == t.name && mv.ports == t.ports
  }

  /** Everything task `t.id` holds besides the keys of `t` on its owner is held by an operation in flight. */
  ghost predicate RestInFlight(m: MState, t: Task, moves: set<Move>) {
    forall w, k {:trigger Holder(m.table, w, k)} ::
      Holder(m.table, w, k) == Some(t.id) && !(w == Owner(m, t.id) && k in KeySet(t.ports)) ==> MoveHolds(moves, w, k, t.id)
  }

  /** Ending `t` may write it over whatever record its id has by now, or bring one back. */
  ghost predicate EndSafe(cfg: Config, m: MState, t: Task, fl: Flight) {
    NameFree(cfg, m.tasks, t) && StartsAgree(m.pending, t) && MovesAgree(fl.moves, t) && RestInFlight(m, t, fl.moves)
  }

  /** Ending a task on the strength of any record of it, current, outdated or deleted, keeps the invariant
      exactly when name, queued start and operations in flight agree with that record and nothing else
      is held. */
  lemma StopTerminalKeepsIff(cfg: Config, m: MState, t: Task, reason: string, now: Instant, fl: Flight)
    requires Holds(cfg, m, fl)
    ensures Holds(cfg, StopTerminal(m, t, reason, now), fl) <==> EndSafe(cfg, m, t, fl)
  {
    EndKeepsRecordsIff(cfg, m, t, reason, now, fl);
    EndKeepsBackedIff(m, t, reason, now, fl.moves);
  }

  function Dead(t: Task, reason: string, now: Instant): Task {
    t.(state := Failed, failureReason := reason, finishTime := now)
  }

  lemma EndKeepsRecordsIff(cfg: Config, m: MState, t: Task, reason: string, now: Instant, fl: Flight)
    requires Records(cfg, m, fl)
    ensures Records(cfg, StopTerminal(m, t, reason, now), fl) <==>
            NameFree(cfg, m.tasks, t) && StartsAgree(m.pending, t) && MovesAgree(fl.moves, t)
  {
    var tasks := m.tasks[t.id := Dead(t, reason, now)];
    assert StopTerminal(m, t, reason, now).tasks == tasks && StopTerminal(m, t, reason, now).pending == m.pending;
    WrittenNameIff(cfg, m.tasks, Dead(t, reason, now));
    WrittenQueueIff(m.tasks, m.pending, Dead(t, reason, now), fl.strict);
    WrittenMovesIff(m.tasks, fl.moves, Dead(t, reason, now));
  }

  lemma WrittenNameIff(cfg: Config, tasks: map<Id, Task>, t: Task)
    requires NamesOk(cfg, tasks)
    ensures NamesOk(cfg, tasks[t.id := t]) <==> NameFree(cfg, tasks, t)
  {
    var written := tasks[t.id := t];
    if NamesOk(cfg, written) && t.name != "" {
      assert written[t.id].name != "";
      forall id | id in tasks && id != t.id ensures tasks[id].name != t.name { assert written[id].name != written[t.id].name; }
    }
  }

  lemma WrittenQueueIff(tasks: map<Id, Task>, q: seq<Event>, t: Task, strict: bool)
    requires QueueMatches(tasks, q, strict)
    ensures QueueMatches(tasks[t.id := t], q, strict) <==> StartsAgree(q, t)
  {
    var written := tasks[t.id := t];
    forall e | e in q && !IsStop(e)
      ensures Agrees(written, e.task.id, e.task.name, e.task.ports) <==>
              (e.task.id == t.id ==> e.task.name == t.name && e.task.ports == t.ports)
    {
      assert Agrees(tasks, e.task.id, e.task.name, e.task.ports);
    }
  }

  lemma WrittenMovesIff(tasks: map<Id, Task>, moves: set<Move>, t: Task)
    requires MovesMatch(tasks, moves)
    ensures MovesMatch(tasks[t.id := t], moves) <==> MovesAgree(moves, t)
  {
    var written := tasks[t.id := t];
    forall mv | mv in moves
      ensures Agrees(written, mv.id, mv.name, mv.ports) <==> (mv.id == t.id ==> mv.name == t.name && mv.ports == t.ports)
    {
      assert Agrees(tasks, mv.id, mv.name, mv.ports);
    }
  }

  lemma EndKeepsBackedIff(m: MState, t: Task, reason: string, now: Instant, moves: set<Move>)
    requires Backed(m, moves)
    ensures Backed(StopTerminal(m, t, reason, now), moves) <==> RestInFlight(m, t, moves)
  {
    var m' := StopTerminal(m, t, reason, now);
    var dead, home := Dead(t, reason, now), Owner(m, t.id);
    assert m'.table == Released(m.table, home, dead) && m'.owners == m.owners && m'.tasks == m.tasks[t.id := dead];
    forall w, k ensures Holder(m'.table, w, k) ==
                        if w == home && k in KeySet(t.ports) && Holder(m.table, w, k) == Some(t.id) then None else Holder(m.table, w, k)
    {
      ReleasedEntry(m.table, home, dead, w, k);
    }
    forall w, k | Holder(m'.table, w, k).Some?
      ensures Justified(m'.tasks, m'.owners, w, k, Holder(m'.table, w, k).value, moves) <==>
              (Holder(m'.table, w, k) == Some(t.id) ==> MoveHolds(moves, w, k, t.id))
    {
      assert Justified(m.tasks, m.owners, w, k, Holder(m.table, w, k).value, moves);
    }
  }

  /** While the record still has the identity it had when it was listed, ending it is always safe. */
  lemma AgreeingEndIsSafe(cfg: Config, m: MState, t: Task, fl: Flight)
    requires Holds(cfg, m, fl) && t.id in m.tasks && Agrees(m.tasks, t.id, t.name, t.ports)
    ensures EndSafe(cfg, m, t, fl)
  {
    forall e | e in m.pending && StartsTask(e, t.id) ensures e.task.name == t.name && e.task.ports == t.ports {
      assert Agrees(m.tasks, e.task.id, e.task.name, e.task.ports);
    }
    forall mv | mv in fl.moves && mv.id == t.id ensures mv.name == t.name && mv.ports == t.ports {
      assert Agrees(m.tasks, mv.id, mv.name, mv.ports);
    }
    forall w, k | Holder(m.table, w, k) == Some(t.id) && !(w == Owner(m, t.id) && k in KeySet(t.ports))
      ensures MoveHolds(fl.moves, w, k, t.id)
    {
      assert Justified(m.tasks, m.owners, w, k, t.id, fl.moves);
    }
  }

  lemma StopTerminalKeeps(cfg: Config, m: MState, t: Task, reason: string, now: Instant, fl: Flight)
    requires t.id in m.tasks && Agrees(m.tasks, t.id, t.name, t.ports)
    requires Holds(cfg, m, fl)
    ensures Holds(cfg, StopTerminal(m, t, reason, now), fl)
    ensures Holds(cfg, StopTerminal(m, t, reason, now), Landed(fl, t.id))
  {
    AgreeingEndIsSafe(cfg, m, t, fl);
    StopTerminalKeepsIff(cfg, m, t, reason, now, fl);
  }

  /** Deleting a record purges its queued starts and every reservation it had, anywhere, except what
      an operation in flight still holds for it. */
  lemma DeleteKeeps(cfg: Config, m: MState, id: Id, fl: Flight)
    requires Holds(cfg, m, fl) && id in m.tasks
    ensures var m' := DeleteTask(m, m.tasks[id]);
            && Holds(cfg, m', fl) && id !in m'.tasks && id !in m'.owners && Starts(m'.pending, id) == 0
            && (forall w, k :: Holder(m'.table, w, k) == Some(id) ==> MoveHolds(fl.moves, w, k, id))
  {
    DeleteFreesKeys(m, id, fl.moves);
    DeletePurges(cfg, m, id, fl);
  }

  lemma DeleteFreesKeys(m: MState, id: Id, moves: set<Move>)
    requires Keyed(m.tasks) && Backed(m, moves) && id in m.tasks
    ensures var m' := DeleteTask(m, m.tasks[id]);
            Backed(m', moves) && forall w, k :: Holder(m'.table, w, k) == Some(id) ==> MoveHolds(moves, w, k, id)
  {
    var t := m.tasks[id];
    var m' := DeleteTask(m, t);
    var w0 := Owner(m, id);
    assert m'.table == if w0 == "" then m.table else Released(m.table, w0, t);
    assert m'.tasks == m.tasks - {id} && m'.owners == m.owners - {id};
    forall w, k | Holder(m'.table, w, k).Some?
      ensures Justified(m'.tasks, m'.owners, w, k, Holder(m'.table, w, k).value, moves)
      ensures Holder(m'.table, w, k) == Some(id) ==> MoveHolds(moves, w, k, id)
    {
      ReleasedEntry(m.table, w0, t, w, k);
      assert Justified(m.tasks, m.owners, w, k, Holder(m.table, w, k).value, moves);
    }
  }

  lemma DeletePurges(cfg: Config, m: MState, id: Id, fl: Flight)
    requires Records(cfg, m, fl) && id in m.tasks
    ensures var m' := DeleteTask(m, m.tasks[id]); Records(cfg, m', fl) && Starts(m'.pending, id) == 0
  {
    var m' := DeleteTask(m, m.tasks[id]);
    assert m'.tasks == m.tasks - {id} && m'.pending == DropMatching(m.pending, EventNames(id));
    PurgeMatches(m.tasks, m.pending, id, fl.strict);
    PurgeAccounts(m.tasks, m.pending, id, fl.starting);
    forall mv | mv in fl.moves ensures Agrees(m'.tasks, mv.id, mv.name, mv.ports) {
      assert Agrees(m.tasks, mv.id, mv.name, mv.ports);
    }
  }

  lemma PurgeMatches(tasks: map<Id, Task>, q: seq<Event>, id: Id, strict: bool)
    requires QueueMatches(tasks, q, strict)
    ensures QueueMatches(tasks - {id}, DropMatching(q, EventNames(id)), strict)
  {
    DropMatchingMembers(q, EventNames(id));
    forall e | e in DropMatching(q, EventNames(id)) && !IsStop(e)
      ensures Agrees(tasks - {id}, e.task.id, e.task.name, e.task.ports) && (strict ==> e.task.id in tasks - {id})
    {
      assert Agrees(tasks, e.task.id, e.task.name, e.task.ports);
    }
  }

  lemma PurgeAccounts(tasks: map<Id, Task>, q: seq<Event>, id: Id, starting: Option<Id>)
    requires Accounted(tasks, q, starting)
    ensures Accounted(tasks - {id}, DropMatching(q, EventNames(id)), starting) && Starts(DropMatching(q, EventNames(id)), id) == 0
  {
    forall x ensures Starts(DropMatching(q, EventNames(id)), x) == if x == id then 0 else Starts(q, x) {
      StartsAfterPurge(q, id, x);
    }
  }

  lemma EnqueueKeeps(cfg: Config, m: MState, e: Event, fl: Flight)
    requires Holds(cfg, m, fl)
    requires !IsStop(e) ==>
               Agrees(m.tasks, e.task.id, e.task.name, e.task.ports) && (fl.strict ==> e.task.id in m.tasks) &&
               fl.starting == Some(e.task.id)
    ensures Holds(cfg, Enqueue(m, e), if IsStop(e) then fl else Landed(fl, e.task.id))
  {
  }

  /** Taking an event off the queue. */
  function Dequeued(m: MState): MState
    requires m.pending != []
  {
    m.(pending := m.pending[1..])
  }

  lemma DequeueOpens(cfg: Config, m: MState, fl: Flight)
    requires Holds(cfg, m, fl) && m.pending != [] && fl.starting == None
    ensures var e := m.pending[0];
            && Holds(cfg, Dequeued(m), if IsStop(e) then fl else fl.(starting := Some(e.task.id)))
            && (!IsStop(e) ==> Agrees(m.tasks, e.task.id, e.task.name, e.task.ports) && (fl.strict ==> e.task.id in m.tasks))
  {
    var e := m.pending[0];
    var m' := Dequeued(m);
    assert e in m.pending;
    forall x ensures Starts(m.pending, x) == Starts(m'.pending, x) + (if StartsTask(e, x) then 1 else 0) {
      StartsHead(m.pending, x);
    }
    forall x | x in m'.pending ensures x in m.pending {
      var i :| 0 <= i < |m'.pending| && m'.pending[i] == x;
      assert m.pending[i + 1] == x;
    }
  }

  // ---- accepting ----

  /** No start of an earlier task with this id is queued or in flight, and what an operation in flight
      holds for it agrees with the new one. */
  ghost predicate FreshId(m: MState, fl: Flight, t: Task) {
    && Starts(m.pending, t.id) == 0 && fl.starting != Some(t.id)
    && forall mv :: mv in fl.moves && mv.id == t.id ==> mv.name == t.name && mv.ports == t.ports
  }

  ghost predicate SubmitSafe(cfg: Config, m: MState, e: Event, extrasOk: bool, fl: Flight) {
    Refuses(cfg, m, e, extrasOk) == None && !IsStop(e) ==> FreshId(m, fl, e.task)
  }

  /** With nothing in flight the acceptance checks alone guarantee that. */
  lemma UnknownIdIsFresh(cfg: Config, m: MState, t: Task)
    requires Inv(cfg, m) && t.id !in m.tasks
    ensures FreshId(m, GROUNDED, t)
  {
    forall i | 0 <= i < |m.pending| ensures !StartsTask(m.pending[i], t.id) { assert m.pending[i] in m.pending; }
    StartsNone(m.pending, t.id);
  }

  /** Accepting an event keeps the invariant under any operations in flight exactly when it is no start
      of an id whose earlier life still has a start queued or in flight, or disagrees with what is held for it. */
  lemma AddTaskKeepsIff(cfg: Config, m: MState, e: Event, extrasOk: bool, fl: Flight)
    requires Holds(cfg, m, fl)
    ensures Holds(cfg, AddTask(cfg, m, e, extrasOk), fl) <==> SubmitSafe(cfg, m, e, extrasOk, fl)
  {
    if Refuses(cfg, m, e, extrasOk) == None {
      if IsStop(e) { EnqueueKeeps(cfg, m, e, fl); }
      else if FreshId(m, fl, e.task) { AcceptKeeps(cfg, m, e, fl); }
      else { AcceptBreaks(cfg, m, e, fl); }
    }
  }

  function Accept(m: MState, e: Event): MState {
    Enqueue(m.(tasks := m.tasks[e.task.id := e.task.(state := Pending)]), e)
  }

  lemma AcceptBreaks(cfg: Config, m: MState, e: Event, fl: Flight)
    requires Holds(cfg, m, fl) && !IsStop(e) && !FreshId(m, fl, e.task)
    ensures !Records(cfg, Accept(m, e), fl)
  {
    StartsAppend(m.pending, e, e.task.id);
    if mv :| mv in fl.moves && mv.id == e.task.id && !(mv.name == e.task.name && mv.ports == e.task.ports) {
      assert !Agrees(Accept(m, e).tasks, mv.id, mv.name, mv.ports);
    }
  }

  lemma AcceptKeeps(cfg: Config, m: MState, e: Event, fl: Flight)
    requires Holds(cfg, m, fl) && !IsStop(e) && e.task.id !in m.tasks && FreshId(m, fl, e.task)
    requires e.task.name != "" ==> cfg.parse(e.task.name) == None && !HoldsName(m.tasks, e.task.name)
    ensures Holds(cfg, Accept(m, e), fl)
  {
    var t := e.task.(state := Pending);
    var m' := Accept(m, e);
    forall x ensures Starts(m'.pending, x) == Starts(m.pending, x) + (if x == t.id then 1 else 0) { StartsAppend(m.pending, e, x); }
    forall x | x in m'.pending && !IsStop(x)
      ensures Agrees(m'.tasks, x.task.id, x.task.name, x.task.ports) && (fl.strict ==> x.task.id in m'.tasks)
    {
      if x != e { StrangerAgrees(m, x, t.id); }
    }
    forall mv | mv in fl.moves ensures Agrees(m'.tasks, mv.id, mv.name, mv.ports) { assert Agrees(m.tasks, mv.id, mv.name, mv.ports); }
    forall w, k | Holder(m'.table, w, k).Some? ensures Justified(m'.tasks, m'.owners, w, k, Holder(m'.table, w, k).value, fl.moves) {
      assert Justified(m.tasks, m.owners, w, k, Holder(m.table, w, k).value, fl.moves);
    }
    NewNameKeeps(cfg, m, t);
  }

  lemma StrangerAgrees(m: MState, e: Event, id: Id)
    requires e in m.pending && !IsStop(e) && Starts(m.pending, id) == 0
    ensures e.task.id != id
  {
    if e.task.id == id {
      var i :| 0 <= i < |m.pending| && m.pending[i] == e;
      StartsSome(m.pending, i, id);
    }
  }

  lemma NewNameKeeps(cfg: Config, m: MState, t: Task)
    requires NamesOk(cfg, m.tasks) && t.id !in m.tasks
    requires t.name != "" ==> cfg.parse(t.name) == None && !HoldsName(m.tasks, t.name)
    ensures NamesOk(cfg, m.tasks[t.id := t])
  {
  }

  lemma StopRequestKeeps(cfg: Config, m: MState, id: Id, extrasOk: bool, fl: Flight)
    requires Holds(cfg, m, fl)
    ensures Holds(cfg, StopRequest(cfg, m, id, extrasOk), fl)
  {
    if id in m.tasks {
      var t := m.tasks[id];
      if StopDeletes(cfg, m, t) {
        DeleteKeeps(cfg, m, id, fl);
      } else {
        var flagged := t.(manuallyStopped := true);
        RewriteKeeps(cfg, m, flagged, fl);
        AddTaskKeepsIff(cfg, m.(tasks := m.tasks[id := flagged]),
                        Event(Completed, t.(state := Completed, manuallyStopped := true)), extrasOk, fl);
      }
    }
  }

  lemma ReportKeeps(cfg: Config, m: MState, w: Address, r: Task, now: Instant, fl: Flight)
    requires Holds(cfg, m, fl) && !r.state.Pending?
    ensures Holds(cfg, Report(cfg, m, w, r, now), fl)
  {
    if r.id in m.tasks {
      var folded := Fold(cfg.delays, m.tasks[r.id], r, now);
      assert Report(cfg, m, w, r, now) == m.(tasks := m.tasks[r.id := folded]);
      FoldKeepsOne(cfg, m, r, folded, now, fl);
    }
  }

  lemma FoldKeepsOne(cfg: Config, m: MState, r: Task, folded: Task, now: Instant, fl: Flight)
    requires Holds(cfg, m, fl) && !r.state.Pending? && r.id in m.tasks
    requires folded == Fold(cfg.delays, m.tasks[r.id], r, now)
    ensures Holds(cfg, m.(tasks := m.tasks[r.id := folded]), fl)
  {
    if r.restartCount == m.tasks[r.id].restartCount {
      assert folded.id == r.id && folded.ports == m.tasks[r.id].ports && folded.name == m.tasks[r.id].name && !folded.state.Pending?;
      RewriteKeeps(cfg, m, folded, fl);
    } else {
      assert m.tasks[r.id := folded] == m.tasks;
    }
  }

  // ---- dispatch ----

  /** What a posted call holds until it is finished. */
  function WithCall(fl: Flight, call: Call): Flight {
    if IsStop(call.event) then fl
    else fl.(starting := Some(call.event.task.id), moves := fl.moves + {MoveOf(call.event.task, call.worker)})
  }

  /** A posted start reserved its keys on a configured worker. */
  ghost predicate CallOk(cfg: Config, m: MState, call: Call, strict: bool) {
    !IsStop(call.event) ==>
      && call.reserved && call.event.task.state.Scheduled? && call.worker in cfg.nodes
      && Agrees(m.tasks, call.event.task.id, call.event.task.name, call.event.task.ports)
      && (strict ==> call.event.task.id in m.tasks)
  }

  lemma PrepareDispatchKeeps(cfg: Config, m: MState, c: Cluster, now: Instant, fl: Flight)
    requires Holds(cfg, m, fl) && ConfigOk(cfg) && fl.starting == None
    ensures var p := PrepareDispatch(cfg, m, c, now);
            if p.Done? then Holds(cfg, p.m, fl)
            else CallOk(cfg, p.m, p.call, fl.strict) && Holds(cfg, p.m, WithCall(fl, p.call))
  {
    if m.pending != [] {
      DequeueOpens(cfg, m, fl);
      if IsStop(m.pending[0]) { PrepareStopKeeps(cfg, m, c, now, fl); } else { PrepareStartKeeps(cfg, m, c, now, fl); }
    }
  }

  lemma PrepareStopKeeps(cfg: Config, m: MState, c: Cluster, now: Instant, fl: Flight)
    requires m.pending != [] && IsStop(m.pending[0]) && Holds(cfg, Dequeued(m), fl)
    ensures var p := PrepareDispatch(cfg, m, c, now);
            Holds(cfg, p.m, fl) && (p.Posted? ==> IsStop(p.call.event) && !p.call.reserved)
  {
    var e := m.pending[0];
    EnqueueKeeps(cfg, Dequeued(m), e, fl);
    if e.task.id in m.tasks { DeleteKeeps(cfg, Dequeued(m), e.task.id, fl); }
  }

  lemma PrepareStartKeeps(cfg: Config, m: MState, c: Cluster, now: Instant, fl: Flight)
    requires m.pending != [] && !IsStop(m.pending[0]) && ConfigOk(cfg) && fl.starting == None
    requires var t := m.pending[0].task;
             && Holds(cfg, Dequeued(m), fl.(starting := Some(t.id)))
             && Agrees(m.tasks, t.id, t.name, t.ports) && (fl.strict ==> t.id in m.tasks)
    ensures var p := PrepareDispatch(cfg, m, c, now);
            if p.Done? then Holds(cfg, p.m, fl)
            else CallOk(cfg, p.m, p.call, fl.strict) && Holds(cfg, p.m, WithCall(fl, p.call))
  {
    var e := m.pending[0];
    var t := e.task;
    var p := PrepareDispatch(cfg, m, c, now);
    if p.Posted? {
      PostedStart(cfg, m, c, now);
      ReservationLeaves(cfg, Dequeued(m), t, p.call.worker, fl);
    } else if p.m == Enqueue(Dequeued(m), e) {
      RequeueKeeps(cfg, Dequeued(m), e, fl);
    } else if Owner(m, t.id) != "" {
      GiveUpKeeps(cfg, Dequeued(m), t, t.restartCount, PORTS_TAKEN, now, fl);
    } else if t.id in m.tasks {
      StopTerminalKeeps(cfg, Dequeued(m), t, UNSCHEDULABLE, now, fl.(starting := Some(t.id)));
    }
  }

  lemma ReservationLeaves(cfg: Config, m: MState, t: Task, w: Address, fl: Flight)
    requires Holds(cfg, m, fl.(starting := Some(t.id))) && w != "" && Agrees(m.tasks, t.id, t.name, t.ports)
    ensures Holds(cfg, m.(table := Reserved(m.table, w, t)), fl.(starting := Some(t.id), moves := fl.moves + {MoveOf(t, w)}))
  {
    ReserveStartsMove(m, w, t, fl.moves);
  }

  /** A start is only posted to a configured worker, with its keys reserved there, and never while
      the task is assigned elsewhere. */
  lemma PostedStart(cfg: Config, m: MState, c: Cluster, now: Instant)
    requires m.pending != [] && !IsStop(m.pending[0])
    requires PrepareDispatch(cfg, m, c, now).Posted?
    ensures var Posted(m', call) := PrepareDispatch(cfg, m, c, now);
            var t := m.pending[0].task;
            && call == StartCall(t, call.worker) && call.worker in cfg.nodes
            && m' == m.(pending := m.pending[1..], table := Reserved(m.table, call.worker, t))
            && (Owner(m, t.id) == "" || Owner(m, t.id) == call.worker)
  {
  }

  /** What the task of a start holds on workers other than the one that accepted it is held there by
      other operations in flight. */
  ghost predicate ElsewhereInFlight(m: MState, call: Call, moves: set<Move>) {
    var id := call.event.task.id;
    forall v, k {:trigger Holder(m.table, v, k)} ::
      Holder(m.table, v, k) == Some(id) && v != call.worker ==> MoveHolds(moves, v, k, id)
  }

  predicate Accepted(reply: Reply) {
    reply.Status? && reply.code == CREATED
  }

  /** The answer makes the manager record the start. */
  predicate Commits(m: MState, call: Call, reply: Reply, f: Faults) {
    && !IsStop(call.event) && Accepted(reply) && call.event.task.id in m.tasks
    && !f.readTask && !f.readOwner && !f.putOwner && !f.putTask
  }

  /** The second half of a dispatch settles it on every path, except exactly when it commits a start
      whose task has meanwhile been given keys elsewhere. */
  lemma FinishDispatchKeepsIff(cfg: Config, m: MState, call: Call, reply: Reply, f: Faults, now: Instant, fl: Flight)
    requires CallOk(cfg, m, call, fl.strict) && Holds(cfg, m, WithCall(fl, call)) && fl.starting == None && !f.restoreOwner
    ensures Holds(cfg, FinishDispatch(cfg, m, call, reply, f, now), fl) <==>
            (Commits(m, call, reply, f) ==> ElsewhereInFlight(m, call, fl.moves))
  {
    if IsStop(call.event) {
      ReleaseKeepsBacked(m, call.worker, call.event.task, fl.moves);
      EnqueueKeeps(cfg, m, call.event, fl);
      EnqueueKeeps(cfg, ReleaseOn(m, call.worker, call.event.task), call.event, fl);
    } else if Commits(m, call, reply, f) {
      CommitKeepsIff(cfg, m, call, fl);
      assert FinishDispatch(cfg, m, call, reply, f, now) == Committed(m, call.event.task, call.worker);
    } else {
      FinishStartKeeps(cfg, m, call, reply, f, now, fl);
    }
  }

  lemma CommitKeepsIff(cfg: Config, m: MState, call: Call, fl: Flight)
    requires CallOk(cfg, m, call, fl.strict) && Holds(cfg, m, WithCall(fl, call)) && fl.starting == None
    requires !IsStop(call.event) && call.event.task.id in m.tasks
    ensures Holds(cfg, Committed(m, call.event.task, call.worker), fl) <==> ElsewhereInFlight(m, call, fl.moves)
  {
    var t := call.event.task;
    CommitKeeps(cfg, m, t, call.worker, fl.(starting := Some(t.id)));
    CommitBackedIff(m, call, fl.moves);
  }

  /** A commit keeps reservations backed exactly when what it leaves behind is held in flight. */
  lemma CommitBackedIff(m: MState, call: Call, moves: set<Move>)
    requires var t := call.event.task;
             Backed(m, moves + {MoveOf(t, call.worker)}) && t.id in m.tasks && m.tasks[t.id].ports == t.ports
    ensures Backed(Committed(m, call.event.task, call.worker), moves) <==> ElsewhereInFlight(m, call, moves)
  {
    var t, w := call.event.task, call.worker;
    var m' := Committed(m, t, w);
    if ElsewhereInFlight(m, call, moves) {
      forall v, k | Holder(m.table, v, k).Some? ensures Justified(m'.tasks, m'.owners, v, k, Holder(m.table, v, k).value, moves) {
        assert Justified(m.tasks, m.owners, v, k, Holder(m.table, v, k).value, moves + {MoveOf(t, w)});
        MoveAdded(moves, MoveOf(t, w), v, k, Holder(m.table, v, k).value);
      }
    }
    if Backed(m', moves) {
      forall v, k | Holder(m.table, v, k) == Some(t.id) && v != w ensures MoveHolds(moves, v, k, t.id) {
        assert Justified(m'.tasks, m'.owners, v, k, t.id, moves);
      }
    }
  }

  /** While no operation has assigned the task elsewhere, it holds nothing elsewhere of its own. */
  lemma AtHomeIsEnough(m: MState, call: Call, moves: set<Move>)
    requires Backed(m, moves + {MoveOf(call.event.task, call.worker)})
    requires Owner(m, call.event.task.id) == "" || Owner(m, call.event.task.id) == call.worker
    ensures ElsewhereInFlight(m, call, moves)
  {
    var t, w := call.event.task, call.worker;
    forall v, k | Holder(m.table, v, k) == Some(t.id) && v != w ensures MoveHolds(moves, v, k, t.id) {
      assert Justified(m.tasks, m.owners, v, k, t.id, moves + {MoveOf(t, w)});
      MoveAdded(moves, MoveOf(t, w), v, k, t.id);
    }
  }

  /** The move is over as soon as its keys are released. */
  lemma FreedStart(cfg: Config, m: MState, call: Call, fl: Flight)
    requires Holds(cfg, m, WithCall(fl, call)) && !IsStop(call.event)
    ensures Holds(cfg, ReleaseOn(m, call.worker, call.event.task), fl.(starting := Some(call.event.task.id)))
  {
    ReleaseEndsMove(m, call.worker, call.event.task, fl.moves);
  }

  /** The start that was taken off the queue goes back to it. */
  lemma RequeueKeeps(cfg: Config, m: MState, e: Event, fl: Flight)
    requires !IsStop(e) && fl.starting == None && Holds(cfg, m, fl.(starting := Some(e.task.id)))
    requires Agrees(m.tasks, e.task.id, e.task.name, e.task.ports) && (fl.strict ==> e.task.id in m.tasks)
    ensures Holds(cfg, Enqueue(m, e), fl)
  {
  }

  /** Or its record is marked failed instead. */
  lemma GiveUpKeeps(cfg: Config, m: MState, t: Task, count: int, reason: string, now: Instant, fl: Flight)
    requires fl.starting == None && Holds(cfg, m, fl.(starting := Some(t.id)))
    ensures Holds(cfg, MarkFailed(cfg, m, t.id, count, reason, now), fl)
  {
    MarkFailedKeeps(cfg, m, t.id, count, reason, now, fl.(starting := Some(t.id)));
  }

  lemma FinishStartKeeps(cfg: Config, m: MState, call: Call, reply: Reply, f: Faults, now: Instant, fl: Flight)
    requires CallOk(cfg, m, call, fl.strict) && Holds(cfg, m, WithCall(fl, call)) && fl.starting == None
    requires !IsStop(call.event) && !Commits(m, call, reply, f) && !f.restoreOwner
    ensures Holds(cfg, FinishDispatch(cfg, m, call, reply, f, now), fl)
  {
    var t := call.event.task;
    var freed := ReleaseOn(m, call.worker, t);
    if Accepted(reply) {
      assert FinishDispatch(cfg, m, call, reply, f, now) == CommitDispatch(m, call, reply.echo, f);
      UndoDispatchKeeps(cfg, m, call, CleanupTask(reply.echo, t), fl);
    } else if reply.Status? {
      assert FinishDispatch(cfg, m, call, reply, f, now) == MarkFailed(cfg, freed, t.id, t.restartCount + 1, REJECTED, now);
      FreedStart(cfg, m, call, fl);
      GiveUpKeeps(cfg, freed, t, t.restartCount + 1, REJECTED, now, fl);
    } else {
      assert FinishDispatch(cfg, m, call, reply, f, now) == Enqueue(freed, call.event);
      FreedStart(cfg, m, call, fl);
      RequeueKeeps(cfg, freed, call.event, fl);
    }
  }

  lemma UndoDispatchKeeps(cfg: Config, m: MState, call: Call, cleanup: Task, fl: Flight)
    requires CallOk(cfg, m, call, fl.strict) && Holds(cfg, m, WithCall(fl, call)) && fl.starting == None && !IsStop(call.event)
    ensures var undone := Rollback(m, call.worker, call.event.task, cleanup, true);
            Holds(cfg, Enqueue(undone, call.event), fl) && (call.event.task.id !in m.tasks ==> Holds(cfg, undone, fl))
  {
    FreedStart(cfg, m, call, fl);
    RequeueKeeps(cfg, Rollback(m, call.worker, call.event.task, cleanup, true), call.event, fl);
  }

  /** Both writes of a commit, seen together. */
  lemma CommitKeeps(cfg: Config, m: MState, t: Task, w: Address, fl: Flight)
    requires Holds(cfg, m, fl.(moves := fl.moves + {MoveOf(t, w)}))
    requires t.id in m.tasks && !t.state.Pending?
    requires t.ports == m.tasks[t.id].ports && t.name == m.tasks[t.id].name
    ensures Records(cfg, Committed(m, t, w), Landed(fl, t.id)) && Records(cfg, Committed(m, t, w), fl)
    ensures Backed(Committed(m, t, w), fl.moves + LeftBehind(m, t, w))
  {
    RewriteKeeps(cfg, m, t, fl);
    CommitTurnsMove(m, t, w, fl.moves);
  }

  lemma DispatchKeeps(cfg: Config, m: MState, env: Env, fl: Flight)
    requires Holds(cfg, m, fl) && ConfigOk(cfg) && fl.starting == None
    ensures Holds(cfg, SendWork(cfg, m, env), fl)
  {
    PrepareDispatchKeeps(cfg, m, env.cluster, env.now, fl);
    match PrepareDispatch(cfg, m, env.cluster, env.now) {
      case Done(_) =>
      case Posted(m', call) =>
        if !IsStop(m.pending[0]) {
          PostedStart(cfg, m, env.cluster, env.now);
          AtHomeIsEnough(m', call, fl.moves);
        }
        FinishDispatchKeepsIff(cfg, m', call, env.reply, NO_FAULTS, env.now, fl);
    }
  }

  // ---- restart ----

  function WithRestart(fl: Flight, r: Restart): Flight {
    fl.(moves := fl.moves + {MoveOf(r.next, r.worker)})
  }

  /** The attempt a restart posted has the identity of the record it was prepared from. */
  ghost predicate RestartOk(m: MState, r: Restart) {
    && r.next.id == r.prev.id && r.next.ports == r.prev.ports && r.next.name == r.prev.name && r.next.state.Scheduled?
    && Agrees(m.tasks, r.next.id, r.next.name, r.next.ports)
  }

  /** A restart may be prepared from a record that has since changed or gone. If it is posted, the record
      must not have another identity by now; if placement ends the task, see above. */
  ghost predicate RestartSafe(cfg: Config, m: MState, t: Task, c: Cluster, fl: Flight) {
    match Select(cfg.nodes, m.table, NextAttempt(t), Owner(m, t.id), c).0
    case Chosen(_) => Agrees(m.tasks, t.id, t.name, t.ports)
    case Transient => true
    case Unplaceable => EndSafe(cfg, m, t, fl)
  }

  /** Preparing a restart from any record of a task, current, outdated or deleted, keeps the invariant,
      with what the restart holds added to what is in flight, exactly on that condition. */
  lemma PrepareRestartKeepsIff(cfg: Config, m: MState, t: Task, c: Cluster, now: Instant, fl: Flight)
    requires Holds(cfg, m, fl) && ConfigOk(cfg)
    ensures var p := PrepareRestart(cfg, m, t, c, now);
            (if p.Done? then Holds(cfg, p.m, fl) else Holds(cfg, p.m, WithRestart(fl, p.call))) <==> RestartSafe(cfg, m, t, c, fl)
    ensures PrepareRestart(cfg, m, t, c, now).Posted? ==> AttemptOf(t, PrepareRestart(cfg, m, t, c, now).call)
  {
    match PrepareRestart(cfg, m, t, c, now) {
      case Done(m') =>
        MarkFailedKeeps(cfg, m, t.id, t.restartCount, CANNOT_RESTART_YET, now, fl);
        StopTerminalKeepsIff(cfg, m, t, NO_WORKER, now, fl);
      case Posted(m', r) =>
        PlacementSound(cfg.nodes, m.table, NextAttempt(t), Owner(m, t.id), c);
        PostedRestartIff(cfg, m, t, r.worker, fl);
    }
  }

  /** The attempt carries the identity of the record it was prepared from. */
  predicate AttemptOf(t: Task, r: Restart) {
    r.prev == t && r.next.id == t.id && r.next.ports == t.ports && r.next.name == t.name && r.next.state.Scheduled?
  }

  lemma PostedRestartIff(cfg: Config, m: MState, t: Task, w: Address, fl: Flight)
    requires Holds(cfg, m, fl) && w != ""
    ensures Holds(cfg, m.(table := Reserved(m.table, w, NextAttempt(t))), fl.(moves := fl.moves + {MoveOf(t, w)})) <==>
            Agrees(m.tasks, t.id, t.name, t.ports)
  {
    ReserveStartsMove(m, w, NextAttempt(t), fl.moves);
    assert MoveOf(t, w) in fl.moves + {MoveOf(t, w)};
  }

  lemma FinishRestartKeeps(cfg: Config, m: MState, r: Restart, reply: Reply, f: Faults, now: Instant, fl: Flight)
    requires RestartOk(m, r) && Holds(cfg, m, WithRestart(fl, r)) && !f.restoreOwner
    ensures Holds(cfg, FinishRestart(cfg, m, r, reply, f, now), fl)
  {
    var freed := ReleaseOn(m, r.worker, r.next);
    FreedRestart(cfg, m, r, fl);
    match reply {
      case Unreached =>
        assert FinishRestart(cfg, m, r, reply, f, now) == MarkFailed(cfg, freed, r.prev.id, r.prev.restartCount, UNREACHED_RESTART, now);
        FailedKeeps(cfg, freed, r.prev.id, r.prev.restartCount, UNREACHED_RESTART, now, fl);
      case Status(code, echo) =>
        if code == CREATED {
          assert FinishRestart(cfg, m, r, reply, f, now) == CommitRestart(m, r, echo, f);
          CommitRestartKeeps(cfg, m, r, echo, f, fl);
        } else {
          assert FinishRestart(cfg, m, r, reply, f, now) == MarkFailed(cfg, freed, r.prev.id, r.prev.restartCount + 1, REJECTED_RESTART, now);
          FailedKeeps(cfg, freed, r.prev.id, r.prev.restartCount + 1, REJECTED_RESTART, now, fl);
        }
    }
  }

  lemma FailedKeeps(cfg: Config, m: MState, id: Id, count: int, reason: string, now: Instant, fl: Flight)
    requires Holds(cfg, m, fl)
    ensures Holds(cfg, MarkFailed(cfg, m, id, count, reason, now), fl)
  {
    MarkFailedKeeps(cfg, m, id, count, reason, now, fl);
  }

  lemma FreedRestart(cfg: Config, m: MState, r: Restart, fl: Flight)
    requires Holds(cfg, m, WithRestart(fl, r))
    ensures Holds(cfg, ReleaseOn(m, r.worker, r.next), fl)
  {
    ReleaseEndsMove(m, r.worker, r.next, fl.moves);
  }

  lemma CommitRestartKeeps(cfg: Config, m: MState, r: Restart, echo: Task, f: Faults, fl: Flight)
    requires RestartOk(m, r) && Holds(cfg, m, WithRestart(fl, r)) && !f.restoreOwner
    ensures Holds(cfg, CommitRestart(m, r, echo, f), fl)
  {
    var id := r.prev.id;
    if f.readTask || id !in m.tasks || m.tasks[id].manuallyStopped || f.readOwner || f.putOwner || f.putTask {
      ReleaseEndsMove(m, r.worker, r.next, fl.moves);
    } else {
      assert CommitRestart(m, r, echo, f) == LeaveOldOwner(Committed(m, r.next, r.worker), r, Owner(m, id));
      RelocationKeeps(cfg, m, r, fl);
    }
  }

  /** The previous owner gives up what the commit left behind there. */
  lemma RelocationKeeps(cfg: Config, m: MState, r: Restart, fl: Flight)
    requires RestartOk(m, r) && Holds(cfg, m, WithRestart(fl, r)) && r.prev.id in m.tasks
    ensures Holds(cfg, LeaveOldOwner(Committed(m, r.next, r.worker), r, Owner(m, r.prev.id)), fl)
  {
    var before := Owner(m, r.prev.id);
    CommitKeeps(cfg, m, r.next, r.worker, fl);
    if before != "" && before != r.worker {
      assert MoveOf(r.next, before) == MoveOf(r.prev, before);
      ReleaseEndsMove(Committed(m, r.next, r.worker), before, r.prev, fl.moves);
    } else {
      assert fl.moves + LeftBehind(m, r.next, r.worker) == fl.moves;
    }
  }

  lemma CarryKeeps(cfg: Config, m: MState, id: Id, v: Verdict, env: Env, fl: Flight)
    requires Holds(cfg, m, fl) && ConfigOk(cfg) && id in m.tasks
    ensures Holds(cfg, Carry(cfg, m, m.tasks[id], v, env), fl)
  {
    match v {
      case Leave =>
      case Terminate(reason) => StopTerminalKeeps(cfg, m, m.tasks[id], reason, env.now, fl);
      case Retry =>
        AgreeingEndIsSafe(cfg, m, m.tasks[id], fl);
        PrepareRestartKeepsIff(cfg, m, m.tasks[id], env.cluster, env.now, fl);
        match PrepareRestart(cfg, m, m.tasks[id], env.cluster, env.now) {
          case Done(_) =>
          case Posted(m', r) => FinishRestartKeeps(cfg, m', r, env.reply, NO_FAULTS, env.now, fl);
        }
    }
  }
}
