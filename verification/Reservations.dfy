/** The per-worker host-port reservation table (manager/reservations.go). */
module Reservations {
  import opened Base
  import opened Tasks
  import opened Ports

  type Table = map<Address, map<Key, Id>>

  /** Who holds key `k` on worker `w`. */
  function Holder(tb: Table, w: Address, k: Key): Option<Id> {
    if w in tb && k in tb[w] then Some(tb[w][k]) else None
  }

  /** A worker's row, empty when it has none. */
  function Row(tb: Table, w: Address): map<Key, Id> {
    if w in tb then tb[w] else map[]
  }

  predicate Blocks(tb: Table, w: Address, k: Key, id: Id, allowOwn: bool) {
    Holder(tb, w, k).Some? && (Holder(tb, w, k) != Some(id) || !allowOwn)
  }

  predicate Conflicts(tb: Table, w: Address, t: Task, allowOwn: bool) {
    exists k :: k in KeySet(t.ports) && Blocks(tb, w, k, t.id, allowOwn)
  }

  function Claimed(row: map<Key, Id>, keys: set<Key>, id: Id): map<Key, Id> {
    row + map k | k in keys :: id
  }

  /** The table after a reservation that found no conflict. */
  function Reserved(tb: Table, w: Address, t: Task): Table {
    if KeySet(t.ports) == {} then tb
    else tb[w := Claimed(Row(tb, w), KeySet(t.ports), t.id)]
  }

  function Freed(row: map<Key, Id>, keys: set<Key>, id: Id): map<Key, Id> {
    map k | k in row && !(k in keys && row[k] == id) :: row[k]
  }

  function Released(tb: Table, w: Address, t: Task): Table {
    var row := Freed(Row(tb, w), KeySet(t.ports), t.id);
    if row == map[] then tb - {w} else tb[w := row]
  }

  ghost predicate NoEmptyRow(tb: Table) {
    forall w :: w in tb ==> tb[w] != map[]
  }

  // ---- what the operations do to each single entry ----

  lemma ReservedEntry(tb: Table, w: Address, t: Task, w': Address, k: Key)
    ensures Holder(Reserved(tb, w, t), w', k) ==
            if w' == w && k in KeySet(t.ports) then Some(t.id) else Holder(tb, w', k)
  {
  }

  lemma ReleasedEntry(tb: Table, w: Address, t: Task, w': Address, k: Key)
    ensures Holder(Released(tb, w, t), w', k) ==
            if w' == w && k in KeySet(t.ports) && Holder(tb, w, k) == Some(t.id) then None else Holder(tb, w', k)
  {
    var row := Freed(Row(tb, w), KeySet(t.ports), t.id);
    assert k in row <==> k in Row(tb, w) && !(k in KeySet(t.ports) && Row(tb, w)[k] == t.id);
  }

  /** Releasing takes back exactly what reserving claimed: on a worker where the task held none
      of its keys, the pair leaves every entry as it was. */
  lemma ReleaseUndoesReserve(tb: Table, w: Address, t: Task)
    requires NoEmptyRow(tb) && !Conflicts(tb, w, t, false)
    ensures Released(Reserved(tb, w, t), w, t) == tb
  {
    var tb' := Released(Reserved(tb, w, t), w, t);
    KeepsRows(tb, w, t);
    forall k ensures Holder(tb, w, k) == Holder(tb', w, k) {
      ReservedEntry(tb, w, t, w, k);
      ReleasedEntry(Reserved(tb, w, t), w, t, w, k);
    }
    RowsByEntry(tb, tb', w);
  }

  lemma RowsByEntry(tb: Table, tb': Table, w: Address)
    requires NoEmptyRow(tb) && NoEmptyRow(tb')
    requires forall k :: Holder(tb, w, k) == Holder(tb', w, k)
    requires forall w' :: w' != w ==> (w' in tb <==> w' in tb') && (w' in tb ==> tb[w'] == tb'[w'])
    ensures tb == tb'
  {
    forall k ensures k in Row(tb, w) <==> k in Row(tb', w) { assert Holder(tb, w, k) == Holder(tb', w, k); }
    forall k | k in Row(tb, w) ensures Row(tb, w)[k] == Row(tb', w)[k] { assert Holder(tb, w, k) == Holder(tb', w, k); }
    assert Row(tb, w) == Row(tb', w);
    assert w in tb <==> w in tb';
  }

  lemma KeepsRows(tb: Table, w: Address, t: Task)
    requires NoEmptyRow(tb)
    ensures NoEmptyRow(Reserved(tb, w, t)) && NoEmptyRow(Released(tb, w, t))
    ensures NoEmptyRow(Released(Reserved(tb, w, t), w, t))
  {
    if KeySet(t.ports) != {} {
      var k :| k in KeySet(t.ports);
      assert k in Claimed(Row(tb, w), KeySet(t.ports), t.id);
    }
  }

  // ---- traces ----

  datatype TableOp = TryReserve(w: Address, t: Task) | Free(w: Address, t: Task)

  ghost function ApplyOp(tb: Table, op: TableOp): Table {
    match op
    case TryReserve(w, t) => if Conflicts(tb, w, t, true) then tb else Reserved(tb, w, t)
    case Free(w, t) => Released(tb, w, t)
  }

  ghost function RunOps(tb: Table, ops: seq<TableOp>): Table
    decreases |ops|
  {
    if ops == [] then tb else RunOps(ApplyOp(tb, ops[0]), ops[1..])
  }

  ghost predicate Owns(tb: Table, w: Address, t: Task) {
    forall k :: k in KeySet(t.ports) ==> Holder(tb, w, k) == Some(t.id)
  }

  /** Mutual exclusion: once a task owns its keys on a worker, no operation of any other task, and
      nothing on any other worker, takes one away until the task itself is released there; and
      meanwhile every other task that asks for one of those keys there is turned down. */
  lemma {:induction false} OwnershipLasts(tb: Table, w: Address, t: Task, ops: seq<TableOp>)
    requires Owns(tb, w, t)
    requires forall i :: 0 <= i < |ops| && ops[i].Free? && ops[i].w == w ==> ops[i].t.id != t.id
    ensures Owns(RunOps(tb, ops), w, t)
    ensures forall u: Task :: u.id != t.id && KeySet(u.ports) * KeySet(t.ports) != {} ==> Conflicts(RunOps(tb, ops), w, u, true)
    decreases |ops|
  {
    if ops == [] {
      forall u: Task | u.id != t.id && KeySet(u.ports) * KeySet(t.ports) != {} ensures Conflicts(tb, w, u, true) {
        var k :| k in KeySet(u.ports) * KeySet(t.ports);
        assert Blocks(tb, w, k, u.id, true);
      }
    } else {
      OwnershipStep(tb, w, t, ops[0]);
      OwnershipLasts(ApplyOp(tb, ops[0]), w, t, ops[1..]);
    }
  }

  lemma OwnershipStep(tb: Table, w: Address, t: Task, op: TableOp)
    requires Owns(tb, w, t)
    requires op.Free? && op.w == w ==> op.t.id != t.id
    ensures Owns(ApplyOp(tb, op), w, t)
  {
    forall k | k in KeySet(t.ports) ensures Holder(ApplyOp(tb, op), w, k) == Some(t.id) {
      assert Holder(tb, w, k) == Some(t.id);
      match op {
        case TryReserve(v, u) => ReservedEntry(tb, v, u, w, k);
        case Free(v, u) => ReleasedEntry(tb, v, u, w, k);
      }
    }
  }

  /** A reservation either claims every key or changes nothing, and no run leaves an empty row. */
  lemma {:induction false} RunKeepsRows(tb: Table, ops: seq<TableOp>)
    requires NoEmptyRow(tb)
    ensures NoEmptyRow(RunOps(tb, ops))
    decreases |ops|
  {
    if ops != [] {
      KeepsRows(tb, ops[0].w, ops[0].t);
      RunKeepsRows(ApplyOp(tb, ops[0]), ops[1..]);
    }
  }

  // ---- the table object ----

  function KeysIn(keys: seq<Key>, n: nat): set<Key>
    requires n <= |keys|
  {
    set k | k in keys[..n]
  }

  lemma KeysInStep(keys: seq<Key>, n: nat)
    requires n < |keys|
    ensures KeysIn(keys, n + 1) == KeysIn(keys, n) + {keys[n]}
  {
  }

  lemma ClaimOne(row: map<Key, Id>, done: set<Key>, k: Key, id: Id)
    ensures Claimed(row, done, id)[k := id] == Claimed(row, done + {k}, id)
  {
  }

  lemma FreeOne(row: map<Key, Id>, done: set<Key>, k: Key, id: Id)
    ensures Freed(row, done + {k}, id) ==
            var cur := Freed(row, done, id); if k in cur && cur[k] == id then cur - {k} else cur
  {
  }

  lemma KeysInAll(t: Task)
    ensures KeysIn(PinnedKeys(t.ports), |PinnedKeys(t.ports)|) == KeySet(t.ports)
  {
  }

  class ReservationTable {
    var byWorker: Table

    constructor ()
      ensures byWorker == map[]
    {
      byWorker := map[];
    }

    method ConflictsLocked(w: Address, t: Task, allowOwn: bool) returns (hit: bool)
      ensures hit <==> Conflicts(byWorker, w, t, allowOwn)
    {
      var row := Row(byWorker, w);
      var keys := RequestedPortKeys(t);
      for i := 0 to |keys|
        invariant forall j :: 0 <= j < i ==> !Blocks(byWorker, w, keys[j], t.id, allowOwn)
      {
        var blocked := keys[i] in row && (row[keys[i]] != t.id || !allowOwn);
        assert blocked <==> Blocks(byWorker, w, keys[i], t.id, allowOwn);
        if blocked {
          assert keys[i] in KeySet(t.ports);
          return true;
        }
      }
      return false;
    }

    /** All of the task's keys or none of them. */
    method TryReserve(w: Address, t: Task) returns (ok: bool)
      modifies this
      ensures ok <==> !Conflicts(old(byWorker), w, t, true)
      ensures byWorker == if ok then Reserved(old(byWorker), w, t) else old(byWorker)
    {
      var keys := RequestedPortKeys(t);
      if |keys| == 0 {
        assert KeySet(t.ports) == {};
        return true;
      }
      assert keys[0] in KeySet(t.ports);
      var conflict := ConflictsLocked(w, t, true);
      if conflict {
        return false;
      }
      var row := Row(byWorker, w);
      ghost var before := row;
      for i := 0 to |keys|
        invariant byWorker == old(byWorker) && row == Claimed(before, KeysIn(keys, i), t.id)
      {
        KeysInStep(keys, i);
        ClaimOne(before, KeysIn(keys, i), keys[i], t.id);
        row := row[keys[i] := t.id];
      }
      KeysInAll(t);
      assert row == Claimed(before, KeySet(t.ports), t.id);
      byWorker := byWorker[w := row];
      return true;
    }

    method Release(w: Address, t: Task)
      modifies this
      ensures byWorker == Released(old(byWorker), w, t)
    {
      var row := Row(byWorker, w);
      ghost var before := row;
      var keys := RequestedPortKeys(t);
      for i := 0 to |keys|
        invariant byWorker == old(byWorker) && row == Freed(before, KeysIn(keys, i), t.id)
      {
        KeysInStep(keys, i);
        FreeOne(before, KeysIn(keys, i), keys[i], t.id);
        if keys[i] in row && row[keys[i]] == t.id {
          row := row - {keys[i]};
        }
      }
      KeysInAll(t);
      assert row == Freed(before, KeySet(t.ports), t.id);
      byWorker := if row == map[] then byWorker - {w} else byWorker[w := row];
    }
  }
}
