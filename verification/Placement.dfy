/** Worker selection and port admission (manager/scheduling.go, manager/ports.go). */
module Placement {
  import opened Base
  import opened Tasks
  import opened Ports
  import opened Reservations

  /** A worker's port inventory. */
  datatype Occupied = Occupied(tcp: seq<int>, udp: seq<int>)

  /** What the cluster answers during one placement: the owner's inventory if it can be fetched, which
      nodes the scheduler offers, which inventories can be fetched for those, how the scheduler picks,
      and why a failure might be transient. The two fetches from one worker may differ. */
  datatype Cluster = Cluster(
    atOwner: Option<Occupied>,
    eligible: set<Address>,
    inventory: map<Address, Occupied>,
    unscoreable: bool,
    choice: nat,
    statsPending: bool,
    unreachable: bool)

  function KeysFor(protocol: string, ports: seq<int>): seq<Key> {
    seq(|ports|, i requires 0 <= i < |ports| => PortKey(protocol, ports[i]))
  }

  function OccupiedKeys(occ: Occupied): set<Key> {
    (set k | k in KeysFor("tcp", occ.tcp)) + (set k | k in KeysFor("udp", occ.udp))
  }

  /** The keys that block the task on a worker: what is in use there, less (on request) what the
      task's own container publishes. */
  function BusyKeys(t: Task, occ: Occupied, excludeOwn: bool): set<Key> {
    OccupiedKeys(occ) - (if excludeOwn then KeySet(t.hostPorts) else {})
  }

  predicate Fits(t: Task, occ: Occupied, excludeOwn: bool) {
    KeySet(t.ports) !! BusyKeys(t, occ, excludeOwn)
  }

  method AddKeys(occupied: set<Key>, keys: seq<Key>) returns (r: set<Key>)
    ensures r == occupied + set k | k in keys
  {
    r := occupied;
    for i := 0 to |keys|
      invariant r == occupied + KeysIn(keys, i)
    {
      KeysInStep(keys, i);
      r := r + {keys[i]};
    }
    assert keys[..|keys|] == keys;
  }

  method DropKeys(occupied: set<Key>, keys: seq<Key>) returns (r: set<Key>)
    ensures r == occupied - set k | k in keys
  {
    r := occupied;
    for i := 0 to |keys|
      invariant r == occupied - KeysIn(keys, i)
    {
      KeysInStep(keys, i);
      r := r - {keys[i]};
    }
    assert keys[..|keys|] == keys;
  }

  method AnyIn(occupied: set<Key>, keys: seq<Key>) returns (hit: bool)
    ensures hit <==> exists k :: k in keys && k in occupied
  {
    for i := 0 to |keys|
      invariant forall j :: 0 <= j < i ==> keys[j] !in occupied
    {
      if keys[i] in occupied {
        return true;
      }
    }
    return false;
  }

  /** canHost: fill the occupied set, drop the task's own bindings, look for a hit. */
  method CanHost(t: Task, occ: Occupied, excludeOwn: bool) returns (ok: bool)
    ensures ok <==> Fits(t, occ, excludeOwn)
  {
    PinnedIffKeys(t.ports);
    if !HasPinnedHostPorts(t.ports) {
      return true;
    }
    var occupied := AddKeys({}, KeysFor("tcp", occ.tcp));
    occupied := AddKeys(occupied, KeysFor("udp", occ.udp));
    if excludeOwn {
      occupied := DropKeys(occupied, PinnedKeys(t.hostPorts));
    }
    assert occupied == BusyKeys(t, occ, excludeOwn);
    var hit := AnyIn(occupied, PinnedKeys(t.ports));
    return !hit;
  }

  // ---- the specification ----

  /** A candidate passes when its inventory (needed only for pinned ports) and the table allow it. */
  predicate Admits(tb: Table, w: Address, t: Task, c: Cluster) {
    && w in c.eligible
    && (HasPinnedHostPorts(t.ports) ==> w in c.inventory && Fits(t, c.inventory[w], false))
    && !Conflicts(tb, w, t, false)
  }

  function Able(nodes: seq<Address>, tb: Table, t: Task, c: Cluster): (able: seq<Address>)
    ensures forall w :: w in able <==> w in nodes && Admits(tb, w, t, c)
  {
    if nodes == [] then []
    else
      assert nodes == nodes[..|nodes| - 1] + [nodes[|nodes| - 1]];
      Able(nodes[..|nodes| - 1], tb, t, c) +
      (if Admits(tb, nodes[|nodes| - 1], t, c) then [nodes[|nodes| - 1]] else [])
  }

  /** The restart path: the owner keeps the task if it can. */
  predicate OwnerKeeps(nodes: seq<Address>, tb: Table, t: Task, owner: Address, c: Cluster) {
    && owner != "" && owner in nodes
    && !Conflicts(tb, owner, t, true)
    && (HasPinnedHostPorts(t.ports) ==> c.atOwner.Some? && Fits(t, c.atOwner.value, true))
  }

  datatype Choice = Chosen(worker: Address) | Transient | Unplaceable

  function Failure(c: Cluster): Choice {
    if c.statsPending || c.unreachable then Transient else Unplaceable
  }

  function Select(nodes: seq<Address>, tb: Table, t: Task, owner: Address, c: Cluster): (Choice, Table) {
    if !ValidPorts(t.ports) then (Unplaceable, tb)
    else if OwnerKeeps(nodes, tb, t, owner, c) then (Chosen(owner), Reserved(tb, owner, t))
    else
      var able := Able(nodes, tb, t, c);
      if able == [] || c.unscoreable then (Failure(c), tb)
      else
        var w := able[c.choice % |able|];
        (Chosen(w), Reserved(tb, w, t))
  }

  // ---- the algorithm ----

  method SelectWorkerLocked(nodes: seq<Address>, table: ReservationTable, t: Task, c: Cluster)
    returns (w: Option<Address>)
    ensures var able := Able(nodes, table.byWorker, t, c);
            w == if !ValidPorts(t.ports) || able == [] || c.unscoreable then None else Some(able[c.choice % |able|])
  {
    var err := ValidatePortMappings(t.ports);
    if err.Some? {
      return None;
    }
    var able: seq<Address> := [];
    for i := 0 to |nodes|
      invariant able == Able(nodes[..i], table.byWorker, t, c)
    {
      assert nodes[..i + 1][..i] == nodes[..i];
      if nodes[i] !in c.eligible {
        continue;
      }
      if HasPinnedHostPorts(t.ports) {
        if nodes[i] !in c.inventory {
          continue;
        }
        var fits := CanHost(t, c.inventory[nodes[i]], false);
        if !fits {
          continue;
        }
      }
      var conflict := table.ConflictsLocked(nodes[i], t, false);
      if conflict {
        continue;
      }
      able := able + [nodes[i]];
    }
    assert nodes[..|nodes|] == nodes;
    if |able| == 0 || c.unscoreable {
      return None;
    }
    return Some(able[c.choice % |able|]);
  }

  method SelectAndReserveWorker(nodes: seq<Address>, table: ReservationTable, t: Task, owner: Address, c: Cluster)
    returns (choice: Choice)
    modifies table
    ensures (choice, table.byWorker) == Select(nodes, old(table.byWorker), t, owner, c)
  {
    var err := ValidatePortMappings(t.ports);
    if err.Some? {
      return Unplaceable;
    }
    PinnedIffKeys(t.ports);
    if owner != "" && owner in nodes {
      var conflict := table.ConflictsLocked(owner, t, true);
      if !conflict {
        if !HasPinnedHostPorts(t.ports) {
          return Chosen(owner);
        }
        if c.atOwner.Some? {
          var fits := CanHost(t, c.atOwner.value, true);
          if fits {
            var reserved := table.TryReserve(owner, t);
            if reserved {
              return Chosen(owner);
            }
          }
        }
      }
    }
    var selected := SelectWorkerLocked(nodes, table, t, c);
    if selected == None {
      return Failure(c);
    }
    assert selected.value in Able(nodes, table.byWorker, t, c);
    var reserved := table.TryReserve(selected.value, t);
    if !reserved {
      // "lost race reserving host ports": unreachable, since every able worker was conflict-free
      NoOwnConflictWithoutAny(table.byWorker, selected.value, t);
      assert false;
    }
    return Chosen(selected.value);
  }

  lemma NoOwnConflictWithoutAny(tb: Table, w: Address, t: Task)
    requires !Conflicts(tb, w, t, false)
    ensures !Conflicts(tb, w, t, true)
  {
  }

  // ---- what a placement guarantees ----

  /** A chosen worker is configured, the task owns every pinned key there, those keys are free in
      the inventory that was fetched, and no entry of any other task has changed. */
  lemma PlacementSound(nodes: seq<Address>, tb: Table, t: Task, owner: Address, c: Cluster)
    requires Select(nodes, tb, t, owner, c).0.Chosen?
    ensures var (choice, tb') := Select(nodes, tb, t, owner, c);
            && choice.worker in nodes
            && Owns(tb', choice.worker, t)
            && (KeySet(t.ports) != {} ==>
                  || (choice.worker == owner && c.atOwner.Some? && KeySet(t.ports) !! OccupiedKeys(c.atOwner.value) - KeySet(t.hostPorts))
                  || (choice.worker in c.inventory && KeySet(t.ports) !! OccupiedKeys(c.inventory[choice.worker])))
            && (forall w, k :: Holder(tb, w, k).Some? && Holder(tb, w, k) != Some(t.id) ==> Holder(tb', w, k) == Holder(tb, w, k))
            && (forall w, k :: Holder(tb', w, k) != Holder(tb, w, k) ==> w == choice.worker && k in KeySet(t.ports))
  {
    var (choice, tb') := Select(nodes, tb, t, owner, c);
    var w := choice.worker;
    PinnedIffKeys(t.ports);
    if !OwnerKeeps(nodes, tb, t, owner, c) {
      assert w in Able(nodes, tb, t, c);
      NoOwnConflictWithoutAny(tb, w, t);
    }
    assert !Conflicts(tb, w, t, true);
    forall v, k
      ensures Holder(tb', v, k) == if v == w && k in KeySet(t.ports) then Some(t.id) else Holder(tb, v, k)
    {
      ReservedEntry(tb, w, t, v, k);
    }
    forall k | k in KeySet(t.ports) && Holder(tb, w, k).Some? ensures Holder(tb, w, k) == Some(t.id) {
      assert !Blocks(tb, w, k, t.id, true);
    }
  }

  /** A failed placement changes nothing, and it fails only for want of a worker: any configured,
      offered worker with room in its inventory and no reservation on the wanted keys would have
      been enough (unless no candidate can be scored). */
  lemma PlacementComplete(nodes: seq<Address>, tb: Table, t: Task, owner: Address, c: Cluster, w: Address)
    requires ValidPorts(t.ports) && !c.unscoreable
    requires w in nodes && w in c.eligible
    requires KeySet(t.ports) != {} ==> w in c.inventory && KeySet(t.ports) !! OccupiedKeys(c.inventory[w])
    requires forall k :: k in KeySet(t.ports) ==> Holder(tb, w, k) == None
    ensures Select(nodes, tb, t, owner, c).0.Chosen?
  {
    PinnedIffKeys(t.ports);
    assert Admits(tb, w, t, c);
    assert w in Able(nodes, tb, t, c);
  }

  /** The keys in use on a worker are those of the ports its inventory lists, each under its own protocol. */
  lemma OccupiedMeaning(occ: Occupied, k: Key)
    ensures k in OccupiedKeys(occ) <==>
            (exists p :: p in occ.tcp && k == PortKey("tcp", p)) || (exists p :: p in occ.udp && k == PortKey("udp", p))
  {
    KeysForMeaning("tcp", occ.tcp, k);
    KeysForMeaning("udp", occ.udp, k);
  }

  lemma KeysForMeaning(protocol: string, ports: seq<int>, k: Key)
    ensures k in KeysFor(protocol, ports) <==> exists p :: p in ports && k == PortKey(protocol, p)
  {
    if k in KeysFor(protocol, ports) {
      var i :| 0 <= i < |ports| && KeysFor(protocol, ports)[i] == k;
      assert ports[i] in ports;
    }
    if p :| p in ports && k == PortKey(protocol, p) {
      var i :| 0 <= i < |ports| && ports[i] == p;
      assert KeysFor(protocol, ports)[i] == k;
    }
  }

  /** The task's owner is configured, no other task holds one of its keys there, and, if it has any, the owner's
      inventory could be fetched and shows them free but for the task's own bindings. */
  predicate OwnerHasRoom(nodes: seq<Address>, tb: Table, t: Task, owner: Address, c: Cluster) {
    && owner != "" && owner in nodes
    && (forall k :: k in KeySet(t.ports) ==> Holder(tb, owner, k) in {None, Some(t.id)})
    && (KeySet(t.ports) != {} ==> c.atOwner.Some? && KeySet(t.ports) !! OccupiedKeys(c.atOwner.value) - KeySet(t.hostPorts))
  }

  /** A worker that is offered, has nobody's reservation on a wanted key, and shows them all free. */
  predicate HasRoom(tb: Table, t: Task, c: Cluster, w: Address) {
    && w in c.eligible
    && (forall k :: k in KeySet(t.ports) ==> Holder(tb, w, k) == None)
    && (KeySet(t.ports) != {} ==> w in c.inventory && KeySet(t.ports) !! OccupiedKeys(c.inventory[w]))
  }

  lemma RoomIsAdmission(nodes: seq<Address>, tb: Table, t: Task, owner: Address, c: Cluster, w: Address)
    ensures OwnerHasRoom(nodes, tb, t, owner, c) <==> OwnerKeeps(nodes, tb, t, owner, c)
    ensures HasRoom(tb, t, c, w) <==> Admits(tb, w, t, c)
  {
    PinnedIffKeys(t.ports);
    forall k ensures Blocks(tb, owner, k, t.id, true) <==> Holder(tb, owner, k) !in {None, Some(t.id)} {}
    forall k ensures Blocks(tb, w, k, t.id, false) <==> Holder(tb, w, k) != None {}
  }

  /** A task with valid ports stays with its owner whenever that has room; otherwise it goes to a worker that has;
      it is left without one if and only if there is none, or none can be scored. Then nothing is reserved, and the
      failure is transient if and only if statistics are outstanding or no worker answers. */
  lemma PlacementIff(nodes: seq<Address>, tb: Table, t: Task, owner: Address, c: Cluster)
    ensures var (choice, tb') := Select(nodes, tb, t, owner, c);
            var stays := ValidPorts(t.ports) && OwnerHasRoom(nodes, tb, t, owner, c);
            var goes := ValidPorts(t.ports) && !c.unscoreable && exists w :: w in nodes && HasRoom(tb, t, c, w);
            && (stays ==> choice == Chosen(owner))
            && (!stays && goes ==> choice.Chosen? && choice.worker in nodes && HasRoom(tb, t, c, choice.worker))
            && (!stays && !goes ==> tb' == tb)
            && (!stays && !goes ==>
                  choice == if ValidPorts(t.ports) && (c.statsPending || c.unreachable) then Transient else Unplaceable)
  {
    forall w ensures HasRoom(tb, t, c, w) <==> Admits(tb, w, t, c) { RoomIsAdmission(nodes, tb, t, owner, c, w); }
    RoomIsAdmission(nodes, tb, t, owner, c, owner);
    var able := Able(nodes, tb, t, c);
    if able != [] {
      assert able[c.choice % |able|] in able && able[0] in able;
      assert HasRoom(tb, t, c, able[0]) && HasRoom(tb, t, c, able[c.choice % |able|]);
    }
  }
}
