/** Round-robin scoring and the two pickers (scheduler/scheduler.go). */
module Schedulers {
  import opened Base
  import opened Tasks

  type Scores = map<Address, real>

  /** A missing entry reads as zero. */
  function Lookup(scores: Scores, w: Address): real {
    if w in scores then scores[w] else 0.0
  }

  /** `i` is the first candidate with the least score among those that `usable` admits. */
  ghost predicate FirstBest(scores: Scores, nodes: seq<Address>, usable: Address -> bool, i: int) {
    && 0 <= i < |nodes| && usable(nodes[i])
    && (forall j :: 0 <= j < |nodes| && usable(nodes[j]) ==> Lookup(scores, nodes[i]) <= Lookup(scores, nodes[j]))
    && (forall j :: 0 <= j < i && usable(nodes[j]) ==> Lookup(scores, nodes[i]) < Lookup(scores, nodes[j]))
  }

  const ANY_NODE: Address -> bool := w => true

  method PickRoundRobin(scores: Scores, nodes: seq<Address>) returns (best: Option<Address>)
    ensures nodes == [] ==> best == None
    ensures nodes != [] ==> exists i :: FirstBest(scores, nodes, ANY_NODE, i) && best == Some(nodes[i])
  {
    best := None;
    ghost var at := -1;
    for i := 0 to |nodes|
      invariant best == None <==> i == 0
      invariant best.Some? ==> FirstBest(scores, nodes[..i], ANY_NODE, at) && best.value == nodes[at]
    {
      if best == None || Lookup(scores, nodes[i]) < Lookup(scores, best.value) {
        best := Some(nodes[i]);
        at := i;
      }
    }
    assert nodes[..|nodes|] == nodes;
  }

  /** Epvm marks nodes of unknown capacity with a sentinel score and never picks one. */
  method PickEpvm(scores: Scores, nodes: seq<Address>, unknown: real) returns (best: Option<Address>)
    ensures var usable := w => Lookup(scores, w) != unknown;
            if forall i :: 0 <= i < |nodes| ==> !usable(nodes[i]) then best == None
            else exists i :: FirstBest(scores, nodes, usable, i) && best == Some(nodes[i])
  {
    ghost var usable := w => Lookup(scores, w) != unknown;
    best := None;
    ghost var at := -1;
    for i := 0 to |nodes|
      invariant best == None ==> forall j :: 0 <= j < i ==> !usable(nodes[j])
      invariant best.Some? ==> FirstBest(scores, nodes[..i], usable, at) && best.value == nodes[at]
    {
      if Lookup(scores, nodes[i]) == unknown {
        continue;
      }
      if best == None || Lookup(scores, nodes[i]) < Lookup(scores, best.value) {
        best := Some(nodes[i]);
        at := i;
      }
    }
    assert nodes[..|nodes|] == nodes;
  }

  // ---- the rotation ----

  /** The index after `last` in a list of `n`, starting over at the end. */
  function Turn(last: int, n: nat): int {
    if last + 1 < n then last + 1 else 0
  }

  ghost predicate DistinctNodes(nodes: seq<Address>) {
    forall i, j :: 0 <= i < j < |nodes| ==> nodes[i] != nodes[j]
  }

  class RoundRobin {
    var lastWorker: int

    constructor ()
      ensures lastWorker == -1
    {
      lastWorker := -1;
    }

    method Score(nodes: seq<Address>) returns (scores: Scores)
      modifies this
      ensures lastWorker == Turn(old(lastWorker), |nodes|)
      ensures DistinctNodes(nodes) ==>
                forall i :: 0 <= i < |nodes| ==> nodes[i] in scores && scores[nodes[i]] == if i == lastWorker then 0.1 else 1.0
    {
      var chosen, skipped := 0.1, 1.0;
      scores := map[];
      var newWorker := 0;
      if lastWorker + 1 < |nodes| {
        newWorker := lastWorker + 1;
      }
      lastWorker := newWorker;
      for i := 0 to |nodes|
        invariant lastWorker == newWorker
        invariant DistinctNodes(nodes) ==>
                    forall j :: 0 <= j < i ==> nodes[j] in scores && scores[nodes[j]] == if j == newWorker then 0.1 else 1.0
      {
        scores := scores[nodes[i] := if i == newWorker then chosen else skipped];
      }
    }

    /** One placement: score, then pick. The pick is the next node in rotation. */
    method Next(nodes: seq<Address>) returns (w: Address)
      requires nodes != [] && DistinctNodes(nodes) && -1 <= lastWorker
      modifies this
      ensures lastWorker == Turn(old(lastWorker), |nodes|)
      ensures w == nodes[lastWorker]
    {
      var scores := Score(nodes);
      var best := PickRoundRobin(scores, nodes);
      w := best.value;
    }
  }

  /** The state after `k` placements from a fresh scheduler. */
  function TurnAfter(k: nat, n: nat): int {
    if k == 0 then -1 else Turn(TurnAfter(k - 1, n), n)
  }

  /** How many of the first `k` placements went to index `i`. */
  function Share(k: nat, n: nat, i: nat): nat {
    if k == 0 then 0 else Share(k - 1, n, i) + (if TurnAfter(k, n) == i then 1 else 0)
  }

  /** Every node has had the same number of full rounds, and those up to the current one have had one more. */
  lemma {:induction false} RoundShape(k: nat, n: nat) returns (rounds: nat)
    requires n > 0
    ensures -1 <= TurnAfter(k, n) < n
    ensures forall i: nat :: i < n ==> Share(k, n, i) == rounds + (if i <= TurnAfter(k, n) then 1 else 0)
  {
    if k == 0 {
      rounds := 0;
    } else {
      var before := RoundShape(k - 1, n);
      rounds := if TurnAfter(k - 1, n) + 1 < n then before else before + 1;
    }
  }

  /** Round-robin is balanced at every moment. */
  lemma Balanced(k: nat, n: nat, i: nat, j: nat)
    requires i < n && j < n
    ensures -1 <= Share(k, n, i) - Share(k, n, j) <= 1
  {
    var rounds := RoundShape(k, n);
  }
}
