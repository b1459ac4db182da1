/** Resolving a task by UUID or name (task/resolve.go) against the manager's records. */
module References {
  import opened Base
  import opened Tasks
  import opened Stores
  import opened ManagerModel
  import opened ManagerSafety

  function NamedAt(tasks: seq<Task>, name: string): set<nat> {
    set i: nat | i < |tasks| && tasks[i].name == name
  }

  /** A UUID finds the record with that id; any other text finds the record of that name when there is
      exactly one, and is ambiguous when there are several. */
  method ResolveRef(tasks: seq<Task>, ref: string, parse: string -> Option<Id>)
    returns (match_: Option<Task>, found: bool, ambiguous: bool)
    ensures found ==> match_.Some? && match_.value in tasks
    ensures parse(ref).Some? ==> !ambiguous && (found <==> exists t :: t in tasks && t.id == parse(ref).value)
    ensures parse(ref).Some? && found ==> match_.value.id == parse(ref).value
    ensures parse(ref) == None ==> (found <==> |NamedAt(tasks, ref)| == 1) && (ambiguous <==> |NamedAt(tasks, ref)| > 1)
    ensures parse(ref) == None && found ==> match_.value.name == ref
  {
    match_ := None;
    var id := parse(ref);
    if id.Some? {
      for i := 0 to |tasks|
        invariant forall j :: 0 <= j < i ==> tasks[j].id != id.value
      {
        if tasks[i].id == id.value {
          return Some(tasks[i]), true, false;
        }
      }
      return None, false, false;
    }
    var count := 0;
    for i := 0 to |tasks|
      invariant count == |NamedAt(tasks[..i], ref)|
      invariant count > 0 ==> match_.Some? && match_.value in tasks && match_.value.name == ref
    {
      NamedAtStep(tasks, i, ref);
      if tasks[i].name == ref {
        match_ := Some(tasks[i]);
        count := count + 1;
      }
    }
    assert tasks[..|tasks|] == tasks;
    return match_, count == 1, count > 1;
  }

  lemma NamedAtStep(tasks: seq<Task>, i: nat, name: string)
    requires i < |tasks|
    ensures |NamedAt(tasks[..i + 1], name)| == |NamedAt(tasks[..i], name)| + (if tasks[i].name == name then 1 else 0)
  {
    assert NamedAt(tasks[..i + 1], name) == NamedAt(tasks[..i], name) + (if tasks[i].name == name then {i} else {});
  }

  /** The answer `ResolveRef` gives. */
  ghost predicate Resolves(tasks: seq<Task>, ref: string, parse: string -> Option<Id>, t: Task) {
    if parse(ref).Some? then t in tasks && t.id == parse(ref).value && forall u :: u in tasks && u.id == t.id ==> u == t
    else exists i :: 0 <= i < |tasks| && tasks[i] == t && NamedAt(tasks, ref) == {i}
  }

  /** In every reachable state the name a record holds resolves to exactly that record. */
  lemma HeldNameResolves(cfg: Config, m: MState, id: Id)
    requires Inv(cfg, m) && id in m.tasks && m.tasks[id].name != ""
    ensures Resolves(Listed(m.tasks), m.tasks[id].name, cfg.parse, m.tasks[id])
  {
    var name := m.tasks[id].name;
    ListedMembers(m.tasks, id);
    var ids := Ascending(m.tasks.Keys);
    var i :| 0 <= i < |Listed(m.tasks)| && ids[i] == id && Listed(m.tasks)[i] == m.tasks[id];
    forall j | j in NamedAt(Listed(m.tasks), name) ensures j == i { assert Listed(m.tasks)[j] == m.tasks[ids[j]]; NoRepeats(m.tasks, i, j); }
    assert NamedAt(Listed(m.tasks), name) == {i};
  }

  lemma NoRepeats(tasks: map<Id, Task>, i: nat, j: nat)
    requires i < |Listed(tasks)| && j < |Listed(tasks)| && Ascending(tasks.Keys)[i] == Ascending(tasks.Keys)[j]
    ensures i == j
  {
    AscendingIsSorted(tasks.Keys);
  }

  /** So does the text of any record's id, provided printing is undone by parsing. */
  lemma PrintedIdResolves(cfg: Config, m: MState, id: Id, text: string)
    requires Inv(cfg, m) && id in m.tasks && cfg.parse(text) == Some(id)
    ensures Resolves(Listed(m.tasks), text, cfg.parse, m.tasks[id])
  {
    ListedMembers(m.tasks, id);
    forall u | u in Listed(m.tasks) && u.id == id ensures u == m.tasks[id] {
      var j :| 0 <= j < |Listed(m.tasks)| && Listed(m.tasks)[j] == u;
      assert u == m.tasks[Ascending(m.tasks.Keys)[j]];
    }
  }

  lemma HeldRefResolves(cfg: Config, m: MState, id: Id, ref: string)
    requires Inv(cfg, m) && id in m.tasks && ref != "" && (m.tasks[id].name == ref || cfg.parse(ref) == Some(id))
    ensures Resolves(Listed(m.tasks), ref, cfg.parse, m.tasks[id])
  {
    if m.tasks[id].name == ref { HeldNameResolves(cfg, m, id); } else { PrintedIdResolves(cfg, m, id, ref); }
  }

  /** What `ResolveRef` promises singles out the record that `Resolves` names. */
  lemma ResolvedIsMatch(tasks: seq<Task>, ref: string, parse: string -> Option<Id>, t: Task, match_: Option<Task>, found: bool)
    requires Resolves(tasks, ref, parse, t)
    requires found ==> match_.Some? && match_.value in tasks
    requires parse(ref).Some? ==> (found <==> exists u :: u in tasks && u.id == parse(ref).value)
    requires parse(ref).Some? && found ==> match_.value.id == parse(ref).value
    requires parse(ref) == None ==> (found <==> |NamedAt(tasks, ref)| == 1)
    requires parse(ref) == None && found ==> match_.value.name == ref
    ensures found && match_ == Some(t)
  {
    if parse(ref) == None {
      var i :| 0 <= i < |tasks| && tasks[i] == t && NamedAt(tasks, ref) == {i};
      assert |{i}| == 1;
      var j :| 0 <= j < |tasks| && tasks[j] == match_.value;
      assert j in NamedAt(tasks, ref);
    }
  }

  lemma ListedInValues(tasks: map<Id, Task>, t: Task)
    requires t in Listed(tasks)
    ensures t in tasks.Values
  {
    var i :| 0 <= i < |Listed(tasks)| && Listed(tasks)[i] == t;
    assert tasks[Ascending(tasks.Keys)[i]] in tasks.Values;
  }

  /** No non-empty reference is ever ambiguous. */
  lemma NeverAmbiguous(cfg: Config, m: MState, ref: string)
    requires Inv(cfg, m) && ref != ""
    ensures |NamedAt(Listed(m.tasks), ref)| <= 1
  {
    var hits := NamedAt(Listed(m.tasks), ref);
    if hits != {} {
      var i :| i in hits;
      var ids := Ascending(m.tasks.Keys);
      forall j | j in hits ensures j == i {
        assert Listed(m.tasks)[j] == m.tasks[ids[j]] && Listed(m.tasks)[i] == m.tasks[ids[i]];
        if ids[i] == ids[j] { NoRepeats(m.tasks, i, j); }
      }
      assert hits == {i};
    }
  }
}
