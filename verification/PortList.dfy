/** The canonical list of published ports (PortMappingsFromPortMap in task/task.go). */
module PortList {
  import opened Base
  import opened Tasks

  // ---- strconv.Atoi on a 64-bit int ----

  function Digits(s: string): Option<nat> {
    if s == "" then None
    else if !('0' <= s[|s| - 1] <= '9') then None
    else
      var d := (s[|s| - 1] - '0') as nat;
      if |s| == 1 then Some(d)
      else match Digits(s[..|s| - 1])
           case None => None
           case Some(n) => Some(10 * n + d)
  }

  function Atoi(s: string): Option<int> {
    if s == "" then None
    else
      var signed := s[0] == '-' || s[0] == '+';
      match Digits(if signed then s[1..] else s)
      case None => None
      case Some(n) =>
        var v: int := if s[0] == '-' then 0 - n else n;
        if -0x8000_0000_0000_0000 <= v < 0x8000_0000_0000_0000 then Some(v) else None
  }

  // ---- the order of the list ----

  predicate StringLess(s: string, t: string) {
    t != "" && (s == "" || s[0] < t[0] || (s[0] == t[0] && StringLess(s[1..], t[1..])))
  }

  lemma {:induction false} StringOrder(s: string, t: string)
    ensures StringLess(s, t) || s == t || StringLess(t, s)
    ensures !(StringLess(s, t) && StringLess(t, s))
    decreases |s| + |t|
  {
    if s != "" && t != "" {
      StringOrder(s[1..], t[1..]);
      if s[0] == t[0] && s[1..] == t[1..] {
        assert s == [s[0]] + s[1..] && t == [t[0]] + t[1..];
      }
    }
  }

  lemma {:induction false} StringLessTransitive(s: string, t: string, u: string)
    requires StringLess(s, t) && StringLess(t, u)
    ensures StringLess(s, u)
  {
    if s != "" && s[0] == t[0] && t[0] == u[0] {
      StringLessTransitive(s[1..], t[1..], u[1..]);
    }
  }

  /** By container port, then host port, then protocol. */
  predicate Less(a: PortMapping, b: PortMapping) {
    a.containerPort < b.containerPort ||
    (a.containerPort == b.containerPort &&
     (a.hostPort < b.hostPort || (a.hostPort == b.hostPort && StringLess(a.protocol, b.protocol))))
  }

  lemma LessIsStrictOrder(a: PortMapping, b: PortMapping)
    ensures Less(a, b) || a == b || Less(b, a)
    ensures !(Less(a, b) && Less(b, a)) && !Less(a, a)
  {
    StringOrder(a.protocol, b.protocol);
    StringOrder(a.protocol, a.protocol);
  }

  lemma LessTransitive(a: PortMapping, b: PortMapping, c: PortMapping)
    requires Less(a, b) && Less(b, c)
    ensures Less(a, c)
  {
    if a.containerPort == b.containerPort == c.containerPort && a.hostPort == b.hostPort == c.hostPort {
      StringLessTransitive(a.protocol, b.protocol, c.protocol);
    }
  }

  predicate Increasing(s: seq<PortMapping>) {
    forall i, j :: 0 <= i < j < |s| ==> Less(s[i], s[j])
  }

  predicate Sorted(s: seq<PortMapping>) {
    forall i, j :: 0 <= i < j < |s| ==> s[i] == s[j] || Less(s[i], s[j])
  }

  // ---- sorting and compaction ----

  function Insert(m: PortMapping, s: seq<PortMapping>): seq<PortMapping> {
    if s == [] then [m]
    else if Less(s[0], m) then [s[0]] + Insert(m, s[1..])
    else [m] + s
  }

  lemma {:induction false} InsertSorted(m: PortMapping, s: seq<PortMapping>)
    requires Sorted(s)
    ensures Sorted(Insert(m, s))
    ensures forall x :: x in Insert(m, s) <==> x == m || x in s
  {
    var r := Insert(m, s);
    if s == [] {
    } else if Less(s[0], m) {
      InsertSorted(m, s[1..]);
      var rest := Insert(m, s[1..]);
      assert s == [s[0]] + s[1..] && r == [s[0]] + rest;
      forall j | 0 < j < |r| ensures r[0] == r[j] || Less(r[0], r[j]) {
        assert rest[j - 1] in rest;
        if rest[j - 1] != m {
          var k :| 0 <= k < |s[1..]| && s[1..][k] == rest[j - 1];
          assert s[k + 1] == r[j];
        }
      }
    } else {
      assert s == [s[0]] + s[1..] && r == [m] + s;
      LessIsStrictOrder(m, s[0]);
      forall j | 0 < j < |r| ensures r[0] == r[j] || Less(r[0], r[j]) {
        assert r[j] == s[j - 1];
        if m != s[0] && s[j - 1] != s[0] { LessTransitive(m, s[0], s[j - 1]); }
      }
    }
  }

  function Sort(s: seq<PortMapping>): seq<PortMapping> {
    if s == [] then [] else Insert(s[0], Sort(s[1..]))
  }

  lemma {:induction false} SortSorts(s: seq<PortMapping>)
    ensures Sorted(Sort(s))
    ensures forall x :: x in Sort(s) <==> x in s
  {
    if s != [] {
      SortSorts(s[1..]);
      InsertSorted(s[0], Sort(s[1..]));
      assert s == [s[0]] + s[1..];
    }
  }

  lemma AppendLargest(r: seq<PortMapping>, m: PortMapping)
    requires Increasing(r) && r != [] && Less(r[|r| - 1], m)
    ensures Increasing(r + [m])
  {
    forall k | 0 <= k < |r| ensures Less(r[k], m) {
      if k < |r| - 1 { LessTransitive(r[k], r[|r| - 1], m); }
    }
  }

  /** slices.CompactFunc with equality: one element per run of equal neighbours. */
  method Compact(s: seq<PortMapping>) returns (r: seq<PortMapping>)
    requires Sorted(s)
    ensures Increasing(r)
    ensures forall x :: x in r <==> x in s
  {
    r := [];
    for i := 0 to |s|
      invariant Increasing(r)
      invariant forall x :: x in r <==> x in s[..i]
      invariant if i == 0 then r == [] else r != [] && r[|r| - 1] == s[i - 1]
    {
      assert s[..i + 1] == s[..i] + [s[i]];
      if i == 0 || s[i] != s[i - 1] {
        if i > 0 {
          AppendLargest(r, s[i]);
        }
        r := r + [s[i]];
      }
    }
    assert s[..|s|] == s;
  }

  // ---- the conversion ----

  datatype Port = Port(num: int, proto: string)

  /** The parsable bindings of the daemon's port map. */
  ghost predicate Published(ports: map<Port, seq<string>>, m: PortMapping) {
    exists p, i :: p in ports && 0 <= i < |ports[p]| && Atoi(ports[p][i]) == Some(m.hostPort) &&
                   m.containerPort == p.num && m.protocol == p.proto
  }

  ghost predicate PublishedBy(p: Port, bindings: seq<string>, m: PortMapping) {
    exists i :: 0 <= i < |bindings| && Atoi(bindings[i]) == Some(m.hostPort) &&
                m.containerPort == p.num && m.protocol == p.proto
  }

  /** The list is strictly increasing and holds exactly the parsable bindings. */
  method PortMappingsFromPortMap(ports: map<Port, seq<string>>) returns (out: seq<PortMapping>)
    ensures Increasing(out)
    ensures forall m :: m in out <==> Published(ports, m)
  {
    out := [];
    var remaining := ports.Keys;
    while remaining != {}
      invariant remaining <= ports.Keys
      invariant forall m :: m in out <==> exists p :: p in ports && p !in remaining && PublishedBy(p, ports[p], m)
      decreases |remaining|
    {
      var p :| p in remaining;
      var found := BindingsOf(p, ports[p]);
      remaining := remaining - {p};
      out := out + found;
    }
    SortSorts(out);
    out := Compact(Sort(out));
  }

  method BindingsOf(p: Port, bindings: seq<string>) returns (out: seq<PortMapping>)
    ensures forall m :: m in out <==> PublishedBy(p, bindings, m)
  {
    out := [];
    for i := 0 to |bindings|
      invariant forall m :: m in out <==> PublishedBy(p, bindings[..i], m)
    {
      assert forall m :: PublishedBy(p, bindings[..i + 1], m) <==>
             PublishedBy(p, bindings[..i], m) ||
             (Atoi(bindings[i]) == Some(m.hostPort) && m.containerPort == p.num && m.protocol == p.proto)
      by {
        assert bindings[..i + 1][i] == bindings[i];
        assert forall k :: 0 <= k < i ==> bindings[..i + 1][k] == bindings[..i][k];
      }
      match Atoi(bindings[i]) {
        case None =>
        case Some(h) => out := out + [PortMapping(p.num, h, p.proto)];
      }
    }
    assert bindings[..|bindings|] == bindings;
  }

  /** Two increasing lists with the same members are the same list, so the result above is one
      function of the map, whatever order its keys are visited in. */
  lemma {:induction false} IncreasingListUnique(a: seq<PortMapping>, b: seq<PortMapping>)
    requires Increasing(a) && Increasing(b)
    requires forall m :: m in a <==> m in b
    ensures a == b
  {
    if a != [] { assert a[0] in b; }
    if b != [] { assert b[0] in a; }
    if a != [] {
      HeadsAgree(a, b);
      forall m ensures m in a[1..] <==> m in b[1..] {
        TailMembers(a, m);
        TailMembers(b, m);
      }
      IncreasingListUnique(a[1..], b[1..]);
      assert a == [a[0]] + a[1..] && b == [b[0]] + b[1..];
    }
  }

  lemma HeadsAgree(a: seq<PortMapping>, b: seq<PortMapping>)
    requires a != [] && b != [] && Increasing(a) && Increasing(b)
    requires forall m :: m in a <==> m in b
    ensures a[0] == b[0]
  {
    assert a[0] in b && b[0] in a;
    var i :| 0 <= i < |b| && b[i] == a[0];
    var j :| 0 <= j < |a| && a[j] == b[0];
    LessIsStrictOrder(a[0], b[0]);
  }

  lemma TailMembers(a: seq<PortMapping>, m: PortMapping)
    requires a != [] && Increasing(a)
    ensures m in a[1..] <==> m in a && m != a[0]
  {
    if m in a[1..] {
      var i :| 0 <= i < |a[1..]| && a[1..][i] == m;
      assert Less(a[0], a[i + 1]);
      LessIsStrictOrder(a[0], m);
    }
  }
}
