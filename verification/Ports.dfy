/** Port mappings: table keys, validation and the canonical list reported by the daemon. */
module Ports {
  import opened Base
  import opened Tasks

  // ---- decimal text ----

  function Digit(d: nat): char
    requires d < 10
  {
    '0' + d as char
  }

  function Decimal(n: nat): (s: string)
    ensures |s| > 0
    ensures n >= 10 <==> |s| > 1
    ensures s[0] != '-'
  {
    if n < 10 then [Digit(n)] else Decimal(n / 10) + [Digit(n % 10)]
  }

  lemma {:induction false} DecimalInjective(a: nat, b: nat)
    requires Decimal(a) == Decimal(b)
    ensures a == b
  {
    if a >= 10 {
      var s, t := Decimal(a), Decimal(b);
      assert s[..|s| - 1] == Decimal(a / 10) && t[..|t| - 1] == Decimal(b / 10);
      DecimalInjective(a / 10, b / 10);
      assert s[|s| - 1] == t[|t| - 1];
    }
  }

  function Itoa(n: int): string {
    if n < 0 then "-" + Decimal(-n) else Decimal(n)
  }

  lemma ItoaShape(n: int)
    ensures |Itoa(n)| > 0 && (Itoa(n)[0] == '-' <==> n < 0)
    ensures n < 0 ==> Itoa(n)[1..] == Decimal(-n)
    ensures n >= 0 ==> Itoa(n) == Decimal(n)
  {
  }

  lemma ItoaInjective(a: int, b: int)
    requires Itoa(a) == Itoa(b)
    ensures a == b
  {
    ItoaShape(a);
    ItoaShape(b);
    if a < 0 { DecimalInjective(-a, -b); } else { DecimalInjective(a, b); }
  }

  // ---- table keys ----

  function ToLower(s: string): (r: string)
    ensures |r| == |s|
  {
    seq(|s|, i requires 0 <= i < |s| => if 'A' <= s[i] <= 'Z' then s[i] - 'A' + 'a' else s[i])
  }

  function Proto(p: string): string {
    if p == "" then "tcp" else p
  }

  type Key = string

  /** The reservation-table key of one (protocol, host port) pair. */
  function PortKey(protocol: string, port: int): Key {
    ToLower(Proto(protocol)) + ":" + Itoa(port)
  }

  predicate SupportedProtocol(p: string) {
    Proto(p) == "tcp" || Proto(p) == "udp"
  }

  /** Distinct pinned pairs get distinct keys. */
  lemma PortKeyInjective(p: string, m: int, q: string, n: int)
    requires SupportedProtocol(p) && SupportedProtocol(q)
    ensures PortKey(p, m) == PortKey(q, n) <==> Proto(p) == Proto(q) && m == n
  {
    assert ToLower("tcp") == "tcp" && ToLower("udp") == "udp";
    var a, b := PortKey(p, m), PortKey(q, n);
    assert a[..3] == ToLower(Proto(p)) && b[..3] == ToLower(Proto(q));
    assert a[4..] == Itoa(m) && b[4..] == Itoa(n);
    if a == b { ItoaInjective(m, n); }
  }

  /** The keys of the pinned mappings, in order. */
  function PinnedKeys(ports: seq<PortMapping>): (keys: seq<Key>)
  {
    if ports == [] then []
    else
      var last := ports[|ports| - 1];
      PinnedKeys(ports[..|ports| - 1]) + (if last.hostPort != 0 then [PortKey(last.protocol, last.hostPort)] else [])
  }

  function KeySet(ports: seq<PortMapping>): set<Key> {
    set k | k in PinnedKeys(ports)
  }

  predicate Pins(m: PortMapping, k: Key) {
    m.hostPort != 0 && k == PortKey(m.protocol, m.hostPort)
  }

  lemma PinnedKeysSnoc(front: seq<PortMapping>, last: PortMapping, k: Key)
    ensures k in PinnedKeys(front + [last]) <==> k in PinnedKeys(front) || Pins(last, k)
  {
  }

  lemma {:induction false} KeyHasMapping(ports: seq<PortMapping>, k: Key) returns (m: PortMapping)
    requires k in PinnedKeys(ports)
    ensures m in ports && Pins(m, k)
  {
    var front, last := ports[..|ports| - 1], ports[|ports| - 1];
    assert ports == front + [last];
    PinnedKeysSnoc(front, last, k);
    if Pins(last, k) {
      m := last;
    } else {
      m := KeyHasMapping(front, k);
    }
  }

  lemma {:induction false} MappingHasKey(ports: seq<PortMapping>, i: nat, k: Key)
    requires i < |ports| && Pins(ports[i], k)
    ensures k in PinnedKeys(ports)
  {
    var front, last := ports[..|ports| - 1], ports[|ports| - 1];
    assert ports == front + [last];
    PinnedKeysSnoc(front, last, k);
    if i < |front| { MappingHasKey(front, i, k); }
  }

  /** What `KeySet` holds: exactly the keys of the mappings whose host port is pinned. */
  lemma KeySetMeaning(ports: seq<PortMapping>, k: Key)
    ensures k in KeySet(ports) <==> exists m :: m in ports && Pins(m, k)
  {
    if k in KeySet(ports) {
      var m := KeyHasMapping(ports, k);
    }
    if m :| m in ports && Pins(m, k) {
      var i :| 0 <= i < |ports| && ports[i] == m;
      MappingHasKey(ports, i, k);
    }
  }

  /** requestedPortKeys: the loop that collects the keys. */
  method RequestedPortKeys(t: Task) returns (keys: seq<Key>)
    ensures keys == PinnedKeys(t.ports)
  {
    keys := [];
    for i := 0 to |t.ports|
      invariant keys == PinnedKeys(t.ports[..i])
    {
      var pm := t.ports[i];
      assert t.ports[..i + 1][..i] == t.ports[..i];
      if pm.hostPort != 0 {
        keys := keys + [PortKey(pm.protocol, pm.hostPort)];
      }
    }
    assert t.ports[..|t.ports|] == t.ports;
  }

  predicate HasPinnedHostPorts(ports: seq<PortMapping>) {
    exists i :: 0 <= i < |ports| && ports[i].hostPort != 0
  }

  lemma {:induction false} PinnedIffKeys(ports: seq<PortMapping>)
    ensures HasPinnedHostPorts(ports) <==> KeySet(ports) != {}
    ensures HasPinnedHostPorts(ports) <==> PinnedKeys(ports) != []
  {
    if ports != [] {
      var front := ports[..|ports| - 1];
      PinnedIffKeys(front);
      assert forall i :: 0 <= i < |front| ==> front[i] == ports[i];
    }
    if PinnedKeys(ports) != [] { assert PinnedKeys(ports)[0] in KeySet(ports); }
  }

  // ---- validation ----

  datatype PortError =
    BadContainerPort | BadHostPort | SctpUnsupported | BadProtocol | DuplicateContainerPort | DuplicateHostPort

  /** What is wrong with mapping `i`, looking only at it and the mappings before it. */
  function Offence(ports: seq<PortMapping>, i: nat): Option<PortError>
    requires i < |ports|
  {
    var m := ports[i];
    if m.containerPort < 1 || m.containerPort > 65535 then Some(BadContainerPort)
    else if m.hostPort < 0 || m.hostPort > 65535 then Some(BadHostPort)
    else if m.protocol == "sctp" then Some(SctpUnsupported)
    else if !SupportedProtocol(m.protocol) then Some(BadProtocol)
    else if exists j :: 0 <= j < i && ports[j].containerPort == m.containerPort && Proto(ports[j].protocol) == Proto(m.protocol)
      then Some(DuplicateContainerPort)
    else if m.hostPort != 0 && exists j :: 0 <= j < i && ports[j].hostPort == m.hostPort && Proto(ports[j].protocol) == Proto(m.protocol)
      then Some(DuplicateHostPort)
    else None
  }

  predicate ValidPorts(ports: seq<PortMapping>) {
    forall i :: 0 <= i < |ports| ==> Offence(ports, i) == None
  }

  /** Task validation; `extrasOk` says whether its environment and security options are valid. */
  predicate ValidTask(t: Task, extrasOk: bool) {
    ValidPorts(t.ports) && ValidPolicy(t.policy) && extrasOk && t.timeout >= 0 && t.maxRestarts >= 0
  }

  predicate FirstOffence(ports: seq<PortMapping>, i: int, err: Option<PortError>) {
    0 <= i < |ports| && Offence(ports, i) == err && forall j :: 0 <= j < i ==> Offence(ports, j) == None
  }

  /** Port mappings are valid if and only if each is in range and of a supported protocol, and no two share a
      container port and protocol, or a pinned host port and protocol; no protocol means tcp. */
  lemma ValidPortsIff(ports: seq<PortMapping>)
    ensures ValidPorts(ports) <==>
            && (forall m :: m in ports ==>
                  1 <= m.containerPort <= 65535 && 0 <= m.hostPort <= 65535 && m.protocol in {"", "tcp", "udp"})
            && (forall i, j :: 0 <= j < i < |ports| && Proto(ports[j].protocol) == Proto(ports[i].protocol) ==>
                  && ports[j].containerPort != ports[i].containerPort
                  && (ports[i].hostPort != 0 ==> ports[j].hostPort != ports[i].hostPort))
  {
    if ValidPorts(ports) {
      forall i, j | 0 <= j < i < |ports| && Proto(ports[j].protocol) == Proto(ports[i].protocol)
        ensures ports[j].containerPort != ports[i].containerPort && (ports[i].hostPort != 0 ==> ports[j].hostPort != ports[i].hostPort)
      {
        assert Offence(ports, i) == None;
      }
      forall m | m in ports
        ensures 1 <= m.containerPort <= 65535 && 0 <= m.hostPort <= 65535 && m.protocol in {"", "tcp", "udp"}
      {
        var i :| 0 <= i < |ports| && ports[i] == m;
        assert Offence(ports, i) == None;
      }
    }
  }

  lemma ValidTaskIff(t: Task, extrasOk: bool)
    ensures ValidTask(t, extrasOk) <==>
            && ValidPorts(t.ports) && t.policy in {"", "no", "always", "on-failure", "unless-stopped"} && extrasOk
            && t.timeout >= 0 && t.maxRestarts >= 0
  {
  }

  function ContainerPairs(ports: seq<PortMapping>, n: nat): set<(int, string)>
    requires n <= |ports|
  {
    set j | 0 <= j < n :: (ports[j].containerPort, Proto(ports[j].protocol))
  }

  function HostKey(m: PortMapping): string {
    Proto(m.protocol) + ":" + Itoa(m.hostPort)
  }

  function HostKeys(ports: seq<PortMapping>, n: nat): set<string>
    requires n <= |ports|
  {
    set j | 0 <= j < n && ports[j].hostPort != 0 :: HostKey(ports[j])
  }

  /** Validation reports the first offence, and nothing exactly when every mapping is fine. */
  method ValidatePortMappings(ports: seq<PortMapping>) returns (err: Option<PortError>)
    ensures err == None <==> ValidPorts(ports)
    ensures err.Some? ==> exists i :: FirstOffence(ports, i, err)
  {
    var containerPorts: set<(int, string)> := {};
    var hostPorts: set<string> := {};
    for i := 0 to |ports|
      invariant forall j :: 0 <= j < i ==> Offence(ports, j) == None
      invariant containerPorts == ContainerPairs(ports, i)
      invariant hostPorts == HostKeys(ports, i)
    {
      var found := CheckMapping(ports, i, containerPorts, hostPorts);
      if found.Some? {
        assert FirstOffence(ports, i, found);
        return found;
      }
      var pm := ports[i];
      SetsStep(ports, i);
      containerPorts := containerPorts + {(pm.containerPort, Proto(pm.protocol))};
      if pm.hostPort != 0 {
        hostPorts := hostPorts + {HostKey(pm)};
      }
    }
    return None;
  }

  lemma SetsStep(ports: seq<PortMapping>, i: nat)
    requires i < |ports|
    ensures ContainerPairs(ports, i + 1) == ContainerPairs(ports, i) + {(ports[i].containerPort, Proto(ports[i].protocol))}
    ensures HostKeys(ports, i + 1) ==
            if ports[i].hostPort != 0 then HostKeys(ports, i) + {HostKey(ports[i])} else HostKeys(ports, i)
  {
  }

  /** One pass of the validation loop, against what the earlier passes collected. */
  method CheckMapping(ports: seq<PortMapping>, i: nat, containerPorts: set<(int, string)>, hostPorts: set<string>)
    returns (err: Option<PortError>)
    requires i < |ports|
    requires forall j :: 0 <= j < i ==> Offence(ports, j) == None
    requires containerPorts == ContainerPairs(ports, i) && hostPorts == HostKeys(ports, i)
    ensures err == Offence(ports, i)
  {
    var pm := ports[i];
    if pm.containerPort < 1 || pm.containerPort > 65535 {
      return Some(BadContainerPort);
    }
    if pm.hostPort < 0 || pm.hostPort > 65535 {
      return Some(BadHostPort);
    }
    var proto := Proto(pm.protocol);
    if proto == "sctp" {
      return Some(SctpUnsupported);
    }
    if proto != "tcp" && proto != "udp" {
      return Some(BadProtocol);
    }
    if (pm.containerPort, proto) in containerPorts {
      return Some(DuplicateContainerPort);
    }
    if pm.hostPort != 0 {
      HostKeyMeaning(ports, i);
      if HostKey(pm) in hostPorts {
        return Some(DuplicateHostPort);
      }
    }
    return None;
  }

  /** An earlier mapping produced the same host key exactly when it pinned the same port and protocol. */
  lemma HostKeyMeaning(ports: seq<PortMapping>, i: nat)
    requires i < |ports| && ports[i].hostPort != 0 && SupportedProtocol(ports[i].protocol)
    requires forall j :: 0 <= j < i ==> Offence(ports, j) == None
    ensures HostKey(ports[i]) in HostKeys(ports, i) <==>
            exists j :: 0 <= j < i && ports[j].hostPort == ports[i].hostPort && Proto(ports[j].protocol) == Proto(ports[i].protocol)
  {
    LowerKey(ports[i].protocol, ports[i].hostPort);
    forall j | 0 <= j < i
      ensures HostKey(ports[i]) == HostKey(ports[j])
         <==> ports[j].hostPort == ports[i].hostPort && Proto(ports[j].protocol) == Proto(ports[i].protocol)
    {
      assert Offence(ports, j) == None;
      LowerKey(ports[j].protocol, ports[j].hostPort);
      PortKeyInjective(ports[i].protocol, ports[i].hostPort, ports[j].protocol, ports[j].hostPort);
    }
  }

  lemma LowerKey(p: string, n: int)
    requires SupportedProtocol(p)
    ensures PortKey(p, n) == Proto(p) + ":" + Itoa(n)
  {
  }

  predicate Distinct<T(==)>(s: seq<T>) {
    forall i, j :: 0 <= i < j < |s| ==> s[i] != s[j]
  }

  ghost function PinnedPairs(ports: seq<PortMapping>): set<(string, int)> {
    set m | m in ports && m.hostPort != 0 :: (Proto(m.protocol), m.hostPort)
  }

  /** For validated mappings the table keys are in bijection with the pinned (protocol, port)
      pairs: no key is claimed twice, and a key belongs to exactly one pair. */
  lemma KeysMatchPairs(ports: seq<PortMapping>)
    requires ValidPorts(ports)
    ensures Distinct(PinnedKeys(ports))
    ensures |PinnedKeys(ports)| == |PinnedPairs(ports)|
    ensures forall p, n :: SupportedProtocol(p) ==> (PortKey(p, n) in KeySet(ports) <==> (Proto(p), n) in PinnedPairs(ports))
  {
    KeysDistinct(ports);
    forall p, n | SupportedProtocol(p)
      ensures PortKey(p, n) in KeySet(ports) <==> (Proto(p), n) in PinnedPairs(ports)
    {
      KeyIffPair(ports, p, n);
    }
  }

  lemma {:induction false} KeysDistinct(ports: seq<PortMapping>)
    requires ValidPorts(ports)
    ensures Distinct(PinnedKeys(ports))
    ensures |PinnedKeys(ports)| == |PinnedPairs(ports)|
  {
    if ports != [] {
      var i := |ports| - 1;
      var front, m := ports[..i], ports[i];
      assert ports == front + [m];
      PrefixValid(ports);
      KeysDistinct(front);
      PairsSnoc(front, m);
      if m.hostPort != 0 {
        LastPairIsNew(ports);
        AppendNew(PinnedKeys(front), PortKey(m.protocol, m.hostPort));
      }
    }
  }

  lemma PairsSnoc(front: seq<PortMapping>, m: PortMapping)
    ensures PinnedPairs(front + [m]) ==
            PinnedPairs(front) + (if m.hostPort != 0 then {(Proto(m.protocol), m.hostPort)} else {})
  {
  }

  lemma AppendNew(keys: seq<Key>, k: Key)
    requires Distinct(keys) && k !in keys
    ensures Distinct(keys + [k])
  {
  }

  lemma PrefixValid(ports: seq<PortMapping>)
    requires ports != [] && ValidPorts(ports)
    ensures ValidPorts(ports[..|ports| - 1])
  {
    var front := ports[..|ports| - 1];
    forall j | 0 <= j < |front| ensures Offence(front, j) == None { assert Offence(ports, j) == None; }
  }

  lemma LastPairIsNew(ports: seq<PortMapping>)
    requires ports != [] && ValidPorts(ports) && ports[|ports| - 1].hostPort != 0
    ensures var front, m := ports[..|ports| - 1], ports[|ports| - 1];
            (Proto(m.protocol), m.hostPort) !in PinnedPairs(front) && PortKey(m.protocol, m.hostPort) !in PinnedKeys(front)
  {
    var i := |ports| - 1;
    var front, m := ports[..i], ports[i];
    assert Offence(ports, i) == None;
    PrefixValid(ports);
    KeyIffPair(front, m.protocol, m.hostPort);
    assert (Proto(m.protocol), m.hostPort) !in PinnedPairs(front);
    assert PortKey(m.protocol, m.hostPort) !in KeySet(front);
  }

  lemma KeyIffPair(ports: seq<PortMapping>, p: string, n: int)
    requires ValidPorts(ports) && SupportedProtocol(p)
    ensures PortKey(p, n) in KeySet(ports) <==> (Proto(p), n) in PinnedPairs(ports)
  {
    KeySetMeaning(ports, PortKey(p, n));
    forall m | m in ports ensures Pins(m, PortKey(p, n)) <==> m.hostPort != 0 && Proto(p) == Proto(m.protocol) && n == m.hostPort {
      var j :| 0 <= j < |ports| && ports[j] == m;
      assert Offence(ports, j) == None;
      PortKeyInjective(p, n, m.protocol, m.hostPort);
    }
  }
}
