/** The messages of runtime/v1/topology.proto, and the keys under which a service can be called. */
module Topology {
  import opened Wrappers

  datatype ServiceState = StateUnspecified | Registered | Idle | Active | Stale | Dead
  datatype ConnectionState = ConnUnspecified | ConnIdle | ConnActive | ConnFailed
  datatype HealthState = HealthUnknown | Starting | Healthy | Degraded | Unhealthy
  datatype ActivityType = ActivityUnspecified | RequestSent | ResponseReceived | ActivityError

  datatype UpdateType =
    | UpdateUnspecified | SnapshotUpdate
    | NodeAdded | NodeUpdated | NodeRemoved
    | EdgeAdded | EdgeUpdated | EdgeRemoved

  datatype ServiceMetadata = ServiceMetadata(
    region: Option<string>,
    environment: Option<string>,
    team: Option<string>,
    versionHash: Option<string>,
    serviceInterface: Option<string>,
    serviceRole: Option<string>,
    programName: Option<string>)

  datatype ServiceNode = ServiceNode(
    serviceId: string,
    serviceName: string,
    serviceType: int,
    language: int,
    version: Option<string>,
    address: Option<string>,
    host: Option<string>,
    metadata: Option<ServiceMetadata>,
    state: ServiceState,
    lastHeartbeatMs: int,
    lastActivityMs: int,
    health: HealthState)

  datatype ServiceEdge = ServiceEdge(
    sourceServiceId: string,
    targetService: string,
    state: ConnectionState,
    lastActivityMs: int,
    totalRequests: int,
    totalErrors: int,
    avgLatencyMs: real,
    rps: real)

  datatype TopologySnapshot = TopologySnapshot(
    nodes: seq<ServiceNode>,
    edges: seq<ServiceEdge>,
    timestampMs: int)

  datatype TopologyUpdate = TopologyUpdate(
    kind: UpdateType,
    node: Option<ServiceNode>,
    edge: Option<ServiceEdge>,
    snapshot: Option<TopologySnapshot>)

  function OfNode(kind: UpdateType, node: ServiceNode): TopologyUpdate {
    TopologyUpdate(kind, Some(node), None, None)
  }

  function OfEdge(kind: UpdateType, edge: ServiceEdge): TopologyUpdate {
    TopologyUpdate(kind, None, Some(edge), None)
  }

  function OfSnapshot(snapshot: TopologySnapshot): TopologyUpdate {
    TopologyUpdate(SnapshotUpdate, None, None, Some(snapshot))
  }

  datatype RegisterRequest = RegisterRequest(
    serviceName: string,
    serviceType: int,
    language: int,
    version: Option<string>,
    address: Option<string>,
    host: Option<string>,
    metadata: Option<ServiceMetadata>)

  datatype HeartbeatRequest = HeartbeatRequest(serviceId: string, health: Option<HealthState>)

  datatype ActivityEvent = ActivityEvent(
    serviceId: string,
    targetService: string,
    kind: ActivityType,
    latencyMs: Option<int>,
    success: Option<bool>,
    batchSize: Option<int>)

  function Max(a: int, b: int): int {
    if a < b then b else a
  }

  function Min(a: int, b: int): int {
    if a < b then a else b
  }

  // ----- keys -----

  /** White space and line terminators, as String.prototype.trim strips them. */
  predicate IsSpace(c: char) {
    || c == ' ' || '\U{0009}' <= c <= '\U{000D}'
    || c in {'\U{00A0}', '\U{1680}', '\U{2028}', '\U{2029}', '\U{202F}', '\U{205F}', '\U{3000}', '\U{FEFF}'}
    || '\U{2000}' <= c <= '\U{200A}'
  }

  function TrimStart(s: string): string {
    if s != [] && IsSpace(s[0]) then TrimStart(s[1..]) else s
  }

  function TrimEnd(s: string): string {
    if s != [] && IsSpace(s[|s| - 1]) then TrimEnd(s[..|s| - 1]) else s
  }

  /** An absent field and a blank one are both falsy in the source, hence both empty here. */
  function Trimmed(field: Option<string>): string {
    match field
    case None => ""
    case Some(s) => TrimEnd(TrimStart(s))
  }

  function ServiceKey(node: ServiceNode): string {
    var iface := if node.metadata.Some? then Trimmed(node.metadata.value.serviceInterface) else "";
    var role := if node.metadata.Some? then Trimmed(node.metadata.value.serviceRole) else "";
    if iface == "" then node.serviceName
    else if role == "" then iface
    else iface + "::" + role
  }

  /** Every name under which an edge may refer to the service. */
  function ServiceKeys(node: ServiceNode): set<string> {
    var key := ServiceKey(node);
    var address := Trimmed(node.address);
    {node.serviceName, key}
    + (if address == "" then {} else {address})
    + (if address == "" || key == "" then {} else {key + "@" + address})
  }

  predicate AllSpace(s: string) {
    forall i :: 0 <= i < |s| ==> IsSpace(s[i])
  }

  lemma {:induction false} TrimStartCuts(s: string) returns (n: nat)
    ensures n <= |s| && TrimStart(s) == s[n..] && AllSpace(s[..n])
    ensures n < |s| ==> !IsSpace(s[n])
  {
    n := 0;
    if s != [] && IsSpace(s[0]) {
      var m := TrimStartCuts(s[1..]);
      n := m + 1;
      assert s[..n] == [s[0]] + s[1..][..m];
    }
  }

  lemma {:induction false} TrimEndCuts(s: string) returns (n: nat)
    ensures n <= |s| && TrimEnd(s) == s[..n] && AllSpace(s[n..])
    ensures n > 0 ==> !IsSpace(s[n - 1])
  {
    n := |s|;
    if s != [] && IsSpace(s[|s| - 1]) {
      n := TrimEndCuts(s[..|s| - 1]);
      assert s[n..] == s[..|s| - 1][n..] + [s[|s| - 1]];
    }
  }

  /** Trimming takes white space off both ends, as much as there is, and nothing else. */
  lemma TrimmedExactly(s: string)
    ensures exists a, b :: AllSpace(a) && AllSpace(b) && s == a + Trimmed(Some(s)) + b
    ensures Trimmed(Some(s)) != [] ==>
      !IsSpace(Trimmed(Some(s))[0]) && !IsSpace(Trimmed(Some(s))[|Trimmed(Some(s))| - 1])
  {
    var n := TrimStartCuts(s);
    var m := TrimEndCuts(TrimStart(s));
    assert s == s[..n] + Trimmed(Some(s)) + TrimStart(s)[m..];
  }

  /** The names a service answers to, by what it declares about its interface, role and address. */
  lemma KeysOfService(node: ServiceNode)
    ensures
      var name, at := node.serviceName, Trimmed(node.address);
      var iface := if node.metadata == None then "" else Trimmed(node.metadata.value.serviceInterface);
      var role := if node.metadata == None then "" else Trimmed(node.metadata.value.serviceRole);
      && (iface == "" && at == "" ==> ServiceKeys(node) == {name})
      && (iface == "" && at != "" && name == "" ==> ServiceKeys(node) == {name, at})
      && (iface == "" && at != "" && name != "" ==> ServiceKeys(node) == {name, at, name + "@" + at})
      && (iface != "" && role == "" && at == "" ==> ServiceKeys(node) == {name, iface})
      && (iface != "" && role == "" && at != "" ==> ServiceKeys(node) == {name, iface, at, iface + "@" + at})
      && (iface != "" && role != "" && at == "" ==> ServiceKeys(node) == {name, iface + "::" + role})
      && (iface != "" && role != "" && at != "" ==>
            ServiceKeys(node) == {name, iface + "::" + role, at, iface + "::" + role + "@" + at})
  {
  }

  function EdgeKey(source: string, target: string): string {
    source + "::" + target
  }

  function KeyOf(edge: ServiceEdge): string {
    EdgeKey(edge.sourceServiceId, edge.targetService)
  }

  /** Two ids can produce one and the same edge key exactly when one id, followed by the
      separator, begins the other. */
  lemma EdgeKeyCollision(a: string, b: string)
    ensures (exists s: string, t: string :: EdgeKey(a, s) == EdgeKey(b, t))
       <==> a + "::" <= b + "::" || b + "::" <= a + "::"
  {
    if s: string, t: string :| EdgeKey(a, s) == EdgeKey(b, t) {
      assert a + "::" + s == b + "::" + t;
      var x, y := a + "::", b + "::";
      if |x| <= |y| {
        assert x == (x + s)[..|x|] == (y + t)[..|x|] == y[..|x|];
      } else {
        assert y == (y + t)[..|y|] == (x + s)[..|y|] == x[..|y|];
      }
    }
    if a + "::" <= b + "::" {
      var rest := (b + "::")[|a + "::"|..];
      assert EdgeKey(a, rest) == EdgeKey(b, "");
    }
    if b + "::" <= a + "::" {
      var rest := (a + "::")[|b + "::"|..];
      assert EdgeKey(a, "") == EdgeKey(b, rest);
    }
  }

  lemma SeparatorInside(a: string, b: string)
    ensures |a| < |b| && a + "::" <= b + "::" ==> ':' in b
  {
    if |a| < |b| && a + "::" <= b + "::" {
      assert b[|a|] == (b + "::")[|a|] == (a + "::")[|a|];
    }
  }

  /** For the ids the store draws (hexadecimal digits and dashes) edge keys are injective. */
  lemma EdgeKeyInjective(a: string, s: string, b: string, t: string)
    requires ':' !in a && ':' !in b
    requires EdgeKey(a, s) == EdgeKey(b, t)
    ensures a == b && s == t
  {
    EdgeKeyCollision(a, b);
    SeparatorInside(a, b);
    SeparatorInside(b, a);
    assert a == (a + "::")[..|a|] && b == (b + "::")[..|b|];
    assert s == EdgeKey(a, s)[|a| + 2..] && t == EdgeKey(b, t)[|b| + 2..];
  }
}
