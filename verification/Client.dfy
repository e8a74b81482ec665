/** The dashboard's copy of the topology, and how it folds updates into it. */
module Client {
  import opened Wrappers
  import opened Topology
  import opened KeyedLists

  // ----- applyUpdate, on lists as the source has it; `clock` stands for Date.now -----

  function IdOf(node: ServiceNode): string {
    node.serviceId
  }

  function OtherNode(node: ServiceNode): ServiceNode -> bool {
    (n: ServiceNode) => n.serviceId != node.serviceId
  }

  function NotCalling(node: ServiceNode): ServiceEdge -> bool {
    (e: ServiceEdge) => e.sourceServiceId != node.serviceId && e.targetService != node.serviceName
  }

  function OtherEdge(edge: ServiceEdge): ServiceEdge -> bool {
    (e: ServiceEdge) => KeyOf(e) != KeyOf(edge)
  }

  function RemoveNode(c: TopologySnapshot, node: ServiceNode, clock: int): TopologySnapshot {
    TopologySnapshot(Filter(c.nodes, OtherNode(node)), Filter(c.edges, NotCalling(node)), clock)
  }

  function UpsertNode(c: TopologySnapshot, node: ServiceNode, clock: int): TopologySnapshot {
    if !HasKey(c.nodes, IdOf, node.serviceId) then TopologySnapshot(c.nodes + [node], c.edges, clock)
    else TopologySnapshot(Replace(c.nodes, IdOf, node), c.edges, clock)
  }

  function RemoveEdge(c: TopologySnapshot, edge: ServiceEdge, clock: int): TopologySnapshot {
    TopologySnapshot(c.nodes, Filter(c.edges, OtherEdge(edge)), clock)
  }

  function UpsertEdge(c: TopologySnapshot, edge: ServiceEdge, clock: int): TopologySnapshot {
    if !HasKey(c.edges, KeyOf, KeyOf(edge)) then TopologySnapshot(c.nodes, c.edges + [edge], clock)
    else TopologySnapshot(c.nodes, Replace(c.edges, KeyOf, edge), clock)
  }

  function ApplyUpdate(c: TopologySnapshot, u: TopologyUpdate, clock: int): TopologySnapshot {
    if u.kind == SnapshotUpdate && u.snapshot.Some? then u.snapshot.value
    else if u.node.Some? && u.kind == NodeRemoved then RemoveNode(c, u.node.value, clock)
    else if u.node.Some? && u.kind in {NodeAdded, NodeUpdated} then UpsertNode(c, u.node.value, clock)
    else if u.edge.Some? && u.kind == EdgeRemoved then RemoveEdge(c, u.edge.value, clock)
    else if u.edge.Some? && u.kind in {EdgeAdded, EdgeUpdated} then UpsertEdge(c, u.edge.value, clock)
    else c
  }

  // ----- areSnapshotsEqual -----

  /** The comparison of nodes leaves the metadata out. */
  function Shown(node: ServiceNode): ServiceNode {
    node.(metadata := None)
  }

  predicate SameNode(left: ServiceNode, right: ServiceNode) {
    && left.serviceId == right.serviceId
    && left.serviceName == right.serviceName
    && left.serviceType == right.serviceType
    && left.language == right.language
    && left.version == right.version
    && left.address == right.address
    && left.host == right.host
    && left.state == right.state
    && left.lastHeartbeatMs == right.lastHeartbeatMs
    && left.lastActivityMs == right.lastActivityMs
    && left.health == right.health
  }

  predicate SameEdge(left: ServiceEdge, right: ServiceEdge) {
    && left.sourceServiceId == right.sourceServiceId
    && left.targetService == right.targetService
    && left.state == right.state
    && left.lastActivityMs == right.lastActivityMs
    && left.totalRequests == right.totalRequests
    && left.totalErrors == right.totalErrors
    && left.avgLatencyMs == right.avgLatencyMs
    && left.rps == right.rps
  }

  /** The early return on identical references is covered: equal copies pass every comparison below. */
  predicate SnapshotsEqual(left: TopologySnapshot, right: TopologySnapshot) {
    && |left.nodes| == |right.nodes| && |left.edges| == |right.edges|
    && var ln, rn := Index(left.nodes, IdOf), Index(right.nodes, IdOf);
    && |ln| == |rn|
    && (forall id :: id in ln ==> id in rn && SameNode(ln[id], rn[id]))
    && var le, re := Index(left.edges, KeyOf), Index(right.edges, KeyOf);
    && |le| == |re|
    && (forall k :: k in le ==> k in re && SameEdge(le[k], re[k]))
  }

  /** What the hook makes of a message: the old copy is kept when the new one looks the same. */
  function HookStep(c: TopologySnapshot, u: TopologyUpdate, clock: int): TopologySnapshot {
    var next := ApplyUpdate(c, u, clock);
    if SnapshotsEqual(c, next) then c else next
  }

  function HookFold(c: TopologySnapshot, updates: seq<TopologyUpdate>, clock: nat -> int): TopologySnapshot {
    if updates == [] then c
    else HookStep(HookFold(c, updates[..|updates| - 1], clock), updates[|updates| - 1], clock(|updates| - 1))
  }

  // ----- the copy as two maps -----

  ghost predicate WellFormed(c: TopologySnapshot) {
    DistinctBy(c.nodes, IdOf) && DistinctBy(c.edges, KeyOf)
  }

  datatype View = View(nodes: map<string, ServiceNode>, edges: map<string, ServiceEdge>)

  function ViewOf(c: TopologySnapshot): View {
    View(Index(c.nodes, IdOf), Index(c.edges, KeyOf))
  }

  /** applyUpdate on the two maps. */
  function ApplyToView(v: View, u: TopologyUpdate): View {
    if u.node.Some? && u.kind == NodeRemoved then
      var n := u.node.value;
      View(v.nodes - {n.serviceId},
           map k | k in v.edges && v.edges[k].sourceServiceId != n.serviceId
                   && v.edges[k].targetService != n.serviceName :: v.edges[k])
    else if u.node.Some? && u.kind in {NodeAdded, NodeUpdated} then
      v.(nodes := v.nodes[u.node.value.serviceId := u.node.value])
    else if u.edge.Some? && u.kind == EdgeRemoved then
      v.(edges := v.edges - {KeyOf(u.edge.value)})
    else if u.edge.Some? && u.kind in {EdgeAdded, EdgeUpdated} then
      v.(edges := v.edges[KeyOf(u.edge.value) := u.edge.value])
    else v
  }

  lemma RemoveNodeNodes(nodes: seq<ServiceNode>, node: ServiceNode)
    requires DistinctBy(nodes, IdOf)
    ensures DistinctBy(Filter(nodes, OtherNode(node)), IdOf)
    ensures Index(Filter(nodes, OtherNode(node)), IdOf) == Index(nodes, IdOf) - {node.serviceId}
  {
    FilterDistinct(nodes, IdOf, OtherNode(node));
    FilterIndex(nodes, IdOf, OtherNode(node));
    IndexEntries(nodes, IdOf);
  }

  lemma RemoveNodeEdges(edges: seq<ServiceEdge>, node: ServiceNode)
    requires DistinctBy(edges, KeyOf)
    ensures DistinctBy(Filter(edges, NotCalling(node)), KeyOf)
    ensures var m := Index(edges, KeyOf);
            Index(Filter(edges, NotCalling(node)), KeyOf)
              == map k | k in m && NotCalling(node)(m[k]) :: m[k]
  {
    FilterDistinct(edges, KeyOf, NotCalling(node));
    FilterIndex(edges, KeyOf, NotCalling(node));
  }

  lemma RemoveNodeView(c: TopologySnapshot, node: ServiceNode, clock: int)
    requires WellFormed(c)
    ensures WellFormed(RemoveNode(c, node, clock))
    ensures ViewOf(RemoveNode(c, node, clock)) == ApplyToView(ViewOf(c), OfNode(NodeRemoved, node))
  {
    RemoveNodeNodes(c.nodes, node);
    RemoveNodeEdges(c.edges, node);
  }

  lemma UpsertNodeView(c: TopologySnapshot, node: ServiceNode, clock: int)
    requires WellFormed(c)
    ensures WellFormed(UpsertNode(c, node, clock))
    ensures ViewOf(UpsertNode(c, node, clock)) == ApplyToView(ViewOf(c), OfNode(NodeUpdated, node))
  {
    UpsertIndex(c.nodes, IdOf, node);
  }

  lemma RemoveEdgeEdges(edges: seq<ServiceEdge>, edge: ServiceEdge)
    requires DistinctBy(edges, KeyOf)
    ensures DistinctBy(Filter(edges, OtherEdge(edge)), KeyOf)
    ensures Index(Filter(edges, OtherEdge(edge)), KeyOf) == Index(edges, KeyOf) - {KeyOf(edge)}
  {
    FilterDistinct(edges, KeyOf, OtherEdge(edge));
    FilterIndex(edges, KeyOf, OtherEdge(edge));
    IndexEntries(edges, KeyOf);
  }

  lemma RemoveEdgeView(c: TopologySnapshot, edge: ServiceEdge, clock: int)
    requires WellFormed(c)
    ensures WellFormed(RemoveEdge(c, edge, clock))
    ensures ViewOf(RemoveEdge(c, edge, clock)) == ApplyToView(ViewOf(c), OfEdge(EdgeRemoved, edge))
  {
    RemoveEdgeEdges(c.edges, edge);
  }

  lemma UpsertEdgeView(c: TopologySnapshot, edge: ServiceEdge, clock: int)
    requires WellFormed(c)
    ensures WellFormed(UpsertEdge(c, edge, clock))
    ensures ViewOf(UpsertEdge(c, edge, clock)) == ApplyToView(ViewOf(c), OfEdge(EdgeUpdated, edge))
  {
    UpsertIndex(c.edges, KeyOf, edge);
  }

  /** applyUpdate keeps ids and edge keys distinct, and acts on the copy as a keyed store. */
  lemma ApplyUpdateView(c: TopologySnapshot, u: TopologyUpdate, clock: int)
    requires WellFormed(c) && u.kind != SnapshotUpdate
    ensures WellFormed(ApplyUpdate(c, u, clock))
    ensures ViewOf(ApplyUpdate(c, u, clock)) == ApplyToView(ViewOf(c), u)
  {
    if u.node.Some? && u.kind == NodeRemoved {
      RemoveNodeView(c, u.node.value, clock);
    } else if u.node.Some? && u.kind in {NodeAdded, NodeUpdated} {
      UpsertNodeView(c, u.node.value, clock);
    } else if u.edge.Some? && u.kind == EdgeRemoved {
      RemoveEdgeView(c, u.edge.value, clock);
    } else if u.edge.Some? && u.kind in {EdgeAdded, EdgeUpdated} {
      UpsertEdgeView(c, u.edge.value, clock);
    }
  }

  // ----- skipping updates that change nothing -----

  function ShownNodes(nodes: seq<ServiceNode>): seq<ServiceNode> {
    if nodes == [] then [] else ShownNodes(nodes[..|nodes| - 1]) + [Shown(nodes[|nodes| - 1])]
  }

  function Shed(m: map<string, ServiceNode>): map<string, ServiceNode> {
    map id | id in m :: Shown(m[id])
  }

  lemma {:induction false} ShownAt(nodes: seq<ServiceNode>)
    ensures |ShownNodes(nodes)| == |nodes|
    ensures forall i :: 0 <= i < |nodes| ==> ShownNodes(nodes)[i] == Shown(nodes[i])
  {
    if nodes != [] { ShownAt(nodes[..|nodes| - 1]); }
  }

  lemma ShedPut(m: map<string, ServiceNode>, id: string, node: ServiceNode)
    ensures Shed(m[id := node]) == Shed(m)[id := Shown(node)]
  {
  }

  lemma {:induction false} ShownIndex(nodes: seq<ServiceNode>)
    ensures Index(ShownNodes(nodes), IdOf) == Shed(Index(nodes, IdOf))
  {
    if nodes != [] {
      var init, last := nodes[..|nodes| - 1], nodes[|nodes| - 1];
      ShownIndex(init);
      AppendIndex(ShownNodes(init), IdOf, Shown(last));
      ShedPut(Index(init, IdOf), IdOf(last), last);
    }
  }

  lemma {:induction false} SubsetCardinality<T>(a: set<T>, b: set<T>)
    requires a <= b
    ensures |a| <= |b|
  {
    if x :| x in a {
      SubsetCardinality(a - {x}, b - {x});
    }
  }

  lemma SameEntries<T>(a: map<string, T>, b: map<string, T>)
    requires |a| == |b| && forall k :: k in a ==> k in b && a[k] == b[k]
    ensures a == b
  {
    assert a.Keys <= b.Keys && |a.Keys| == |b.Keys|;
    if k :| k in b.Keys && k !in a.Keys {
      SubsetCardinality(a.Keys, b.Keys - {k});
      assert false;
    }
  }

  lemma ShedEqual(a: map<string, ServiceNode>, b: map<string, ServiceNode>)
    ensures |a| == |b| && (forall id :: id in a ==> id in b && SameNode(a[id], b[id])) <==> Shed(a) == Shed(b)
  {
    assert Shed(a).Keys == a.Keys && Shed(b).Keys == b.Keys;
    assert |Shed(a)| == |a.Keys| == |a| && |Shed(b)| == |b.Keys| == |b|;
    if |a| == |b| && (forall id :: id in a ==> id in b && SameNode(a[id], b[id])) {
      SameEntries(Shed(a), Shed(b));
    }
    if Shed(a) == Shed(b) {
      forall id | id in a ensures id in b && SameNode(a[id], b[id]) {
        assert id in Shed(b) && Shed(a)[id] == Shed(b)[id];
      }
    }
  }

  /** On the maps, the comparison is equality up to metadata. */
  lemma SnapshotsEqualIndexes(l: TopologySnapshot, r: TopologySnapshot)
    requires WellFormed(l) && WellFormed(r)
    ensures SnapshotsEqual(l, r)
       <==> Shed(ViewOf(l).nodes) == Shed(ViewOf(r).nodes) && ViewOf(l).edges == ViewOf(r).edges
  {
    IndexAt(l.nodes, IdOf);
    IndexAt(r.nodes, IdOf);
    IndexAt(l.edges, KeyOf);
    IndexAt(r.edges, KeyOf);
    ShedEqual(ViewOf(l).nodes, ViewOf(r).nodes);
    if SnapshotsEqual(l, r) {
      SameEntries(ViewOf(l).edges, ViewOf(r).edges);
    }
  }

  /** areSnapshotsEqual decides whether two copies are permutations of one another,
      metadata and snapshot time aside. */
  lemma SnapshotsEqualExactly(l: TopologySnapshot, r: TopologySnapshot)
    requires WellFormed(l) && WellFormed(r)
    ensures SnapshotsEqual(l, r)
       <==> multiset(ShownNodes(l.nodes)) == multiset(ShownNodes(r.nodes)) && multiset(l.edges) == multiset(r.edges)
  {
    ShownAt(l.nodes);
    ShownAt(r.nodes);
    ShownIndex(l.nodes);
    ShownIndex(r.nodes);
    assert DistinctBy(ShownNodes(l.nodes), IdOf) && DistinctBy(ShownNodes(r.nodes), IdOf);
    PermutedIffSameIndex(ShownNodes(l.nodes), ShownNodes(r.nodes), IdOf);
    PermutedIffSameIndex(l.edges, r.edges, KeyOf);
    SnapshotsEqualIndexes(l, r);
  }

  /** The update does not replace the metadata of a node by different metadata. */
  predicate MetadataSettled(v: View, u: TopologyUpdate) {
    (u.node.Some? && u.kind in {NodeAdded, NodeUpdated} && u.node.value.serviceId in v.nodes)
    ==> v.nodes[u.node.value.serviceId].metadata == u.node.value.metadata
  }

  lemma EqualLooksSame(c: TopologySnapshot, u: TopologyUpdate, next: TopologySnapshot)
    requires WellFormed(c) && WellFormed(next) && SnapshotsEqual(c, next)
    requires MetadataSettled(ViewOf(c), u) && ViewOf(next) == ApplyToView(ViewOf(c), u)
    ensures ViewOf(next) == ViewOf(c)
  {
    var v, w := ViewOf(c), ViewOf(next);
    SnapshotsEqualIndexes(c, next);
    ShedEqual(v.nodes, w.nodes);
    forall id | id in v.nodes ensures id in w.nodes && v.nodes[id] == w.nodes[id] {
      assert SameNode(v.nodes[id], w.nodes[id]);
    }
    SameEntries(v.nodes, w.nodes);
  }

  /** Keeping the old copy when it looks the same loses nothing. */
  lemma HookStepView(c: TopologySnapshot, u: TopologyUpdate, clock: int)
    requires WellFormed(c) && u.kind != SnapshotUpdate && MetadataSettled(ViewOf(c), u)
    ensures WellFormed(HookStep(c, u, clock))
    ensures ViewOf(HookStep(c, u, clock)) == ApplyToView(ViewOf(c), u)
  {
    ApplyUpdateView(c, u, clock);
    var next := ApplyUpdate(c, u, clock);
    if SnapshotsEqual(c, next) {
      EqualLooksSame(c, u, next);
    }
  }
}
