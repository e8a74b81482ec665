/** A watcher that joins with a snapshot and folds every later update keeps agreeing with the store. */
module Replica {
  import opened Wrappers
  import opened Topology
  import opened StoreSpec
  import opened Store
  import opened KeyedLists
  import opened Client
  import opened Streams

  // ----- what agreement means -----

  /** The copy of a time stamp may lag, but only as long as the throttle of the last node update lasts. */
  predicate WithinThrottle(cfg: Config, record: ServiceRecord, stored: int, shown: int) {
    stored != shown
    ==> cfg.nodeUpdateThrottleMs > 0 && stored < record.lastNodeUpdateMs + cfg.nodeUpdateThrottleMs
  }

  /** Every field but the two time stamps is current. */
  predicate NodeAgrees(cfg: Config, record: ServiceRecord, copy: ServiceNode) {
    && copy == record.node.(lastHeartbeatMs := copy.lastHeartbeatMs, lastActivityMs := copy.lastActivityMs)
    && WithinThrottle(cfg, record, record.node.lastHeartbeatMs, copy.lastHeartbeatMs)
    && WithinThrottle(cfg, record, record.node.lastActivityMs, copy.lastActivityMs)
  }

  /** Counts and rates are current; once nothing is pending, so is everything else. */
  predicate EdgeAgrees(er: EdgeRecord, copy: ServiceEdge) {
    && copy == er.edge.(state := copy.state, lastActivityMs := copy.lastActivityMs)
    && (er.pendingCount == 0 ==> copy == er.edge)
  }

  predicate Agrees(cfg: Config, s: State, v: View) {
    && v.nodes.Keys == s.services.Keys
    && v.edges.Keys == s.edges.Keys
    && (forall id :: id in s.services ==> NodeAgrees(cfg, s.services[id], v.nodes[id]))
    && (forall k :: k in s.edges ==> EdgeAgrees(s.edges[k], v.edges[k]))
  }

  // ----- updates that carry a watcher from one state to the next -----

  predicate AboutNode(u: TopologyUpdate, id: string) {
    u.node.Some? && u.node.value.serviceId == id
  }

  predicate AboutEdge(u: TopologyUpdate, k: string) {
    u.node.None? && u.edge.Some? && KeyOf(u.edge.value) == k
  }

  ghost predicate TellsNode(updates: seq<TopologyUpdate>, id: string) {
    exists u :: u in updates && AboutNode(u, id)
  }

  ghost predicate TellsEdge(updates: seq<TopologyUpdate>, k: string) {
    exists u :: u in updates && AboutEdge(u, k)
  }

  /** The update says of its subject what the new state holds, and what it makes the client drop is gone. */
  predicate Sound(s': State, u: TopologyUpdate) {
    if u.node.Some? then
      var n := u.node.value;
      if u.kind == NodeRemoved then
        && n.serviceId !in s'.services
        && forall k :: k in s'.edges ==>
             s'.edges[k].edge.sourceServiceId != n.serviceId && s'.edges[k].edge.targetService != n.serviceName
      else
        u.kind in {NodeAdded, NodeUpdated} && n.serviceId in s'.services && n == s'.services[n.serviceId].node
    else
      && u.edge.Some?
      && var k := KeyOf(u.edge.value);
      if u.kind == EdgeRemoved then k !in s'.edges
      else u.kind in {EdgeAdded, EdgeUpdated} && k in s'.edges && u.edge.value == s'.edges[k].edge
  }

  /** A watcher need not be told. */
  ghost predicate QuietNode(cfg: Config, r: ServiceRecord, r': ServiceRecord) {
    forall copy :: NodeAgrees(cfg, r, copy) ==> NodeAgrees(cfg, r', copy)
  }

  predicate QuietEdge(er: EdgeRecord, er': EdgeRecord) {
    && er'.edge == er.edge.(state := er'.edge.state, lastActivityMs := er'.edge.lastActivityMs)
    && (er'.pendingCount == 0 ==> er'.edge == er.edge && er.pendingCount == 0)
  }

  /** Nothing the store does changes the metadata of a live service. */
  predicate SameMetadata(s: State, s': State) {
    forall id :: id in s.services && id in s'.services ==>
      s.services[id].node.metadata == s'.services[id].node.metadata
  }

  ghost predicate DeliversNodes(cfg: Config, s: State, s': State, updates: seq<TopologyUpdate>) {
    && (forall id :: id in s.services && id !in s'.services ==> TellsNode(updates, id))
    && (forall id :: id in s'.services ==>
          TellsNode(updates, id) || (id in s.services && QuietNode(cfg, s.services[id], s'.services[id])))
    && SameMetadata(s, s')
  }

  predicate SameEnds(e: ServiceEdge, f: ServiceEdge) {
    e.sourceServiceId == f.sourceServiceId && e.targetService == f.targetService
  }

  ghost predicate DeliversEdges(s: State, s': State, updates: seq<TopologyUpdate>) {
    && (forall k :: k in s.edges && k !in s'.edges ==> TellsEdge(updates, k))
    && (forall k :: k in s'.edges ==>
          TellsEdge(updates, k) || (k in s.edges && QuietEdge(s.edges[k], s'.edges[k])))
    && (forall k :: k in s.edges && k in s'.edges ==> SameEnds(s.edges[k].edge, s'.edges[k].edge))
  }

  ghost predicate AllSound(s': State, updates: seq<TopologyUpdate>) {
    forall u :: u in updates ==> Sound(s', u)
  }

  ghost predicate Delivers(cfg: Config, s: State, s': State, updates: seq<TopologyUpdate>) {
    AllSound(s', updates) && DeliversNodes(cfg, s, s', updates) && DeliversEdges(s, s', updates)
  }

  // ----- folding such updates -----

  function FoldView(v: View, updates: seq<TopologyUpdate>): View {
    if updates == [] then v else ApplyToView(FoldView(v, updates[..|updates| - 1]), updates[|updates| - 1])
  }

  lemma TellsPrefix(updates: seq<TopologyUpdate>, id: string)
    requires updates != []
    ensures TellsNode(updates, id)
       <==> TellsNode(updates[..|updates| - 1], id) || AboutNode(updates[|updates| - 1], id)
    ensures TellsEdge(updates, id)
       <==> TellsEdge(updates[..|updates| - 1], id) || AboutEdge(updates[|updates| - 1], id)
  {
    assert updates == updates[..|updates| - 1] + [updates[|updates| - 1]];
  }

  /** In whatever order the updates come, the last word on a node is what the new state says. */
  lemma {:induction false} FoldNode(s': State, v: View, updates: seq<TopologyUpdate>, id: string)
    requires AllSound(s', updates)
    ensures
      var w := FoldView(v, updates).nodes;
      if TellsNode(updates, id) then
        (id in w <==> id in s'.services) && (id in w ==> w[id] == s'.services[id].node)
      else
        (id in w <==> id in v.nodes) && (id in w ==> w[id] == v.nodes[id])
  {
    if updates != [] {
      FoldNode(s', v, updates[..|updates| - 1], id);
      TellsPrefix(updates, id);
      assert Sound(s', updates[|updates| - 1]);
    }
  }

  /** The same for an edge: the client's own cascade never drops an edge that the new state keeps. */
  lemma {:induction false} FoldEdge(s': State, v: View, updates: seq<TopologyUpdate>, k: string)
    requires AllSound(s', updates)
    requires k in s'.edges && k in v.edges ==> SameEnds(v.edges[k], s'.edges[k].edge)
    ensures
      var w := FoldView(v, updates).edges;
      if TellsEdge(updates, k) then
        (k in w <==> k in s'.edges) && (k in w ==> w[k] == s'.edges[k].edge)
      else
        (k in w ==> k in v.edges && w[k] == v.edges[k]) && (k in s'.edges && k in v.edges ==> k in w)
  {
    if updates != [] {
      FoldEdge(s', v, updates[..|updates| - 1], k);
      TellsPrefix(updates, k);
      assert Sound(s', updates[|updates| - 1]);
    }
  }

  lemma DeliveryAgrees(cfg: Config, s: State, s': State, updates: seq<TopologyUpdate>, v: View)
    requires Agrees(cfg, s, v) && Delivers(cfg, s, s', updates)
    ensures Agrees(cfg, s', FoldView(v, updates))
  {
    var w := FoldView(v, updates);
    forall id ensures (id in w.nodes <==> id in s'.services)
                      && (id in w.nodes ==> NodeAgrees(cfg, s'.services[id], w.nodes[id])) {
      FoldNode(s', v, updates, id);
    }
    forall k ensures (k in w.edges <==> k in s'.edges)
                     && (k in w.edges ==> EdgeAgrees(s'.edges[k], w.edges[k])) {
      FoldEdge(s', v, updates, k);
    }
    assert w.nodes.Keys == s'.services.Keys;
    assert w.edges.Keys == s'.edges.Keys;
  }

  lemma HookFoldLast(c: TopologySnapshot, updates: seq<TopologyUpdate>, u: TopologyUpdate, clock: nat -> int)
    ensures HookFold(c, updates + [u], clock) == HookStep(HookFold(c, updates, clock), u, clock(|updates|))
  {
    assert (updates + [u])[..|updates|] == updates;
  }

  lemma FoldSettled(cfg: Config, s: State, s': State, v: View, updates: seq<TopologyUpdate>, u: TopologyUpdate)
    requires Agrees(cfg, s, v) && AllSound(s', updates) && Sound(s', u) && SameMetadata(s, s')
    ensures MetadataSettled(FoldView(v, updates), u)
  {
    if u.node.Some? {
      FoldNode(s', v, updates, u.node.value.serviceId);
    }
  }

  predicate SettledAt(v: View, updates: seq<TopologyUpdate>, i: nat)
    requires i < |updates|
  {
    updates[i].kind != SnapshotUpdate && MetadataSettled(FoldView(v, updates[..i]), updates[i])
  }

  ghost predicate AllSettled(v: View, updates: seq<TopologyUpdate>) {
    forall i :: 0 <= i < |updates| ==> SettledAt(v, updates, i)
  }

  lemma SettledPrefix(v: View, updates: seq<TopologyUpdate>)
    requires updates != [] && AllSettled(v, updates)
    ensures AllSettled(v, updates[..|updates| - 1])
    ensures updates[|updates| - 1].kind != SnapshotUpdate
    ensures MetadataSettled(FoldView(v, updates[..|updates| - 1]), updates[|updates| - 1])
  {
    var init := updates[..|updates| - 1];
    forall i | 0 <= i < |init| ensures SettledAt(v, init, i) {
      assert SettledAt(v, updates, i) && updates[..i] == init[..i];
    }
    assert SettledAt(v, updates, |init|);
  }

  lemma FoldViewLast(v: View, updates: seq<TopologyUpdate>, u: TopologyUpdate)
    ensures FoldView(v, updates + [u]) == ApplyToView(FoldView(v, updates), u)
  {
    assert (updates + [u])[..|updates|] == updates;
  }

  lemma HookFoldViewLast(c: TopologySnapshot, messages: seq<TopologyUpdate>, clock: nat -> int,
                         v: View, updates: seq<TopologyUpdate>, u: TopologyUpdate)
    requires WellFormed(HookFold(c, messages, clock)) && ViewOf(HookFold(c, messages, clock)) == FoldView(v, updates)
    requires u.kind != SnapshotUpdate && MetadataSettled(FoldView(v, updates), u)
    ensures WellFormed(HookFold(c, messages + [u], clock))
    ensures ViewOf(HookFold(c, messages + [u], clock)) == FoldView(v, updates + [u])
  {
    HookFoldLast(c, messages, u, clock);
    FoldViewLast(v, updates, u);
    HookStepView(HookFold(c, messages, clock), u, clock(|messages|));
  }

  /** The hook, which skips updates that change nothing it shows, ends with the same maps. */
  lemma {:induction false} HookFoldView(c: TopologySnapshot, base: seq<TopologyUpdate>, v: View,
                                        updates: seq<TopologyUpdate>, clock: nat -> int)
    requires WellFormed(HookFold(c, base, clock)) && ViewOf(HookFold(c, base, clock)) == v
    requires AllSettled(v, updates)
    ensures WellFormed(HookFold(c, base + updates, clock))
    ensures ViewOf(HookFold(c, base + updates, clock)) == FoldView(v, updates)
    decreases |updates|
  {
    if updates == [] {
      assert base + updates == base;
    } else {
      var init, u := updates[..|updates| - 1], updates[|updates| - 1];
      assert updates == init + [u];
      assert base + updates == (base + init) + [u];
      SettledPrefix(v, updates);
      HookFoldView(c, base, v, init, clock);
      HookFoldViewLast(c, base + init, clock, v, init, u);
    }
  }

  lemma DeliveryHook(cfg: Config, s: State, s': State, c: TopologySnapshot, base: seq<TopologyUpdate>,
                     updates: seq<TopologyUpdate>, clock: nat -> int)
    requires WellFormed(HookFold(c, base, clock)) && Agrees(cfg, s, ViewOf(HookFold(c, base, clock)))
    requires Delivers(cfg, s, s', updates)
    ensures WellFormed(HookFold(c, base + updates, clock))
    ensures Agrees(cfg, s', ViewOf(HookFold(c, base + updates, clock)))
  {
    var v := ViewOf(HookFold(c, base, clock));
    forall i | 0 <= i < |updates| ensures SettledAt(v, updates, i) {
      assert Sound(s', updates[i]);
      FoldSettled(cfg, s, s', v, updates[..i], updates[i]);
    }
    HookFoldView(c, base, v, updates, clock);
    DeliveryAgrees(cfg, s, s', updates, v);
  }

  // ----- every call delivers -----

  /** What agreement needs of the store; see StoreInvariant for the rest of what holds of it. */
  predicate Countable(s: State) {
    Keyed(s) && forall k :: k in s.edges ==> s.edges[k].pendingCount >= 0
  }

  lemma RegisterDelivers(cfg: Config, s: State, req: RegisterRequest, id: string, now: int)
    requires Countable(s) && id !in s.services
    ensures var o := Register(cfg, s, req, id, now); Countable(o.state) && Delivers(cfg, s, o.state, o.updates)
  {
    var o := Register(cfg, s, req, id, now);
    assert o.updates[0] in o.updates && AboutNode(o.updates[0], id);
  }

  lemma HeartbeatDeliversNodes(cfg: Config, s: State, req: HeartbeatRequest, now: int)
    requires Countable(s) && req.serviceId in s.services
    ensures var o := Heartbeat(cfg, s, req, now); DeliversNodes(cfg, s, o.state, o.updates)
  {
    var o := Heartbeat(cfg, s, req, now);
    if o.updates != [] {
      assert o.updates[0] in o.updates && AboutNode(o.updates[0], req.serviceId);
    } else {
      assert QuietNode(cfg, s.services[req.serviceId], o.state.services[req.serviceId]);
    }
  }

  lemma HeartbeatSound(cfg: Config, s: State, req: HeartbeatRequest, now: int)
    requires Countable(s)
    ensures var o := Heartbeat(cfg, s, req, now);
            Countable(o.state) && AllSound(o.state, o.updates) && o.state.edges == s.edges
  {
  }

  lemma HeartbeatDelivers(cfg: Config, s: State, req: HeartbeatRequest, now: int)
    requires Countable(s)
    ensures var o := Heartbeat(cfg, s, req, now); Countable(o.state) && Delivers(cfg, s, o.state, o.updates)
  {
    HeartbeatSound(cfg, s, req, now);
    if req.serviceId in s.services {
      HeartbeatDeliversNodes(cfg, s, req, now);
    } else {
      assert Heartbeat(cfg, s, req, now) == Outcome(s, []);
    }
  }

  lemma ActivityDeliversNodes(cfg: Config, s: State, ev: ActivityEvent, now: int)
    requires Countable(s) && ev.serviceId in s.services
    ensures var o := Activity(cfg, s, ev, now); DeliversNodes(cfg, s, o.state, o.updates)
  {
    var o := Activity(cfg, s, ev, now);
    var (record, told) := TouchService(cfg, s.services[ev.serviceId], now);
    if told != [] {
      assert told[0] in o.updates && AboutNode(told[0], ev.serviceId);
    } else {
      assert QuietNode(cfg, s.services[ev.serviceId], record);
    }
  }

  lemma ActivityDeliversEdges(cfg: Config, s: State, ev: ActivityEvent, now: int)
    requires Countable(s) && ev.serviceId in s.services
    ensures var o := Activity(cfg, s, ev, now); DeliversEdges(s, o.state, o.updates)
  {
    var o := Activity(cfg, s, ev, now);
    var key := EdgeKey(ev.serviceId, ev.targetService);
    if key !in s.edges {
      var added := OfEdge(EdgeAdded, NewEdge(ev, now).edge);
      assert added == o.updates[|o.updates| - 1] && AboutEdge(added, key);
    } else {
      assert QuietEdge(s.edges[key], o.state.edges[key]);
    }
  }

  lemma ActivitySound(cfg: Config, s: State, ev: ActivityEvent, now: int)
    requires Countable(s)
    ensures var o := Activity(cfg, s, ev, now); Countable(o.state) && AllSound(o.state, o.updates)
  {
  }

  lemma ActivityDelivers(cfg: Config, s: State, ev: ActivityEvent, now: int)
    requires Countable(s)
    ensures var o := Activity(cfg, s, ev, now); Countable(o.state) && Delivers(cfg, s, o.state, o.updates)
  {
    ActivitySound(cfg, s, ev, now);
    if ev.serviceId in s.services {
      ActivityDeliversNodes(cfg, s, ev, now);
      ActivityDeliversEdges(cfg, s, ev, now);
    } else {
      assert Activity(cfg, s, ev, now) == Outcome(s, []);
    }
  }

  lemma FlushDeliversEdges(cfg: Config, s: State, now: int, updates: seq<TopologyUpdate>)
    requires Countable(s) && forall u :: FlushSays(cfg, s, now, u) ==> u in updates
    ensures DeliversEdges(s, Flush(cfg, s, now), updates)
  {
    var s' := Flush(cfg, s, now);
    forall k | k in s.edges && s.edges[k].pendingCount != 0 ensures TellsEdge(updates, k) {
      var u := OfEdge(EdgeUpdated, s'.edges[k].edge);
      assert FlushSays(cfg, s, now, u) && AboutEdge(u, k);
    }
  }

  lemma FlushDelivers(cfg: Config, s: State, now: int, updates: seq<TopologyUpdate>)
    requires Countable(s) && forall u :: u in updates <==> FlushSays(cfg, s, now, u)
    ensures Countable(Flush(cfg, s, now)) && Delivers(cfg, s, Flush(cfg, s, now), updates)
  {
    FlushDeliversEdges(cfg, s, now, updates);
  }

  lemma RemoveDelivers(cfg: Config, s: State, id: string, updates: seq<TopologyUpdate>)
    requires Countable(s) && forall u :: u in updates <==> RemoveSays(s, id, u)
    ensures Countable(Remove(s, id)) && Delivers(cfg, s, Remove(s, id), updates)
  {
    if id in s.services {
      var s', node := Remove(s, id), s.services[id].node;
      var gone := OfNode(NodeRemoved, node);
      assert RemoveSays(s, id, gone) && AboutNode(gone, id);
      forall k | k in s.edges && k !in s'.edges ensures TellsEdge(updates, k) {
        var u := OfEdge(EdgeRemoved, s.edges[k].edge);
        assert RemoveSays(s, id, u) && AboutEdge(u, k);
      }
    }
  }

  lemma SweepSound(cfg: Config, s: State, now: int, u: TopologyUpdate)
    requires Keyed(s) && SweepSays(cfg, s, now, u)
    ensures Sound(Sweep(cfg, s, now), u)
  {
    if u.node.Some? && u.kind == NodeRemoved {
      var id, s' := u.node.value.serviceId, Sweep(cfg, s, now);
      forall k | k in s'.edges
        ensures s'.edges[k].edge.sourceServiceId != id && s'.edges[k].edge.targetService != u.node.value.serviceName
      {
        assert !Orphaned(s, now, s.edges[k].edge);
        assert !Touches(id, s.services[id].node, s.edges[k].edge);
      }
    }
  }

  lemma SweepDeliversNodes(cfg: Config, s: State, now: int, updates: seq<TopologyUpdate>)
    requires Keyed(s) && forall u :: SweepSays(cfg, s, now, u) ==> u in updates
    ensures DeliversNodes(cfg, s, Sweep(cfg, s, now), updates)
  {
    var s' := Sweep(cfg, s, now);
    forall id | id in s.services && (id !in s'.services || s'.services[id] != s.services[id])
      ensures TellsNode(updates, id)
    {
      var u := if id in s'.services then OfNode(NodeUpdated, s'.services[id].node)
               else OfNode(NodeRemoved, s.services[id].node);
      assert SweepSays(cfg, s, now, u) && AboutNode(u, id);
    }
  }

  lemma SweepDeliversEdges(cfg: Config, s: State, now: int, updates: seq<TopologyUpdate>)
    requires Keyed(s) && forall u :: SweepSays(cfg, s, now, u) ==> u in updates
    ensures DeliversEdges(s, Sweep(cfg, s, now), updates)
  {
    var s' := Sweep(cfg, s, now);
    forall k | k in s.edges && (k !in s'.edges || s'.edges[k] != s.edges[k]) ensures TellsEdge(updates, k) {
      var u := if k in s'.edges then OfEdge(EdgeUpdated, s'.edges[k].edge)
               else OfEdge(EdgeRemoved, s.edges[k].edge);
      assert SweepSays(cfg, s, now, u) && AboutEdge(u, k);
    }
  }

  lemma SweepDelivers(cfg: Config, s: State, now: int, updates: seq<TopologyUpdate>)
    requires Countable(s) && forall u :: u in updates <==> SweepSays(cfg, s, now, u)
    ensures Countable(Sweep(cfg, s, now)) && Delivers(cfg, s, Sweep(cfg, s, now), updates)
  {
    forall u | u in updates ensures Sound(Sweep(cfg, s, now), u) { SweepSound(cfg, s, now, u); }
    SweepDeliversNodes(cfg, s, now, updates);
    SweepDeliversEdges(cfg, s, now, updates);
    SweepKeyed(cfg, s, now);
  }

  lemma StepDelivers(cfg: Config, s: State, op: Op, s': State, updates: seq<TopologyUpdate>)
    requires Countable(s) && Fresh(s, op) && Step(cfg, s, op, s', updates)
    ensures Countable(s') && Delivers(cfg, s, s', updates)
  {
    match op
    case DoRegister(req, id, now) => RegisterDelivers(cfg, s, req, id, now);
    case DoUnregister(id) => RemoveDelivers(cfg, s, id, updates);
    case DoHeartbeat(beat, now) => HeartbeatDelivers(cfg, s, beat, now);
    case DoActivity(event, now) => ActivityDelivers(cfg, s, event, now);
    case DoFlush(now) => FlushDelivers(cfg, s, now, updates);
    case DoSweep(now) => SweepDelivers(cfg, s, now, updates);
  }

  // ----- runs -----

  lemma {:induction false} RunCountable(cfg: Config, states: seq<State>, ops: seq<Op>,
                                        emitted: seq<seq<TopologyUpdate>>, n: nat)
    requires Run(cfg, states, ops, emitted) && n < |states|
    ensures Countable(states[n])
    decreases n
  {
    if n > 0 {
      RunCountable(cfg, states, ops, emitted, n - 1);
      assert Follows(cfg, states, ops, emitted, n - 1);
      StepDelivers(cfg, states[n - 1], ops[n - 1], states[n], emitted[n - 1]);
    }
  }

  const INITIAL_COPY := TopologySnapshot([], [], 0)

  /** All that a watcher joining after `join` calls has been sent once `n` calls are done. */
  function Messages(joined: TopologySnapshot, emitted: seq<seq<TopologyUpdate>>, join: nat, n: nat): seq<TopologyUpdate>
    requires join <= n <= |emitted|
  {
    [OfSnapshot(joined)] + Concat(emitted[join..n])
  }

  /** The copy of a watcher that was sent these messages has distinct ids and keys, and agrees with the store. */
  ghost predicate InSync(cfg: Config, s: State, messages: seq<TopologyUpdate>, clock: nat -> int) {
    var copy := HookFold(INITIAL_COPY, messages, clock);
    WellFormed(copy) && Agrees(cfg, s, ViewOf(copy))
  }

  lemma SnapshotView(s: State, c: TopologySnapshot)
    requires Keyed(s) && SnapshotOf(s, c)
    ensures WellFormed(c)
    ensures forall id :: id in ViewOf(c).nodes <==> id in s.services
    ensures forall id :: id in ViewOf(c).nodes ==> ViewOf(c).nodes[id] == s.services[id].node
    ensures forall k :: k in ViewOf(c).edges <==> k in s.edges
    ensures forall k :: k in ViewOf(c).edges ==> ViewOf(c).edges[k] == s.edges[k].edge
  {
    IndexAt(c.nodes, IdOf);
    IndexEntries(c.nodes, IdOf);
    IndexAt(c.edges, KeyOf);
    IndexEntries(c.edges, KeyOf);
    forall id | id in s.services ensures id in ViewOf(c).nodes {
      var i :| 0 <= i < |c.nodes| && c.nodes[i] == s.services[id].node;
      assert IdOf(c.nodes[i]) == id;
    }
    forall k | k in s.edges ensures k in ViewOf(c).edges {
      var i :| 0 <= i < |c.edges| && c.edges[i] == s.edges[k].edge;
      assert KeyOf(c.edges[i]) == k;
    }
  }

  lemma SnapshotAgrees(cfg: Config, s: State, c: TopologySnapshot)
    requires Keyed(s) && SnapshotOf(s, c)
    ensures WellFormed(c) && Agrees(cfg, s, ViewOf(c))
  {
    SnapshotView(s, c);
  }

  lemma FirstCopy(c: TopologySnapshot, clock: nat -> int)
    ensures ViewOf(HookFold(INITIAL_COPY, [OfSnapshot(c)], clock)) == ViewOf(c)
    ensures WellFormed(c) ==> WellFormed(HookFold(INITIAL_COPY, [OfSnapshot(c)], clock))
  {
    HookFoldLast(INITIAL_COPY, [], OfSnapshot(c), clock);
    assert [] + [OfSnapshot(c)] == [OfSnapshot(c)];
    if SnapshotsEqual(INITIAL_COPY, c) {
      assert c.nodes == [] && c.edges == [];
    }
  }

  /** The first message replaces the empty initial copy, or leaves it if there is nothing to show. */
  lemma FirstMessage(cfg: Config, s: State, c: TopologySnapshot, clock: nat -> int)
    requires Keyed(s) && SnapshotOf(s, c)
    ensures InSync(cfg, s, [OfSnapshot(c)], clock)
  {
    SnapshotAgrees(cfg, s, c);
    FirstCopy(c, clock);
  }

  lemma StepInSync(cfg: Config, s: State, op: Op, s': State, updates: seq<TopologyUpdate>,
                   messages: seq<TopologyUpdate>, clock: nat -> int)
    requires Countable(s) && Fresh(s, op) && Step(cfg, s, op, s', updates)
    requires InSync(cfg, s, messages, clock)
    ensures InSync(cfg, s', messages + updates, clock)
  {
    StepDelivers(cfg, s, op, s', updates);
    DeliveryHook(cfg, s, s', INITIAL_COPY, messages, updates, clock);
  }

  lemma MessagesGrow(joined: TopologySnapshot, emitted: seq<seq<TopologyUpdate>>, join: nat, n: nat)
    requires join < n <= |emitted|
    ensures Messages(joined, emitted, join, n) == Messages(joined, emitted, join, n - 1) + emitted[n - 1]
  {
    assert emitted[join..n][..n - 1 - join] == emitted[join..n - 1];
  }

  lemma RunStepInSync(cfg: Config, states: seq<State>, ops: seq<Op>, emitted: seq<seq<TopologyUpdate>>,
                      join: nat, joined: TopologySnapshot, n: nat, clock: nat -> int)
    requires Run(cfg, states, ops, emitted) && join < n <= |ops|
    requires InSync(cfg, states[n - 1], Messages(joined, emitted, join, n - 1), clock)
    ensures InSync(cfg, states[n], Messages(joined, emitted, join, n), clock)
  {
    var messages := Messages(joined, emitted, join, n - 1);
    RunCountable(cfg, states, ops, emitted, n - 1);
    assert Follows(cfg, states, ops, emitted, n - 1);
    StepInSync(cfg, states[n - 1], ops[n - 1], states[n], emitted[n - 1], messages, clock);
    MessagesGrow(joined, emitted, join, n);
  }

  lemma JoinInSync(cfg: Config, states: seq<State>, ops: seq<Op>, emitted: seq<seq<TopologyUpdate>>,
                   join: nat, joined: TopologySnapshot, clock: nat -> int)
    requires Run(cfg, states, ops, emitted) && join <= |ops| && SnapshotOf(states[join], joined)
    ensures InSync(cfg, states[join], Messages(joined, emitted, join, join), clock)
  {
    RunCountable(cfg, states, ops, emitted, join);
    FirstMessage(cfg, states[join], joined, clock);
    assert Messages(joined, emitted, join, join) == [OfSnapshot(joined)];
  }

  /** Replica agreement: at every point of every run, whoever joined at any earlier point is in sync. */
  lemma {:induction false} ReplicaAgreement(
      cfg: Config, states: seq<State>, ops: seq<Op>, emitted: seq<seq<TopologyUpdate>>,
      join: nat, joined: TopologySnapshot, n: nat, clock: nat -> int)
    requires Run(cfg, states, ops, emitted) && join <= n <= |ops|
    requires SnapshotOf(states[join], joined)
    ensures InSync(cfg, states[n], Messages(joined, emitted, join, n), clock)
    decreases n
  {
    if n == join {
      JoinInSync(cfg, states, ops, emitted, join, joined, clock);
    } else {
      ReplicaAgreement(cfg, states, ops, emitted, join, joined, n - 1, clock);
      RunStepInSync(cfg, states, ops, emitted, join, joined, n, clock);
    }
  }
}
