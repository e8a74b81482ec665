/** The in-memory store itself: maps changed in place by methods with loops. */
module Store {
  import opened Wrappers
  import opened Topology
  import opened StoreSpec

  // ----- the sweep, part way through its two loops -----

  predicate OrphanedBy(s: State, now: int, ids: set<string>, edge: ServiceEdge) {
    exists id :: id in ids && id in s.services && Overdue(s.services[id], now)
                 && Touches(id, s.services[id].node, edge)
  }

  function DeadNames(s: State, now: int, ids: set<string>): set<string> {
    set id | id in ids && id in s.services && Overdue(s.services[id], now) :: s.services[id].node.serviceName
  }

  /** The state once every service outside `todo` has been examined, and no edge yet. */
  function MidServices(cfg: Config, s: State, now: int, todo: set<string>): State {
    State(
      map id | id in s.services && (id in todo || !Overdue(s.services[id], now)) ::
        if id in todo then s.services[id] else MarkService(cfg, s.services[id], now),
      map k | k in s.edges && !OrphanedBy(s, now, s.services.Keys - todo, s.edges[k].edge) :: s.edges[k],
      s.nameIndex - DeadNames(s, now, s.services.Keys - todo),
      s.lastFlushMs)
  }

  predicate MidServicesSays(cfg: Config, s: State, now: int, todo: set<string>, u: TopologyUpdate) {
    if u.node.Some? then
      && var id := u.node.value.serviceId;
      && id in s.services && id !in todo
      && var record := s.services[id];
      && if Overdue(record, now) then u == OfNode(NodeRemoved, record.node)
         else MarkService(cfg, record, now) != record
              && u == OfNode(NodeUpdated, MarkService(cfg, record, now).node)
    else EdgeGone(s, u) && OrphanedBy(s, now, s.services.Keys - todo, u.edge.value)
  }

  lemma OrphanedByMore(s: State, now: int, todo: set<string>, id: string, edge: ServiceEdge)
    requires id in todo && id in s.services
    ensures OrphanedBy(s, now, s.services.Keys - (todo - {id}), edge)
        <==> OrphanedBy(s, now, s.services.Keys - todo, edge)
             || (Overdue(s.services[id], now) && Touches(id, s.services[id].node, edge))
  {
    assert s.services.Keys - (todo - {id}) == (s.services.Keys - todo) + {id};
  }

  lemma MidServicesRemoveEdges(cfg: Config, s: State, now: int, todo: set<string>, id: string)
    requires id in todo && id in s.services && Overdue(s.services[id], now)
    ensures Remove(MidServices(cfg, s, now, todo), id).edges == MidServices(cfg, s, now, todo - {id}).edges
  {
    var mid, next := MidServices(cfg, s, now, todo), MidServices(cfg, s, now, todo - {id});
    forall k | k in s.edges ensures k in next.edges <==> k in Remove(mid, id).edges {
      OrphanedByMore(s, now, todo, id, s.edges[k].edge);
    }
  }

  lemma MidServicesRemove(cfg: Config, s: State, now: int, todo: set<string>, id: string)
    requires Keyed(s) && id in todo && id in s.services && Overdue(s.services[id], now)
    ensures Remove(MidServices(cfg, s, now, todo), id) == MidServices(cfg, s, now, todo - {id})
  {
    var mid, next := MidServices(cfg, s, now, todo), MidServices(cfg, s, now, todo - {id});
    MidServicesRemoveEdges(cfg, s, now, todo, id);
    assert mid.services - {id} == next.services;
    assert s.services.Keys - (todo - {id}) == (s.services.Keys - todo) + {id};
    assert DeadNames(s, now, s.services.Keys - (todo - {id}))
        == DeadNames(s, now, s.services.Keys - todo) + {s.services[id].node.serviceName};
    assert Remove(mid, id).nameIndex == next.nameIndex;
  }

  lemma MidServicesRemoveSays(cfg: Config, s: State, now: int, todo: set<string>, id: string, u: TopologyUpdate)
    requires Keyed(s) && id in todo && id in s.services && Overdue(s.services[id], now)
    ensures
      var before, more := MidServicesSays(cfg, s, now, todo, u), RemoveSays(MidServices(cfg, s, now, todo), id, u);
      !(before && more) && (MidServicesSays(cfg, s, now, todo - {id}, u) <==> before || more)
  {
    if u.edge.Some? {
      OrphanedByMore(s, now, todo, id, u.edge.value);
    }
  }

  lemma MidServicesMark(cfg: Config, s: State, now: int, todo: set<string>, id: string)
    requires Keyed(s) && id in todo && id in s.services && !Overdue(s.services[id], now)
    ensures
      var mid := MidServices(cfg, s, now, todo);
      MidServices(cfg, s, now, todo - {id})
        == mid.(services := mid.services[id := MarkService(cfg, s.services[id], now)])
  {
    var mid, next := MidServices(cfg, s, now, todo), MidServices(cfg, s, now, todo - {id});
    assert s.services.Keys - (todo - {id}) == (s.services.Keys - todo) + {id};
    assert next.services == mid.services[id := MarkService(cfg, s.services[id], now)];
    assert next.edges == mid.edges;
    assert DeadNames(s, now, s.services.Keys - (todo - {id})) == DeadNames(s, now, s.services.Keys - todo);
  }

  lemma MidServicesMarkSays(cfg: Config, s: State, now: int, todo: set<string>, id: string, u: TopologyUpdate)
    requires Keyed(s) && id in todo && id in s.services && !Overdue(s.services[id], now)
    ensures
      var marked := MarkService(cfg, s.services[id], now);
      var before, more := MidServicesSays(cfg, s, now, todo, u),
                          marked != s.services[id] && u == OfNode(NodeUpdated, marked.node);
      !(before && more) && (MidServicesSays(cfg, s, now, todo - {id}, u) <==> before || more)
  {
    if u.edge.Some? {
      OrphanedByMore(s, now, todo, id, u.edge.value);
    }
  }

  /** The state once every edge outside `todo` has been examined as well. */
  function MidEdges(cfg: Config, s: State, now: int, todo: set<string>): State {
    var swept := MidServices(cfg, s, now, {});
    swept.(edges := map k | k in swept.edges && (k in todo || !Unresolved(cfg, KnownTargets(s), now, swept.edges[k])) ::
                      if k in todo then swept.edges[k] else MarkEdge(cfg, swept.edges[k], now))
  }

  /** What the second loop says about an edge, if it says anything. */
  function EdgeVerdict(cfg: Config, s: State, now: int, er: EdgeRecord): TopologyUpdate {
    if Unresolved(cfg, KnownTargets(s), now, er) then OfEdge(EdgeRemoved, er.edge)
    else OfEdge(EdgeUpdated, MarkEdge(cfg, er, now).edge)
  }

  predicate MidEdgesSays(cfg: Config, s: State, now: int, todo: set<string>, u: TopologyUpdate) {
    || MidServicesSays(cfg, s, now, {}, u)
    || (&& u.edge.Some?
        && var k := KeyOf(u.edge.value);
        && k !in todo
        && k in MidServices(cfg, s, now, {}).edges
        && u == EdgeVerdict(cfg, s, now, s.edges[k])
        && (Unresolved(cfg, KnownTargets(s), now, s.edges[k]) || MarkEdge(cfg, s.edges[k], now) != s.edges[k]))
  }

  lemma MidEdgesStep(cfg: Config, s: State, now: int, todo: set<string>, k: string)
    requires Keyed(s) && k in todo && k in MidServices(cfg, s, now, {}).edges
    ensures
      var mid, next := MidEdges(cfg, s, now, todo), MidEdges(cfg, s, now, todo - {k});
      && k in mid.edges && mid.edges[k] == s.edges[k]
      && next == mid.(edges := if Unresolved(cfg, KnownTargets(s), now, s.edges[k]) then mid.edges - {k}
                               else mid.edges[k := MarkEdge(cfg, s.edges[k], now)])
  {
    var mid, next := MidEdges(cfg, s, now, todo), MidEdges(cfg, s, now, todo - {k});
    if Unresolved(cfg, KnownTargets(s), now, s.edges[k]) {
      assert next.edges == mid.edges - {k};
    } else {
      assert next.edges == mid.edges[k := MarkEdge(cfg, s.edges[k], now)];
    }
  }

  lemma MidEdgesStepSays(cfg: Config, s: State, now: int, todo: set<string>, k: string, u: TopologyUpdate)
    requires Keyed(s) && k in todo && k in MidServices(cfg, s, now, {}).edges
    ensures
      var er := s.edges[k];
      var before := MidEdgesSays(cfg, s, now, todo, u);
      var more := u == EdgeVerdict(cfg, s, now, er)
                  && (Unresolved(cfg, KnownTargets(s), now, er) || MarkEdge(cfg, er, now) != er);
      !(before && more) && (MidEdgesSays(cfg, s, now, todo - {k}, u) <==> before || more)
  {
  }

  lemma MidStart(cfg: Config, s: State, now: int)
    ensures MidServices(cfg, s, now, s.services.Keys) == s
    ensures forall u :: !MidServicesSays(cfg, s, now, s.services.Keys, u)
  {
    var mid := MidServices(cfg, s, now, s.services.Keys);
    assert mid.services == s.services && mid.edges == s.edges && mid.nameIndex == s.nameIndex;
  }

  lemma MidTurn(cfg: Config, s: State, now: int)
    ensures
      var swept := MidServices(cfg, s, now, {});
      && MidEdges(cfg, s, now, swept.edges.Keys) == swept
      && forall u :: MidEdgesSays(cfg, s, now, swept.edges.Keys, u) <==> MidServicesSays(cfg, s, now, {}, u)
  {
    var swept := MidServices(cfg, s, now, {});
    assert MidEdges(cfg, s, now, swept.edges.Keys).edges == swept.edges;
  }

  lemma OrphanedByAll(s: State, now: int)
    ensures s.services.Keys - {} == s.services.Keys
    ensures forall e: ServiceEdge :: OrphanedBy(s, now, s.services.Keys, e) <==> Orphaned(s, now, e)
  {
  }

  lemma MidEndState(cfg: Config, s: State, now: int)
    ensures MidEdges(cfg, s, now, {}) == Sweep(cfg, s, now)
  {
    var mid, end := MidEdges(cfg, s, now, {}), Sweep(cfg, s, now);
    OrphanedByAll(s, now);
    assert mid.services == end.services;
    assert mid.edges == end.edges;
    assert mid.nameIndex == end.nameIndex;
  }

  lemma MidEnd(cfg: Config, s: State, now: int)
    ensures MidEdges(cfg, s, now, {}) == Sweep(cfg, s, now)
    ensures forall u :: MidEdgesSays(cfg, s, now, {}, u) <==> SweepSays(cfg, s, now, u)
  {
    MidEndState(cfg, s, now);
    OrphanedByAll(s, now);
  }

  lemma FlushKeyed(cfg: Config, s: State, now: int)
    requires Keyed(s)
    ensures Keyed(Flush(cfg, s, now))
  {
  }

  lemma SweepKeyed(cfg: Config, s: State, now: int)
    requires Keyed(s)
    ensures Keyed(Sweep(cfg, s, now))
  {
  }

  // ----- a flush, part way through its loop -----

  /** The updates are those about the edges that are done. */
  ghost predicate FlushTold(cfg: Config, s: State, now: int, todo: set<string>, updates: seq<TopologyUpdate>) {
    && Distinct(updates)
    && forall u :: u in updates <==> FlushSays(cfg, s, now, u) && KeyOf(u.edge.value) !in todo
  }

  lemma FlushTells(cfg: Config, s: State, now: int, todo: set<string>, updates: seq<TopologyUpdate>, k: string)
    requires Keyed(s) && k in s.edges && k in todo && FlushTold(cfg, s, now, todo, updates)
    ensures
      var u := OfEdge(EdgeUpdated, FlushEdge(cfg, s.edges[k], now, ElapsedMs(s, now)).edge);
      FlushTold(cfg, s, now, todo - {k}, if s.edges[k].pendingCount == 0 then updates else updates + [u])
  {
    assert KeyOf(FlushEdge(cfg, s.edges[k], now, ElapsedMs(s, now)).edge) == KeyOf(s.edges[k].edge) == k;
  }

  // ----- the store -----

  /** The snapshot shows every node and every edge of the state, each once, in some order. */
  ghost predicate SnapshotOf(s: State, snapshot: TopologySnapshot) {
    && (forall i, j :: 0 <= i < j < |snapshot.nodes| ==> snapshot.nodes[i].serviceId != snapshot.nodes[j].serviceId)
    && (forall i, j :: 0 <= i < j < |snapshot.edges| ==> KeyOf(snapshot.edges[i]) != KeyOf(snapshot.edges[j]))
    && (forall n :: n in snapshot.nodes <==> n.serviceId in s.services && s.services[n.serviceId].node == n)
    && (forall e :: e in snapshot.edges <==> KeyOf(e) in s.edges && s.edges[KeyOf(e)].edge == e)
  }

  class TopologyStore {
    const cfg: Config
    var services: map<string, ServiceRecord>
    var edges: map<string, EdgeRecord>
    var serviceNameIndex: map<string, string>
    var lastActivityFlushMs: int

    ghost function Contents(): State
      reads this
    {
      State(services, edges, serviceNameIndex, lastActivityFlushMs)
    }

    ghost predicate Valid()
      reads this
    {
      Keyed(Contents())
    }

    constructor (cfg: Config, now: int)
      ensures this.cfg == cfg && Valid() && Contents() == Init(now)
    {
      this.cfg := cfg;
      services, edges, serviceNameIndex, lastActivityFlushMs := map[], map[], map[], now;
    }

    method RegisterService(req: RegisterRequest, id: string, now: int) returns (updates: seq<TopologyUpdate>)
      requires Valid()
      modifies this
      ensures Valid()
      ensures Step(cfg, old(Contents()), DoRegister(req, id, now), Contents(), updates)
    {
      var node := ServiceNode(
        serviceId := id, serviceName := req.serviceName, serviceType := req.serviceType,
        language := req.language, version := req.version, address := req.address, host := req.host,
        metadata := req.metadata, state := Registered, lastHeartbeatMs := now, lastActivityMs := 0,
        health := HealthUnknown);
      services := services[id := ServiceRecord(
        node := node, lastHeartbeatMs := now, lastActivityMs := 0, lastNodeUpdateMs := now,
        heartbeatIntervalMs := cfg.heartbeatIntervalMs, timeoutMultiplier := cfg.timeoutMultiplier)];
      serviceNameIndex := serviceNameIndex[req.serviceName := id];
      updates := [OfNode(NodeAdded, node)];
    }

    method RemoveService(id: string) returns (updates: seq<TopologyUpdate>)
      requires Valid()
      modifies this
      ensures Valid()
      ensures Contents() == Remove(old(Contents()), id)
      ensures Distinct(updates)
      ensures forall u :: u in updates <==> RemoveSays(old(Contents()), id, u)
    {
      updates := [];
      if id !in services { return; }
      ghost var s := Contents();
      var node := services[id].node;
      var keys := ServiceKeys(node);
      services := services - {id};
      serviceNameIndex := serviceNameIndex - {node.serviceName};
      updates := [OfNode(NodeRemoved, node)];
      var todo := edges.Keys;
      while todo != {}
        invariant todo <= edges.Keys <= s.edges.Keys
        invariant services == s.services - {id} && serviceNameIndex == s.nameIndex - {node.serviceName}
        invariant lastActivityFlushMs == s.lastFlushMs
        invariant forall k :: k in edges <==> k in s.edges && (k in todo || !Touches(id, node, s.edges[k].edge))
        invariant forall k :: k in edges ==> edges[k] == s.edges[k]
        invariant Distinct(updates)
        invariant forall u :: u in updates <==>
          RemoveSays(s, id, u) && (u.edge.Some? ==> KeyOf(u.edge.value) !in todo)
        decreases todo
      {
        var k :| k in todo;
        todo := todo - {k};
        var edge := edges[k].edge;
        if edge.sourceServiceId == id || edge.targetService in keys {
          edges := edges - {k};
          updates := updates + [OfEdge(EdgeRemoved, edge)];
        }
      }
      assert edges == Remove(s, id).edges;
    }

    method UnregisterService(id: string) returns (updates: seq<TopologyUpdate>)
      requires Valid()
      modifies this
      ensures Valid()
      ensures Step(cfg, old(Contents()), DoUnregister(id), Contents(), updates)
    {
      updates := RemoveService(id);
    }

    method RecordHeartbeat(req: HeartbeatRequest, now: int) returns (updates: seq<TopologyUpdate>)
      requires Valid()
      modifies this
      ensures Valid()
      ensures Step(cfg, old(Contents()), DoHeartbeat(req, now), Contents(), updates)
    {
      updates := [];
      var id := req.serviceId;
      if id !in services { return; }
      var record := services[id];
      record := record.(lastHeartbeatMs := now, node := record.node.(lastHeartbeatMs := now));
      var forceUpdate := false;
      var nextState := if record.lastActivityMs > 0 then Idle else Registered;
      if record.node.state == Stale {
        record := record.(node := record.node.(state := nextState));
        forceUpdate := true;
      }
      if req.health.Some? && req.health.value != record.node.health {
        record := record.(node := record.node.(health := req.health.value));
        forceUpdate := true;
      }
      if forceUpdate || ShouldEmit(cfg, record, now) {
        updates := updates + [OfNode(NodeUpdated, record.node)];
        record := record.(lastNodeUpdateMs := now);
      }
      services := services[id := record];
    }

    /** First half of recordActivity: the calling service becomes active. */
    method TouchCaller(id: string, now: int) returns (updates: seq<TopologyUpdate>)
      requires id in services
      modifies this`services
      ensures services == old(services)[id := TouchService(cfg, old(services[id]), now).0]
      ensures updates == TouchService(cfg, old(services[id]), now).1
    {
      var record := services[id];
      record := record.(lastActivityMs := now, node := record.node.(lastActivityMs := now));
      updates := [];
      var forceUpdate := false;
      if record.node.state != Active {
        record := record.(node := record.node.(state := Active));
        forceUpdate := true;
      }
      if forceUpdate || ShouldEmit(cfg, record, now) {
        updates := updates + [OfNode(NodeUpdated, record.node)];
        record := record.(lastNodeUpdateMs := now);
      }
      services := services[id := record];
    }

    /** Second half: the edge is created if need be, and the activity is added to what it has pending. */
    method AccumulateActivity(event: ActivityEvent, now: int) returns (updates: seq<TopologyUpdate>)
      requires Valid()
      modifies this`edges
      ensures
        var key := EdgeKey(event.serviceId, event.targetService);
        var known := key in old(edges);
        && edges == old(edges)[key := AddPending(if known then old(edges)[key] else NewEdge(event, now), event, now)]
        && updates == if known then [] else [OfEdge(EdgeAdded, NewEdge(event, now).edge)]
    {
      updates := [];
      var key := EdgeKey(event.serviceId, event.targetService);
      if key !in edges {
        var edge := ServiceEdge(
          sourceServiceId := event.serviceId, targetService := event.targetService, state := ConnActive,
          lastActivityMs := now, totalRequests := 0, totalErrors := 0, avgLatencyMs := 0.0, rps := 0.0);
        edges := edges[key := EdgeRecord(
          edge := edge, lastActivityMs := now, lastFlushMs := now, pendingCount := 0, pendingErrorCount := 0,
          pendingLatencyTotal := 0, totalCount := 0, totalErrorCount := 0, avgLatencyMs := 0.0,
          rateSamples := [RateSample(now, 0)])];
        updates := updates + [OfEdge(EdgeAdded, edge)];
      }
      var active := edges[key];
      var batchSize := Max(1, event.batchSize.GetOr(1));
      active := active.(pendingCount := active.pendingCount + batchSize);
      active := active.(pendingLatencyTotal := active.pendingLatencyTotal + event.latencyMs.GetOr(0) * batchSize);
      if event.kind == ActivityError || event.success == Some(false) {
        active := active.(pendingErrorCount := active.pendingErrorCount + batchSize);
      }
      active := active.(lastActivityMs := now, edge := active.edge.(lastActivityMs := now, state := ConnActive));
      edges := edges[key := active];
    }

    method RecordActivity(event: ActivityEvent, now: int) returns (updates: seq<TopologyUpdate>)
      requires Valid()
      modifies this
      ensures Valid()
      ensures Step(cfg, old(Contents()), DoActivity(event, now), Contents(), updates)
    {
      updates := [];
      if event.serviceId !in services { return; }
      updates := TouchCaller(event.serviceId, now);
      var added := AccumulateActivity(event, now);
      updates := updates + added;
    }

    /** Appends the flush to the edge's samples, trims them to the window and derives the rate. */
    method UpdateEdgeRps(er: EdgeRecord, now: int, elapsedMs: int) returns (r: EdgeRecord)
      requires elapsedMs >= 1
      ensures
        var samples := if cfg.rpsWindowMs <= 0 then er.rateSamples
                       else Trim(er.rateSamples + [RateSample(now, er.totalCount)], now - cfg.rpsWindowMs);
        var rps := if cfg.rpsWindowMs <= 0 then er.pendingCount as real / (elapsedMs as real / 1000.0)
                   else WindowRps(samples);
        r == er.(rateSamples := samples, edge := er.edge.(rps := rps))
    {
      if cfg.rpsWindowMs <= 0 {
        return er.(edge := er.edge.(rps := er.pendingCount as real / (elapsedMs as real / 1000.0)));
      }
      var samples := er.rateSamples + [RateSample(now, er.totalCount)];
      var cutoff := now - cfg.rpsWindowMs;
      while |samples| > 2 && samples[0].timeMs < cutoff
        invariant Trim(samples, cutoff) == Trim(er.rateSamples + [RateSample(now, er.totalCount)], cutoff)
      {
        samples := samples[1..];
      }
      r := er.(rateSamples := samples);
      if |samples| < 2 {
        return r.(edge := r.edge.(rps := 0.0));
      }
      var oldest, latest := samples[0], samples[|samples| - 1];
      var windowMs := Max(1, latest.timeMs - oldest.timeMs);
      var delta := latest.totalCount - oldest.totalCount;
      r := r.(edge := r.edge.(rps := delta as real / (windowMs as real / 1000.0)));
    }

    /** Moves the pending batch of one edge into its totals. */
    method FlushPending(before: EdgeRecord, now: int, elapsedMs: int) returns (er: EdgeRecord)
      requires before.pendingCount != 0 && elapsedMs >= 1
      ensures er == FlushEdge(cfg, before, now, elapsedMs)
    {
      er := before;
      er := er.(totalCount := er.totalCount + er.pendingCount,
                totalErrorCount := er.totalErrorCount + er.pendingErrorCount);
      var previousCount := er.totalCount - er.pendingCount;
      var previousLatencyTotal := er.avgLatencyMs * Max(0, previousCount) as real;
      er := er.(avgLatencyMs := if er.totalCount == 0 then 0.0
                                else (previousLatencyTotal + er.pendingLatencyTotal as real) / er.totalCount as real);
      er := er.(edge := er.edge.(
        totalRequests := er.totalCount, totalErrors := er.totalErrorCount, avgLatencyMs := er.avgLatencyMs));
      er := UpdateEdgeRps(er, now, elapsedMs);
      er := er.(pendingCount := 0, pendingErrorCount := 0, pendingLatencyTotal := 0, lastFlushMs := now);
    }

    method FlushActivity(now: int) returns (updates: seq<TopologyUpdate>)
      requires Valid()
      modifies this
      ensures Valid()
      ensures Step(cfg, old(Contents()), DoFlush(now), Contents(), updates)
    {
      ghost var s := Contents();
      var elapsedMs := Max(1, now - lastActivityFlushMs);
      lastActivityFlushMs := now;
      updates := [];
      var todo := edges.Keys;
      while todo != {}
        invariant todo <= edges.Keys == s.edges.Keys
        invariant services == s.services && serviceNameIndex == s.nameIndex && lastActivityFlushMs == now
        invariant forall k :: k in edges ==>
          edges[k] == if k in todo then s.edges[k] else FlushEdge(cfg, s.edges[k], now, elapsedMs)
        invariant FlushTold(cfg, s, now, todo, updates)
        decreases todo
      {
        var k :| k in todo;
        FlushTells(cfg, s, now, todo, updates, k);
        todo := todo - {k};
        var er := edges[k];
        if er.pendingCount == 0 { continue; }
        er := FlushPending(er, now, elapsedMs);
        edges := edges[k := er];
        updates := updates + [OfEdge(EdgeUpdated, er.edge)];
      }
      assert edges == Flush(cfg, s, now).edges;
      FlushKeyed(cfg, s, now);
    }

    method SweepServices(now: int) returns (updates: seq<TopologyUpdate>)
      requires Valid()
      modifies this
      ensures Valid()
      ensures Contents() == MidServices(cfg, old(Contents()), now, {})
      ensures Distinct(updates)
      ensures forall u :: u in updates <==> MidServicesSays(cfg, old(Contents()), now, {}, u)
    {
      ghost var s := Contents();
      MidStart(cfg, s, now);
      updates := [];
      var todo := services.Keys;
      while todo != {}
        invariant todo <= s.services.Keys && Keyed(s) && Valid()
        invariant Contents() == MidServices(cfg, s, now, todo)
        invariant Distinct(updates)
        invariant forall u :: u in updates <==> MidServicesSays(cfg, s, now, todo, u)
        decreases todo
      {
        var id :| id in todo;
        var record := services[id];
        var elapsed := now - record.lastHeartbeatMs;
        var timeoutMs := record.heartbeatIntervalMs * record.timeoutMultiplier;
        if elapsed > timeoutMs {
          MidServicesRemove(cfg, s, now, todo, id);
          forall u { MidServicesRemoveSays(cfg, s, now, todo, id, u); }
          var removed := RemoveService(id);
          DistinctAppend(updates, removed);
          updates := updates + removed;
          todo := todo - {id};
          continue;
        }
        MidServicesMark(cfg, s, now, todo, id);
        forall u { MidServicesMarkSays(cfg, s, now, todo, id, u); }
        ghost var told := updates;
        if elapsed > record.heartbeatIntervalMs * 2 && record.node.state != Stale {
          record := record.(node := record.node.(state := Stale));
          updates := updates + [OfNode(NodeUpdated, record.node)];
          record := record.(lastNodeUpdateMs := now);
        }
        if record.node.state == Active {
          var idleElapsed := now - record.lastActivityMs;
          if record.lastActivityMs > 0 && idleElapsed > cfg.idleTimeoutMs {
            record := record.(node := record.node.(state := Idle));
            updates := updates + [OfNode(NodeUpdated, record.node)];
            record := record.(lastNodeUpdateMs := now);
          }
        }
        assert record == MarkService(cfg, s.services[id], now);
        DistinctAppend(told, if record == s.services[id] then [] else [OfNode(NodeUpdated, record.node)]);
        services := services[id := record];
        todo := todo - {id};
      }
    }

    method SweepEdges(now: int, ghost s: State, knownTargets: set<string>, told: seq<TopologyUpdate>)
      returns (updates: seq<TopologyUpdate>)
      requires Valid() && Keyed(s)
      requires Contents() == MidServices(cfg, s, now, {}) && knownTargets == KnownTargets(s)
      requires Distinct(told) && forall u :: u in told <==> MidServicesSays(cfg, s, now, {}, u)
      modifies this
      ensures Valid()
      ensures Contents() == Sweep(cfg, s, now)
      ensures Distinct(updates) && forall u :: u in updates <==> SweepSays(cfg, s, now, u)
    {
      updates := told;
      MidTurn(cfg, s, now);
      var todo := edges.Keys;
      while todo != {}
        invariant todo <= MidServices(cfg, s, now, {}).edges.Keys
        invariant Contents() == MidEdges(cfg, s, now, todo)
        invariant Distinct(updates)
        invariant forall u :: u in updates <==> MidEdgesSays(cfg, s, now, todo, u)
        decreases todo
      {
        var k :| k in todo;
        MidEdgesStep(cfg, s, now, todo, k);
        forall u { MidEdgesStepSays(cfg, s, now, todo, k, u); }
        todo := todo - {k};
        var er := edges[k];
        var idleElapsed := now - er.lastActivityMs;
        var said: seq<TopologyUpdate> := [];
        if cfg.unknownEdgeTimeoutMs > 0 && idleElapsed > cfg.unknownEdgeTimeoutMs
           && er.edge.targetService !in knownTargets {
          edges := edges - {k};
          said := [OfEdge(EdgeRemoved, er.edge)];
        } else if er.edge.state == ConnActive && idleElapsed > cfg.idleTimeoutMs {
          er := er.(edge := er.edge.(state := ConnIdle));
          edges := edges[k := er];
          said := [OfEdge(EdgeUpdated, er.edge)];
        }
        DistinctAppend(updates, said);
        updates := updates + said;
      }
      MidEnd(cfg, s, now);
      SweepKeyed(cfg, s, now);
    }

    method CollectServiceTargets() returns (targets: set<string>)
      ensures targets == KnownTargets(Contents())
    {
      targets := {};
      var todo := services.Keys;
      while todo != {}
        invariant todo <= services.Keys
        invariant targets == set id, key | id in services && id !in todo && key in ServiceKeys(services[id].node) :: key
        decreases todo
      {
        var id :| id in todo;
        todo := todo - {id};
        ghost var before := targets;
        targets := targets + ServiceKeys(services[id].node);
        ghost var done := set j, key | j in services && j !in todo && key in ServiceKeys(services[j].node) :: key;
        forall x ensures x in targets <==> x in done {
          if x in ServiceKeys(services[id].node) { assert id in services && id !in todo; }
        }
      }
    }

    method SweepAll(now: int) returns (updates: seq<TopologyUpdate>)
      requires Valid()
      modifies this
      ensures Valid()
      ensures Step(cfg, old(Contents()), DoSweep(now), Contents(), updates)
    {
      ghost var s := Contents();
      var knownTargets := CollectServiceTargets();
      updates := SweepServices(now);
      updates := SweepEdges(now, s, knownTargets, updates);
    }

    method Snapshot(now: int) returns (snapshot: TopologySnapshot)
      requires Valid()
      ensures SnapshotOf(Contents(), snapshot)
    {
      var nodes: seq<ServiceNode>, todo := [], services.Keys;
      while todo != {}
        invariant todo <= services.Keys
        invariant forall i, j :: 0 <= i < j < |nodes| ==> nodes[i].serviceId != nodes[j].serviceId
        invariant forall n :: n in nodes ==>
          n.serviceId in services && n.serviceId !in todo && services[n.serviceId].node == n
        invariant forall id :: id in services && id !in todo ==> services[id].node in nodes
        decreases todo
      {
        var id :| id in todo;
        todo := todo - {id};
        nodes := nodes + [services[id].node];
      }
      var shown: seq<ServiceEdge>, left := [], edges.Keys;
      while left != {}
        invariant left <= edges.Keys
        invariant forall i, j :: 0 <= i < j < |shown| ==> KeyOf(shown[i]) != KeyOf(shown[j])
        invariant forall e :: e in shown ==> KeyOf(e) in edges && KeyOf(e) !in left && edges[KeyOf(e)].edge == e
        invariant forall k :: k in edges && k !in left ==> edges[k].edge in shown
        decreases left
      {
        var k :| k in left;
        left := left - {k};
        shown := shown + [edges[k].edge];
      }
      snapshot := TopologySnapshot(nodes, shown, now);
    }
  }
}
