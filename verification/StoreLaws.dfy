/** What each call on the store does, field by field, with every comparison written out. */
module StoreLaws {
  import opened Wrappers
  import opened Topology
  import opened StoreSpec

  // ----- what a call leaves alone -----

  ghost predicate OtherServicesKept(s: State, s': State, id: string) {
    forall other :: other != id ==>
      && (other in s'.services <==> other in s.services)
      && (other in s.services ==> s'.services[other] == s.services[other])
  }

  ghost predicate OtherEdgesKept(s: State, s': State, k: string) {
    forall other :: other != k ==>
      && (other in s'.edges <==> other in s.edges)
      && (other in s.edges ==> s'.edges[other] == s.edges[other])
  }

  // ----- registration -----

  /** A registration records what was asked for, the time as first heartbeat, and the store's own terms. */
  lemma Registers(cfg: Config, s: State, req: RegisterRequest, id: string, now: int, s': State,
                  updates: seq<TopologyUpdate>)
    requires Step(cfg, s, DoRegister(req, id, now), s', updates)
    ensures id in s'.services
    ensures
      var n := s'.services[id].node;
      && n.serviceId == id && n.serviceName == req.serviceName
      && n.serviceType == req.serviceType && n.language == req.language
      && n.version == req.version && n.address == req.address && n.host == req.host && n.metadata == req.metadata
      && n.state == Registered && n.health == HealthUnknown
      && n.lastHeartbeatMs == now && n.lastActivityMs == 0
    ensures
      var r := s'.services[id];
      && r.lastHeartbeatMs == now && r.lastActivityMs == 0 && r.lastNodeUpdateMs == now
      && r.heartbeatIntervalMs == cfg.heartbeatIntervalMs && r.timeoutMultiplier == cfg.timeoutMultiplier
    ensures OtherServicesKept(s, s', id) && s'.edges == s.edges && s'.lastFlushMs == s.lastFlushMs
    ensures forall name :: name in s'.nameIndex <==> name in s.nameIndex || name == req.serviceName
    ensures forall name :: name in s'.nameIndex ==>
      s'.nameIndex[name] == if name == req.serviceName then id else s.nameIndex[name]
    ensures updates == [TopologyUpdate(NodeAdded, Some(s'.services[id].node), None, None)]
  {
  }

  // ----- heartbeat -----

  /** Whether watchers hear of a change that is no matter of urgency. */
  predicate ThrottlePassed(cfg: Config, r: ServiceRecord, now: int) {
    cfg.nodeUpdateThrottleMs <= 0 || r.lastNodeUpdateMs + cfg.nodeUpdateThrottleMs <= now
  }

  /** A heartbeat moves the clock, brings a stale service back, takes over the health it carries, and is
      announced when it does either of the latter or the throttle has passed. */
  lemma HeartbeatTells(cfg: Config, s: State, beat: HeartbeatRequest, now: int, s': State,
                       updates: seq<TopologyUpdate>)
    requires Step(cfg, s, DoHeartbeat(beat, now), s', updates)
    ensures beat.serviceId !in s.services ==> s' == s && updates == []
    ensures s'.edges == s.edges && s'.nameIndex == s.nameIndex && s'.lastFlushMs == s.lastFlushMs
    ensures OtherServicesKept(s, s', beat.serviceId)
    ensures beat.serviceId in s.services ==>
      && beat.serviceId in s'.services
      && var r, r' := s.services[beat.serviceId], s'.services[beat.serviceId];
      && r'.lastHeartbeatMs == now && r'.node.lastHeartbeatMs == now
      && (r.node.state != Stale ==> r'.node.state == r.node.state)
      && (r.node.state == Stale ==> r'.node.state == if r.lastActivityMs > 0 then Idle else Registered)
      && (beat.health.Some? ==> r'.node.health == beat.health.value)
      && (beat.health.None? ==> r'.node.health == r.node.health)
      && var urgent := r.node.state == Stale || (beat.health.Some? && beat.health.value != r.node.health);
      && (updates != [] <==> urgent || ThrottlePassed(cfg, r, now))
      && (updates != [] ==> updates == [TopologyUpdate(NodeUpdated, Some(r'.node), None, None)])
      && r'.lastNodeUpdateMs == (if updates != [] then now else r.lastNodeUpdateMs)
      && r'.node == r.node.(lastHeartbeatMs := now, state := r'.node.state, health := r'.node.health)
      && r' == r.(node := r'.node, lastHeartbeatMs := now, lastNodeUpdateMs := r'.lastNodeUpdateMs)
  {
  }

  // ----- activity -----

  lemma UnknownCallerIgnored(cfg: Config, s: State, ev: ActivityEvent, now: int, s': State,
                             updates: seq<TopologyUpdate>)
    requires Step(cfg, s, DoActivity(ev, now), s', updates) && ev.serviceId !in s.services
    ensures s' == s && updates == []
  {
  }

  /** The caller becomes active; watchers hear of it at once if it was not, else when the throttle has passed. */
  lemma CallerBecomesActive(cfg: Config, s: State, ev: ActivityEvent, now: int, s': State,
                            updates: seq<TopologyUpdate>)
    requires Step(cfg, s, DoActivity(ev, now), s', updates) && ev.serviceId in s.services
    ensures OtherServicesKept(s, s', ev.serviceId) && s'.nameIndex == s.nameIndex && s'.lastFlushMs == s.lastFlushMs
    ensures
      && ev.serviceId in s'.services
      && var r, r' := s.services[ev.serviceId], s'.services[ev.serviceId];
      && r'.node == r.node.(state := Active, lastActivityMs := now)
      && var told := r.node.state != Active || ThrottlePassed(cfg, r, now);
      && r' == r.(node := r'.node, lastActivityMs := now, lastNodeUpdateMs := if told then now else r.lastNodeUpdateMs)
      && (forall node :: TopologyUpdate(NodeUpdated, Some(node), None, None) in updates <==> told && node == r'.node)
  {
  }

  /** How many requests a report stands for: at least one. */
  function Reported(ev: ActivityEvent): int {
    match ev.batchSize
    case Some(n) => if n >= 1 then n else 1
    case None => 1
  }

  /** The report is added to what is pending: its requests, the latency of each, and, if it is an error or was
      not successful, as many errors. Totals, average and rate wait for a flush. */
  lemma ReportIsPending(cfg: Config, s: State, ev: ActivityEvent, now: int, s': State, updates: seq<TopologyUpdate>)
    requires Step(cfg, s, DoActivity(ev, now), s', updates) && ev.serviceId in s.services
    ensures
      var k := ev.serviceId + "::" + ev.targetService;
      && OtherEdgesKept(s, s', k) && k in s'.edges
      && var er' := s'.edges[k];
      && er'.lastActivityMs == now && er'.edge.lastActivityMs == now && er'.edge.state == ConnActive
      && var failed := ev.kind == ActivityError || (ev.success.Some? && !ev.success.value);
      && var errors := if failed then Reported(ev) else 0;
      && var latency := if ev.latencyMs.Some? then ev.latencyMs.value * Reported(ev) else 0;
      && (k in s.edges ==>
           var er := s.edges[k];
           && er'.pendingCount == er.pendingCount + Reported(ev)
           && er'.pendingErrorCount == er.pendingErrorCount + errors
           && er'.pendingLatencyTotal == er.pendingLatencyTotal + latency
           && er' == er.(edge := er.edge.(lastActivityMs := now, state := ConnActive), lastActivityMs := now,
                         pendingCount := er'.pendingCount, pendingErrorCount := er'.pendingErrorCount,
                         pendingLatencyTotal := er'.pendingLatencyTotal))
      && (k !in s.edges ==>
           && er'.pendingCount == Reported(ev) && er'.pendingErrorCount == errors && er'.pendingLatencyTotal == latency)
  {
  }

  /** The first report of a connection creates its edge, and announces it last, with nothing counted yet. */
  lemma NewEdgeAnnounced(cfg: Config, s: State, ev: ActivityEvent, now: int, s': State, updates: seq<TopologyUpdate>)
    requires Step(cfg, s, DoActivity(ev, now), s', updates) && ev.serviceId in s.services
    ensures
      var k := ev.serviceId + "::" + ev.targetService;
      && ((exists u :: u in updates && u.node == None) <==> k !in s.edges)
      && (k !in s.edges ==>
           && k in s'.edges
           && var er' := s'.edges[k];
           && er'.totalCount == 0 && er'.totalErrorCount == 0 && er'.avgLatencyMs == 0.0
           && er'.lastFlushMs == now && er'.rateSamples == [RateSample(now, 0)]
           && er'.edge.sourceServiceId == ev.serviceId && er'.edge.targetService == ev.targetService
           && er'.edge.totalRequests == 0 && er'.edge.totalErrors == 0 && er'.edge.avgLatencyMs == 0.0
           && er'.edge.rps == 0.0
           && updates != []
           && updates[|updates| - 1] == TopologyUpdate(EdgeAdded, None, Some(er'.edge), None))
  {
    var k := ev.serviceId + "::" + ev.targetService;
    assert EdgeKey(ev.serviceId, ev.targetService) == k;
    if k !in s.edges {
      assert updates[|updates| - 1] in updates && updates[|updates| - 1].node == None;
    }
  }

  // ----- flush -----

  /** A flush moves what is pending into the totals and the edge shown, and leaves idle edges as they are. */
  lemma FlushCounts(cfg: Config, s: State, now: int, s': State, updates: seq<TopologyUpdate>, k: string)
    requires Step(cfg, s, DoFlush(now), s', updates)
    ensures s'.services == s.services && s'.nameIndex == s.nameIndex && s'.lastFlushMs == now
    ensures k in s'.edges <==> k in s.edges
    ensures k in s.edges && s.edges[k].pendingCount == 0 ==> s'.edges[k] == s.edges[k]
    ensures k in s.edges && s.edges[k].pendingCount != 0 ==>
      var er, er' := s.edges[k], s'.edges[k];
      && er'.pendingCount == 0 && er'.pendingErrorCount == 0 && er'.pendingLatencyTotal == 0
      && er'.totalCount == er.totalCount + er.pendingCount
      && er'.totalErrorCount == er.totalErrorCount + er.pendingErrorCount
      && er'.lastFlushMs == now && er'.lastActivityMs == er.lastActivityMs
      && er'.edge.totalRequests == er'.totalCount && er'.edge.totalErrors == er'.totalErrorCount
      && er'.edge.avgLatencyMs == er'.avgLatencyMs
      && er'.edge == er.edge.(totalRequests := er'.totalCount, totalErrors := er'.totalErrorCount,
                              avgLatencyMs := er'.avgLatencyMs, rps := er'.edge.rps)
  {
  }

  lemma RateTimesElapsed(count: real, elapsed: real)
    requires elapsed != 0.0
    ensures count / (elapsed / 1000.0) * elapsed == 1000.0 * count
  {
    var seconds := elapsed / 1000.0;
    assert seconds != 0.0 && elapsed == 1000.0 * seconds;
    assert count / seconds * seconds == count;
  }

  /** Without a window, the rate is what was flushed over the time since the last flush, at least 1 ms. */
  lemma UnwindowedRate(cfg: Config, s: State, now: int, s': State, updates: seq<TopologyUpdate>, k: string)
    requires Step(cfg, s, DoFlush(now), s', updates) && cfg.rpsWindowMs <= 0
    requires k in s.edges && s.edges[k].pendingCount != 0
    ensures k in s'.edges && s'.edges[k].rateSamples == s.edges[k].rateSamples
    ensures
      var elapsed := if now - s.lastFlushMs > 1 then now - s.lastFlushMs else 1;
      s'.edges[k].edge.rps * elapsed as real == 1000.0 * s.edges[k].pendingCount as real
  {
    var elapsed := if now - s.lastFlushMs > 1 then now - s.lastFlushMs else 1;
    var count := s.edges[k].pendingCount as real;
    assert ElapsedMs(s, now) == elapsed;
    assert s'.edges[k].edge.rps == count / (elapsed as real / 1000.0);
    RateTimesElapsed(count, elapsed as real);
  }

  /** Exactly the edges with something pending are announced, as they are afterwards. */
  lemma FlushTells(cfg: Config, s: State, now: int, s': State, updates: seq<TopologyUpdate>, u: TopologyUpdate)
    requires Step(cfg, s, DoFlush(now), s', updates) && Keyed(s)
    ensures u in updates <==>
      && u.kind == EdgeUpdated && u.node == None && u.snapshot == None && u.edge.Some?
      && var k := u.edge.value.sourceServiceId + "::" + u.edge.value.targetService;
      && k in s.edges && s.edges[k].pendingCount != 0
      && k in s'.edges && u.edge.value == s'.edges[k].edge
  {
    if u.edge.Some? {
      assert KeyOf(u.edge.value) == u.edge.value.sourceServiceId + "::" + u.edge.value.targetService;
    }
  }

  // ----- removal -----

  /** Unregistering takes the service, the edges it is the source of and those that call it by a key. */
  lemma Unregisters(cfg: Config, s: State, id: string, s': State, updates: seq<TopologyUpdate>)
    requires Step(cfg, s, DoUnregister(id), s', updates)
    ensures id !in s'.services && OtherServicesKept(s, s', id) && s'.lastFlushMs == s.lastFlushMs
    ensures id !in s.services ==> s' == s && updates == []
    ensures id in s.services ==>
      && (forall k :: k in s'.edges <==>
            && k in s.edges && s.edges[k].edge.sourceServiceId != id
            && s.edges[k].edge.targetService !in ServiceKeys(s.services[id].node))
      && (forall k :: k in s'.edges ==> s'.edges[k] == s.edges[k])
      && (forall name :: name in s'.nameIndex <==> name in s.nameIndex && name != s.services[id].node.serviceName)
      && (forall name :: name in s'.nameIndex ==> s'.nameIndex[name] == s.nameIndex[name])
  {
    assert updates == [] || updates[0] in updates;
  }

  /** Watchers hear of it, and of each edge it takes along, once. */
  lemma UnregisterTells(cfg: Config, s: State, id: string, s': State, updates: seq<TopologyUpdate>,
                        u: TopologyUpdate)
    requires Step(cfg, s, DoUnregister(id), s', updates) && Keyed(s)
    ensures forall i, j :: 0 <= i < j < |updates| ==> updates[i] != updates[j]
    ensures u in updates <==>
      && id in s.services
      && (|| u == TopologyUpdate(NodeRemoved, Some(s.services[id].node), None, None)
          || (exists k :: k in s.edges && k !in s'.edges
                          && u == TopologyUpdate(EdgeRemoved, None, Some(s.edges[k].edge), None)))
  {
  }

  // ----- sweep -----

  /** A sweep removes the services silent for more than their interval times their multiplier, and marks those
      silent for more than two intervals as stale; of the others it marks the active ones without recent activity
      as idle. Nothing else about a service changes. */
  lemma SweepMarksServices(cfg: Config, s: State, now: int, s': State, updates: seq<TopologyUpdate>, id: string)
    requires Step(cfg, s, DoSweep(now), s', updates)
    ensures
      id in s'.services
      <==>
      && id in s.services
      && now - s.services[id].lastHeartbeatMs
         <= s.services[id].heartbeatIntervalMs * s.services[id].timeoutMultiplier
    ensures id in s'.services ==>
      var r, r' := s.services[id], s'.services[id];
      var silent := now - r.lastHeartbeatMs > 2 * r.heartbeatIntervalMs;
      var inactive := r.lastActivityMs > 0 && now - r.lastActivityMs > cfg.idleTimeoutMs;
      && (r'.node.state == Stale <==> r.node.state == Stale || silent)
      && (r'.node.state == Idle <==> !silent && (r.node.state == Idle || (r.node.state == Active && inactive)))
      && (r'.node.state !in {Stale, Idle} ==> r'.node.state == r.node.state)
      && r'.node == r.node.(state := r'.node.state)
      && r' == r.(node := r'.node,
                  lastNodeUpdateMs := if r'.node.state != r.node.state then now else r.lastNodeUpdateMs)
  {
  }

  /** A sweep removes the edges from and to the services it removes, and those without activity for more than the
      timeout for unknown targets that name no service; of the others it marks as idle those that were active and
      have had no activity for more than the idle timeout. */
  lemma SweepMarksEdges(cfg: Config, s: State, now: int, s': State, updates: seq<TopologyUpdate>, k: string)
    requires Step(cfg, s, DoSweep(now), s', updates)
    ensures
      k in s'.edges
      <==>
      && k in s.edges
      && (forall id :: id in s.services && id !in s'.services ==>
            s.edges[k].edge.sourceServiceId != id
            && s.edges[k].edge.targetService !in ServiceKeys(s.services[id].node))
      && (cfg.unknownEdgeTimeoutMs <= 0
          || now - s.edges[k].lastActivityMs <= cfg.unknownEdgeTimeoutMs
          || exists id :: id in s.services && s.edges[k].edge.targetService in ServiceKeys(s.services[id].node))
    ensures k in s'.edges ==>
      var er, er' := s.edges[k], s'.edges[k];
      && (er'.edge.state == ConnIdle <==>
            || er.edge.state == ConnIdle
            || (er.edge.state == ConnActive && now - er.lastActivityMs > cfg.idleTimeoutMs))
      && (er'.edge.state != ConnIdle ==> er'.edge.state == er.edge.state)
      && er' == er.(edge := er.edge.(state := er'.edge.state))
  {
  }

  lemma SweepLeavesTheRest(cfg: Config, s: State, now: int, s': State, updates: seq<TopologyUpdate>, name: string)
    requires Step(cfg, s, DoSweep(now), s', updates)
    ensures s'.lastFlushMs == s.lastFlushMs
    ensures
      name in s'.nameIndex
      <==>
      && name in s.nameIndex
      && forall id :: id in s.services && id !in s'.services ==> s.services[id].node.serviceName != name
    ensures name in s'.nameIndex ==> s'.nameIndex[name] == s.nameIndex[name]
  {
  }

  /** Watchers hear of a sweep which services it removed and which it marked, and of none besides. */
  lemma SweepTellsServices(cfg: Config, s: State, now: int, s': State, updates: seq<TopologyUpdate>)
    requires Step(cfg, s, DoSweep(now), s', updates) && Keyed(s)
    ensures forall node :: TopologyUpdate(NodeRemoved, Some(node), None, None) in updates <==>
      node.serviceId in s.services && node.serviceId !in s'.services && node == s.services[node.serviceId].node
    ensures forall node :: TopologyUpdate(NodeUpdated, Some(node), None, None) in updates <==>
      && node.serviceId in s'.services && node == s'.services[node.serviceId].node
      && node.state != s.services[node.serviceId].node.state
  {
  }

  /** The same for edges. */
  lemma SweepTellsEdges(cfg: Config, s: State, now: int, s': State, updates: seq<TopologyUpdate>)
    requires Step(cfg, s, DoSweep(now), s', updates) && Keyed(s)
    ensures forall edge :: TopologyUpdate(EdgeRemoved, None, Some(edge), None) in updates <==>
      KeyOf(edge) in s.edges && KeyOf(edge) !in s'.edges && edge == s.edges[KeyOf(edge)].edge
    ensures forall edge :: TopologyUpdate(EdgeUpdated, None, Some(edge), None) in updates <==>
      && KeyOf(edge) in s'.edges && edge == s'.edges[KeyOf(edge)].edge
      && edge.state != s.edges[KeyOf(edge)].edge.state
  {
  }

  /** Everything a sweep says is of one of these four kinds, and said once. */
  lemma SweepSaysOnce(cfg: Config, s: State, now: int, s': State, updates: seq<TopologyUpdate>)
    requires Step(cfg, s, DoSweep(now), s', updates)
    ensures forall i, j :: 0 <= i < j < |updates| ==> updates[i] != updates[j]
    ensures forall u :: u in updates ==>
      || (u.kind in {NodeRemoved, NodeUpdated} && u.node.Some? && u.edge == None && u.snapshot == None)
      || (u.kind in {EdgeRemoved, EdgeUpdated} && u.edge.Some? && u.node == None && u.snapshot == None)
  {
  }
}
