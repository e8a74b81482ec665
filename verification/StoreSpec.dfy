/** What each call on the topology store does to its state, and which updates it emits.
    Removal, flush and sweep are stated without an iteration order. */
module StoreSpec {
  import opened Wrappers
  import opened Topology

  datatype ServiceRecord = ServiceRecord(
    node: ServiceNode,
    lastHeartbeatMs: int,
    lastActivityMs: int,
    lastNodeUpdateMs: int,
    heartbeatIntervalMs: int,
    timeoutMultiplier: int)

  datatype RateSample = RateSample(timeMs: int, totalCount: int)

  datatype EdgeRecord = EdgeRecord(
    edge: ServiceEdge,
    lastActivityMs: int,
    lastFlushMs: int,
    pendingCount: int,
    pendingErrorCount: int,
    pendingLatencyTotal: int,
    totalCount: int,
    totalErrorCount: int,
    avgLatencyMs: real,
    rateSamples: seq<RateSample>)

  datatype Config = Config(
    heartbeatIntervalMs: int,
    timeoutMultiplier: int,
    idleTimeoutMs: int,
    unknownEdgeTimeoutMs: int,
    rpsWindowMs: int,
    nodeUpdateThrottleMs: int)

  datatype State = State(
    services: map<string, ServiceRecord>,
    edges: map<string, EdgeRecord>,
    nameIndex: map<string, string>,
    lastFlushMs: int)

  function Init(now: int): State {
    State(map[], map[], map[], now)
  }

  /** A call's result where the updates come in a fixed order. */
  datatype Outcome = Outcome(state: State, updates: seq<TopologyUpdate>)

  ghost predicate Distinct(updates: seq<TopologyUpdate>) {
    forall i, j :: 0 <= i < j < |updates| ==> updates[i] != updates[j]
  }

  lemma DistinctAppend(a: seq<TopologyUpdate>, b: seq<TopologyUpdate>)
    requires Distinct(a) && Distinct(b) && forall u :: u in a ==> u !in b
    ensures Distinct(a + b)
  {
    forall i, j | 0 <= i < j < |a + b| ensures (a + b)[i] != (a + b)[j] {
      if i < |a| <= j {
        assert a[i] in a && b[j - |a|] in b;
      }
    }
  }

  // ----- register -----

  function Register(cfg: Config, s: State, req: RegisterRequest, id: string, now: int): Outcome {
    var node := ServiceNode(id, req.serviceName, req.serviceType, req.language, req.version, req.address,
                            req.host, req.metadata, Registered, now, 0, HealthUnknown);
    var record := ServiceRecord(node, now, 0, now, cfg.heartbeatIntervalMs, cfg.timeoutMultiplier);
    Outcome(
      s.(services := s.services[id := record], nameIndex := s.nameIndex[req.serviceName := id]),
      [OfNode(NodeAdded, node)])
  }

  // ----- heartbeat -----

  predicate ShouldEmit(cfg: Config, record: ServiceRecord, now: int) {
    cfg.nodeUpdateThrottleMs <= 0 || now - record.lastNodeUpdateMs >= cfg.nodeUpdateThrottleMs
  }

  /** The record after a heartbeat, before it is decided whether watchers hear of it. */
  function Beat(record: ServiceRecord, health: Option<HealthState>, now: int): ServiceRecord {
    var node := record.node.(
      lastHeartbeatMs := now,
      state := if record.node.state != Stale then record.node.state
               else if record.lastActivityMs > 0 then Idle else Registered,
      health := health.GetOr(record.node.health));
    record.(node := node, lastHeartbeatMs := now)
  }

  function Heartbeat(cfg: Config, s: State, req: HeartbeatRequest, now: int): Outcome {
    if req.serviceId !in s.services then Outcome(s, [])
    else
      var before := s.services[req.serviceId];
      var after := Beat(before, req.health, now);
      var forced := before.node.state == Stale || after.node.health != before.node.health;
      if forced || ShouldEmit(cfg, before, now) then
        Outcome(s.(services := s.services[req.serviceId := after.(lastNodeUpdateMs := now)]),
                [OfNode(NodeUpdated, after.node)])
      else
        Outcome(s.(services := s.services[req.serviceId := after]), [])
  }

  // ----- activity -----

  function NewEdge(ev: ActivityEvent, now: int): EdgeRecord {
    EdgeRecord(
      ServiceEdge(ev.serviceId, ev.targetService, ConnActive, now, 0, 0, 0.0, 0.0),
      now, now, 0, 0, 0, 0, 0, 0.0, [RateSample(now, 0)])
  }

  function BatchSize(ev: ActivityEvent): int {
    Max(1, ev.batchSize.GetOr(1))
  }

  predicate Failed(ev: ActivityEvent) {
    ev.kind == ActivityError || ev.success == Some(false)
  }

  /** The edge record after one reported activity: counted as pending, watchers not told yet. */
  function AddPending(er: EdgeRecord, ev: ActivityEvent, now: int): EdgeRecord {
    er.(edge := er.edge.(lastActivityMs := now, state := ConnActive),
        lastActivityMs := now,
        pendingCount := er.pendingCount + BatchSize(ev),
        pendingLatencyTotal := er.pendingLatencyTotal + ev.latencyMs.GetOr(0) * BatchSize(ev),
        pendingErrorCount := er.pendingErrorCount + if Failed(ev) then BatchSize(ev) else 0)
  }

  /** The caller's record and the updates about it. */
  function TouchService(cfg: Config, record: ServiceRecord, now: int): (ServiceRecord, seq<TopologyUpdate>) {
    var node := record.node.(lastActivityMs := now, state := Active);
    var after := record.(node := node, lastActivityMs := now);
    if record.node.state != Active || ShouldEmit(cfg, record, now) then
      (after.(lastNodeUpdateMs := now), [OfNode(NodeUpdated, node)])
    else
      (after, [])
  }

  function Activity(cfg: Config, s: State, ev: ActivityEvent, now: int): Outcome {
    if ev.serviceId !in s.services then Outcome(s, [])
    else
      var (record, told) := TouchService(cfg, s.services[ev.serviceId], now);
      var key := EdgeKey(ev.serviceId, ev.targetService);
      var er := if key in s.edges then s.edges[key] else NewEdge(ev, now);
      Outcome(
        s.(services := s.services[ev.serviceId := record], edges := s.edges[key := AddPending(er, ev, now)]),
        told + if key in s.edges then [] else [OfEdge(EdgeAdded, NewEdge(ev, now).edge)])
  }

  // ----- flush -----

  /** Drops samples older than the window from the front, but never below two samples. */
  function Trim(samples: seq<RateSample>, cutoff: int): seq<RateSample> {
    if |samples| > 2 && samples[0].timeMs < cutoff then Trim(samples[1..], cutoff) else samples
  }

  /** Requests per second between the first and the last sample. */
  function WindowRps(samples: seq<RateSample>): real {
    if |samples| < 2 then 0.0
    else
      var oldest, latest := samples[0], samples[|samples| - 1];
      var elapsedMs := Max(1, latest.timeMs - oldest.timeMs);
      (latest.totalCount - oldest.totalCount) as real / (elapsedMs as real / 1000.0)
  }

  function Average(avg: real, count: int, pendingLatency: int, combined: int): real {
    if combined == 0 then 0.0
    else (avg * Max(0, count) as real + pendingLatency as real) / combined as real
  }

  /** Folds the pending batch of an edge into its totals; `elapsedMs` is the time since the last flush. */
  function FlushEdge(cfg: Config, er: EdgeRecord, now: int, elapsedMs: int): EdgeRecord
    requires elapsedMs >= 1
  {
    if er.pendingCount == 0 then er
    else
      var total := er.totalCount + er.pendingCount;
      var errors := er.totalErrorCount + er.pendingErrorCount;
      var avg := Average(er.avgLatencyMs, er.totalCount, er.pendingLatencyTotal, total);
      var samples := if cfg.rpsWindowMs <= 0 then er.rateSamples
                     else Trim(er.rateSamples + [RateSample(now, total)], now - cfg.rpsWindowMs);
      var rps := if cfg.rpsWindowMs <= 0 then er.pendingCount as real / (elapsedMs as real / 1000.0)
                 else WindowRps(samples);
      er.(edge := er.edge.(totalRequests := total, totalErrors := errors, avgLatencyMs := avg, rps := rps),
          lastFlushMs := now,
          pendingCount := 0,
          pendingErrorCount := 0,
          pendingLatencyTotal := 0,
          totalCount := total,
          totalErrorCount := errors,
          avgLatencyMs := avg,
          rateSamples := samples)
  }

  function ElapsedMs(s: State, now: int): int {
    Max(1, now - s.lastFlushMs)
  }

  function Flush(cfg: Config, s: State, now: int): State {
    s.(edges := map k | k in s.edges :: FlushEdge(cfg, s.edges[k], now, ElapsedMs(s, now)),
       lastFlushMs := now)
  }

  predicate FlushSays(cfg: Config, s: State, now: int, u: TopologyUpdate) {
    && u.edge.Some?
    && var k := KeyOf(u.edge.value);
    && k in s.edges
    && s.edges[k].pendingCount != 0
    && u == OfEdge(EdgeUpdated, FlushEdge(cfg, s.edges[k], now, ElapsedMs(s, now)).edge)
  }

  // ----- removal -----

  /** The edges that disappear with a service: its own, and those that call it by any of its keys. */
  predicate Touches(id: string, node: ServiceNode, edge: ServiceEdge) {
    edge.sourceServiceId == id || edge.targetService in ServiceKeys(node)
  }

  function Remove(s: State, id: string): State {
    if id !in s.services then s
    else
      var node := s.services[id].node;
      s.(services := s.services - {id},
         edges := map k | k in s.edges && !Touches(id, node, s.edges[k].edge) :: s.edges[k],
         nameIndex := s.nameIndex - {node.serviceName})
  }

  /** The update reports an edge of the state as removed. */
  predicate EdgeGone(s: State, u: TopologyUpdate) {
    && u.edge.Some?
    && KeyOf(u.edge.value) in s.edges
    && u == OfEdge(EdgeRemoved, s.edges[KeyOf(u.edge.value)].edge)
  }

  predicate RemoveSays(s: State, id: string, u: TopologyUpdate) {
    && id in s.services
    && var node := s.services[id].node;
    && (u == OfNode(NodeRemoved, node) || (EdgeGone(s, u) && Touches(id, node, u.edge.value)))
  }

  // ----- sweep -----

  predicate Overdue(record: ServiceRecord, now: int) {
    now - record.lastHeartbeatMs > record.heartbeatIntervalMs * record.timeoutMultiplier
  }

  function KnownTargets(s: State): set<string> {
    set id, key | id in s.services && key in ServiceKeys(s.services[id].node) :: key
  }

  function MarkService(cfg: Config, record: ServiceRecord, now: int): ServiceRecord {
    if now - record.lastHeartbeatMs > record.heartbeatIntervalMs * 2 && record.node.state != Stale then
      record.(node := record.node.(state := Stale), lastNodeUpdateMs := now)
    else if record.node.state == Active && record.lastActivityMs > 0
            && now - record.lastActivityMs > cfg.idleTimeoutMs then
      record.(node := record.node.(state := Idle), lastNodeUpdateMs := now)
    else record
  }

  function MarkEdge(cfg: Config, er: EdgeRecord, now: int): EdgeRecord {
    if er.edge.state == ConnActive && now - er.lastActivityMs > cfg.idleTimeoutMs then
      er.(edge := er.edge.(state := ConnIdle))
    else er
  }

  /** The edge is sourced at, or names, a service that the sweep removes. */
  predicate Orphaned(s: State, now: int, edge: ServiceEdge) {
    exists id :: id in s.services && Overdue(s.services[id], now) && Touches(id, s.services[id].node, edge)
  }

  /** The edge has idled too long and nobody known before the sweep answers to its target. */
  predicate Unresolved(cfg: Config, targets: set<string>, now: int, er: EdgeRecord) {
    && cfg.unknownEdgeTimeoutMs > 0
    && now - er.lastActivityMs > cfg.unknownEdgeTimeoutMs
    && er.edge.targetService !in targets
  }

  predicate EdgeSurvives(cfg: Config, s: State, now: int, er: EdgeRecord) {
    !Orphaned(s, now, er.edge) && !Unresolved(cfg, KnownTargets(s), now, er)
  }

  function Sweep(cfg: Config, s: State, now: int): State {
    State(
      map id | id in s.services && !Overdue(s.services[id], now) :: MarkService(cfg, s.services[id], now),
      map k | k in s.edges && EdgeSurvives(cfg, s, now, s.edges[k]) :: MarkEdge(cfg, s.edges[k], now),
      s.nameIndex - (set id | id in s.services && Overdue(s.services[id], now) :: s.services[id].node.serviceName),
      s.lastFlushMs)
  }

  predicate SweepSays(cfg: Config, s: State, now: int, u: TopologyUpdate) {
    if u.node.Some? then
      && var id := u.node.value.serviceId;
      && id in s.services
      && var record := s.services[id];
      && if Overdue(record, now) then u == OfNode(NodeRemoved, record.node)
         else MarkService(cfg, record, now) != record
              && u == OfNode(NodeUpdated, MarkService(cfg, record, now).node)
    else
      && u.edge.Some?
      && var k := KeyOf(u.edge.value);
      && k in s.edges
      && var er := s.edges[k];
      && if EdgeSurvives(cfg, s, now, er) then
           MarkEdge(cfg, er, now) != er && u == OfEdge(EdgeUpdated, MarkEdge(cfg, er, now).edge)
         else u == OfEdge(EdgeRemoved, er.edge)
  }

  // ----- runs -----

  datatype Op =
    | DoRegister(req: RegisterRequest, id: string, now: int)
    | DoUnregister(id: string)
    | DoHeartbeat(beat: HeartbeatRequest, now: int)
    | DoActivity(event: ActivityEvent, now: int)
    | DoFlush(now: int)
    | DoSweep(now: int)

  /** The state a call leaves. */
  function StateAfter(cfg: Config, s: State, op: Op): State {
    match op
    case DoRegister(req, id, now) => Register(cfg, s, req, id, now).state
    case DoUnregister(id) => Remove(s, id)
    case DoHeartbeat(beat, now) => Heartbeat(cfg, s, beat, now).state
    case DoActivity(event, now) => Activity(cfg, s, event, now).state
    case DoFlush(now) => Flush(cfg, s, now)
    case DoSweep(now) => Sweep(cfg, s, now)
  }

  /** The updates a call hands to the broadcast. */
  ghost predicate Emits(cfg: Config, s: State, op: Op, updates: seq<TopologyUpdate>) {
    match op
    case DoRegister(req, id, now) => updates == Register(cfg, s, req, id, now).updates
    case DoUnregister(id) => Distinct(updates) && (forall u :: u in updates <==> RemoveSays(s, id, u))
    case DoHeartbeat(beat, now) => updates == Heartbeat(cfg, s, beat, now).updates
    case DoActivity(event, now) => updates == Activity(cfg, s, event, now).updates
    case DoFlush(now) => Distinct(updates) && (forall u :: u in updates <==> FlushSays(cfg, s, now, u))
    case DoSweep(now) => Distinct(updates) && (forall u :: u in updates <==> SweepSays(cfg, s, now, u))
  }

  ghost predicate Step(cfg: Config, s: State, op: Op, s': State, updates: seq<TopologyUpdate>) {
    s' == StateAfter(cfg, s, op) && Emits(cfg, s, op, updates)
  }

  /** Ids come from a generator that does not repeat a live id. */
  predicate Fresh(s: State, op: Op) {
    op.DoRegister? ==> op.id !in s.services
  }

  /** The i-th call of a history turned `states[i]` into `states[i + 1]` and emitted `emitted[i]`. */
  ghost predicate Follows(cfg: Config, states: seq<State>, ops: seq<Op>, emitted: seq<seq<TopologyUpdate>>, i: nat)
    requires i < |ops| && i < |emitted| && i + 1 < |states|
  {
    Fresh(states[i], ops[i]) && Step(cfg, states[i], ops[i], states[i + 1], emitted[i])
  }

  ghost predicate Run(cfg: Config, states: seq<State>, ops: seq<Op>, emitted: seq<seq<TopologyUpdate>>) {
    && |states| == |ops| + 1 == |emitted| + 1
    && (exists now :: states[0] == Init(now))
    && forall i :: 0 <= i < |ops| ==> Follows(cfg, states, ops, emitted, i)
  }

  /** Maps are keyed by the ids and edge keys of what they hold. */
  predicate Keyed(s: State) {
    && (forall id :: id in s.services ==> s.services[id].node.serviceId == id)
    && (forall k :: k in s.edges ==> KeyOf(s.edges[k].edge) == k)
  }
}
