/** What holds of the store in every reachable state. */
module StoreInvariant {
  import opened Wrappers
  import opened Topology
  import opened StoreSpec
  import opened Store

  /** The life cycle of a service; a positive activity time records that it has been active. */
  predicate LifeCycle(record: ServiceRecord) {
    && record.lastHeartbeatMs == record.node.lastHeartbeatMs
    && record.lastActivityMs == record.node.lastActivityMs
    && record.lastActivityMs >= 0
    && match record.node.state
       case Registered => record.lastActivityMs == 0
       case Active => record.lastActivityMs > 0
       case Idle => record.lastActivityMs > 0
       case Stale => true
       case Dead => false
       case StateUnspecified => false
  }

  /** The edge as shown carries the totals of its record. */
  predicate EdgeConsistent(er: EdgeRecord) {
    && er.edge.lastActivityMs == er.lastActivityMs
    && er.edge.state in {ConnActive, ConnIdle}
    && er.edge.totalRequests == er.totalCount
    && er.edge.totalErrors == er.totalErrorCount
    && er.edge.avgLatencyMs == er.avgLatencyMs
  }

  predicate Sourced(s: State) {
    forall k :: k in s.edges ==> s.edges[k].edge.sourceServiceId in s.services
  }

  /** Entries of the name index are sound: each leads to a live service of that name. */
  predicate IndexSound(s: State) {
    forall name :: name in s.nameIndex ==>
      s.nameIndex[name] in s.services && s.services[s.nameIndex[name]].node.serviceName == name
  }

  predicate Invariant(s: State) {
    && Keyed(s)
    && Sourced(s)
    && IndexSound(s)
    && (forall id :: id in s.services ==> LifeCycle(s.services[id]))
    && (forall k :: k in s.edges ==> EdgeConsistent(s.edges[k]))
  }

  /** Activity is stamped with a positive time, as Date.now is. */
  predicate PositiveClock(op: Op) {
    op.DoActivity? ==> op.now > 0
  }

  lemma RegisterKeepsInvariant(cfg: Config, s: State, req: RegisterRequest, id: string, now: int)
    requires Invariant(s) && id !in s.services
    ensures Invariant(Register(cfg, s, req, id, now).state)
  {
  }

  lemma RecordReplaced(s: State, id: string, record: ServiceRecord)
    requires Invariant(s) && id in s.services && LifeCycle(record)
    requires record.node.serviceId == id && record.node.serviceName == s.services[id].node.serviceName
    ensures Invariant(s.(services := s.services[id := record]))
  {
  }

  lemma EdgePut(s: State, key: string, er: EdgeRecord)
    requires Invariant(s) && EdgeConsistent(er) && KeyOf(er.edge) == key && er.edge.sourceServiceId in s.services
    ensures Invariant(s.(edges := s.edges[key := er]))
  {
  }

  lemma HeartbeatKeepsInvariant(cfg: Config, s: State, beat: HeartbeatRequest, now: int)
    requires Invariant(s)
    ensures Invariant(Heartbeat(cfg, s, beat, now).state)
  {
    if beat.serviceId in s.services {
      RecordReplaced(s, beat.serviceId, Heartbeat(cfg, s, beat, now).state.services[beat.serviceId]);
    }
  }

  lemma ActivityKeepsInvariant(cfg: Config, s: State, ev: ActivityEvent, now: int)
    requires Invariant(s) && now > 0
    ensures Invariant(Activity(cfg, s, ev, now).state)
  {
    if ev.serviceId in s.services {
      var key := EdgeKey(ev.serviceId, ev.targetService);
      var record := TouchService(cfg, s.services[ev.serviceId], now).0;
      RecordReplaced(s, ev.serviceId, record);
      if key in s.edges {
        assert s.edges[key].edge.sourceServiceId in s.services;
      }
      EdgePut(s.(services := s.services[ev.serviceId := record]), key,
              AddPending(if key in s.edges then s.edges[key] else NewEdge(ev, now), ev, now));
    }
  }

  lemma FlushKeepsInvariant(cfg: Config, s: State, now: int)
    requires Invariant(s)
    ensures Invariant(Flush(cfg, s, now))
  {
  }

  lemma RemoveKeepsInvariant(s: State, id: string)
    requires Invariant(s)
    ensures Invariant(Remove(s, id))
  {
  }

  lemma SweepKeepsSourced(cfg: Config, s: State, now: int)
    requires Invariant(s)
    ensures Sourced(Sweep(cfg, s, now))
  {
    var s' := Sweep(cfg, s, now);
    forall k | k in s'.edges ensures s'.edges[k].edge.sourceServiceId in s'.services {
      var e := s.edges[k].edge;
      assert !Orphaned(s, now, e);
      assert Touches(e.sourceServiceId, s.services[e.sourceServiceId].node, e);
    }
  }

  lemma SweepKeepsInvariant(cfg: Config, s: State, now: int)
    requires Invariant(s)
    ensures Invariant(Sweep(cfg, s, now))
  {
    var s' := Sweep(cfg, s, now);
    SweepKeyed(cfg, s, now);
    SweepKeepsSourced(cfg, s, now);
    forall name | name in s'.nameIndex
      ensures s'.nameIndex[name] in s'.services && s'.services[s'.nameIndex[name]].node.serviceName == name {}
  }

  lemma StepKeepsInvariant(cfg: Config, s: State, op: Op, s': State, updates: seq<TopologyUpdate>)
    requires Invariant(s) && Fresh(s, op) && PositiveClock(op) && Step(cfg, s, op, s', updates)
    ensures Invariant(s')
  {
    match op
    case DoRegister(req, id, now) => RegisterKeepsInvariant(cfg, s, req, id, now);
    case DoHeartbeat(beat, now) => HeartbeatKeepsInvariant(cfg, s, beat, now);
    case DoUnregister(id) => RemoveKeepsInvariant(s, id);
    case DoActivity(event, now) => ActivityKeepsInvariant(cfg, s, event, now);
    case DoFlush(now) => FlushKeepsInvariant(cfg, s, now);
    case DoSweep(now) => SweepKeepsInvariant(cfg, s, now);
  }

  /** Every state of every run satisfies the invariant. */
  lemma {:induction false} RunInvariant(cfg: Config, states: seq<State>, ops: seq<Op>,
                                        emitted: seq<seq<TopologyUpdate>>, n: nat)
    requires Run(cfg, states, ops, emitted) && n < |states|
    requires forall op :: op in ops ==> PositiveClock(op)
    ensures Invariant(states[n])
    decreases n
  {
    if n > 0 {
      RunInvariant(cfg, states, ops, emitted, n - 1);
      assert Follows(cfg, states, ops, emitted, n - 1);
      StepKeepsInvariant(cfg, states[n - 1], ops[n - 1], states[n], emitted[n - 1]);
    }
  }

  // ----- REGISTERED means: not active since it registered -----

  lemma StepRemembersActivity(cfg: Config, s: State, op: Op, s': State, updates: seq<TopologyUpdate>, id: string)
    requires Fresh(s, op) && PositiveClock(op) && Step(cfg, s, op, s', updates)
    requires id in s.services && id in s'.services
    requires s.services[id].lastActivityMs > 0 || (op.DoActivity? && op.event.serviceId == id)
    ensures s'.services[id].lastActivityMs > 0
  {
  }

  lemma {:induction false} ActiveSince(cfg: Config, states: seq<State>, ops: seq<Op>,
                                       emitted: seq<seq<TopologyUpdate>>, i: nat, n: nat, id: string)
    requires Run(cfg, states, ops, emitted) && i < n < |states|
    requires forall op :: op in ops ==> PositiveClock(op)
    requires ops[i].DoActivity? && ops[i].event.serviceId == id
    requires forall j :: i <= j <= n ==> id in states[j].services
    ensures states[n].services[id].lastActivityMs > 0
    decreases n
  {
    assert Follows(cfg, states, ops, emitted, n - 1);
    assert ops[n - 1] in ops;
    if n - 1 > i {
      ActiveSince(cfg, states, ops, emitted, i, n - 1, id);
    }
    StepRemembersActivity(cfg, states[n - 1], ops[n - 1], states[n], emitted[n - 1], id);
  }

  /** A service shown as REGISTERED has reported no activity during its present life. */
  lemma RegisteredMeansSilent(cfg: Config, states: seq<State>, ops: seq<Op>,
                              emitted: seq<seq<TopologyUpdate>>, i: nat, n: nat, id: string)
    requires Run(cfg, states, ops, emitted) && i < n < |states|
    requires forall op :: op in ops ==> PositiveClock(op)
    requires forall j :: i <= j <= n ==> id in states[j].services
    requires states[n].services[id].node.state == Registered
    ensures !(ops[i].DoActivity? && ops[i].event.serviceId == id)
  {
    RunInvariant(cfg, states, ops, emitted, n);
    if ops[i].DoActivity? && ops[i].event.serviceId == id {
      ActiveSince(cfg, states, ops, emitted, i, n, id);
    }
  }

  // ----- an edge is found under exactly one source and target -----

  predicate ColonFree(s: State) {
    forall id :: id in s.services ==> ':' !in id
  }

  /** With ids as the store draws them, what is kept under an edge key is the edge so named. */
  lemma EdgeLookup(s: State, source: string, target: string)
    requires Invariant(s) && ColonFree(s) && source in s.services
    requires EdgeKey(source, target) in s.edges
    ensures var e := s.edges[EdgeKey(source, target)].edge;
            e.sourceServiceId == source && e.targetService == target
  {
    var e := s.edges[EdgeKey(source, target)].edge;
    EdgeKeyInjective(e.sourceServiceId, e.targetService, source, target);
  }
}
