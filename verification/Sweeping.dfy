/** What a sweep leaves behind: nothing for a second one, and nothing that depends on earlier ones. */
module Sweeping {
  import opened Wrappers
  import opened Topology
  import opened StoreSpec
  import opened StoreInvariant

  /** What later sweeps see of an earlier one: who is left, with the same clocks and keys. */
  ghost predicate Survivors(s: State, s': State, now: int) {
    && (forall id :: id in s'.services <==> id in s.services && !Overdue(s.services[id], now))
    && (forall id :: id in s'.services ==>
          && s'.services[id].lastHeartbeatMs == s.services[id].lastHeartbeatMs
          && s'.services[id].heartbeatIntervalMs == s.services[id].heartbeatIntervalMs
          && s'.services[id].timeoutMultiplier == s.services[id].timeoutMultiplier
          && s'.services[id].node.serviceName == s.services[id].node.serviceName
          && ServiceKeys(s'.services[id].node) == ServiceKeys(s.services[id].node))
  }

  lemma Survivor(cfg: Config, s: State, now: int, id: string)
    ensures id in Sweep(cfg, s, now).services <==> id in s.services && !Overdue(s.services[id], now)
    ensures id in Sweep(cfg, s, now).services ==>
              Sweep(cfg, s, now).services[id] == MarkService(cfg, s.services[id], now)
  {
  }

  lemma SweepSurvivors(cfg: Config, s: State, now: int)
    ensures Survivors(s, Sweep(cfg, s, now), now)
  {
    forall id { Survivor(cfg, s, now, id); }
  }

  lemma TargetStillKnown(s: State, s': State, now: int, edge: ServiceEdge)
    requires Survivors(s, s', now)
    ensures !Orphaned(s, now, edge) && edge.targetService in KnownTargets(s) ==> edge.targetService in KnownTargets(s')
  {
    if !Orphaned(s, now, edge) && edge.targetService in KnownTargets(s) {
      var id :| id in s.services && edge.targetService in ServiceKeys(s.services[id].node);
      assert Touches(id, s.services[id].node, edge);
      assert id in s'.services && edge.targetService in ServiceKeys(s'.services[id].node);
    }
  }

  /** An edge that outlived a sweep although long idle calls a service that outlived it too, although
      the known targets were collected before any service was removed. */
  lemma OverdueTargetSurvives(cfg: Config, s: State, now: int, k: string)
    ensures
      && k in Sweep(cfg, s, now).edges
      && cfg.unknownEdgeTimeoutMs > 0 && now - s.edges[k].lastActivityMs > cfg.unknownEdgeTimeoutMs
      ==> s.edges[k].edge.targetService in KnownTargets(Sweep(cfg, s, now))
  {
    var s' := Sweep(cfg, s, now);
    if k in s'.edges && s.edges[k].edge.targetService in KnownTargets(s) {
      SweepSurvivors(cfg, s, now);
      TargetStillKnown(s, s', now, s.edges[k].edge);
    }
  }

  /** The services without their throttle clocks, which only tell when watchers last heard of them. */
  function Settled(services: map<string, ServiceRecord>): map<string, ServiceRecord> {
    map id | id in services :: services[id].(lastNodeUpdateMs := 0)
  }

  function SweptServices(cfg: Config, services: map<string, ServiceRecord>, now: int): map<string, ServiceRecord> {
    map id | id in services && !Overdue(services[id], now) :: MarkService(cfg, services[id], now)
  }

  lemma MarkTwice(cfg: Config, record: ServiceRecord, now: int, later: int)
    requires now <= later
    ensures MarkService(cfg, MarkService(cfg, record, now), later).(lastNodeUpdateMs := 0)
         == MarkService(cfg, record, later).(lastNodeUpdateMs := 0)
    ensures MarkService(cfg, MarkService(cfg, record, now), now) == MarkService(cfg, record, now)
  {
  }

  lemma FallsOnceIfTwice(cfg: Config, s: State, s': State, now: int, later: int, er: EdgeRecord)
    requires Survivors(s, s', now)
    requires EdgeSurvives(cfg, s, now, er) && EdgeSurvives(cfg, s', later, er)
    ensures EdgeSurvives(cfg, s, later, er)
  {
    if Orphaned(s, later, er.edge) {
      var id :| id in s.services && Overdue(s.services[id], later) && Touches(id, s.services[id].node, er.edge);
      assert id in s'.services && Overdue(s'.services[id], later) && Touches(id, s'.services[id].node, er.edge);
    }
  }

  lemma FallsTwiceIfOnce(cfg: Config, s: State, s': State, now: int, later: int, er: EdgeRecord)
    requires Survivors(s, s', now) && now <= later && EdgeSurvives(cfg, s, later, er)
    ensures EdgeSurvives(cfg, s, now, er) && EdgeSurvives(cfg, s', later, er)
  {
    assert Orphaned(s, now, er.edge) ==> Orphaned(s, later, er.edge);
    assert Orphaned(s', later, er.edge) ==> Orphaned(s, later, er.edge);
    if er.edge.targetService in KnownTargets(s) {
      TargetStillKnown(s, s', now, er.edge);
    }
  }

  /** An edge falls to either of two sweeps exactly when it would fall to the later one alone. */
  lemma EdgeSurvivesBoth(cfg: Config, s: State, s': State, now: int, later: int, er: EdgeRecord)
    requires now <= later && Survivors(s, s', now)
    ensures EdgeSurvives(cfg, s, now, er) && EdgeSurvives(cfg, s', later, er) <==> EdgeSurvives(cfg, s, later, er)
  {
    if EdgeSurvives(cfg, s, now, er) && EdgeSurvives(cfg, s', later, er) {
      FallsOnceIfTwice(cfg, s, s', now, later, er);
    }
    if EdgeSurvives(cfg, s, later, er) {
      FallsTwiceIfOnce(cfg, s, s', now, later, er);
    }
  }

  lemma SameVerdict(cfg: Config, s: State, now: int, er: EdgeRecord, marked: EdgeRecord)
    requires marked == er || marked == er.(edge := er.edge.(state := ConnIdle))
    ensures EdgeSurvives(cfg, s, now, marked) == EdgeSurvives(cfg, s, now, er)
  {
    assert forall id :: id in s.services ==>
      Touches(id, s.services[id].node, marked.edge) == Touches(id, s.services[id].node, er.edge);
  }

  lemma SweptTwiceAt(cfg: Config, services: map<string, ServiceRecord>, now: int, later: int, id: string)
    requires now <= later
    ensures
      var twice := SweptServices(cfg, SweptServices(cfg, services, now), later);
      var once := SweptServices(cfg, services, later);
      && (id in twice <==> id in once)
      && (id in once ==> twice[id].(lastNodeUpdateMs := 0) == once[id].(lastNodeUpdateMs := 0))
      && (now == later && id in once ==> twice[id] == once[id])
  {
    if id in services {
      MarkTwice(cfg, services[id], now, later);
    }
  }

  lemma EarlierSweepServices(cfg: Config, services: map<string, ServiceRecord>, now: int, later: int)
    requires now <= later
    ensures
      var twice := SweptServices(cfg, SweptServices(cfg, services, now), later);
      var once := SweptServices(cfg, services, later);
      Settled(twice) == Settled(once) && (now == later ==> twice == once)
  {
    forall id {
      SweptTwiceAt(cfg, services, now, later, id);
    }
  }

  lemma EarlierSweepEdges(cfg: Config, s: State, now: int, later: int)
    requires now <= later
    ensures Sweep(cfg, Sweep(cfg, s, now), later).edges == Sweep(cfg, s, later).edges
  {
    var s' := Sweep(cfg, s, now);
    SweepSurvivors(cfg, s, now);
    forall k | k in s.edges
      ensures k in s'.edges && EdgeSurvives(cfg, s', later, s'.edges[k]) <==> EdgeSurvives(cfg, s, later, s.edges[k])
    {
      EdgeSurvivesBoth(cfg, s, s', now, later, s.edges[k]);
      SameVerdict(cfg, s', later, s.edges[k], MarkEdge(cfg, s.edges[k], now));
    }
  }

  /** The names whose index entries a sweep deletes. */
  function OverdueNames(services: map<string, ServiceRecord>, now: int): set<string> {
    set id | id in services && Overdue(services[id], now) :: services[id].node.serviceName
  }

  lemma SweptNames(cfg: Config, s: State, now: int)
    ensures Sweep(cfg, s, now).nameIndex == s.nameIndex - OverdueNames(s.services, now)
  {
  }

  lemma OverdueInTwoSweeps(s: State, s': State, now: int, later: int)
    requires now <= later && Survivors(s, s', now)
    ensures OverdueNames(s.services, later) <= OverdueNames(s.services, now) + OverdueNames(s'.services, later)
    ensures OverdueNames(s'.services, later) <= OverdueNames(s.services, later)
  {
    forall id | id in s.services && Overdue(s.services[id], later)
      ensures s.services[id].node.serviceName in OverdueNames(s.services, now) + OverdueNames(s'.services, later)
    {
      if !Overdue(s.services[id], now) { assert id in s'.services && Overdue(s'.services[id], later); }
    }
  }

  lemma OverdueSoonerIsOverdueLater(s: State, now: int, later: int)
    requires now <= later
    ensures OverdueNames(s.services, now) <= OverdueNames(s.services, later)
  {
  }

  lemma EarlierSweepNames(cfg: Config, s: State, now: int, later: int)
    requires now <= later
    ensures Sweep(cfg, Sweep(cfg, s, now), later).nameIndex == Sweep(cfg, s, later).nameIndex
  {
    var s' := Sweep(cfg, s, now);
    var first, rest, all :=
      OverdueNames(s.services, now), OverdueNames(s'.services, later), OverdueNames(s.services, later);
    assert all == first + rest by {
      SweepSurvivors(cfg, s, now);
      OverdueInTwoSweeps(s, s', now, later);
      OverdueSoonerIsOverdueLater(s, now, later);
    }
    SweptNames(cfg, s, now);
    SweptNames(cfg, s', later);
    SweptNames(cfg, s, later);
    assert s.nameIndex - first - rest == s.nameIndex - (first + rest);
  }

  lemma SweepServicesOnly(cfg: Config, s: State, now: int, later: int)
    ensures Sweep(cfg, s, now).services == SweptServices(cfg, s.services, now)
    ensures Sweep(cfg, Sweep(cfg, s, now), later).services
             == SweptServices(cfg, SweptServices(cfg, s.services, now), later)
    ensures Sweep(cfg, s, later).services == SweptServices(cfg, s.services, later)
    ensures Sweep(cfg, Sweep(cfg, s, now), later).lastFlushMs == Sweep(cfg, s, later).lastFlushMs == s.lastFlushMs
  {
  }

  /** Sweeping earlier as well makes no difference to what a sweep leaves, throttle clocks aside. */
  lemma EarlierSweepAbsorbed(cfg: Config, s: State, now: int, later: int)
    requires now <= later
    ensures var twice, once := Sweep(cfg, Sweep(cfg, s, now), later), Sweep(cfg, s, later);
            Settled(twice.services) == Settled(once.services) && twice == once.(services := twice.services)
  {
    EarlierSweepServices(cfg, s.services, now, later);
    EarlierSweepEdges(cfg, s, now, later);
    EarlierSweepNames(cfg, s, now, later);
    SweepServicesOnly(cfg, s, now, later);
  }

  lemma FixpointSilent(cfg: Config, s: State, now: int)
    requires Sweep(cfg, s, now).services == s.services && Sweep(cfg, s, now).edges == s.edges
    ensures forall u :: !SweepSays(cfg, s, now, u)
  {
    forall id | id in s.services
      ensures !Overdue(s.services[id], now) && MarkService(cfg, s.services[id], now) == s.services[id]
    {
      assert id in Sweep(cfg, s, now).services;
    }
    forall k | k in s.edges
      ensures EdgeSurvives(cfg, s, now, s.edges[k]) && MarkEdge(cfg, s.edges[k], now) == s.edges[k]
    {
      assert k in Sweep(cfg, s, now).edges;
    }
  }

  /** A second sweep at the same time changes nothing and says nothing. */
  lemma SweepFixpoint(cfg: Config, s: State, now: int)
    ensures Sweep(cfg, Sweep(cfg, s, now), now) == Sweep(cfg, s, now)
    ensures forall u :: !SweepSays(cfg, Sweep(cfg, s, now), now, u)
  {
    EarlierSweepServices(cfg, s.services, now, now);
    EarlierSweepEdges(cfg, s, now, now);
    EarlierSweepNames(cfg, s, now, now);
    SweepServicesOnly(cfg, s, now, now);
    FixpointSilent(cfg, Sweep(cfg, s, now), now);
  }

  /** A service goes with the first sweep that finds it overdue, and only then; its edges go with it. */
  lemma OverdueExactly(cfg: Config, s: State, now: int, id: string)
    requires id in s.services
    ensures id in Sweep(cfg, s, now).services <==> !Overdue(s.services[id], now)
    ensures Overdue(s.services[id], now) ==>
              forall k :: k in Sweep(cfg, s, now).edges ==>
                && Sweep(cfg, s, now).edges[k].edge.sourceServiceId != id
                && Sweep(cfg, s, now).edges[k].edge.targetService !in ServiceKeys(s.services[id].node)
  {
    if Overdue(s.services[id], now) {
      forall k | k in Sweep(cfg, s, now).edges ensures !Touches(id, s.services[id].node, s.edges[k].edge) {
        assert !Orphaned(s, now, s.edges[k].edge);
      }
    }
  }
}
