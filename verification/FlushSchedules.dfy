/** When the store flushes makes no difference to what it ends up showing, rates aside. */
module FlushSchedules {
  import opened Wrappers
  import opened Topology
  import opened StoreSpec
  import opened EdgeMetrics

  /** What does not depend on when an edge was flushed. */
  datatype Essence = Essence(edge: ServiceEdge, lastActivityMs: int, requests: int, errors: int, latency: real)

  datatype Gist = Gist(
    services: map<string, ServiceRecord>,
    nameIndex: map<string, string>,
    edges: map<string, Essence>)

  function EssenceOf(er: EdgeRecord): Essence {
    Essence(er.edge.(totalRequests := 0, totalErrors := 0, avgLatencyMs := 0.0, rps := 0.0), er.lastActivityMs,
            er.totalCount + er.pendingCount, er.totalErrorCount + er.pendingErrorCount, LatencyHeld(er))
  }

  function GistOf(s: State): Gist {
    Gist(s.services, s.nameIndex, map k | k in s.edges :: EssenceOf(s.edges[k]))
  }

  predicate Orderly(er: EdgeRecord) {
    && 0 <= er.pendingErrorCount <= er.pendingCount
    && 0 <= er.totalErrorCount <= er.totalCount
    && (er.pendingCount == 0 ==> er.pendingLatencyTotal == 0)
    && (er.totalCount == 0 ==> er.avgLatencyMs == 0.0)
    && er.edge.totalRequests == er.totalCount
    && er.edge.totalErrors == er.totalErrorCount
    && er.edge.avgLatencyMs == er.avgLatencyMs
  }

  predicate AllOrderly(s: State) {
    forall k :: k in s.edges ==> Orderly(s.edges[k])
  }

  // ----- what every call keeps -----

  lemma FlushEdgeKeeps(cfg: Config, er: EdgeRecord, now: int, elapsedMs: int)
    requires Orderly(er) && elapsedMs >= 1
    ensures Orderly(FlushEdge(cfg, er, now, elapsedMs))
    ensures EssenceOf(FlushEdge(cfg, er, now, elapsedMs)) == EssenceOf(er)
  {
    FlushKeepsLatency(cfg, er, now, elapsedMs);
  }

  lemma GistsAgree(s: State, t: State)
    requires s.services == t.services && s.nameIndex == t.nameIndex
    requires forall k :: k in s.edges <==> k in t.edges
    requires forall k :: k in s.edges ==> EssenceOf(s.edges[k]) == EssenceOf(t.edges[k])
    ensures GistOf(s) == GistOf(t)
  {
    var a, b := GistOf(s).edges, GistOf(t).edges;
    assert forall k :: k in a <==> k in b;
  }

  lemma FlushKeeps(cfg: Config, s: State, now: int)
    requires AllOrderly(s)
    ensures AllOrderly(Flush(cfg, s, now)) && GistOf(Flush(cfg, s, now)) == GistOf(s)
  {
    var flushed := Flush(cfg, s, now).edges;
    forall k | k in flushed ensures Orderly(flushed[k]) && EssenceOf(flushed[k]) == EssenceOf(s.edges[k]) {
      FlushEdgeKeeps(cfg, s.edges[k], now, ElapsedMs(s, now));
    }
    GistsAgree(Flush(cfg, s, now), s);
  }

  lemma SameEdges(s: State, t: State, k: string)
    requires GistOf(s) == GistOf(t)
    ensures k in s.edges <==> k in t.edges
    ensures k in s.edges ==> EssenceOf(s.edges[k]) == EssenceOf(t.edges[k])
  {
    assert k in GistOf(s).edges <==> k in GistOf(t).edges;
    if k in s.edges {
      assert GistOf(s).edges[k] == EssenceOf(s.edges[k]) && GistOf(t).edges[k] == EssenceOf(t.edges[k]);
    }
  }

  lemma ReportKeeps(er: EdgeRecord, ev: ActivityEvent, now: int)
    requires Orderly(er)
    ensures Orderly(AddPending(er, ev, now))
  {
  }

  lemma ReportAgrees(a: EdgeRecord, b: EdgeRecord, ev: ActivityEvent, now: int)
    requires EssenceOf(a) == EssenceOf(b)
    ensures EssenceOf(AddPending(a, ev, now)) == EssenceOf(AddPending(b, ev, now))
  {
    ReportAddsLatency(a, ev, now);
    ReportAddsLatency(b, ev, now);
  }

  lemma ActivityAgrees(cfg: Config, s: State, t: State, ev: ActivityEvent, now: int)
    requires GistOf(s) == GistOf(t) && AllOrderly(s)
    ensures GistOf(Activity(cfg, s, ev, now).state) == GistOf(Activity(cfg, t, ev, now).state)
    ensures AllOrderly(Activity(cfg, s, ev, now).state)
  {
    if ev.serviceId in s.services {
      var s', t' := Activity(cfg, s, ev, now).state, Activity(cfg, t, ev, now).state;
      var key := EdgeKey(ev.serviceId, ev.targetService);
      SameEdges(s, t, key);
      ReportKeeps(if key in s.edges then s.edges[key] else NewEdge(ev, now), ev, now);
      forall k ensures k in s'.edges <==> k in t'.edges
        ensures k in s'.edges ==> EssenceOf(s'.edges[k]) == EssenceOf(t'.edges[k])
      {
        SameEdges(s, t, k);
        if k == key && k in s.edges {
          ReportAgrees(s.edges[k], t.edges[k], ev, now);
        }
      }
      GistsAgree(s', t');
    }
  }

  /** A removal and a sweep see nothing of a flush. */
  lemma SameFate(a: EdgeRecord, b: EdgeRecord)
    requires EssenceOf(a) == EssenceOf(b)
    ensures a.edge.sourceServiceId == b.edge.sourceServiceId && a.edge.targetService == b.edge.targetService
    ensures a.edge.state == b.edge.state && a.lastActivityMs == b.lastActivityMs
  {
    var e, f := EssenceOf(a).edge, EssenceOf(b).edge;
    assert e.sourceServiceId == a.edge.sourceServiceId && f.sourceServiceId == b.edge.sourceServiceId;
  }

  lemma RemoveAgrees(s: State, t: State, id: string)
    requires GistOf(s) == GistOf(t) && AllOrderly(s)
    ensures GistOf(Remove(s, id)) == GistOf(Remove(t, id)) && AllOrderly(Remove(s, id))
  {
    if id in s.services {
      var s', t', node := Remove(s, id), Remove(t, id), s.services[id].node;
      forall k ensures k in s'.edges <==> k in t'.edges
        ensures k in s'.edges ==> EssenceOf(s'.edges[k]) == EssenceOf(t'.edges[k])
      {
        SameEdges(s, t, k);
        if k in s.edges {
          SameFate(s.edges[k], t.edges[k]);
        }
      }
      GistsAgree(s', t');
    }
  }

  lemma SweepEdgeAgrees(cfg: Config, s: State, t: State, now: int, a: EdgeRecord, b: EdgeRecord)
    requires s.services == t.services && EssenceOf(a) == EssenceOf(b)
    ensures EdgeSurvives(cfg, s, now, a) == EdgeSurvives(cfg, t, now, b)
    ensures EssenceOf(MarkEdge(cfg, a, now)) == EssenceOf(MarkEdge(cfg, b, now))
  {
    SameFate(a, b);
    assert KnownTargets(s) == KnownTargets(t);
    assert forall id :: id in s.services ==>
      Touches(id, s.services[id].node, a.edge) == Touches(id, s.services[id].node, b.edge);
  }

  lemma SweptEdgeAgrees(cfg: Config, s: State, t: State, now: int, k: string)
    requires s.services == t.services && (k in s.edges <==> k in t.edges)
    requires k in s.edges ==> EssenceOf(s.edges[k]) == EssenceOf(t.edges[k])
    ensures k in Sweep(cfg, s, now).edges <==> k in Sweep(cfg, t, now).edges
    ensures k in Sweep(cfg, s, now).edges ==>
              EssenceOf(Sweep(cfg, s, now).edges[k]) == EssenceOf(Sweep(cfg, t, now).edges[k])
  {
    if k in s.edges {
      SweepEdgeAgrees(cfg, s, t, now, s.edges[k], t.edges[k]);
    }
  }

  lemma SweepAgrees(cfg: Config, s: State, t: State, now: int)
    requires GistOf(s) == GistOf(t) && AllOrderly(s)
    ensures GistOf(Sweep(cfg, s, now)) == GistOf(Sweep(cfg, t, now)) && AllOrderly(Sweep(cfg, s, now))
  {
    var s', t' := Sweep(cfg, s, now), Sweep(cfg, t, now);
    assert s.services == GistOf(s).services == GistOf(t).services == t.services;
    forall k ensures k in s'.edges <==> k in t'.edges
      ensures k in s'.edges ==> EssenceOf(s'.edges[k]) == EssenceOf(t'.edges[k])
    {
      SameEdges(s, t, k);
      SweptEdgeAgrees(cfg, s, t, now, k);
    }
    GistsAgree(s', t');
  }

  lemma ServiceOpAgrees(cfg: Config, s: State, t: State, op: Op)
    requires op.DoRegister? || op.DoHeartbeat?
    requires GistOf(s) == GistOf(t) && AllOrderly(s)
    ensures GistOf(StateAfter(cfg, s, op)) == GistOf(StateAfter(cfg, t, op)) && AllOrderly(StateAfter(cfg, s, op))
  {
    var s', t' := StateAfter(cfg, s, op), StateAfter(cfg, t, op);
    assert s'.edges == s.edges && t'.edges == t.edges;
    assert GistOf(s') == GistOf(s).(services := s'.services, nameIndex := s'.nameIndex);
    assert GistOf(t') == GistOf(t).(services := t'.services, nameIndex := t'.nameIndex);
  }

  /** Every call but a flush takes states of one gist to states of one gist. */
  lemma StepAgrees(cfg: Config, s: State, t: State, op: Op)
    requires !op.DoFlush? && GistOf(s) == GistOf(t) && AllOrderly(s)
    ensures GistOf(StateAfter(cfg, s, op)) == GistOf(StateAfter(cfg, t, op)) && AllOrderly(StateAfter(cfg, s, op))
  {
    match op
    case DoActivity(ev, now) => ActivityAgrees(cfg, s, t, ev, now);
    case DoUnregister(id) => RemoveAgrees(s, t, id);
    case DoSweep(now) => SweepAgrees(cfg, s, t, now);
    case _ => ServiceOpAgrees(cfg, s, t, op);
  }

  // ----- runs -----

  function Play(cfg: Config, s: State, ops: seq<Op>): State {
    if ops == [] then s else StateAfter(cfg, Play(cfg, s, ops[..|ops| - 1]), ops[|ops| - 1])
  }

  function WithoutFlushes(ops: seq<Op>): seq<Op> {
    if ops == [] then []
    else WithoutFlushes(ops[..|ops| - 1]) + if ops[|ops| - 1].DoFlush? then [] else [ops[|ops| - 1]]
  }

  /** Leaving all flushes out keeps the gist. */
  lemma {:induction false} FlushesDoNotMatter(cfg: Config, s: State, ops: seq<Op>)
    requires AllOrderly(s)
    ensures GistOf(Play(cfg, s, ops)) == GistOf(Play(cfg, s, WithoutFlushes(ops)))
    ensures AllOrderly(Play(cfg, s, ops))
  {
    if ops != [] {
      var n := |ops| - 1;
      var init, op := ops[..n], ops[n];
      FlushesDoNotMatter(cfg, s, init);
      if op.DoFlush? {
        FlushKeeps(cfg, Play(cfg, s, init), op.now);
        assert WithoutFlushes(ops) == WithoutFlushes(init);
      } else {
        var kept := WithoutFlushes(init);
        assert (kept + [op])[..|kept|] == kept;
        StepAgrees(cfg, Play(cfg, s, init), Play(cfg, s, kept), op);
      }
    }
  }

  lemma {:induction false} GistAlone(cfg: Config, s: State, t: State, ops: seq<Op>)
    requires GistOf(s) == GistOf(t) && AllOrderly(s) && forall op :: op in ops ==> !op.DoFlush?
    ensures GistOf(Play(cfg, s, ops)) == GistOf(Play(cfg, t, ops)) && AllOrderly(Play(cfg, s, ops))
  {
    if ops != [] {
      var n := |ops| - 1;
      GistAlone(cfg, s, t, ops[..n]);
      assert ops[n] in ops;
      StepAgrees(cfg, Play(cfg, s, ops[..n]), Play(cfg, t, ops[..n]), ops[n]);
    }
  }

  lemma {:induction false} NoFlushesLeft(ops: seq<Op>)
    ensures forall op :: op in WithoutFlushes(ops) ==> !op.DoFlush?
  {
    if ops != [] { NoFlushesLeft(ops[..|ops| - 1]); }
  }

  lemma {:induction false} RunPlays(cfg: Config, states: seq<State>, ops: seq<Op>, emitted: seq<seq<TopologyUpdate>>,
                                    n: nat)
    requires Run(cfg, states, ops, emitted) && n < |states|
    ensures states[n] == Play(cfg, states[0], ops[..n])
    decreases n
  {
    if n > 0 {
      RunPlays(cfg, states, ops, emitted, n - 1);
      assert Follows(cfg, states, ops, emitted, n - 1);
      assert ops[..n][..n - 1] == ops[..n - 1];
    }
  }

  lemma RunGist(cfg: Config, states: seq<State>, ops: seq<Op>, emitted: seq<seq<TopologyUpdate>>)
    requires Run(cfg, states, ops, emitted)
    ensures AllOrderly(states[|ops|])
    ensures GistOf(states[|ops|]) == GistOf(Play(cfg, Init(0), WithoutFlushes(ops)))
  {
    RunPlays(cfg, states, ops, emitted, |ops|);
    assert ops[..|ops|] == ops;
    FlushesDoNotMatter(cfg, states[0], ops);
    NoFlushesLeft(ops);
    GistsAgree(states[0], Init(0));
    GistAlone(cfg, states[0], Init(0), WithoutFlushes(ops));
  }

  /** Alike in everything watchers are told, rates aside. */
  predicate ShowAlike(c: EdgeRecord, d: EdgeRecord) {
    && c.totalCount == d.totalCount && c.totalErrorCount == d.totalErrorCount && c.avgLatencyMs == d.avgLatencyMs
    && c.edge.(rps := 0.0) == d.edge.(rps := 0.0)
  }

  lemma SameShown(c: EdgeRecord, d: EdgeRecord)
    requires Orderly(c) && Orderly(d) && EssenceOf(c) == EssenceOf(d) && c.pendingCount == d.pendingCount == 0
    ensures ShowAlike(c, d)
  {
    assert EssenceOf(c).requests == c.totalCount && EssenceOf(d).requests == d.totalCount;
    assert EssenceOf(c).errors == c.totalErrorCount && EssenceOf(d).errors == d.totalErrorCount;
    assert EssenceOf(c).latency == c.avgLatencyMs * c.totalCount as real;
    assert EssenceOf(d).latency == d.avgLatencyMs * d.totalCount as real;
    if c.totalCount != 0 {
      QuotientUnique(c.avgLatencyMs, c.totalCount as real, EssenceOf(c).latency);
      QuotientUnique(d.avgLatencyMs, d.totalCount as real, EssenceOf(d).latency);
    }
    var e, f := EssenceOf(c).edge, EssenceOf(d).edge;
    assert c.edge.(rps := 0.0) == e.(totalRequests := c.totalCount, totalErrors := c.totalErrorCount,
                                     avgLatencyMs := c.avgLatencyMs);
    assert d.edge.(rps := 0.0) == f.(totalRequests := d.totalCount, totalErrors := d.totalErrorCount,
                                     avgLatencyMs := d.avgLatencyMs);
  }

  lemma FlushedAgree(cfg: Config, a: EdgeRecord, b: EdgeRecord, now: int, elapsedMs: int, now': int, elapsedMs': int)
    requires Orderly(a) && Orderly(b) && EssenceOf(a) == EssenceOf(b) && elapsedMs >= 1 && elapsedMs' >= 1
    ensures ShowAlike(FlushEdge(cfg, a, now, elapsedMs), FlushEdge(cfg, b, now', elapsedMs'))
  {
    FlushEdgeKeeps(cfg, a, now, elapsedMs);
    FlushEdgeKeeps(cfg, b, now', elapsedMs');
    SameShown(FlushEdge(cfg, a, now, elapsedMs), FlushEdge(cfg, b, now', elapsedMs'));
  }

  ghost predicate StatesAlike(s: State, t: State) {
    && s.services == t.services && s.nameIndex == t.nameIndex
    && (forall k :: k in s.edges <==> k in t.edges)
    && (forall k :: k in s.edges ==> ShowAlike(s.edges[k], t.edges[k]))
  }

  lemma FlushedStatesAgree(cfg: Config, a: State, b: State, now: int, now': int)
    requires GistOf(a) == GistOf(b) && AllOrderly(a) && AllOrderly(b)
    ensures StatesAlike(Flush(cfg, a, now), Flush(cfg, b, now'))
  {
    assert a.services == GistOf(a).services == GistOf(b).services == b.services;
    assert a.nameIndex == GistOf(a).nameIndex == GistOf(b).nameIndex == b.nameIndex;
    var s, t := Flush(cfg, a, now), Flush(cfg, b, now');
    forall k ensures k in s.edges <==> k in t.edges
      ensures k in s.edges ==> ShowAlike(s.edges[k], t.edges[k])
    {
      SameEdges(a, b, k);
      if k in a.edges {
        FlushedAgree(cfg, a.edges[k], b.edges[k], now, ElapsedMs(a, now), now', ElapsedMs(b, now'));
      }
    }
  }

  /** Flush-schedule independence: two runs of the same calls, flushed at any times and any number of times, have
      the same services and edges; after a final flush they show the same totals, errors and averages. */
  lemma RunFlushIndependence(
    cfg: Config,
    states: seq<State>, ops: seq<Op>, emitted: seq<seq<TopologyUpdate>>, now: int,
    states': seq<State>, ops': seq<Op>, emitted': seq<seq<TopologyUpdate>>, now': int)
    requires Run(cfg, states, ops, emitted) && Run(cfg, states', ops', emitted')
    requires WithoutFlushes(ops) == WithoutFlushes(ops')
    ensures StatesAlike(Flush(cfg, states[|ops|], now), Flush(cfg, states'[|ops'|], now'))
  {
    RunGist(cfg, states, ops, emitted);
    RunGist(cfg, states', ops', emitted');
    FlushedStatesAgree(cfg, states[|ops|], states'[|ops'|], now, now');
  }
}
