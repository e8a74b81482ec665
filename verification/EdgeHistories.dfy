/** In every run of the store, each edge record is the replay of that edge's own history. */
module EdgeHistories {
  import opened Wrappers
  import opened Topology
  import opened StoreSpec
  import opened EdgeMetrics

  type Histories = map<string, History>

  /** The histories after one more call: an edge's history begins when it appears and ends when it goes. */
  function Extend(cfg: Config, s: State, op: Op, hs: Histories): Histories {
    match op
    case DoRegister(_, _, _) => hs
    case DoHeartbeat(_, _) => hs
    case DoUnregister(id) => map k | k in hs && k in Remove(s, id).edges :: hs[k]
    case DoActivity(ev, now) =>
      if ev.serviceId !in s.services then hs
      else
        var key := EdgeKey(ev.serviceId, ev.targetService);
        var h := if key in hs then hs[key] else History(ev, now, []);
        hs[key := Then(h, Reported(ev, now))]
    case DoFlush(now) => map k | k in hs :: Then(hs[k], Flushed(now, ElapsedMs(s, now)))
    case DoSweep(now) =>
      var swept := Sweep(cfg, s, now).edges;
      map k | k in hs && k in swept :: if swept[k] == s.edges[k] then hs[k] else Then(hs[k], Idled)
  }

  function HistoriesAt(cfg: Config, states: seq<State>, ops: seq<Op>, n: nat): Histories
    requires n <= |ops| < |states|
  {
    if n == 0 then map[] else Extend(cfg, states[n - 1], ops[n - 1], HistoriesAt(cfg, states, ops, n - 1))
  }

  ghost predicate Tracks(cfg: Config, s: State, hs: Histories) {
    && hs.Keys == s.edges.Keys
    && forall k :: k in hs ==> Sensible(hs[k]) && Replay(cfg, hs[k]) == s.edges[k]
  }

  lemma ActivityTracks(cfg: Config, s: State, ev: ActivityEvent, now: int, hs: Histories)
    requires Tracks(cfg, s, hs)
    ensures Tracks(cfg, Activity(cfg, s, ev, now).state, Extend(cfg, s, DoActivity(ev, now), hs))
  {
    if ev.serviceId in s.services {
      var key := EdgeKey(ev.serviceId, ev.targetService);
      ReplayThen(cfg, if key in hs then hs[key] else History(ev, now, []), Reported(ev, now));
    }
  }

  lemma FlushTracksEdge(cfg: Config, s: State, now: int, hs: Histories, k: string)
    requires Tracks(cfg, s, hs) && k in hs
    ensures var hs' := Extend(cfg, s, DoFlush(now), hs);
            k in hs' && Sensible(hs'[k]) && Replay(cfg, hs'[k]) == Flush(cfg, s, now).edges[k]
  {
    ReplayThen(cfg, hs[k], Flushed(now, ElapsedMs(s, now)));
  }

  lemma FlushTracks(cfg: Config, s: State, now: int, hs: Histories)
    requires Tracks(cfg, s, hs)
    ensures Tracks(cfg, Flush(cfg, s, now), Extend(cfg, s, DoFlush(now), hs))
  {
    var hs', flushed := Extend(cfg, s, DoFlush(now), hs), Flush(cfg, s, now).edges;
    assert hs'.Keys == hs.Keys && flushed.Keys == s.edges.Keys;
    forall k | k in hs' ensures Sensible(hs'[k]) && Replay(cfg, hs'[k]) == flushed[k] {
      FlushTracksEdge(cfg, s, now, hs, k);
    }
  }

  lemma SweepTracksEdge(cfg: Config, s: State, now: int, hs: Histories, k: string)
    requires Tracks(cfg, s, hs) && k in hs && k in Sweep(cfg, s, now).edges
    ensures var h := if Sweep(cfg, s, now).edges[k] == s.edges[k] then hs[k] else Then(hs[k], Idled);
            Sensible(h) && Replay(cfg, h) == Sweep(cfg, s, now).edges[k]
  {
    assert Sweep(cfg, s, now).edges[k] == MarkEdge(cfg, s.edges[k], now);
    ReplayThen(cfg, hs[k], Idled);
  }

  lemma SweepTracks(cfg: Config, s: State, now: int, hs: Histories)
    requires Tracks(cfg, s, hs)
    ensures Tracks(cfg, Sweep(cfg, s, now), Extend(cfg, s, DoSweep(now), hs))
  {
    var swept := Sweep(cfg, s, now).edges;
    assert swept.Keys <= hs.Keys;
    forall k | k in swept
      ensures var h := if swept[k] == s.edges[k] then hs[k] else Then(hs[k], Idled);
              Sensible(h) && Replay(cfg, h) == swept[k]
    {
      SweepTracksEdge(cfg, s, now, hs, k);
    }
    assert Extend(cfg, s, DoSweep(now), hs).Keys == swept.Keys;
  }

  lemma ExtendTracks(cfg: Config, s: State, op: Op, s': State, updates: seq<TopologyUpdate>, hs: Histories)
    requires Tracks(cfg, s, hs) && Step(cfg, s, op, s', updates)
    ensures Tracks(cfg, s', Extend(cfg, s, op, hs))
  {
    match op
    case DoActivity(ev, now) => ActivityTracks(cfg, s, ev, now, hs);
    case DoFlush(now) => FlushTracks(cfg, s, now, hs);
    case DoSweep(now) => SweepTracks(cfg, s, now, hs);
    case DoUnregister(_) =>
    case DoRegister(_, _, _) =>
    case DoHeartbeat(_, _) =>
  }

  predicate Timed(op: Op) {
    !op.DoUnregister?
  }

  /** The clock does not run backwards. */
  ghost predicate Chronological(ops: seq<Op>) {
    forall i, j :: 0 <= i < j < |ops| && Timed(ops[i]) && Timed(ops[j]) ==> ops[i].now <= ops[j].now
  }

  /** Flush times so far are in order, and no later call is stamped earlier. */
  ghost predicate Ordered(h: History, ops: seq<Op>, n: nat) {
    InOrder(h) && forall j :: n <= j < |ops| && Timed(ops[j]) ==> LastFlush(h) <= ops[j].now
  }

  lemma OrderThen(h: History, e: EdgeEvent, ops: seq<Op>, n: nat)
    requires 0 < n <= |ops| && Chronological(ops)
    requires Ordered(h, ops, n - 1)
    requires e.Flushed? ==> Timed(ops[n - 1]) && e.now == ops[n - 1].now
    ensures Ordered(Then(h, e), ops, n)
  {
    assert Before(Then(h, e)) == h && Last(Then(h, e)) == e;
  }

  lemma {:induction false} RunHistories(cfg: Config, states: seq<State>, ops: seq<Op>,
                                        emitted: seq<seq<TopologyUpdate>>, n: nat)
    requires Run(cfg, states, ops, emitted) && n <= |ops|
    ensures Tracks(cfg, states[n], HistoriesAt(cfg, states, ops, n))
    decreases n
  {
    if n > 0 {
      RunHistories(cfg, states, ops, emitted, n - 1);
      assert Follows(cfg, states, ops, emitted, n - 1);
      ExtendTracks(cfg, states[n - 1], ops[n - 1], states[n], emitted[n - 1], HistoriesAt(cfg, states, ops, n - 1));
    }
  }

  lemma ExtendOrdered(cfg: Config, s: State, ops: seq<Op>, n: nat, hs: Histories)
    requires 0 < n <= |ops| && Chronological(ops)
    requires forall k :: k in hs ==> Ordered(hs[k], ops, n - 1)
    ensures var hs' := Extend(cfg, s, ops[n - 1], hs); forall k :: k in hs' ==> Ordered(hs'[k], ops, n)
  {
    var hs' := Extend(cfg, s, ops[n - 1], hs);
    forall k | k in hs' ensures Ordered(hs'[k], ops, n) {
      match ops[n - 1] {
        case DoActivity(ev, now) =>
          if k !in hs || hs'[k] != hs[k] {
            OrderThen(if k in hs then hs[k] else History(ev, now, []), Reported(ev, now), ops, n);
          }
        case DoFlush(now) => OrderThen(hs[k], Flushed(now, ElapsedMs(s, now)), ops, n);
        case DoSweep(now) => OrderThen(hs[k], Idled, ops, n);
        case _ =>
      }
    }
  }

  lemma {:induction false} RunOrdered(cfg: Config, states: seq<State>, ops: seq<Op>, n: nat, k: string)
    requires n <= |ops| < |states| && Chronological(ops)
    requires k in HistoriesAt(cfg, states, ops, n)
    ensures Ordered(HistoriesAt(cfg, states, ops, n)[k], ops, n)
    decreases n
  {
    if n > 0 {
      var hs := HistoriesAt(cfg, states, ops, n - 1);
      forall j | j in hs ensures Ordered(hs[j], ops, n - 1) {
        RunOrdered(cfg, states, ops, n - 1, j);
      }
      ExtendOrdered(cfg, states[n - 1], ops, n, hs);
    }
  }

  /** The counts every edge shows, in every reachable state, are those of its own history. */
  lemma RunConservation(cfg: Config, states: seq<State>, ops: seq<Op>, emitted: seq<seq<TopologyUpdate>>,
                        n: nat, k: string)
    requires Run(cfg, states, ops, emitted) && n <= |ops| && k in states[n].edges
    ensures
      var er := states[n].edges[k];
      && k in HistoriesAt(cfg, states, ops, n)
      && var events := HistoriesAt(cfg, states, ops, n)[k].events;
      && er.totalCount + er.pendingCount == Requests(events)
      && er.totalErrorCount + er.pendingErrorCount == Errors(events)
      && LatencyHeld(er) == Latency(events) as real
      && 0 <= er.totalErrorCount <= er.totalCount
      && 0 <= er.pendingErrorCount <= er.pendingCount
  {
    RunHistories(cfg, states, ops, emitted, n);
    var h := HistoriesAt(cfg, states, ops, n)[k];
    Conservation(cfg, h);
    LatencyConservation(cfg, h);
  }

  /** The samples every edge keeps, in every reachable state, are one trim of all it ever took. */
  lemma RunWindow(cfg: Config, states: seq<State>, ops: seq<Op>, emitted: seq<seq<TopologyUpdate>>,
                  n: nat, k: string)
    requires Run(cfg, states, ops, emitted) && n <= |ops| && k in states[n].edges
    requires cfg.rpsWindowMs > 0 && Chronological(ops)
    ensures k in HistoriesAt(cfg, states, ops, n)
    ensures var h := HistoriesAt(cfg, states, ops, n)[k];
            states[n].edges[k].rateSamples == Trim(AllSamples(h), LastFlush(h) - cfg.rpsWindowMs)
  {
    RunHistories(cfg, states, ops, emitted, n);
    RunOrdered(cfg, states, ops, n, k);
    WindowOfHistory(cfg, HistoriesAt(cfg, states, ops, n)[k]);
  }
}
