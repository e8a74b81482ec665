/** The metrics of an edge, as functions of everything that happened to it since it appeared. */
module EdgeMetrics {
  import opened Wrappers
  import opened Topology
  import opened StoreSpec

  // ----- the life of an edge -----

  datatype EdgeEvent =
    | Reported(ev: ActivityEvent, now: int)
    | Flushed(now: int, elapsedMs: int)
    | Idled

  datatype History = History(first: ActivityEvent, born: int, events: seq<EdgeEvent>)

  predicate Sensible(h: History) {
    forall e :: e in h.events ==> e.Flushed? ==> e.elapsedMs >= 1
  }

  function Happen(cfg: Config, er: EdgeRecord, e: EdgeEvent): EdgeRecord
    requires e.Flushed? ==> e.elapsedMs >= 1
  {
    match e
    case Reported(ev, now) => AddPending(er, ev, now)
    case Flushed(now, elapsedMs) => FlushEdge(cfg, er, now, elapsedMs)
    case Idled => er.(edge := er.edge.(state := ConnIdle))
  }

  function Before(h: History): (b: History)
    requires h.events != []
    ensures Sensible(h) ==> Sensible(b)
  {
    h.(events := h.events[..|h.events| - 1])
  }

  function Last(h: History): EdgeEvent
    requires h.events != []
  {
    h.events[|h.events| - 1]
  }

  function Replay(cfg: Config, h: History): EdgeRecord
    requires Sensible(h)
    decreases |h.events|
  {
    if h.events == [] then NewEdge(h.first, h.born)
    else Happen(cfg, Replay(cfg, Before(h)), Last(h))
  }

  function Then(h: History, e: EdgeEvent): History {
    h.(events := h.events + [e])
  }

  lemma ReplayThen(cfg: Config, h: History, e: EdgeEvent)
    requires Sensible(h) && (e.Flushed? ==> e.elapsedMs >= 1)
    ensures Sensible(Then(h, e)) && Replay(cfg, Then(h, e)) == Happen(cfg, Replay(cfg, h), e)
  {
    assert Before(Then(h, e)) == h;
  }

  // ----- conservation -----

  function Requests(events: seq<EdgeEvent>): int {
    if events == [] then 0
    else Requests(events[..|events| - 1])
         + match events[|events| - 1] case Reported(ev, _) => BatchSize(ev) case _ => 0
  }

  function Errors(events: seq<EdgeEvent>): int {
    if events == [] then 0
    else Errors(events[..|events| - 1])
         + match events[|events| - 1] case Reported(ev, _) => (if Failed(ev) then BatchSize(ev) else 0) case _ => 0
  }

  function Latency(events: seq<EdgeEvent>): int {
    if events == [] then 0
    else Latency(events[..|events| - 1])
         + match events[|events| - 1] case Reported(ev, _) => ev.latencyMs.GetOr(0) * BatchSize(ev) case _ => 0
  }

  lemma AverageTimesCount(avg: real, count: int, latency: int, combined: int)
    requires count >= 0 && combined > 0
    ensures Average(avg, count, latency, combined) * combined as real == avg * count as real + latency as real
  {
  }

  /** No request and no error is lost or counted twice, whenever it is flushed. */
  lemma {:induction false} Conservation(cfg: Config, h: History)
    requires Sensible(h)
    ensures
      var er := Replay(cfg, h);
      && er.totalCount + er.pendingCount == Requests(h.events)
      && er.totalErrorCount + er.pendingErrorCount == Errors(h.events)
      && 0 <= er.pendingErrorCount <= er.pendingCount
      && 0 <= er.totalErrorCount <= er.totalCount
    decreases |h.events|
  {
    if h.events != [] {
      Conservation(cfg, Before(h));
    }
  }

  /** The latency total that an average over a number of requests stands for, with what is still pending. */
  function LatencyHeld(er: EdgeRecord): real {
    er.avgLatencyMs * er.totalCount as real + er.pendingLatencyTotal as real
  }

  lemma FlushKeepsLatency(cfg: Config, er: EdgeRecord, now: int, elapsedMs: int)
    requires elapsedMs >= 1 && er.totalCount >= 0 && er.pendingCount >= 0
    ensures LatencyHeld(FlushEdge(cfg, er, now, elapsedMs)) == LatencyHeld(er)
  {
    if er.pendingCount != 0 {
      AverageTimesCount(er.avgLatencyMs, er.totalCount, er.pendingLatencyTotal, er.totalCount + er.pendingCount);
    }
  }

  lemma ReportAddsLatency(er: EdgeRecord, ev: ActivityEvent, now: int)
    ensures LatencyHeld(AddPending(er, ev, now))
         == LatencyHeld(er) + (ev.latencyMs.GetOr(0) * BatchSize(ev)) as real
  {
  }

  function LatencyOf(e: EdgeEvent): int {
    match e case Reported(ev, _) => ev.latencyMs.GetOr(0) * BatchSize(ev) case _ => 0
  }

  lemma HappenLatency(cfg: Config, er: EdgeRecord, e: EdgeEvent)
    requires (e.Flushed? ==> e.elapsedMs >= 1) && er.totalCount >= 0 && er.pendingCount >= 0
    ensures LatencyHeld(Happen(cfg, er, e)) == LatencyHeld(er) + LatencyOf(e) as real
  {
    match e
    case Reported(ev, now) => ReportAddsLatency(er, ev, now);
    case Flushed(now, elapsedMs) => FlushKeepsLatency(cfg, er, now, elapsedMs);
    case Idled =>
  }

  /** The average stands for all the latency reported. */
  lemma {:induction false} LatencyConservation(cfg: Config, h: History)
    requires Sensible(h)
    ensures LatencyHeld(Replay(cfg, h)) == Latency(h.events) as real
    decreases |h.events|
  {
    if h.events != [] {
      LatencyConservation(cfg, Before(h));
      Conservation(cfg, Before(h));
      HappenLatency(cfg, Replay(cfg, Before(h)), Last(h));
      assert Latency(h.events) == Latency(Before(h).events) + LatencyOf(Last(h));
    }
  }

  /** Nothing pending, no pending latency; nothing flushed, no average. */
  lemma {:induction false} NothingHeld(cfg: Config, h: History)
    requires Sensible(h)
    ensures Replay(cfg, h).pendingCount == 0 ==> Replay(cfg, h).pendingLatencyTotal == 0
    ensures Replay(cfg, h).totalCount == 0 ==> Replay(cfg, h).avgLatencyMs == 0.0
    decreases |h.events|
  {
    if h.events != [] {
      NothingHeld(cfg, Before(h));
      Conservation(cfg, Before(h));
    }
  }

  lemma QuotientUnique(a: real, b: real, c: real)
    requires b != 0.0 && a * b == c
    ensures a == c / b
  {
  }

  lemma AverageOfHeld(er: EdgeRecord, requests: int, latency: int)
    requires er.totalCount == requests && LatencyHeld(er) == latency as real && er.pendingLatencyTotal == 0
    requires requests == 0 ==> er.avgLatencyMs == 0.0
    ensures er.avgLatencyMs == if requests == 0 then 0.0 else latency as real / requests as real
  {
    if requests != 0 {
      QuotientUnique(er.avgLatencyMs, requests as real, latency as real);
    }
  }

  lemma SumsThenFlush(h: History, now: int, elapsedMs: int)
    ensures var events := Then(h, Flushed(now, elapsedMs)).events;
            && Requests(events) == Requests(h.events)
            && Errors(events) == Errors(h.events)
            && Latency(events) == Latency(h.events)
  {
    var events := Then(h, Flushed(now, elapsedMs)).events;
    assert events[..|events| - 1] == h.events;
  }

  /** After a flush nothing is pending, so totals and average are those of everything reported. */
  lemma FlushedTotals(cfg: Config, h: History, now: int, elapsedMs: int)
    requires Sensible(h) && elapsedMs >= 1
    ensures
      var er := Replay(cfg, Then(h, Flushed(now, elapsedMs)));
      && er.totalCount == Requests(h.events) && er.totalErrorCount == Errors(h.events)
      && er.avgLatencyMs == (if Requests(h.events) == 0 then 0.0
                             else Latency(h.events) as real / Requests(h.events) as real)
      && er.pendingCount == 0
  {
    ReplayThen(cfg, h, Flushed(now, elapsedMs));
    SumsThenFlush(h, now, elapsedMs);
    Conservation(cfg, Then(h, Flushed(now, elapsedMs)));
    LatencyConservation(cfg, Then(h, Flushed(now, elapsedMs)));
    NothingHeld(cfg, Then(h, Flushed(now, elapsedMs)));
    AverageOfHeld(Replay(cfg, Then(h, Flushed(now, elapsedMs))), Requests(h.events), Latency(h.events));
  }

  function Reports(events: seq<EdgeEvent>): seq<ActivityEvent> {
    if events == [] then []
    else Reports(events[..|events| - 1])
         + match events[|events| - 1] case Reported(ev, _) => [ev] case _ => []
  }

  function OnlyReports(evs: seq<ActivityEvent>): seq<EdgeEvent> {
    if evs == [] then [] else OnlyReports(evs[..|evs| - 1]) + [Reported(evs[|evs| - 1], 0)]
  }

  /** The sums depend on the reports alone, not on what happens between them. */
  lemma {:induction false} SumsOfReports(events: seq<EdgeEvent>)
    ensures Requests(events) == Requests(OnlyReports(Reports(events)))
    ensures Errors(events) == Errors(OnlyReports(Reports(events)))
    ensures Latency(events) == Latency(OnlyReports(Reports(events)))
  {
    if events != [] {
      var init, last := events[..|events| - 1], events[|events| - 1];
      SumsOfReports(init);
      if last.Reported? {
        var evs := Reports(init) + [last.ev];
        assert evs[..|evs| - 1] == Reports(init);
        var only := OnlyReports(evs);
        assert only == OnlyReports(Reports(init)) + [Reported(last.ev, 0)];
        assert only[..|only| - 1] == OnlyReports(Reports(init));
      } else {
        assert Reports(events) == Reports(init);
      }
    }
  }

  /** Two lives with the same reports, flushed (and idled) at whatever different times, show the same
      totals and the same average once both have been flushed. */
  lemma FlushScheduleIndependence(cfg: Config, h: History, g: History, now: int, elapsedMs: int, now': int,
                                  elapsedMs': int)
    requires Sensible(h) && Sensible(g) && elapsedMs >= 1 && elapsedMs' >= 1
    requires Reports(h.events) == Reports(g.events)
    ensures
      var a, b := Replay(cfg, Then(h, Flushed(now, elapsedMs))), Replay(cfg, Then(g, Flushed(now', elapsedMs')));
      a.totalCount == b.totalCount && a.totalErrorCount == b.totalErrorCount && a.avgLatencyMs == b.avgLatencyMs
  {
    SumsOfReports(h.events);
    SumsOfReports(g.events);
    FlushedTotals(cfg, h, now, elapsedMs);
    FlushedTotals(cfg, g, now', elapsedMs');
  }

  // ----- the sliding window -----

  /** The number of requests up to and including the last flush. */
  function LastTotal(events: seq<EdgeEvent>): int {
    if events == [] then 0
    else if events[|events| - 1].Flushed? then Requests(events)
    else LastTotal(events[..|events| - 1])
  }

  /** The last event is a flush, and something was reported since the sample before it. */
  predicate Effective(h: History)
    requires h.events != []
    decreases |h.events|, 0
  {
    Last(h).Flushed? && Requests(Before(h).events) != LastTotal(Before(h).events)
  }

  /** Every sample ever taken: one at the start, and one for each flush that had something to flush. */
  function AllSamples(h: History): (samples: seq<RateSample>)
    ensures samples != []
    decreases |h.events|
  {
    if h.events == [] then [RateSample(h.born, 0)]
    else
      var earlier := AllSamples(Before(h));
      if Effective(h) then earlier + [RateSample(Last(h).now, Requests(h.events))] else earlier
  }

  /** The time of the last flush that had something to flush. */
  function LastFlush(h: History): int
    decreases |h.events|
  {
    if h.events == [] then h.born
    else if Effective(h) then Last(h).now
    else LastFlush(Before(h))
  }

  /** Flushes happen in the order of their times, none of them before the edge appeared. */
  predicate InOrder(h: History)
    decreases |h.events|
  {
    h.events == [] || (InOrder(Before(h)) && (Last(h).Flushed? ==> Last(h).now >= LastFlush(Before(h))))
  }

  /** Trimming early does not change what a later trim, with a later cutoff, leaves. */
  lemma {:induction false} TrimAbsorbed(samples: seq<RateSample>, x: RateSample, cutoff: int, later: int)
    requires cutoff <= later
    ensures Trim(Trim(samples, cutoff) + [x], later) == Trim(samples + [x], later)
  {
    if |samples| > 2 && samples[0].timeMs < cutoff {
      assert (samples + [x])[1..] == samples[1..] + [x];
      TrimAbsorbed(samples[1..], x, cutoff, later);
    }
  }

  lemma {:induction false} PendingSinceFlush(cfg: Config, h: History)
    requires Sensible(h)
    ensures Replay(cfg, h).totalCount == LastTotal(h.events)
    decreases |h.events|
  {
    if h.events != [] {
      PendingSinceFlush(cfg, Before(h));
      Conservation(cfg, Before(h));
    }
  }

  /** The window that is trimmed a little at every flush is one trim of the whole flush history. */
  lemma {:induction false} WindowOfHistory(cfg: Config, h: History)
    requires Sensible(h) && InOrder(h) && cfg.rpsWindowMs > 0
    ensures Replay(cfg, h).rateSamples == Trim(AllSamples(h), LastFlush(h) - cfg.rpsWindowMs)
    decreases |h.events|
  {
    if h.events != [] {
      var b := Before(h);
      WindowOfHistory(cfg, b);
      PendingSinceFlush(cfg, b);
      Conservation(cfg, b);
      if Effective(h) {
        TrimAbsorbed(AllSamples(b), RateSample(Last(h).now, Requests(h.events)),
                     LastFlush(b) - cfg.rpsWindowMs, LastFlush(h) - cfg.rpsWindowMs);
      }
    }
  }

  /** What a trim keeps: an end piece, cut after the last sample that is both too old and not needed to
      have two. */
  lemma {:induction false} TrimMeaning(samples: seq<RateSample>, cutoff: int) returns (d: nat)
    ensures d <= |samples| && Trim(samples, cutoff) == samples[d..]
    ensures forall i :: 0 <= i < d ==> samples[i].timeMs < cutoff
    ensures d > 0 ==> |samples| - d >= 2
    ensures |samples| - d <= 2 || samples[d].timeMs >= cutoff
  {
    if |samples| > 2 && samples[0].timeMs < cutoff {
      var e := TrimMeaning(samples[1..], cutoff);
      d := e + 1;
      forall i | 0 <= i < d ensures samples[i].timeMs < cutoff {
        assert i > 0 ==> samples[i] == samples[1..][i - 1];
      }
    } else {
      d := 0;
    }
  }

  lemma {:induction false} SamplesEndNow(h: History)
    ensures var all := AllSamples(h);
            all[|all| - 1] == RateSample(LastFlush(h), LastTotal(h.events))
    decreases |h.events|
  {
    if h.events != [] {
      SamplesEndNow(Before(h));
      if Last(h).Flushed? && !Effective(h) {
        assert Requests(h.events) == Requests(Before(h).events);
      }
    }
  }

  /** What the edge shows as its rate is kept from the last flush that had something to flush. */
  lemma {:induction false} ShownRate(cfg: Config, h: History)
    requires Sensible(h) && cfg.rpsWindowMs > 0
    ensures Replay(cfg, h).edge.rps
         == if |AllSamples(h)| == 1 then 0.0 else WindowRps(Replay(cfg, h).rateSamples)
    decreases |h.events|
  {
    if h.events != [] {
      ShownRate(cfg, Before(h));
      PendingSinceFlush(cfg, Before(h));
      Conservation(cfg, Before(h));
    }
  }

  /** The rate is the number of requests flushed after the oldest sample kept, over the time since then:
      the oldest sample is number `d` of all, everything before it is older than the window, and it is in
      the window itself unless it is kept only to have two samples. */
  lemma RateMeaning(cfg: Config, h: History) returns (d: nat)
    requires Sensible(h) && InOrder(h) && cfg.rpsWindowMs > 0 && |AllSamples(h)| > 1
    ensures d + 1 < |AllSamples(h)|
    ensures forall i :: 0 <= i < d ==> AllSamples(h)[i].timeMs < LastFlush(h) - cfg.rpsWindowMs
    ensures d + 2 == |AllSamples(h)| || AllSamples(h)[d].timeMs >= LastFlush(h) - cfg.rpsWindowMs
    ensures Replay(cfg, h).edge.rps
         == (LastTotal(h.events) - AllSamples(h)[d].totalCount) as real
            / (Max(1, LastFlush(h) - AllSamples(h)[d].timeMs) as real / 1000.0)
  {
    WindowOfHistory(cfg, h);
    ShownRate(cfg, h);
    SamplesEndNow(h);
    d := TrimMeaning(AllSamples(h), LastFlush(h) - cfg.rpsWindowMs);
  }
}
