/** The split pipeline always gets to its end. */
module SplitProgress {
  import opened Wrappers
  import opened Streams
  import opened Stages
  import opened Handlers
  import opened SplitRoute

  ghost predicate CanMove(events: seq<Raw>, s: State) {
    exists m :: Enabled(events, s, m)
  }

  /** Deadlock freedom: until the sink has been told of the end, somebody can move. */
  lemma NoDeadlock(cfg: Services, mode: Mode, events: seq<Raw>, s: State)
    requires Invariant(cfg, mode, events, s) && !s.sinkEnded
    ensures CanMove(events, s)
  {
    var m :=
      if s.arrived < |events| then Ingest
      else if !s.parse.feed.closed then IngestEnds
      else if HasRequest(s.parse) then ServeParse
      else if !s.parse.ended then ParseEnds
      else if HasResponse(s.parse) then DeliverParsed
      else if !s.rules.feed.closed then CloseRules
      else if HasRequest(s.rules) then ServeRules
      else if !s.rules.ended then RulesEnds
      else if HasResponse(s.rules) then DeliverEnriched
      else if !s.aggregate.feed.closed then CloseAggregate
      else if HasRequest(s.aggregate) then ServeAggregate
      else if !s.aggregate.ended then AggregateEnds
      else if HasResponse(s.aggregate) then DeliverResults
      else CloseSink;
    assert Enabled(events, s, m);
  }

  // ----- a measure -----

  /** All of the invariant that the measure needs. */
  predicate Bounded<A, B>(s: Stage<A, B>) {
    s.taken <= |s.feed.requests| && s.delivered <= |s.responses| && Filled(s.feed.requests)
  }

  predicate Sound(s: State) {
    && Bounded(s.parse) && Bounded(s.rules) && Bounded(s.aggregate)
    && Filled(s.parse.responses) && Filled(s.rules.responses)
  }

  lemma InvariantSound(cfg: Services, mode: Mode, events: seq<Raw>, s: State)
    requires Invariant(cfg, mode, events, s)
    ensures Sound(s) && s.arrived <= |events|
  {
  }

  /** Events given to a stage that it has not handled. */
  function Waiting<A, B>(s: Stage<A, B>): int
    requires Bounded(s)
  {
    |Concat(s.feed.requests)| + |s.feed.pending| - |Concat(s.feed.requests[..s.taken])|
  }

  /** Events a stage has sent back that have not arrived. */
  function Underway<A, B>(s: Stage<A, B>): int
    requires Bounded(s)
  {
    |Concat(s.responses)| - |Concat(s.responses[..s.delivered])|
  }

  function Flag(done: bool): nat {
    if done then 0 else 1
  }

  function Flags<A, B>(s: Stage<A, B>): nat {
    Flag(s.feed.closed) + Flag(s.ended)
  }

  /** Messages the aggregate service has yet to get across, or would have if it ended now. */
  function Replies(cfg: Services, mode: Mode, a: Stage<Enriched, Result>, seen: seq<Enriched>): int {
    if a.ended then |a.responses| - a.delivered else |Answer(cfg, mode, seen)| + 1
  }

  function Measure(cfg: Services, mode: Mode, events: seq<Raw>, s: State): int
    requires Sound(s)
  {
    7 * (|events| - s.arrived) + 6 * Waiting(s.parse) + 5 * Underway(s.parse) + Flags(s.parse)
    + 4 * Waiting(s.rules) + 3 * Underway(s.rules) + Flags(s.rules)
    + 2 * Waiting(s.aggregate) + Flags(s.aggregate) + Replies(cfg, mode, s.aggregate, s.seen)
    + Flag(s.sinkEnded)
  }

  lemma ServeLowers<A, B>(f: A -> Option<B>, s: Stage<A, B>)
    requires HasRequest(s) && Bounded(s) && Filled(s.responses)
    ensures Bounded(Serve(f, s)) && Filled(Serve(f, s).responses)
    ensures Waiting(Serve(f, s)) < Waiting(s)
    ensures Waiting(Serve(f, s)) + Underway(Serve(f, s)) <= Waiting(s) + Underway(s)
  {
    var request := s.feed.requests[s.taken];
    TakeOne(s.feed.requests, s.taken);
    ConcatOne(s.responses, FilterMap(f, request));
    assert Serve(f, s).responses[..s.delivered] == s.responses[..s.delivered];
    assert request != [];
  }

  lemma FeedRaises<A, B>(mode: Mode, s: Stage<A, B>, items: seq<A>)
    requires Bounded(s) && items != []
    ensures Bounded(s.(feed := Accept(mode, s.feed, items)))
    ensures Waiting(s.(feed := Accept(mode, s.feed, items))) == Waiting(s) + |items|
  {
    ConcatOne(s.feed.requests, items);
    ConcatOne(s.feed.requests, s.feed.pending + items);
    assert Accept(mode, s.feed, items).requests[..s.taken] == s.feed.requests[..s.taken];
  }

  lemma CloseLowers<A, B>(mode: Mode, s: Stage<A, B>)
    requires Bounded(s) && !s.feed.closed
    ensures Bounded(Shut(mode, s))
    ensures Waiting(Shut(mode, s)) == Waiting(s)
    ensures Flags(Shut(mode, s)) == Flags(s) - 1
  {
    ConcatOne(s.feed.requests, s.feed.pending);
    assert Close(mode, s.feed).requests[..s.taken] == s.feed.requests[..s.taken];
  }

  lemma HandOver<A, B, C>(mode: Mode, s: Stage<A, B>, t: Stage<B, C>)
    requires Bounded(s) && Bounded(t) && Filled(s.responses) && HasResponse(s)
    ensures
      var s', t' := Deliver(s), Forward(mode, s, t);
      && Bounded(s') && Bounded(t')
      && Underway(s') < Underway(s) && Underway(s') + Waiting(t') == Underway(s) + Waiting(t)
      && Waiting(s') == Waiting(s) && Underway(t') == Underway(t) && Flags(s') == Flags(s) && Flags(t') == Flags(t)
  {
    TakeOne(s.responses, s.delivered);
    FeedRaises(mode, t, s.responses[s.delivered]);
  }

  lemma {:induction false} PrefixShorter<T>(parts: seq<seq<T>>, n: nat)
    requires n <= |parts|
    ensures |Concat(parts[..n])| <= |Concat(parts)|
  {
    if n < |parts| {
      PrefixShorter(parts[..|parts| - 1], n);
      assert parts[..|parts| - 1][..n] == parts[..n];
    } else {
      assert parts[..n] == parts;
    }
  }

  lemma NotNegative<A, B>(s: Stage<A, B>)
    requires Bounded(s)
    ensures Waiting(s) >= 0 && Underway(s) >= 0
  {
    PrefixShorter(s.feed.requests, s.taken);
    PrefixShorter(s.responses, s.delivered);
  }

  lemma {:induction false} AnswerGrows(cfg: Services, mode: Mode, seen: seq<Enriched>, more: seq<Enriched>)
    ensures |Answer(cfg, mode, seen + more)| <= |Answer(cfg, mode, seen)| + |more|
  {
    if more == [] {
      assert seen + more == seen;
    } else {
      var n := |more| - 1;
      AnswerGrows(cfg, mode, seen, more[..n]);
      assert seen + more == (seen + more[..n]) + [more[n]];
      FoldedOne(seen + more[..n], more[n]);
      FilterMapOne(Scoring(cfg), seen + more[..n], more[n]);
    }
  }

  lemma TakeLowers(cfg: Services, mode: Mode, a: Stage<Enriched, Result>, seen: seq<Enriched>)
    requires Bounded(a) && HasRequest(a) && !a.ended
    ensures
      var a', seen' := Take(a), seen + a.feed.requests[a.taken];
      && Bounded(a')
      && 2 * Waiting(a') + Replies(cfg, mode, a', seen') < 2 * Waiting(a) + Replies(cfg, mode, a, seen)
  {
    TakeOne(a.feed.requests, a.taken);
    AnswerGrows(cfg, mode, seen, a.feed.requests[a.taken]);
    assert a.feed.requests[a.taken] != [];
  }

  lemma ParseMeasure(cfg: Services, mode: Mode, events: seq<Raw>, s: State, m: Move)
    requires Sound(s) && Enabled(events, s, m)
    requires m in {Ingest, IngestEnds, ServeParse, ParseEnds}
    ensures Sound(After(cfg, mode, events, s, m))
    ensures Measure(cfg, mode, events, After(cfg, mode, events, s, m)) < Measure(cfg, mode, events, s)
  {
    match m
    case Ingest => FeedRaises(mode, s.parse, [events[s.arrived]]);
    case IngestEnds => CloseLowers(mode, s.parse);
    case ServeParse => ServeLowers(Parsing(cfg), s.parse);
    case ParseEnds =>
  }

  lemma RulesMeasure(cfg: Services, mode: Mode, events: seq<Raw>, s: State, m: Move)
    requires Sound(s) && Enabled(events, s, m)
    requires m in {DeliverParsed, CloseRules, ServeRules, RulesEnds}
    ensures Sound(After(cfg, mode, events, s, m))
    ensures Measure(cfg, mode, events, After(cfg, mode, events, s, m)) < Measure(cfg, mode, events, s)
  {
    match m
    case DeliverParsed => HandOver(mode, s.parse, s.rules);
    case CloseRules => CloseLowers(mode, s.rules);
    case ServeRules => ServeLowers(Enriching(cfg, mode), s.rules);
    case RulesEnds =>
  }

  lemma AggregateFeedMeasure(cfg: Services, mode: Mode, events: seq<Raw>, s: State, m: Move)
    requires Sound(s) && Enabled(events, s, m)
    requires m in {DeliverEnriched, CloseAggregate}
    ensures Sound(After(cfg, mode, events, s, m))
    ensures Measure(cfg, mode, events, After(cfg, mode, events, s, m)) < Measure(cfg, mode, events, s)
  {
    if m == DeliverEnriched {
      HandOver(mode, s.rules, s.aggregate);
    } else {
      CloseLowers(mode, s.aggregate);
    }
  }

  lemma ServeAggregateMeasure(cfg: Services, mode: Mode, events: seq<Raw>, s: State)
    requires Sound(s) && Enabled(events, s, ServeAggregate)
    requires s.aggregate.ended ==> s.aggregate.taken == |s.aggregate.feed.requests|
    ensures Sound(After(cfg, mode, events, s, ServeAggregate))
    ensures Measure(cfg, mode, events, After(cfg, mode, events, s, ServeAggregate)) < Measure(cfg, mode, events, s)
  {
    TakeLowers(cfg, mode, s.aggregate, s.seen);
  }

  lemma EndLowers(cfg: Services, mode: Mode, a: Stage<Enriched, Result>, seen: seq<Enriched>)
    requires Bounded(a) && MayEnd(a) && a.delivered == 0
    ensures
      var a' := Finish(cfg, mode, a, seen);
      && Bounded(a') && Waiting(a') == Waiting(a)
      && Flags(a') + Replies(cfg, mode, a', seen) < Flags(a) + Replies(cfg, mode, a, seen)
  {
    ConcatSingles(Answer(cfg, mode, seen));
  }

  lemma AggregateMeasure(cfg: Services, mode: Mode, events: seq<Raw>, s: State, m: Move)
    requires Sound(s) && Enabled(events, s, m)
    requires s.aggregate.ended || s.aggregate.delivered == |s.aggregate.responses| == 0
    requires m in {AggregateEnds, DeliverResults, CloseSink}
    ensures Sound(After(cfg, mode, events, s, m))
    ensures Measure(cfg, mode, events, After(cfg, mode, events, s, m)) < Measure(cfg, mode, events, s)
  {
    match m
    case AggregateEnds => EndLowers(cfg, mode, s.aggregate, s.seen);
    case DeliverResults => assert Waiting(Deliver(s.aggregate)) == Waiting(s.aggregate);
    case CloseSink =>
  }

  /** Every step lowers the measure. */
  lemma MeasureDecreases(cfg: Services, mode: Mode, events: seq<Raw>, s: State, m: Move)
    requires Invariant(cfg, mode, events, s) && Enabled(events, s, m)
    ensures Sound(s) && Sound(After(cfg, mode, events, s, m))
    ensures Measure(cfg, mode, events, After(cfg, mode, events, s, m)) < Measure(cfg, mode, events, s)
  {
    InvariantSound(cfg, mode, events, s);
    if m in {Ingest, IngestEnds, ServeParse, ParseEnds} {
      ParseMeasure(cfg, mode, events, s, m);
    } else if m in {DeliverParsed, CloseRules, ServeRules, RulesEnds} {
      RulesMeasure(cfg, mode, events, s, m);
    } else if m in {DeliverEnriched, CloseAggregate} {
      AggregateFeedMeasure(cfg, mode, events, s, m);
    } else if m == ServeAggregate {
      ServeAggregateMeasure(cfg, mode, events, s);
    } else {
      AggregateMeasure(cfg, mode, events, s, m);
    }
  }

  lemma MeasureNotNegative(cfg: Services, mode: Mode, events: seq<Raw>, s: State)
    requires Invariant(cfg, mode, events, s)
    ensures Sound(s) && Measure(cfg, mode, events, s) >= 0
  {
    InvariantSound(cfg, mode, events, s);
    NotNegative(s.parse);
    NotNegative(s.rules);
    NotNegative(s.aggregate);
  }

  predicate WithinBudget(cfg: Services, mode: Mode, events: seq<Raw>, s: State, n: nat) {
    Sound(s) && Measure(cfg, mode, events, s) + n <= 7 * |events| + 8
  }

  lemma StepWithinBudget(cfg: Services, mode: Mode, events: seq<Raw>, s: State, m: Move, n: nat)
    requires Invariant(cfg, mode, events, s) && WithinBudget(cfg, mode, events, s, n) && Enabled(events, s, m)
    ensures WithinBudget(cfg, mode, events, After(cfg, mode, events, s, m), n + 1)
  {
    MeasureDecreases(cfg, mode, events, s, m);
  }

  lemma StartWithinBudget(cfg: Services, mode: Mode, events: seq<Raw>)
    ensures WithinBudget(cfg, mode, events, START, 0)
  {
    assert |Answer(cfg, mode, [])| == 0;
  }

  lemma MeasureBounds(cfg: Services, mode: Mode, events: seq<Raw>, run: seq<State>, moves: seq<Move>, n: nat)
    requires Run(cfg, mode, events, run, moves) && n < |run|
    ensures WithinBudget(cfg, mode, events, run[n], n)
  {
    var p := (s: State, k: nat) => Invariant(cfg, mode, events, s) && WithinBudget(cfg, mode, events, s, k);
    StartKeeps(cfg, mode, events);
    StartWithinBudget(cfg, mode, events);
    forall s, m, k: nat ensures Survives(cfg, mode, events, p, s, m, k) {
      if p(s, k) && Enabled(events, s, m) {
        StepKeeps(cfg, mode, events, s, m);
        StepWithinBudget(cfg, mode, events, s, m, k);
      }
    }
    HoldsThroughout(cfg, mode, events, p, run, moves, n);
  }

  /** Termination: no run makes more than seven moves an event and eight more, and one that cannot go on has
      delivered its results. */
  lemma RunsEnd(cfg: Services, mode: Mode, events: seq<Raw>, run: seq<State>, moves: seq<Move>)
    requires Run(cfg, mode, events, run, moves)
    ensures |moves| <= 7 * |events| + 8
    ensures !CanMove(events, run[|run| - 1]) ==> run[|run| - 1].sinkEnded
  {
    var last := |run| - 1;
    MeasureBounds(cfg, mode, events, run, moves, last);
    RunInvariant(cfg, mode, events, run, moves, last);
    MeasureNotNegative(cfg, mode, events, run[last]);
    if !run[last].sinkEnded {
      NoDeadlock(cfg, mode, events, run[last]);
    }
  }

  lemma OneMoreMove(cfg: Services, mode: Mode, events: seq<Raw>, run: seq<State>, moves: seq<Move>, m: Move)
    requires Run(cfg, mode, events, run, moves) && Enabled(events, run[|run| - 1], m)
    ensures Run(cfg, mode, events, run + [After(cfg, mode, events, run[|run| - 1], m)], moves + [m])
  {
    var longer, more := run + [After(cfg, mode, events, run[|run| - 1], m)], moves + [m];
    forall i | 0 <= i < |more| ensures Linked(cfg, mode, events, longer, more, i) {
      if i < |moves| {
        assert Linked(cfg, mode, events, run, moves, i);
      }
    }
  }

  lemma {:induction false} RunOn(cfg: Services, mode: Mode, events: seq<Raw>, run: seq<State>, moves: seq<Move>)
    returns (longest: seq<State>, all: seq<Move>)
    requires Run(cfg, mode, events, run, moves)
    ensures Run(cfg, mode, events, longest, all) && !CanMove(events, longest[|longest| - 1])
    decreases 7 * |events| + 8 - |moves|
  {
    longest, all := run, moves;
    var last := run[|run| - 1];
    if m :| Enabled(events, last, m) {
      var next := After(cfg, mode, events, last, m);
      OneMoreMove(cfg, mode, events, run, moves, m);
      RunsEnd(cfg, mode, events, run + [next], moves + [m]);
      longest, all := RunOn(cfg, mode, events, run + [next], moves + [m]);
    }
  }

  /** On either route there is a run that delivers its results. */
  lemma MaximalRun(cfg: Services, mode: Mode, events: seq<Raw>) returns (run: seq<State>, moves: seq<Move>)
    ensures Run(cfg, mode, events, run, moves) && run[|run| - 1].sinkEnded
  {
    run, moves := RunOn(cfg, mode, events, [START], []);
    RunsEnd(cfg, mode, events, run, moves);
  }
}
