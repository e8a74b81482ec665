/** What the routes compute, compared with each other and with the monolith. */
module SplitResults {
  import opened Wrappers
  import opened Streams
  import opened Stages
  import opened Handlers
  import opened SplitRoute
  import M = Monolith
  import R = MonolithResults

  // ----- one event at a time -----

  lemma EnrichedOne(cfg: Services, mode: Mode, events: seq<Raw>, raw: Raw)
    ensures Stages.Enriched(cfg, mode, events + [raw]) ==
            Stages.Enriched(cfg, mode, events) + FilterMap(Enriching(cfg, mode), FilterMap(Parsing(cfg), [raw]))
  {
    FilterMapSplit(Parsing(cfg), events, [raw]);
    FilterMapSplit(Enriching(cfg, mode), FilterMap(Parsing(cfg), events), FilterMap(Parsing(cfg), [raw]));
  }

  /** What becomes of one event on its own. */
  function Through(cfg: Services, mode: Mode, raw: Raw): Option<SplitRoute.Enriched> {
    match Parse(cfg, raw)
    case None => None
    case Some(parsed) => Enrich(cfg, mode, parsed)
  }

  function AsList<T>(x: Option<T>): seq<T> {
    if x.Some? then [x.value] else []
  }

  lemma FilterMapSingle<A, B>(f: A -> Option<B>, x: A)
    ensures FilterMap(f, [x]) == AsList(f(x))
  {
    FilterMapOne(f, [], x);
    assert [] + [x] == [x];
  }

  lemma ThroughOne(cfg: Services, mode: Mode, raw: Raw)
    ensures FilterMap(Enriching(cfg, mode), FilterMap(Parsing(cfg), [raw])) == AsList(Through(cfg, mode, raw))
  {
    FilterMapSingle(Parsing(cfg), raw);
    if Parse(cfg, raw).Some? {
      FilterMapSingle(Enriching(cfg, mode), Parse(cfg, raw).value);
    }
  }

  /** The event is a work item that the unbatched route carries through to a score. */
  function ScoredWork(cfg: Services, raw: Raw): Option<Score> {
    match cfg.workItem(raw.line)
    case None => None
    case Some(user) =>
      match cfg.process(user)
      case None => None
      case Some(processed) => cfg.score(processed)
  }

  function Work(cfg: Services): Raw -> Option<Score> {
    raw => ScoredWork(cfg, raw)
  }

  /** One event on both routes: an ordinary one fares the same, a work item never survives the batch handler
      of the rules. */
  lemma OneCompared(cfg: Services, size: int, raw: Raw)
    ensures
      var d, b := Through(cfg, Direct, raw), Through(cfg, Batched(size), raw);
      && (b.Some? ==> d == b && !IsWorkItem(b.value))
      && (b.None? && d.Some? ==> IsWorkItem(d.value))
      && ScoredWork(cfg, raw) == (if d.Some? then ScoreOf(cfg, d.value) else None)
  {
    assert WORK_ITEM !in ["click", "view", "purchase"];
  }

  lemma EnrichedStep(cfg: Services, mode: Mode, events: seq<Raw>, raw: Raw)
    ensures
      var before, after := Stages.Enriched(cfg, mode, events), Stages.Enriched(cfg, mode, events + [raw]);
      match Through(cfg, mode, raw)
      case None => after == before
      case Some(e) =>
        && after == before + [e]
        && Folded(after) == (if IsWorkItem(e) then Folded(before) else Add(Folded(before), e))
        && FilterMap(Scoring(cfg), after) == FilterMap(Scoring(cfg), before) + AsList(ScoreOf(cfg, e))
  {
    EnrichedOne(cfg, mode, events, raw);
    ThroughOne(cfg, mode, raw);
    var before := Stages.Enriched(cfg, mode, events);
    match Through(cfg, mode, raw)
    case None =>
    case Some(e) =>
      FoldedOne(before, e);
      FilterMapOne(Scoring(cfg), before, e);
  }

  /** The table does not depend on the route, work items or not; the batched route drops every work item,
      the unbatched one keeps exactly those that are processed and scored. */
  lemma {:induction false} RoutesCompared(cfg: Services, size: int, events: seq<Raw>)
    ensures Folded(Stages.Enriched(cfg, Direct, events)) == Folded(Stages.Enriched(cfg, Batched(size), events))
    ensures FilterMap(Scoring(cfg), Stages.Enriched(cfg, Batched(size), events)) == []
    ensures FilterMap(Scoring(cfg), Stages.Enriched(cfg, Direct, events)) == FilterMap(Work(cfg), events)
  {
    if events != [] {
      var init, raw := events[..|events| - 1], events[|events| - 1];
      RoutesCompared(cfg, size, init);
      assert events == init + [raw];
      OneCompared(cfg, size, raw);
      EnrichedStep(cfg, Direct, init, raw);
      EnrichedStep(cfg, Batched(size), init, raw);
      FilterMapOne(Work(cfg), init, raw);
    }
  }

  /** Batching preserves meaning, exactly as far as it does: the two routes give the same sequence of results
      if and only if no event is a work item that is processed and scored. Without work items, therefore,
      always. */
  lemma RoutesAgreeExactly(cfg: Services, size: int, events: seq<Raw>)
    ensures Answer(cfg, Direct, Stages.Enriched(cfg, Direct, events))
            == Answer(cfg, Batched(size), Stages.Enriched(cfg, Batched(size), events))
            <==> forall raw :: raw in events ==> ScoredWork(cfg, raw) == None
  {
    RoutesCompared(cfg, size, events);
    FilterMapEmpty(Work(cfg), events);
    var rows := Rows(Folded(Stages.Enriched(cfg, Direct, events)));
    var scores := FilterMap(Work(cfg), events);
    assert |rows + ScoreRows(Direct, scores)| == |rows| + |scores|;
    assert ScoreRows(Batched(size), []) == [];
  }

  /** The same for whole runs of both routes, however each is interleaved and cut. */
  lemma BatchingPreservesMeaning(cfg: Services, size: int, events: seq<Raw>,
                                 direct: seq<State>, directMoves: seq<Move>, batched: seq<State>,
                                     batchedMoves: seq<Move>)
    requires Run(cfg, Direct, events, direct, directMoves) && direct[|direct| - 1].sinkEnded
    requires Run(cfg, Batched(size), events, batched, batchedMoves) && batched[|batched| - 1].sinkEnded
    ensures direct[|direct| - 1].sink == batched[|batched| - 1].sink
            <==> forall raw :: raw in events ==> ScoredWork(cfg, raw) == None
  {
    CutsMakeNoDifference(cfg, Direct, events, direct, directMoves);
    CutsMakeNoDifference(cfg, Batched(size), events, batched, batchedMoves);
    RoutesAgreeExactly(cfg, size, events);
  }

  /** Any single work item that is processed and scored tells the routes apart, whatever the batch size. */
  lemma WorkItemsTellRoutesApart(cfg: Services, size: int, raw: Raw)
    requires ScoredWork(cfg, raw).Some?
    ensures Answer(cfg, Direct, Stages.Enriched(cfg, Direct, [raw]))
            != Answer(cfg, Batched(size), Stages.Enriched(cfg, Batched(size), [raw]))
  {
    RoutesAgreeExactly(cfg, size, [raw]);
    assert raw in [raw];
  }

  // ----- the order of the results -----

  lemma {:induction false} KeysAreSeen(events: seq<SplitRoute.Enriched>, p: nat)
    requires p < |events| && events[p].passedRules && !IsWorkItem(events[p])
    ensures events[p].event.fields.kind in Folded(events).order
  {
    var n := |events| - 1;
    var init := events[..n];
    assert events == init + [events[n]];
    FoldedOne(init, events[n]);
    if p < n {
      KeysAreSeen(init, p);
    }
    assert Folded(init).order <= Folded(events).order;
  }

  lemma {:induction false} KeysCome(events: seq<SplitRoute.Enriched>, i: nat) returns (q: nat)
    requires i < |Folded(events).order|
    ensures q < |events| && events[q].passedRules && !IsWorkItem(events[q])
            && events[q].event.fields.kind == Folded(events).order[i]
  {
    var n := |events| - 1;
    var init := events[..n];
    assert events == init + [events[n]];
    FoldedOne(init, events[n]);
    if i < |Folded(init).order| {
      q := KeysCome(init, i);
    } else {
      q := n;
    }
  }

  /** Keys come out in the order in which their first event went in. */
  lemma {:induction false} OrderOfFirstAppearance(events: seq<SplitRoute.Enriched>, i: nat, j: nat, p: nat)
    requires i < j < |Folded(events).order| && p < |events|
    requires events[p].passedRules && !IsWorkItem(events[p]) && events[p].event.fields.kind == Folded(events).order[j]
    ensures exists q :: 0 <= q < p && events[q].passedRules && !IsWorkItem(events[q])
                        && events[q].event.fields.kind == Folded(events).order[i]
  {
    var n := |events| - 1;
    var init := events[..n];
    assert events == init + [events[n]];
    FoldedOne(init, events[n]);
    assert Folded(init).order <= Folded(events).order;
    if p < n {
      KeysAreSeen(init, p);
      assert j < |Folded(init).order|;
      OrderOfFirstAppearance(init, i, j, p);
      var q :| 0 <= q < p && init[q].passedRules && !IsWorkItem(init[q])
               && init[q].event.fields.kind == Folded(init).order[i];
      assert events[q] == init[q];
    } else {
      var q := KeysCome(init, i);
      assert events[q] == init[q];
    }
  }

  // ----- the monolith -----

  /** The parser of the monolith and that of the split pipeline extract the same from these lines, and none
      is a work item. */
  ghost predicate CommonParse(cfg: Services, parse: string -> Option<M.Fields>, lines: seq<string>) {
    forall i :: 0 <= i < |lines| ==>
      && cfg.workItem(lines[i]) == None
      && match ParseEvent(cfg, M.RawEvent(lines[i], i))
         case None => parse(lines[i]) == None
         case Some(event) => parse(lines[i]) == Some(event.fields)
  }

  lemma SameStep(cfg: Services, parse: string -> Option<M.Fields>, mode: Mode, raw: Raw)
    requires cfg.workItem(raw.line) == None
    requires match ParseEvent(cfg, raw)
             case None => parse(raw.line) == None
             case Some(event) => parse(raw.line) == Some(event.fields)
    ensures
      var parsed := parse(raw.line);
      match Through(cfg, mode, raw)
      case None => parsed == None || !M.Passes(parsed.value)
      case Some(e) => parsed == Some(e.event.fields) && M.Passes(parsed.value) && e.passedRules && !IsWorkItem(e)
  {
    assert WORK_ITEM !in ["click", "view", "purchase"];
  }

  lemma {:induction false} SameTotals(cfg: Services, parse: string -> Option<M.Fields>, mode: Mode, lines: seq<string>)
    requires CommonParse(cfg, parse, lines)
    ensures Folded(Stages.Enriched(cfg, mode, M.Numbered(lines))).stats == M.SequentialStats(parse, lines)
    ensures FilterMap(Scoring(cfg), Stages.Enriched(cfg, mode, M.Numbered(lines))) == []
  {
    if lines != [] {
      var n := |lines| - 1;
      var raw := M.RawEvent(lines[n], n);
      SameTotals(cfg, parse, mode, lines[..n]);
      assert M.Numbered(lines) == M.Numbered(lines[..n]) + [raw];
      SameStep(cfg, parse, mode, raw);
      EnrichedStep(cfg, mode, M.Numbered(lines[..n]), raw);
    }
  }

  ghost predicate SameMembers<T>(a: seq<T>, b: seq<T>) {
    && (forall i :: 0 <= i < |a| ==> a[i] in b)
    && (forall j :: 0 <= j < |b| ==> b[j] in a)
  }

  lemma RowsAreResults(t: Table)
    requires WellFormed(t)
    ensures R.ResultsOf(Rows(t), t.stats)
  {
    var rows := Rows(t);
    forall r ensures r in rows <==> r.key in t.stats && r == M.ResultOf(r.key, t.stats[r.key]) {
      if r.key in t.stats && r == M.ResultOf(r.key, t.stats[r.key]) {
        var i :| 0 <= i < |t.order| && t.order[i] == r.key;
        assert rows[i] == r;
      }
    }
  }

  lemma {:induction false} DistinctSize<T>(a: seq<T>)
    requires forall i, j :: 0 <= i < j < |a| ==> a[i] != a[j]
    ensures |set x | x in a| == |a|
  {
    if a != [] {
      var n := |a| - 1;
      DistinctSize(a[..n]);
      assert (set x | x in a) == (set x | x in a[..n]) + {a[n]};
    }
  }

  lemma SameMembersSameLength<T>(a: seq<T>, b: seq<T>)
    requires forall i, j :: 0 <= i < j < |a| ==> a[i] != a[j]
    requires forall i, j :: 0 <= i < j < |b| ==> b[i] != b[j]
    requires SameMembers(a, b)
    ensures |a| == |b|
  {
    DistinctSize(a);
    DistinctSize(b);
    assert (set x | x in a) == (set x | x in b);
  }

  /** On ordinary events the split pipeline, on either route and however interleaved, writes exactly the results
      the monolith writes, however its threads are interleaved, each of them once. */
  lemma SplitMatchesMonolith(cfg: Services, mode: Mode, run: seq<State>, moves: seq<Move>,
                             mono: M.Config, monoRun: seq<M.State>, monoMoves: seq<M.Move>)
    requires CommonParse(cfg, mono.parse, mono.input)
    requires Run(cfg, mode, M.Numbered(mono.input), run, moves) && run[|run| - 1].sinkEnded
    requires mono.parsers >= 1 && mono.outputOpens
    requires M.Run(mono, monoRun, monoMoves) && M.AllExited(monoRun[|monoRun| - 1])
    ensures R.ResultsOf(run[|run| - 1].sink, M.SequentialStats(mono.parse, mono.input))
    ensures R.Tallies(run[|run| - 1].sink, mono.parse, mono.input)
    ensures SameMembers(run[|run| - 1].sink, monoRun[|monoRun| - 1].output)
    ensures |run[|run| - 1].sink| == |monoRun[|monoRun| - 1].output|
  {
    var table := Folded(Stages.Enriched(cfg, mode, M.Numbered(mono.input)));
    CutsMakeNoDifference(cfg, mode, M.Numbered(mono.input), run, moves);
    SameTotals(cfg, mono.parse, mode, mono.input);
    RowsAreResults(table);
    assert run[|run| - 1].sink == Rows(table);
    R.ResultsTally(run[|run| - 1].sink, mono.parse, mono.input);
    R.ScheduleIndependence(mono, monoRun, monoMoves);
    SameMembersSameLength(run[|run| - 1].sink, monoRun[|monoRun| - 1].output);
  }
}
