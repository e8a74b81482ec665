/** What the split pipeline writes, from the ingested events alone: which of them count, and what every row
    holds. */
module SplitTallies {
  import opened Wrappers
  import opened Streams
  import opened Stages
  import opened Handlers
  import opened SplitRoute
  import opened SplitResults
  import M = Monolith

  // ----- one event -----

  /** The rules let through what has a value of at least 10 and is no view; the unbatched handler lets through
      any work item it can process instead, with what came of it. Nothing else about an event changes. */
  lemma EnrichExactly(cfg: Services, mode: Mode, event: Parsed)
    ensures
      var enriched := Enrich(cfg, mode, event);
      var f := event.fields;
      if mode.Direct? && f.kind == "work-item" then
        && (enriched.Some? <==> cfg.process(f.user).Some?)
        && (enriched.Some? ==>
              var fields := M.Fields(f.kind, cfg.process(f.user).value, f.value, f.timestamp);
              enriched.value == M.EnrichedEvent(M.ParsedEvent(fields, event.sequence), true))
      else
        && (enriched.Some? <==> f.value >= 10 && f.kind != "view")
        && (enriched.Some? ==> enriched.value == M.EnrichedEvent(event, true))
  {
  }

  /** An ordinary event comes through, on either route, if it is a click or a purchase of at least 10; a work
      item only on the unbatched route, if it can be processed. */
  lemma ThroughExactly(cfg: Services, mode: Mode, raw: Raw)
    ensures Through(cfg, mode, raw) ==
      match cfg.workItem(raw.line)
      case Some(user) =>
        if mode.Direct? && cfg.process(user).Some?
        then Some(M.EnrichedEvent(M.ParsedEvent(M.Fields("work-item", cfg.process(user).value, 0, cfg.now),
                                                raw.sequence), true))
        else None
      case None =>
        match cfg.read(raw.line)
        case None => None
        case Some(json) =>
          if json.kind in {"click", "purchase"} && json.value >= 10
          then Some(M.EnrichedEvent(M.ParsedEvent(M.Fields(json.kind, json.user, json.value, json.timestamp),
                                                  raw.sequence), true))
          else None
  {
  }

  // ----- the table -----

  predicate Counts(cfg: Services, raw: Raw, key: string) {
    && cfg.workItem(raw.line) == None && cfg.read(raw.line).Some?
    && var json := cfg.read(raw.line).value;
    && json.kind == key && key in {"click", "purchase"} && json.value >= 10
  }

  function CountOf(cfg: Services, events: seq<Raw>, key: string): nat {
    if events == [] then 0
    else
      var n := |events| - 1;
      CountOf(cfg, events[..n], key) + if Counts(cfg, events[n], key) then 1 else 0
  }

  function SumOf(cfg: Services, events: seq<Raw>, key: string): int {
    if events == [] then 0
    else
      var n := |events| - 1;
      SumOf(cfg, events[..n], key) + if Counts(cfg, events[n], key) then cfg.read(events[n].line).value.value else 0
  }

  function TableOf(cfg: Services, mode: Mode, events: seq<Raw>): Table {
    Folded(Stages.Enriched(cfg, mode, events))
  }

  predicate Holds(t: Table, key: string, count: nat, sum: int) {
    && (key in t.stats <==> count > 0)
    && (if key in t.stats then t.stats[key] == M.Stats(count, sum) else sum == 0)
  }

  lemma AddHolds(t: Table, e: Enriched, key: string, count: nat, sum: int)
    requires Holds(t, key, count, sum) && e.passedRules
    ensures Holds(Add(t, e), key, count + if e.event.fields.kind == key then 1 else 0,
                  sum + if e.event.fields.kind == key then e.event.fields.value else 0)
  {
  }

  /** What a new event adds to the table is what it counts for. */
  lemma EventAdds(cfg: Services, mode: Mode, raw: Raw, key: string)
    ensures
      match Through(cfg, mode, raw)
      case None => !Counts(cfg, raw, key)
      case Some(e) =>
        && e.passedRules
        && (Counts(cfg, raw, key) <==> !IsWorkItem(e) && e.event.fields.kind == key)
        && (Counts(cfg, raw, key) ==> cfg.read(raw.line).value.value == e.event.fields.value)
  {
    ThroughExactly(cfg, mode, raw);
  }

  lemma CountMore(cfg: Services, events: seq<Raw>, raw: Raw, key: string)
    ensures CountOf(cfg, events + [raw], key) == CountOf(cfg, events, key) + if Counts(cfg, raw, key) then 1 else 0
    ensures SumOf(cfg, events + [raw], key)
            == SumOf(cfg, events, key) + if Counts(cfg, raw, key) then cfg.read(raw.line).value.value else 0
  {
    assert (events + [raw])[..|events|] == events;
  }

  lemma TableOne(cfg: Services, mode: Mode, events: seq<Raw>, raw: Raw)
    ensures TableOf(cfg, mode, events + [raw]) ==
      match Through(cfg, mode, raw)
      case None => TableOf(cfg, mode, events)
      case Some(e) => if IsWorkItem(e) then TableOf(cfg, mode, events) else Add(TableOf(cfg, mode, events), e)
  {
    EnrichedStep(cfg, mode, events, raw);
  }

  lemma TableStep(cfg: Services, mode: Mode, events: seq<Raw>, raw: Raw, key: string)
    requires Holds(TableOf(cfg, mode, events), key, CountOf(cfg, events, key), SumOf(cfg, events, key))
    ensures
      var more := events + [raw];
      Holds(TableOf(cfg, mode, more), key, CountOf(cfg, more, key), SumOf(cfg, more, key))
  {
    TableOne(cfg, mode, events, raw);
    EventAdds(cfg, mode, raw, key);
    CountMore(cfg, events, raw, key);
    var through := Through(cfg, mode, raw);
    if through.Some? && !IsWorkItem(through.value) {
      AddHolds(TableOf(cfg, mode, events), through.value, key, CountOf(cfg, events, key), SumOf(cfg, events, key));
    }
  }

  lemma {:induction false} TableTallies(cfg: Services, mode: Mode, events: seq<Raw>, key: string)
    ensures Holds(TableOf(cfg, mode, events), key, CountOf(cfg, events, key), SumOf(cfg, events, key))
  {
    if events != [] {
      var n := |events| - 1;
      TableTallies(cfg, mode, events[..n], key);
      TableStep(cfg, mode, events[..n], events[n], key);
      assert events == events[..n] + [events[n]];
    } else {
      assert TableOf(cfg, mode, events) == EMPTY_TABLE;
    }
  }

  lemma {:induction false} CountedOnce(cfg: Services, events: seq<Raw>, key: string)
    ensures CountOf(cfg, events, key) > 0 <==> exists q :: 0 <= q < |events| && Counts(cfg, events[q], key)
  {
    if events != [] {
      var n := |events| - 1;
      CountedOnce(cfg, events[..n], key);
      if q :| 0 <= q < n && Counts(cfg, events[q], key) {
        assert events[..n][q] == events[q];
      }
    }
  }

  lemma OrderGrows(cfg: Services, mode: Mode, events: seq<Raw>, raw: Raw)
    ensures TableOf(cfg, mode, events).order <= TableOf(cfg, mode, events + [raw]).order
    ensures |TableOf(cfg, mode, events + [raw]).order| <= |TableOf(cfg, mode, events).order| + 1
  {
    EnrichedStep(cfg, mode, events, raw);
  }

  /** Keys come in the order of the first event that counts for each. */
  lemma {:induction false} OrderOfEvents(cfg: Services, mode: Mode, events: seq<Raw>, i: nat, j: nat, p: nat)
    requires i < j < |TableOf(cfg, mode, events).order| && p < |events|
    requires Counts(cfg, events[p], TableOf(cfg, mode, events).order[j])
    ensures exists q :: 0 <= q < p && Counts(cfg, events[q], TableOf(cfg, mode, events).order[i])
  {
    var n := |events| - 1;
    var init := events[..n];
    assert events == init + [events[n]];
    OrderGrows(cfg, mode, init, events[n]);
    var order, before := TableOf(cfg, mode, events).order, TableOf(cfg, mode, init).order;
    if p < n {
      assert Counts(cfg, init[p], order[j]);
      CountedOnce(cfg, init, order[j]);
      TableTallies(cfg, mode, init, order[j]);
      assert order[j] in before;
      OrderOfEvents(cfg, mode, init, i, j, p);
      var q :| 0 <= q < p && Counts(cfg, init[q], before[i]);
      assert Counts(cfg, events[q], order[i]);
    } else {
      assert order[i] == before[i] && before[i] in before;
      TableTallies(cfg, mode, init, order[i]);
      CountedOnce(cfg, init, order[i]);
      var q :| 0 <= q < |init| && Counts(cfg, init[q], order[i]);
      assert Counts(cfg, events[q], order[i]);
    }
  }

  // ----- what arrives at the end -----

  /** A row holds how many events count for its key, their sum and their average. */
  predicate Tallied(r: Result, cfg: Services, events: seq<Raw>) {
    && r.key in {"click", "purchase"}
    && r.count == CountOf(cfg, events, r.key) > 0
    && r.sum == SumOf(cfg, events, r.key)
    && r.avg * r.count as real == r.sum as real
  }

  /** One row for every key that events count for, in the order of the first event that does. */
  ghost predicate Tallies(rows: seq<Result>, cfg: Services, events: seq<Raw>) {
    && (forall i :: 0 <= i < |rows| ==> Tallied(rows[i], cfg, events))
    && (forall key :: CountOf(cfg, events, key) > 0 ==> exists i :: 0 <= i < |rows| && rows[i].key == key)
    && (forall i, j :: 0 <= i < j < |rows| ==> rows[i].key != rows[j].key)
    && (forall i, j, p :: 0 <= i < j < |rows| && 0 <= p < |events| && Counts(cfg, events[p], rows[j].key) ==>
          exists q :: 0 <= q < p && Counts(cfg, events[q], rows[i].key))
  }

  lemma ResultTallies(cfg: Services, events: seq<Raw>, key: string, s: M.Stats)
    requires s == M.Stats(CountOf(cfg, events, key), SumOf(cfg, events, key)) && s.count > 0
    ensures Tallied(M.ResultOf(key, s), cfg, events)
  {
    CountedOnce(cfg, events, key);
  }

  lemma RowTallies(cfg: Services, mode: Mode, events: seq<Raw>, i: nat)
    requires i < |TableOf(cfg, mode, events).order|
    ensures Rows(TableOf(cfg, mode, events))[i].key == TableOf(cfg, mode, events).order[i]
    ensures Tallied(Rows(TableOf(cfg, mode, events))[i], cfg, events)
  {
    var t := TableOf(cfg, mode, events);
    assert t.order[i] in t.stats;
    TableTallies(cfg, mode, events, t.order[i]);
    ResultTallies(cfg, events, t.order[i], t.stats[t.order[i]]);
  }

  lemma CountedHasRow(cfg: Services, mode: Mode, events: seq<Raw>, key: string) returns (i: nat)
    requires CountOf(cfg, events, key) > 0
    ensures i < |TableOf(cfg, mode, events).order| && TableOf(cfg, mode, events).order[i] == key
  {
    TableTallies(cfg, mode, events, key);
    var order := TableOf(cfg, mode, events).order;
    assert key in order;
    i :| 0 <= i < |order| && order[i] == key;
  }

  lemma RowsTally(cfg: Services, mode: Mode, events: seq<Raw>)
    ensures Tallies(Rows(TableOf(cfg, mode, events)), cfg, events)
  {
    var t := TableOf(cfg, mode, events);
    var rows := Rows(t);
    forall i | 0 <= i < |rows| ensures rows[i].key == t.order[i] && Tallied(rows[i], cfg, events) {
      RowTallies(cfg, mode, events, i);
    }
    forall key | CountOf(cfg, events, key) > 0 ensures exists i :: 0 <= i < |rows| && rows[i].key == key {
      var i := CountedHasRow(cfg, mode, events, key);
      assert rows[i].key == key;
    }
    forall i, j, p | 0 <= i < j < |rows| && 0 <= p < |events| && Counts(cfg, events[p], rows[j].key)
      ensures exists q :: 0 <= q < p && Counts(cfg, events[q], rows[i].key)
    {
      OrderOfEvents(cfg, mode, events, i, j, p);
    }
  }

  /** The fields of a score's row, which each handler fills in its own way. */
  predicate ShowsScore(mode: Mode, r: Result, s: Score) {
    && r.key == (match mode case Direct => s.id case Batched(_) => s.workItemId)
    && r.count == 0 && r.sum == s.checksum && r.avg == s.final
  }

  /** Whatever the interleaving and the cuts: when the sink is told of the end, it has received the rows of the
      events that count, and after them, on the unbatched route, one for each work item that is processed and
      scored, in order. */
  lemma SinkTallies(cfg: Services, mode: Mode, events: seq<Raw>, run: seq<State>, moves: seq<Move>)
    returns (rows: seq<Result>, scored: seq<Result>)
    requires Run(cfg, mode, events, run, moves) && run[|run| - 1].sinkEnded
    ensures run[|run| - 1].sink == rows + scored && Tallies(rows, cfg, events)
    ensures mode.Batched? ==> scored == []
    ensures mode.Direct? ==> |scored| == |FilterMap(Work(cfg), events)|
    ensures mode.Direct? ==>
      forall i :: 0 <= i < |scored| ==> ShowsScore(mode, scored[i], FilterMap(Work(cfg), events)[i])
  {
    CutsMakeNoDifference(cfg, mode, events, run, moves);
    RoutesCompared(cfg, if mode.Batched? then mode.size else 0, events);
    RowsTally(cfg, mode, events);
    rows := Rows(TableOf(cfg, mode, events));
    scored := ScoreRows(mode, FilterMap(Scoring(cfg), Stages.Enriched(cfg, mode, events)));
  }
}
