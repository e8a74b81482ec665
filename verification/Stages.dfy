/** The records and the stages of the split pipeline: one service a stage, and an orchestrator that carries
    the events from each to the next. Events, results and totals are those of the monolith. */
module Stages {
  import opened Wrappers
  import opened Streams
  import opened Monolith

  /** What reading a line as JSON yields, when its fields have the right types. */
  datatype Json = Json(kind: string, user: string, value: int, timestamp: int)

  datatype Score = Score(id: string, workItemId: string, checksum: int, final: real)

  /** `read` stands for JSON.parse and the checks of the fields' types; `workItem` for recognising and
      processing a work item while parsing, `process` for processing it under the single rules handler and
      `score` for scoring it, checksum rounded. Each yields None where the code catches a failure. `now` is the
      time stamped on a work item. */
  datatype Services = Services(
    read: string -> Option<Json>,
    workItem: string -> Option<string>,
    process: string -> Option<string>,
    score: string -> Option<Score>,
    now: int)

  /** Direct: every message carries one event. Batched: events are collected up to `size` at every stage. */
  datatype Mode = Direct | Batched(size: int)

  const WORK_ITEM: string := "work-item"

  // ----- parse -----

  function ParseEvent(cfg: Services, raw: RawEvent): Option<ParsedEvent> {
    match cfg.read(raw.line)
    case None => None
    case Some(json) =>
      if json.kind in ["click", "view", "purchase"]
      then Some(ParsedEvent(Fields(json.kind, json.user, json.value, json.timestamp), raw.sequence))
      else None
  }

  /** Both parse handlers treat one event like this. */
  function Parse(cfg: Services, raw: RawEvent): Option<ParsedEvent> {
    match cfg.workItem(raw.line)
    case Some(user) => Some(ParsedEvent(Fields(WORK_ITEM, user, 0, cfg.now), raw.sequence))
    case None => ParseEvent(cfg, raw)
  }

  // ----- rules -----

  function ApplyRules(event: ParsedEvent): Option<EnrichedEvent> {
    if Passes(event.fields) then Some(EnrichedEvent(event, true)) else None
  }

  /** The single handler passes work items through, the batch handler applies the rules to them too. */
  function Enrich(cfg: Services, mode: Mode, event: ParsedEvent): Option<EnrichedEvent> {
    if mode.Direct? && event.fields.kind == WORK_ITEM then
      match cfg.process(event.fields.user)
      case None => None
      case Some(user) => Some(EnrichedEvent(event.(fields := event.fields.(user := user)), true))
    else
      ApplyRules(event)
  }

  // ----- aggregate -----

  /** The aggregator's Map: its keys in insertion order, and the statistics of each. */
  datatype Table = Table(order: seq<string>, stats: map<string, Stats>)

  const EMPTY_TABLE := Table([], map[])

  predicate WellFormed(t: Table) {
    && (forall k :: k in t.order ==> k in t.stats)
    && (forall k :: k in t.stats ==> k in t.order)
    && (forall i, j :: 0 <= i < j < |t.order| ==> t.order[i] != t.order[j])
  }

  function Add(t: Table, e: EnrichedEvent): (r: Table)
    ensures WellFormed(t) ==> WellFormed(r)
  {
    if !e.passedRules then t
    else Table(if e.event.fields.kind in t.stats then t.order else t.order + [e.event.fields.kind],
               AddTo(t.stats, e.event.fields))
  }

  function Rows(t: Table): (r: seq<AggregateResult>)
    requires WellFormed(t)
    ensures |r| == |t.order|
    ensures forall i :: 0 <= i < |r| ==> r[i] == ResultOf(t.order[i], t.stats[t.order[i]])
  {
    seq(|t.order|, i requires 0 <= i < |t.order| => ResultOf(t.order[i], t.stats[t.order[i]]))
  }

  predicate IsWorkItem(e: EnrichedEvent) {
    e.event.fields.kind == WORK_ITEM
  }

  /** Either aggregate handler keeps the scores of work items apart from the table. */
  function ScoreOf(cfg: Services, e: EnrichedEvent): Option<Score> {
    if IsWorkItem(e) then cfg.score(e.event.fields.user) else None
  }

  function Folded(events: seq<EnrichedEvent>): (t: Table)
    ensures WellFormed(t)
  {
    if events == [] then EMPTY_TABLE
    else
      var t := Folded(events[..|events| - 1]);
      var e := events[|events| - 1];
      if IsWorkItem(e) then t else Add(t, e)
  }

  /** The single handler names a work item's result by `id`, the batch handler by `work_item_id`. */
  function ScoreRow(mode: Mode, s: Score): AggregateResult {
    AggregateResult(if mode.Direct? then s.id else s.workItemId, 0, s.checksum, s.final)
  }

  function ScoreRows(mode: Mode, scores: seq<Score>): (r: seq<AggregateResult>)
    ensures |r| == |scores|
    ensures forall i :: 0 <= i < |r| ==> r[i] == ScoreRow(mode, scores[i])
  {
    seq(|scores|, i requires 0 <= i < |scores| => ScoreRow(mode, scores[i]))
  }

  // ----- the stages as functions on lists -----

  function Parsing(cfg: Services): RawEvent -> Option<ParsedEvent> {
    raw => Parse(cfg, raw)
  }

  function Enriching(cfg: Services, mode: Mode): ParsedEvent -> Option<EnrichedEvent> {
    event => Enrich(cfg, mode, event)
  }

  function Scoring(cfg: Services): EnrichedEvent -> Option<Score> {
    e => ScoreOf(cfg, e)
  }

  /** What a route computes from the ingested events: each stage applied to the whole list, one after the
      other. */
  function Enriched(cfg: Services, mode: Mode, events: seq<RawEvent>): seq<EnrichedEvent> {
    FilterMap(Enriching(cfg, mode), FilterMap(Parsing(cfg), events))
  }

  function Answer(cfg: Services, mode: Mode, aggregated: seq<EnrichedEvent>): seq<AggregateResult> {
    Rows(Folded(aggregated)) + ScoreRows(mode, FilterMap(Scoring(cfg), aggregated))
  }
}
