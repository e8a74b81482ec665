/** The code around the stages, with the state it updates in place. */
module Handlers {
  import opened Wrappers
  import opened Streams
  import opened Monolith
  import opened Stages

  /** What the orchestrator has written to a stage, and what it holds back. */
  datatype Feed<T> = Feed(pending: seq<T>, requests: seq<seq<T>>, closed: bool)

  function Flushed<T>(f: Feed<T>): Feed<T> {
    if f.pending == [] then f else f.(pending := [], requests := f.requests + [f.pending])
  }

  /** A message from the stage before brings `items`. */
  function Accept<T>(mode: Mode, f: Feed<T>, items: seq<T>): Feed<T> {
    match mode
    case Direct => f.(requests := f.requests + [items])
    case Batched(size) =>
      var g := f.(pending := f.pending + items);
      if |g.pending| >= size then Flushed(g) else g
  }

  /** The stage before has ended. */
  function Close<T>(mode: Mode, f: Feed<T>): Feed<T> {
    (if mode.Direct? then f else Flushed(f)).(closed := true)
  }

  /** The orchestrator's handlers for one stage: `batch` is eventBatch, parseBatch or rulesBatch. */
  class Forwarder<T> {
    const mode: Mode
    var batch: seq<T>
    var written: seq<seq<T>>
    var ended: bool

    ghost function Value(): Feed<T>
      reads this
    {
      Feed(batch, written, ended)
    }

    constructor (mode: Mode)
      ensures this.mode == mode && Value() == Feed([], [], false)
    {
      this.mode := mode;
      batch, written, ended := [], [], false;
    }

    method FlushBatch()
      modifies this
      ensures Value() == Flushed(old(Value()))
      ensures batch == [] && Concat(written) == old(Concat(written) + batch)
      ensures old(batch) == [] ==> written == old(written)
    {
      if batch != [] {
        ConcatOne(written, batch);
        written := written + [batch];
        batch := [];
      }
    }

    /** Nothing is lost, repeated or put out of order. */
    method Data(items: seq<T>)
      modifies this
      requires mode.Direct? ==> batch == []
      ensures Value() == Accept(mode, old(Value()), items)
      ensures Concat(written) + batch == old(Concat(written) + batch) + items
      ensures mode.Direct? ==> batch == []
      ensures mode.Batched? && old(|batch|) < mode.size ==> |batch| < mode.size
    {
      if mode.Direct? {
        ConcatOne(written, items);
        written := written + [items];
      } else {
        batch := batch + items;
        if |batch| >= mode.size {
          FlushBatch();
        }
      }
    }

    method End()
      modifies this
      requires mode.Direct? ==> batch == []
      ensures Value() == Close(mode, old(Value()))
      ensures ended && batch == [] && Concat(written) == old(Concat(written) + batch)
    {
      if mode.Batched? {
        FlushBatch();
      }
      ended := true;
    }
  }

  /** createAggregator: a Map, updated by `add` and listed by `results`. */
  class Aggregator {
    var order: seq<string>
    var stats: map<string, Stats>

    ghost function Value(): Table
      reads this
    {
      Table(order, stats)
    }

    constructor ()
      ensures Value() == EMPTY_TABLE
    {
      order, stats := [], map[];
    }

    method AddEvent(e: EnrichedEvent)
      modifies this
      ensures Value() == Add(old(Value()), e)
      ensures !e.passedRules ==> Value() == old(Value())
      ensures e.passedRules ==>
        var key := e.event.fields.kind;
        && stats.Keys == old(stats.Keys) + {key}
        && (forall k :: k in old(stats) && k != key ==> stats[k] == old(stats[k]))
        && order == old(order) + (if key in old(stats) then [] else [key])
        && stats[key].count == (if key in old(stats) then old(stats[key].count) else 0) + 1
        && stats[key].sum == (if key in old(stats) then old(stats[key].sum) else 0) + e.event.fields.value
    {
      if !e.passedRules {
        return;
      }
      var key := e.event.fields.kind;
      var current := if key in stats then stats[key] else Stats(0, 0);
      if key !in stats {
        order := order + [key];
      }
      stats := stats[key := Stats(current.count + 1, current.sum + e.event.fields.value)];
    }

    method Results() returns (output: seq<AggregateResult>)
      requires WellFormed(Value())
      ensures output == Rows(Value())
      ensures |output| == |order|
      ensures forall i :: 0 <= i < |output| ==>
        && output[i].key == order[i]
        && output[i].count == stats[order[i]].count && output[i].sum == stats[order[i]].sum
        && (output[i].count != 0 ==> output[i].avg * output[i].count as real == output[i].sum as real)
    {
      output := [];
      for i := 0 to |order|
        invariant |output| == i
        invariant forall j :: 0 <= j < i ==> output[j] == ResultOf(order[j], stats[order[j]])
      {
        var key := order[i];
        assert key in order;
        var value := stats[key];
        output := output + [AggregateResult(key, value.count, value.sum,
                                            if value.count == 0 then 0.0 else value.sum as real / value.count as real)];
      }
    }
  }

  lemma FoldedOne(events: seq<EnrichedEvent>, e: EnrichedEvent)
    ensures Folded(events + [e]) == if IsWorkItem(e) then Folded(events) else Add(Folded(events), e)
  {
    assert (events + [e])[..|events|] == events;
  }

  function Singles<T>(s: seq<T>): seq<seq<T>> {
    if s == [] then [] else Singles(s[..|s| - 1]) + [[s[|s| - 1]]]
  }

  lemma {:induction false} ConcatSingles<T>(s: seq<T>)
    ensures Concat(Singles(s)) == s && |Singles(s)| == |s|
  {
    if s != [] {
      ConcatSingles(s[..|s| - 1]);
      ConcatOne(Singles(s[..|s| - 1]), [s[|s| - 1]]);
    }
  }

  /** One call of an aggregate handler: `seen` lists the events it received so far. */
  class AggregateCall {
    const cfg: Services
    const mode: Mode
    const aggregator: Aggregator
    var scores: seq<Score>
    ghost var seen: seq<EnrichedEvent>

    ghost predicate Valid()
      reads this, aggregator
    {
      && aggregator.Value() == Folded(seen)
      && scores == FilterMap(Scoring(cfg), seen)
    }

    constructor (cfg: Services, mode: Mode)
      ensures Valid() && fresh(aggregator)
      ensures this.cfg == cfg && this.mode == mode && seen == []
    {
      var a := new Aggregator();
      this.cfg, this.mode, aggregator := cfg, mode, a;
      scores, seen := [], [];
    }

    method Take(e: EnrichedEvent)
      requires Valid()
      modifies this, aggregator
      ensures Valid() && seen == old(seen) + [e]
    {
      FoldedOne(seen, e);
      FilterMapOne(Scoring(cfg), seen, e);
      if IsWorkItem(e) {
        var result := cfg.score(e.event.fields.user);
        if result.Some? {
          scores := scores + [result.value];
        }
      } else {
        aggregator.AddEvent(e);
      }
      seen := seen + [e];
    }

    method Data(events: seq<EnrichedEvent>)
      requires Valid()
      modifies this, aggregator
      ensures Valid() && seen == old(seen) + events
    {
      for i := 0 to |events|
        invariant Valid() && seen == old(seen) + events[..i]
      {
        Take(events[i]);
        assert events[..i + 1] == events[..i] + [events[i]];
      }
      assert events[..|events|] == events;
    }

    /** The single handler sends a message for each result, the batch handler one for all of them. */
    method End() returns (responses: seq<seq<AggregateResult>>)
      requires Valid()
      ensures Concat(responses) == Answer(cfg, mode, seen)
      ensures responses == if mode.Direct? then Singles(Answer(cfg, mode, seen)) else [Answer(cfg, mode, seen)]
    {
      var results := aggregator.Results();
      results := results + ScoreRows(mode, scores);
      responses := [];
      if mode.Batched? {
        responses := [results];
        assert Concat(responses) == Concat([]) + results;
      } else {
        for i := 0 to |results|
          invariant responses == Singles(results[..i])
        {
          assert results[..i + 1][..i] == results[..i];
          responses := responses + [[results[i]]];
        }
        assert results[..|results|] == results;
        ConcatSingles(results);
      }
    }
  }

  /** How many lines are streamed when the call is cancelled before line `cancelledAt` is taken: `max` is None
      for no limit. */
  function Streamed(lines: nat, max: Option<nat>, cancelledAt: nat): nat {
    var limit := if max.Some? && max.value < lines then max.value else lines;
    if cancelledAt < limit then cancelledAt else limit
  }

  /** The loop of streamEvents over the lines of a file. `late(i)` says whether more than ten milliseconds
      have passed since the last flush when line i is taken. Whatever the size, the clock and the cut, what
      is sent is the numbered lines up to the cut, in order. */
  method StreamEvents(lines: seq<string>, max: Option<nat>, batching: bool, batchSize: int,
                      late: nat -> bool, cancelledAt: nat)
    returns (sent: seq<RawEvent>)
    ensures sent == Numbered(lines)[..Streamed(|lines|, max, cancelledAt)]
    ensures |sent| <= |lines| && |sent| <= cancelledAt && (max.Some? ==> |sent| <= max.value)
    ensures |sent| == |lines| || |sent| == cancelledAt || max == Some(|sent|)
    ensures forall i :: 0 <= i < |sent| ==> sent[i] == RawEvent(lines[i], i)
  {
    var size := if batchSize > 0 then batchSize else 100;
    var sequence := 0;
    var batch: seq<RawEvent> := [];
    sent := [];
    while sequence < |lines|
      invariant 0 <= sequence <= Streamed(|lines|, max, cancelledAt)
      invariant sent + batch == Numbered(lines)[..sequence]
      invariant !batching ==> batch == []
    {
      if sequence >= cancelledAt {
        break;
      }
      if max.Some? && sequence >= max.value {
        break;
      }
      var response := RawEvent(lines[sequence], sequence);
      assert Numbered(lines)[..sequence + 1] == Numbered(lines)[..sequence] + [response];
      if batching {
        batch := batch + [response];
        if |batch| >= size || late(sequence) {
          sent := sent + batch;
          batch := [];
        }
      } else {
        sent := sent + [response];
      }
      sequence := sequence + 1;
    }
    if batching && |batch| > 0 {
      sent := sent + batch;
    }
  }
}
