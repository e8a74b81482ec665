/** The code of the queue, the threads and the coordinator, with the variables they update. A thread runs in turns:
    from one queue operation to the next, which it makes when it need not wait. Any scheduler may interleave the
    turns; each of them is one move of the pipeline. */
module MonolithThreads {
  import opened Wrappers
  import opened Channels
  import opened Monolith
  import C = MonolithControl
  import R = MonolithResults

  /** `push`, `pop` and `close` from where their wait is over to where they release the mutex. */
  class SharedQueue<T> {
    const maxSize: nat
    var items: seq<T>
    var closed: bool

    ghost function Value(): Channel<T>
      reads this
    {
      Channel(items, closed)
    }

    constructor (maxSize: nat)
      ensures this.maxSize == maxSize && Value() == Channel([], false)
    {
      this.maxSize := maxSize;
      items, closed := [], false;
    }

    /** push would wait. */
    predicate Full()
      reads this
    {
      !closed && maxSize > 0 && |items| >= maxSize
    }

    /** pop would wait. */
    predicate Dry()
      reads this
    {
      !closed && items == []
    }

    method Push(item: T) returns (ok: bool)
      requires !Full()
      modifies this
      ensures if ok then CanPush(maxSize, old(Value())) && Value() == Enqueue(old(Value()), item)
              else Refuses(old(Value())) && Value() == old(Value())
    {
      if closed {
        return false;
      }
      items := items + [item];
      return true;
    }

    method Pop() returns (item: Option<T>)
      requires !Dry()
      modifies this
      ensures match item
              case Some(x) => CanPop(old(Value())) && x == old(items[0]) && Value() == Dequeue(old(Value()))
              case None => Drained(old(Value())) && Value() == old(Value())
    {
      if items == [] {
        return None;
      }
      item := Some(items[0]);
      items := items[1..];
    }

    method Close()
      modifies this
      ensures Value() == Shut(old(Value()))
    {
      closed := true;
    }
  }

  /** The four queues, and for every thread where it stands and its variables. */
  class Coordinator {
    const cfg: Config
    const rawQueue: SharedQueue<RawEvent>
    const parsedQueue: SharedQueue<ParsedEvent>
    const enrichedQueue: SharedQueue<EnrichedEvent>
    const resultQueue: SharedQueue<AggregateResult>
    var next: nat
    var reader: Reader
    var parsers: seq<Parser>
    var activeParsers: int
    var rules: Rules
    var aggregator: Aggregator
    var stats: map<string, Stats>
    ghost var emission: seq<AggregateResult>
    var writer: Writer
    var output: seq<AggregateResult>
    var readCount: nat
    var parsedCount: nat
    var invalid: seq<nat>
    var filtered: seq<nat>
    var aggregated: seq<nat>

    ghost function Value(): State
      reads this, rawQueue, parsedQueue, enrichedQueue, resultQueue
    {
      State(next, reader, rawQueue.Value(), parsers, activeParsers, parsedQueue.Value(), rules, enrichedQueue.Value(),
            aggregator, stats, emission, resultQueue.Value(), writer, output, readCount, parsedCount, invalid, filtered,
            aggregated)
    }

    predicate Wired() {
      && rawQueue.maxSize == cfg.cap && parsedQueue.maxSize == cfg.cap
      && enrichedQueue.maxSize == cfg.cap && resultQueue.maxSize == cfg.cap
    }

    constructor (cfg: Config)
      ensures this.cfg == cfg && Wired() && Value() == Monolith.Start(cfg)
      ensures fresh(rawQueue) && fresh(parsedQueue) && fresh(enrichedQueue) && fresh(resultQueue)
    {
      this.cfg := cfg;
      rawQueue := new SharedQueue<RawEvent>(cfg.cap);
      parsedQueue := new SharedQueue<ParsedEvent>(cfg.cap);
      enrichedQueue := new SharedQueue<EnrichedEvent>(cfg.cap);
      resultQueue := new SharedQueue<AggregateResult>(cfg.cap);
      next, reader, parsers, activeParsers := 0, Reading, seq(cfg.parsers, _ => ParserPopping), cfg.parsers;
      rules, aggregator, stats, emission := RulesPopping, Folding, map[], [];
      writer, output := if cfg.outputOpens then WriterPopping else WriterExited, [];
      readCount, parsedCount, invalid, filtered, aggregated := 0, 0, [], [], [];
    }

    // ----- readerThread -----

    predicate ReaderReady()
      reads this, rawQueue
    {
      match reader
      case HasRaw(_) => !rawQueue.Full()
      case ReaderExited => false
      case _ => true
    }

    method ReaderTurn() returns (ghost m: Move)
      requires Wired() && ReaderReady()
      modifies this`next, this`reader, this`readCount, rawQueue
      ensures Step(cfg, old(Value()), m, Value())
    {
      match reader
      case Reading =>
        if next < |cfg.input| {
          m := ReadLine;
          reader := HasRaw(RawEvent(cfg.input[next], next));
          next := next + 1;
        } else {
          m := ReachEnd;
          reader := ReaderAtEnd;
        }
      case HasRaw(event) =>
        var ok := rawQueue.Push(event);
        m := if ok then PushRaw else RawRefused;
        if ok {
          readCount := readCount + 1;
          reader := Reading;
        } else {
          reader := ReaderAtEnd;
        }
      case ReaderAtEnd =>
        m := CloseRaw;
        rawQueue.Close();
        reader := ReaderExited;
    }

    // ----- parserThread -----

    predicate ParserReady(i: nat)
      requires i < |parsers|
      reads this, rawQueue, parsedQueue
    {
      match parsers[i]
      case ParserPopping => !rawQueue.Dry()
      case HasParsed(_) => !parsedQueue.Full()
      case ParserExited => false
      case _ => true
    }

    method ParserTakes(i: nat) returns (ghost m: Move)
      requires i < |parsers| && parsers[i].ParserPopping? && !rawQueue.Dry()
      modifies this`parsers, this`parsedCount, this`invalid, rawQueue
      ensures Step(cfg, old(Value()), m, Value())
    {
      var raw := rawQueue.Pop();
      m := if raw.Some? then PopRaw(i) else RawDrained(i);
      if raw == None {
        parsers := parsers[i := ParserDone];
        return;
      }
      var fields := cfg.parse(raw.value.line);
      if fields == None {
        invalid := invalid + [raw.value.sequence];
      } else {
        parsedCount := parsedCount + 1;
        parsers := parsers[i := HasParsed(ParsedEvent(fields.value, raw.value.sequence))];
      }
    }

    method ParserTurn(i: nat) returns (ghost m: Move)
      requires Wired() && i < |parsers| && ParserReady(i)
      modifies this`parsers, this`activeParsers, this`parsedCount, this`invalid, rawQueue, parsedQueue
      ensures Step(cfg, old(Value()), m, Value())
    {
      match parsers[i]
      case ParserPopping => m := ParserTakes(i);
      case HasParsed(event) =>
        var ok := parsedQueue.Push(event);
        m := if ok then PushParsed(i) else ParsedRefused(i);
        parsers := parsers[i := if ok then ParserPopping else ParserDone];
      case ParserDone =>
        m := LeaveParser(i);
        var before := activeParsers;
        activeParsers := activeParsers - 1;
        parsers := parsers[i := if before == 1 then LastParser else ParserExited];
      case LastParser =>
        m := CloseParsed(i);
        parsedQueue.Close();
        parsers := parsers[i := ParserExited];
    }

    // ----- rulesThread -----

    predicate RulesReady()
      reads this, parsedQueue, enrichedQueue
    {
      match rules
      case RulesPopping => !parsedQueue.Dry()
      case HasEnriched(_) => !enrichedQueue.Full()
      case RulesExited => false
      case _ => true
    }

    method RulesTake() returns (ghost m: Move)
      requires rules.RulesPopping? && !parsedQueue.Dry()
      modifies this`rules, this`filtered, parsedQueue
      ensures Step(cfg, old(Value()), m, Value())
      ensures m.PopParsed? ==>
        var event := old(Value()).parsed.items[0];
        if event.fields.value >= 10 && event.fields.kind != "view"
        then rules == HasEnriched(EnrichedEvent(event, true)) && filtered == old(filtered)
        else rules == RulesPopping && filtered == old(filtered) + [event.sequence]
    {
      var parsed := parsedQueue.Pop();
      m := if parsed.Some? then PopParsed else ParsedDrained;
      if parsed == None {
        rules := RulesDone;
        return;
      }
      var fields := parsed.value.fields;
      var passed := fields.value >= 10 && fields.kind != "view";
      if !passed {
        filtered := filtered + [parsed.value.sequence];
      } else {
        rules := HasEnriched(EnrichedEvent(parsed.value, true));
      }
    }

    method RulesTurn() returns (ghost m: Move)
      requires Wired() && RulesReady()
      modifies this`rules, this`filtered, parsedQueue, enrichedQueue
      ensures Step(cfg, old(Value()), m, Value())
      ensures m.PopParsed? ==>
        var event := old(Value()).parsed.items[0];
        if event.fields.value >= 10 && event.fields.kind != "view"
        then rules == HasEnriched(EnrichedEvent(event, true)) && filtered == old(filtered)
        else rules == RulesPopping && filtered == old(filtered) + [event.sequence]
    {
      match rules
      case RulesPopping => m := RulesTake();
      case HasEnriched(event) =>
        var ok := enrichedQueue.Push(event);
        m := if ok then PushEnriched else EnrichedRefused;
        rules := if ok then RulesPopping else RulesDone;
      case RulesDone =>
        m := CloseEnriched;
        enrichedQueue.Close();
        rules := RulesExited;
    }

    // ----- aggregatorThread -----

    predicate AggregatorReady()
      reads this, enrichedQueue, resultQueue
    {
      match aggregator
      case Folding => !enrichedQueue.Dry()
      case Emitting(todo) => todo == [] || !resultQueue.Full()
      case AggregatorExited => false
    }

    method StartEmitting(keys: seq<string>)
      requires aggregator.Folding? && Drained(enrichedQueue.Value()) && Lists(keys, stats.Keys)
      modifies this`aggregator, this`emission
      ensures Step(cfg, old(Value()), EnrichedDrained(keys), Value())
    {
      var results := Emission(keys, stats);
      emission := results;
      aggregator := Emitting(results);
    }

    method Fold(enriched: EnrichedEvent)
      modifies this`stats, this`aggregated
      ensures stats == if enriched.passedRules then AddTo(old(stats), enriched.event.fields) else old(stats)
      ensures aggregated == old(aggregated) + if enriched.passedRules then [enriched.event.sequence] else []
    {
      if !enriched.passedRules {
        return;
      }
      var fields := enriched.event.fields;
      var entry := if fields.kind in stats then stats[fields.kind] else Stats(0, 0);
      entry := entry.(count := entry.count + 1);
      entry := entry.(sum := entry.sum + fields.value);
      stats := stats[fields.kind := entry];
      aggregated := aggregated + [enriched.event.sequence];
    }

    method AggregatorTakes(keys: seq<string>) returns (ghost m: Move)
      requires aggregator.Folding? && !enrichedQueue.Dry() && Lists(keys, stats.Keys)
      modifies this`aggregator, this`stats, this`emission, this`aggregated, enrichedQueue
      ensures Step(cfg, old(Value()), m, Value())
    {
      ghost var s := Value();
      var enriched := enrichedQueue.Pop();
      if enriched == None {
        m := EnrichedDrained(keys);
        assert Value() == s;
        StartEmitting(keys);
      } else {
        m := PopEnriched;
        Fold(enriched.value);
        assert Value() == s.(enriched := Dequeue(s.enriched), stats := stats, aggregated := aggregated);
      }
    }

    /** `keys` is the order in which the map is iterated, should the first loop end in this turn. */
    method AggregatorTurn(keys: seq<string>) returns (ghost m: Move)
      requires Wired() && AggregatorReady() && Lists(keys, stats.Keys)
      modifies this`aggregator, this`stats, this`emission, this`aggregated, enrichedQueue, resultQueue
      ensures Step(cfg, old(Value()), m, Value())
    {
      match aggregator
      case Folding => m := AggregatorTakes(keys);
      case Emitting(todo) =>
        if todo == [] {
          m := CloseResults;
          resultQueue.Close();
          aggregator := AggregatorExited;
        } else {
          var ok := resultQueue.Push(todo[0]);
          m := if ok then PushResult else ResultRefused;
          aggregator := Emitting(if ok then todo[1..] else []);
        }
    }

    // ----- writerThread -----

    predicate WriterReady()
      reads this, resultQueue
    {
      writer.WriterPopping? && !resultQueue.Dry()
    }

    method WriterTurn() returns (ghost m: Move)
      requires Wired() && WriterReady()
      modifies this`writer, this`output, resultQueue
      ensures Step(cfg, old(Value()), m, Value())
    {
      var result := resultQueue.Pop();
      m := if result.Some? then PopResult else ResultsDrained;
      if result == None {
        writer := WriterExited;
      } else {
        output := output + [result.value];
      }
    }

    // ----- run -----

    /** The keys of the map, in whatever order it is iterated. */
    method KeysOfMap() returns (keys: seq<string>)
      ensures Lists(keys, stats.Keys)
    {
      keys := [];
      var todo := stats.Keys;
      while todo != {}
        invariant todo <= stats.Keys && Lists(keys, stats.Keys - todo)
        decreases todo
      {
        var key :| key in todo;
        todo := todo - {key};
        keys := keys + [key];
      }
      assert stats.Keys - todo == stats.Keys;
    }

    predicate SomeParserReady()
      reads this, rawQueue, parsedQueue
    {
      exists i :: 0 <= i < |parsers| && ParserReady(i)
    }

    predicate NobodyReady()
      reads this, rawQueue, parsedQueue, enrichedQueue, resultQueue
    {
      !ReaderReady() && !SomeParserReady() && !RulesReady() && !AggregatorReady() && !WriterReady()
    }

    /** When every thread waits or has exited, the pipeline cannot move. */
    lemma NobodyReadyMeansStuck()
      requires Wired() && NobodyReady()
      ensures !C.CanMove(cfg, Value())
    {
      forall m ensures !Enabled(cfg, Value(), m) {
        if Enabled(cfg, Value(), m) && (m.PopRaw? || m.RawDrained? || m.PushParsed? || m.ParsedRefused?
                                        || m.LeaveParser? || m.CloseParsed?) {
          assert ParserReady(m.i);
        }
      }
    }

    /** The scheduler picks any thread that can go on. */
    method OneTurn() returns (ghost m: Move)
      requires Wired() && !NobodyReady()
      modifies this, rawQueue, parsedQueue, enrichedQueue, resultQueue
      ensures Step(cfg, old(Value()), m, Value())
    {
      if
      case ReaderReady() => m := ReaderTurn();
      case SomeParserReady() =>
        var i :| 0 <= i < |parsers| && ParserReady(i);
        m := ParserTurn(i);
      case RulesReady() => m := RulesTurn();
      case AggregatorReady() =>
        var keys := KeysOfMap();
        m := AggregatorTurn(keys);
      case WriterReady() => m := WriterTurn();
    }

    lemma Record(run: seq<State>, moves: seq<Move>, m: Move) returns (run': seq<State>, moves': seq<Move>)
      requires cfg.parsers >= 1 && Monolith.Run(cfg, run, moves) && Step(cfg, run[|run| - 1], m, Value())
      ensures run' == run + [Value()] && moves' == moves + [m] && Monolith.Run(cfg, run', moves')
      ensures |moves| < |moves'| <= C.Measure(cfg, Monolith.Start(cfg))
    {
      C.OneMoreMove(cfg, run, moves, m);
      run', moves' := run + [Value()], moves + [m];
      C.RunsEnd(cfg, run', moves', |moves'|);
    }

    /** All threads, scheduled in any way, until none can go on: for any capacity and any number of parsers the
        output is that of one sequential pass, and the threads can be joined exactly when the output file opened
        or the results fit. */
    method Run()
      requires Wired() && Value() == Monolith.Start(cfg) && cfg.parsers >= 1
      modifies this, rawQueue, parsedQueue, enrichedQueue, resultQueue
      ensures AllExited(Value()) <==> R.Fits(cfg)
      ensures cfg.outputOpens ==> R.ResultsOf(output, SequentialStats(cfg.parse, cfg.input))
      ensures cfg.outputOpens ==> R.Tallies(output, cfg.parse, cfg.input)
    {
      ghost var run, moves := [Value()], [];
      while !NobodyReady()
        invariant Wired() && Monolith.Run(cfg, run, moves) && run[|run| - 1] == Value()
        decreases C.Measure(cfg, Monolith.Start(cfg)) - |moves|
      {
        ghost var m := OneTurn();
        run, moves := Record(run, moves, m);
      }
      NobodyReadyMeansStuck();
      R.EndsWellExactly(cfg, run, moves);
      if cfg.outputOpens {
        R.ScheduleIndependence(cfg, run, moves);
      }
    }
  }
}
