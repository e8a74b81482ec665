/** Shutdown by closing queues: nothing is refused, nothing deadlocks, everything ends. */
module MonolithControl {
  import opened Wrappers
  import opened Sums
  import opened Channels
  import opened Monolith

  // ----- the control invariant -----

  predicate IsWorking(p: Parser) { p.ParserPopping? || p.HasParsed? || p.ParserDone? }
  predicate IsLast(p: Parser) { p.LastParser? }

  /** A thread that is past its input has seen it closed and empty. */
  predicate PastInput(cfg: Config, s: State) {
    && (s.reader.ReaderAtEnd? || s.reader.ReaderExited? ==> s.next == |cfg.input|)
    && (forall i :: 0 <= i < |s.parsers| ==>
          s.parsers[i].ParserDone? || s.parsers[i].LastParser? || s.parsers[i].ParserExited? ==> Drained(s.raw))
    && (s.rules.RulesDone? || s.rules.RulesExited? ==> Drained(s.parsed))
    && (!s.aggregator.Folding? ==> Drained(s.enriched))
    && (cfg.outputOpens && s.writer.WriterExited? ==> Drained(s.results))
  }

  /** Each queue is closed by exactly one thread; the parsed queue by the parser that leaves last. */
  predicate Closers(s: State) {
    && (s.raw.closed <==> s.reader.ReaderExited?)
    && Count(s.parsers, IsLast) + (if s.parsed.closed then 1 else 0) == (if s.active == 0 then 1 else 0)
    && (s.enriched.closed <==> s.rules.RulesExited?)
    && (s.results.closed <==> s.aggregator.AggregatorExited?)
  }

  predicate WithinCapacity(cfg: Config, s: State) {
    cfg.cap > 0 ==>
      |s.raw.items| <= cfg.cap && |s.parsed.items| <= cfg.cap
      && |s.enriched.items| <= cfg.cap && |s.results.items| <= cfg.cap
  }

  predicate Control(cfg: Config, s: State) {
    && |s.parsers| == cfg.parsers
    && s.next <= |cfg.input|
    && s.active == Count(s.parsers, IsWorking)
    && PastInput(cfg, s)
    && Closers(s)
    && WithinCapacity(cfg, s)
    && (!cfg.outputOpens ==> s.writer.WriterExited?)
  }

  lemma {:induction false} CountFresh(n: nat)
    ensures Count(seq(n, _ => ParserPopping), IsWorking) == n
    ensures Count(seq(n, _ => ParserPopping), IsLast) == 0
  {
    if n > 0 {
      CountFresh(n - 1);
      assert seq(n, _ => ParserPopping)[..n - 1] == seq(n - 1, _ => ParserPopping);
    }
  }

  lemma StartControl(cfg: Config)
    requires cfg.parsers >= 1
    ensures Control(cfg, Start(cfg))
  {
    CountFresh(cfg.parsers);
  }

  /** While a parser is at work, nobody has closed the parsed queue. */
  lemma WorkingKeepsOpen(cfg: Config, s: State, i: nat)
    requires Control(cfg, s) && i < |s.parsers| && IsWorking(s.parsers[i])
    ensures s.active >= 1 && !s.parsed.closed
  {
    CountAny(s.parsers, IsWorking);
  }

  lemma ReaderKeepsControl(cfg: Config, s: State, m: Move)
    requires Control(cfg, s) && Enabled(cfg, s, m) && m in {ReadLine, ReachEnd, PushRaw, RawRefused, CloseRaw}
    ensures Control(cfg, AfterReader(cfg, s, m))
  {
  }

  predicate ParserMove(m: Move, i: nat) {
    m == PopRaw(i) || m == RawDrained(i) || m == PushParsed(i) || m == ParsedRefused(i)
    || m == LeaveParser(i) || m == CloseParsed(i)
  }

  lemma ParserKeepsClosers(cfg: Config, s: State, m: Move, i: nat)
    requires Control(cfg, s) && Enabled(cfg, s, m) && ParserMove(m, i)
    ensures var s' := AfterParser(cfg, s, m); s'.active == Count(s'.parsers, IsWorking) && Closers(s')
  {
    var s' := AfterParser(cfg, s, m);
    CountUpdate(s.parsers, IsWorking, i, s'.parsers[i]);
    CountUpdate(s.parsers, IsLast, i, s'.parsers[i]);
    if IsWorking(s.parsers[i]) {
      WorkingKeepsOpen(cfg, s, i);
    } else {
      CountAny(s.parsers, IsLast);
    }
    assert s'.parsers == s.parsers[i := s'.parsers[i]];
  }

  lemma ParserKeepsControl(cfg: Config, s: State, m: Move, i: nat)
    requires Control(cfg, s) && Enabled(cfg, s, m) && ParserMove(m, i)
    ensures Control(cfg, AfterParser(cfg, s, m))
  {
    ParserKeepsClosers(cfg, s, m, i);
    if IsWorking(s.parsers[i]) {
      WorkingKeepsOpen(cfg, s, i);
    }
    assert PastInput(cfg, AfterParser(cfg, s, m));
  }

  lemma RulesKeepsControl(cfg: Config, s: State, m: Move)
    requires Control(cfg, s) && Enabled(cfg, s, m)
    requires m in {PopParsed, ParsedDrained, PushEnriched, EnrichedRefused, CloseEnriched}
    ensures Control(cfg, AfterRules(cfg, s, m))
  {
  }

  lemma AggregatorKeepsControl(cfg: Config, s: State, m: Move)
    requires Control(cfg, s) && Enabled(cfg, s, m)
    requires m.PopEnriched? || m.EnrichedDrained? || m.PushResult? || m.ResultRefused? || m.CloseResults?
    ensures Control(cfg, AfterAggregator(cfg, s, m))
  {
  }

  lemma StepKeepsControl(cfg: Config, s: State, m: Move, s': State)
    requires Control(cfg, s) && Step(cfg, s, m, s')
    ensures Control(cfg, s')
  {
    match m
    case ReadLine => ReaderKeepsControl(cfg, s, m);
    case ReachEnd => ReaderKeepsControl(cfg, s, m);
    case PushRaw => ReaderKeepsControl(cfg, s, m);
    case RawRefused => ReaderKeepsControl(cfg, s, m);
    case CloseRaw => ReaderKeepsControl(cfg, s, m);
    case PopRaw(i) => ParserKeepsControl(cfg, s, m, i);
    case RawDrained(i) => ParserKeepsControl(cfg, s, m, i);
    case PushParsed(i) => ParserKeepsControl(cfg, s, m, i);
    case ParsedRefused(i) => ParserKeepsControl(cfg, s, m, i);
    case LeaveParser(i) => ParserKeepsControl(cfg, s, m, i);
    case CloseParsed(i) => ParserKeepsControl(cfg, s, m, i);
    case PopParsed => RulesKeepsControl(cfg, s, m);
    case ParsedDrained => RulesKeepsControl(cfg, s, m);
    case PushEnriched => RulesKeepsControl(cfg, s, m);
    case EnrichedRefused => RulesKeepsControl(cfg, s, m);
    case CloseEnriched => RulesKeepsControl(cfg, s, m);
    case PopEnriched => AggregatorKeepsControl(cfg, s, m);
    case EnrichedDrained(_) => AggregatorKeepsControl(cfg, s, m);
    case PushResult => AggregatorKeepsControl(cfg, s, m);
    case ResultRefused => AggregatorKeepsControl(cfg, s, m);
    case CloseResults => AggregatorKeepsControl(cfg, s, m);
    case PopResult =>
    case ResultsDrained =>
  }

  lemma {:induction false} RunControl(cfg: Config, run: seq<State>, moves: seq<Move>, n: nat)
    requires cfg.parsers >= 1 && Run(cfg, run, moves) && n < |run|
    ensures Control(cfg, run[n])
    decreases n
  {
    if n == 0 {
      StartControl(cfg);
    } else {
      RunControl(cfg, run, moves, n - 1);
      assert Linked(cfg, run, moves, n - 1);
      StepKeepsControl(cfg, run[n - 1], moves[n - 1], run[n]);
    }
  }

  /** No push is ever refused, and the parsed queue is closed only while it is still open. */
  lemma NothingRefused(cfg: Config, s: State, m: Move)
    requires Control(cfg, s) && Enabled(cfg, s, m)
    ensures !m.RawRefused? && !m.ParsedRefused? && !m.EnrichedRefused? && !m.ResultRefused?
    ensures m.CloseParsed? ==> !s.parsed.closed
  {
    if m.ParsedRefused? {
      WorkingKeepsOpen(cfg, s, m.i);
    }
    if m.CloseParsed? {
      CountAny(s.parsers, IsLast);
    }
  }

  // ----- termination -----

  function ReaderCost(r: Reader): int {
    match r case Reading => 2 case HasRaw(_) => 11 case ReaderAtEnd => 1 case ReaderExited => 0
  }

  function ParserCost(p: Parser): int {
    match p
    case ParserPopping => 3
    case HasParsed(_) => 10
    case ParserDone => 2
    case LastParser => 1
    case ParserExited => 0
  }

  function RulesCost(r: Rules): int {
    match r case RulesPopping => 2 case HasEnriched(_) => 7 case RulesDone => 1 case RulesExited => 0
  }

  function AggregatorCost(s: State): int {
    match s.aggregator
    case Folding => 2 + 2 * |s.stats|
    case Emitting(todo) => 1 + 2 * |todo|
    case AggregatorExited => 0
  }

  /** What is left to do: lines to read, items in queues and hands, and threads to end. */
  function Measure(cfg: Config, s: State): int {
    10 * (|cfg.input| - s.next) + ReaderCost(s.reader)
    + 8 * |s.raw.items| + Sum(s.parsers, ParserCost)
    + 6 * |s.parsed.items| + RulesCost(s.rules)
    + 4 * |s.enriched.items| + AggregatorCost(s)
    + |s.results.items| + (if s.writer.WriterPopping? then 1 else 0)
  }

  lemma {:induction false} DistinctFits(keys: seq<string>, all: set<string>)
    requires forall k :: k in keys ==> k in all
    requires forall i, j :: 0 <= i < j < |keys| ==> keys[i] != keys[j]
    ensures |keys| <= |all|
  {
    if keys != [] {
      var last := keys[|keys| - 1];
      assert last in all;
      DistinctFits(keys[..|keys| - 1], all - {last});
    }
  }

  lemma ParserMeasure(cfg: Config, s: State, m: Move, i: nat)
    requires Enabled(cfg, s, m) && ParserMove(m, i)
    ensures Measure(cfg, AfterParser(cfg, s, m)) < Measure(cfg, s)
  {
    var s' := AfterParser(cfg, s, m);
    SumUpdate(s.parsers, ParserCost, i, s'.parsers[i]);
    assert s'.parsers == s.parsers[i := s'.parsers[i]];
  }

  lemma AddToGrows(stats: map<string, Stats>, f: Fields)
    ensures |AddTo(stats, f)| <= |stats| + 1
  {
    assert AddTo(stats, f).Keys == stats.Keys + {f.kind};
    assert |AddTo(stats, f)| == |AddTo(stats, f).Keys| <= |stats.Keys| + 1 == |stats| + 1;
  }

  lemma EmissionFits(s: State, keys: seq<string>)
    requires Lists(keys, s.stats.Keys)
    ensures |Emission(keys, s.stats)| <= |s.stats|
  {
    DistinctFits(keys, s.stats.Keys);
    assert |s.stats.Keys| == |s.stats|;
  }

  lemma AggregatorMeasure(cfg: Config, s: State, m: Move)
    requires Enabled(cfg, s, m)
    requires m.PopEnriched? || m.EnrichedDrained? || m.PushResult? || m.ResultRefused? || m.CloseResults?
    ensures Measure(cfg, AfterAggregator(cfg, s, m)) < Measure(cfg, s)
  {
    match m
    case PopEnriched => AddToGrows(s.stats, s.enriched.items[0].event.fields);
    case EnrichedDrained(keys) => EmissionFits(s, keys);
    case _ =>
  }

  /** Every move uses up some of what is left. */
  lemma MeasureDecreases(cfg: Config, s: State, m: Move, s': State)
    requires Step(cfg, s, m, s')
    ensures Measure(cfg, s') < Measure(cfg, s)
  {
    match m
    case PopRaw(i) => ParserMeasure(cfg, s, m, i);
    case RawDrained(i) => ParserMeasure(cfg, s, m, i);
    case PushParsed(i) => ParserMeasure(cfg, s, m, i);
    case ParsedRefused(i) => ParserMeasure(cfg, s, m, i);
    case LeaveParser(i) => ParserMeasure(cfg, s, m, i);
    case CloseParsed(i) => ParserMeasure(cfg, s, m, i);
    case PopEnriched => AggregatorMeasure(cfg, s, m);
    case EnrichedDrained(_) => AggregatorMeasure(cfg, s, m);
    case PushResult => AggregatorMeasure(cfg, s, m);
    case ResultRefused => AggregatorMeasure(cfg, s, m);
    case CloseResults => AggregatorMeasure(cfg, s, m);
    case _ =>
  }

  lemma MeasureNonNegative(cfg: Config, s: State)
    requires s.next <= |cfg.input|
    ensures Measure(cfg, s) >= 0
  {
    SumNonNegative(s.parsers, ParserCost);
  }

  /** No schedule runs longer than the work there is at the start. */
  lemma {:induction false} RunsEnd(cfg: Config, run: seq<State>, moves: seq<Move>, n: nat)
    requires cfg.parsers >= 1 && Run(cfg, run, moves) && n < |run|
    ensures 0 <= Measure(cfg, run[n]) <= Measure(cfg, Start(cfg)) - n
    decreases n
  {
    if n > 0 {
      RunsEnd(cfg, run, moves, n - 1);
      assert Linked(cfg, run, moves, n - 1);
      MeasureDecreases(cfg, run[n - 1], moves[n - 1], run[n]);
    }
    RunControl(cfg, run, moves, n);
    MeasureNonNegative(cfg, run[n]);
  }

  // ----- deadlock freedom -----

  ghost predicate CanMove(cfg: Config, s: State) {
    exists m :: Enabled(cfg, s, m)
  }

  /** The writer is gone without having drained its queue, which is full. */
  predicate WriterGone(cfg: Config, s: State) {
    !cfg.outputOpens && cfg.cap > 0 && |s.results.items| == cfg.cap && s.aggregator.Emitting? && s.aggregator.todo != []
  }

  lemma OneMoreMove(cfg: Config, run: seq<State>, moves: seq<Move>, m: Move)
    requires Run(cfg, run, moves) && Enabled(cfg, run[|run| - 1], m)
    ensures Run(cfg, run + [After(cfg, run[|run| - 1], m)], moves + [m])
  {
    var longer, more := run + [After(cfg, run[|run| - 1], m)], moves + [m];
    forall i | 0 <= i < |more| ensures Linked(cfg, longer, more, i) {
      if i < |moves| {
        assert Linked(cfg, run, moves, i);
      }
    }
  }

  /** Every run can be carried on to one that cannot. */
  lemma {:induction false} RunOn(cfg: Config, run: seq<State>, moves: seq<Move>)
    returns (longest: seq<State>, all: seq<Move>)
    requires cfg.parsers >= 1 && Run(cfg, run, moves)
    ensures Run(cfg, longest, all) && !CanMove(cfg, longest[|longest| - 1])
    decreases Measure(cfg, Start(cfg)) - |moves|
  {
    longest, all := run, moves;
    RunsEnd(cfg, run, moves, |moves|);
    var last := run[|run| - 1];
    if m :| Enabled(cfg, last, m) {
      OneMoreMove(cfg, run, moves, m);
      RunsEnd(cfg, run + [After(cfg, last, m)], moves + [m], |moves| + 1);
      longest, all := RunOn(cfg, run + [After(cfg, last, m)], moves + [m]);
    }
  }

  lemma ReaderMoves(cfg: Config, s: State)
    requires Control(cfg, s) && !s.reader.ReaderExited? && CanPush(cfg.cap, s.raw)
    ensures CanMove(cfg, s)
  {
    var m := match s.reader
      case Reading => if s.next < |cfg.input| then ReadLine else ReachEnd
      case HasRaw(_) => PushRaw
      case _ => CloseRaw;
    assert Enabled(cfg, s, m);
  }

  lemma ParserMoves(cfg: Config, s: State, i: nat)
    requires Control(cfg, s) && i < |s.parsers| && !s.parsers[i].ParserExited? && CanPush(cfg.cap, s.parsed)
    ensures CanMove(cfg, s)
  {
    if s.parsers[i].ParserPopping? && !CanPop(s.raw) && !Drained(s.raw) {
      ReaderMoves(cfg, s);
    } else {
      var m := match s.parsers[i]
        case ParserPopping => if CanPop(s.raw) then PopRaw(i) else RawDrained(i)
        case HasParsed(_) => PushParsed(i)
        case ParserDone => LeaveParser(i)
        case _ => CloseParsed(i);
      assert Enabled(cfg, s, m);
    }
  }

  /** Somebody among the parsers is still there as long as the parsed queue is open. */
  lemma OpenNeedsParser(cfg: Config, s: State) returns (i: nat)
    requires Control(cfg, s) && !s.parsed.closed
    ensures i < |s.parsers| && !s.parsers[i].ParserExited?
  {
    CountAny(s.parsers, IsWorking);
    CountAny(s.parsers, IsLast);
    if s.active == 0 {
      i :| 0 <= i < |s.parsers| && IsLast(s.parsers[i]);
    } else {
      i :| 0 <= i < |s.parsers| && IsWorking(s.parsers[i]);
    }
  }

  lemma RulesMove(cfg: Config, s: State)
    requires Control(cfg, s) && !s.rules.RulesExited? && CanPush(cfg.cap, s.enriched)
    ensures CanMove(cfg, s)
  {
    if s.rules.RulesPopping? && !CanPop(s.parsed) && !Drained(s.parsed) {
      var i := OpenNeedsParser(cfg, s);
      ParserMoves(cfg, s, i);
    } else {
      var m := match s.rules
        case RulesPopping => if CanPop(s.parsed) then PopParsed else ParsedDrained
        case HasEnriched(_) => PushEnriched
        case _ => CloseEnriched;
      assert Enabled(cfg, s, m);
    }
  }

  lemma {:induction false} KeysInSomeOrder(all: set<string>) returns (keys: seq<string>)
    ensures Lists(keys, all)
  {
    if all == {} {
      keys := [];
    } else {
      var k :| k in all;
      var rest := KeysInSomeOrder(all - {k});
      keys := rest + [k];
    }
  }

  lemma AggregatorMoves(cfg: Config, s: State)
    requires Control(cfg, s) && !s.aggregator.AggregatorExited? && !WriterGone(cfg, s)
    requires cfg.outputOpens ==> CanPush(cfg.cap, s.results)
    ensures CanMove(cfg, s)
  {
    if s.aggregator.Folding? && !CanPop(s.enriched) && !Drained(s.enriched) {
      RulesMove(cfg, s);
    } else if s.aggregator.Folding? && !CanPop(s.enriched) {
      var keys := KeysInSomeOrder(s.stats.Keys);
      assert Enabled(cfg, s, EnrichedDrained(keys));
    } else {
      var m := match s.aggregator
        case Folding => PopEnriched
        case Emitting(todo) => if todo == [] then CloseResults else PushResult
        case _ => CloseResults;
      assert Enabled(cfg, s, m);
    }
  }

  /** By the time the aggregator emits, everybody before it has exited. */
  lemma UpstreamExited(cfg: Config, s: State)
    requires cfg.parsers >= 1 && Control(cfg, s) && !s.aggregator.Folding?
    ensures s.rules.RulesExited? && s.reader.ReaderExited?
    ensures forall i :: 0 <= i < |s.parsers| ==> s.parsers[i].ParserExited?
  {
    CountAny(s.parsers, IsLast);
    CountAny(s.parsers, IsWorking);
    forall i | 0 <= i < |s.parsers| ensures s.parsers[i].ParserExited? {
      assert !IsLast(s.parsers[i]) && !IsWorking(s.parsers[i]);
    }
    assert s.parsers[0].ParserExited?;
  }

  /** Deadlock freedom: as long as some thread has not exited somebody can move, unless the writer left
      at once because its file did not open and the results no longer fit. */
  lemma NoDeadlock(cfg: Config, s: State)
    requires cfg.parsers >= 1 && Control(cfg, s) && !AllExited(s) && !WriterGone(cfg, s)
    ensures CanMove(cfg, s)
  {
    if s.aggregator.AggregatorExited? {
      UpstreamExited(cfg, s);
      assert Enabled(cfg, s, if CanPop(s.results) then PopResult else ResultsDrained);
    } else if s.writer.WriterPopping? && CanPop(s.results) {
      assert Enabled(cfg, s, PopResult);
    } else {
      AggregatorMoves(cfg, s);
    }
  }

  /** By then everything has been read, and passed on to the aggregator. */
  lemma UpstreamEmpty(cfg: Config, s: State)
    requires cfg.parsers >= 1 && Control(cfg, s) && !s.aggregator.Folding?
    ensures s.next == |cfg.input| && s.raw.items == [] && s.parsed.items == [] && s.enriched.items == []
  {
    UpstreamExited(cfg, s);
    assert s.parsers[0].ParserExited?;
  }
}
