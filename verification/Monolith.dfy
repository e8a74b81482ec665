/** The threads of the monolith, interleaved in any order. */
module Monolith {
  import opened Wrappers
  import opened Channels

  // ----- data -----

  datatype Fields = Fields(kind: string, user: string, value: int, timestamp: int)
  datatype RawEvent = RawEvent(line: string, sequence: nat)
  datatype ParsedEvent = ParsedEvent(fields: Fields, sequence: nat)
  datatype EnrichedEvent = EnrichedEvent(event: ParsedEvent, passedRules: bool)
  datatype Stats = Stats(count: int, sum: int)
  datatype AggregateResult = AggregateResult(key: string, count: int, sum: int, avg: real)

  /** `parse` stands for the extraction of the fields, which rejects invalid lines. An input file that
      does not open counts as one without lines; a writer whose file does not open returns at once. */
  datatype Config = Config(input: seq<string>, parse: string -> Option<Fields>, parsers: nat, cap: nat,
                           outputOpens: bool)

  predicate Passes(f: Fields) {
    f.value >= 10 && f.kind != "view"
  }

  function AddTo(stats: map<string, Stats>, f: Fields): map<string, Stats> {
    var entry := if f.kind in stats then stats[f.kind] else Stats(0, 0);
    stats[f.kind := Stats(entry.count + 1, entry.sum + f.value)]
  }

  function ResultOf(key: string, s: Stats): AggregateResult {
    AggregateResult(key, s.count, s.sum, if s.count == 0 then 0.0 else s.sum as real / s.count as real)
  }

  // ----- the reference: one pass over the lines, left to right -----

  function SequentialStats(parse: string -> Option<Fields>, lines: seq<string>): map<string, Stats> {
    if lines == [] then map[]
    else
      var stats := SequentialStats(parse, lines[..|lines| - 1]);
      var parsed := parse(lines[|lines| - 1]);
      if parsed.Some? && Passes(parsed.value) then AddTo(stats, parsed.value) else stats
  }

  function Numbered(lines: seq<string>): (r: seq<RawEvent>)
    ensures |r| == |lines|
    ensures forall i :: 0 <= i < |r| ==> r[i] == RawEvent(lines[i], i)
  {
    seq(|lines|, i requires 0 <= i < |lines| => RawEvent(lines[i], i))
  }

  // ----- threads -----

  datatype Reader = Reading | HasRaw(raw: RawEvent) | ReaderAtEnd | ReaderExited
  datatype Parser = ParserPopping | HasParsed(parsed: ParsedEvent) | ParserDone | LastParser | ParserExited
  datatype Rules = RulesPopping | HasEnriched(enriched: EnrichedEvent) | RulesDone | RulesExited
  datatype Aggregator = Folding | Emitting(todo: seq<AggregateResult>) | AggregatorExited
  datatype Writer = WriterPopping | WriterExited

  /** `invalid`, `filtered` and `aggregated` list the sequence numbers counted under these headings;
      `emission` is what the aggregator set out to emit. */
  datatype State = State(
    next: nat,
    reader: Reader,
    raw: Channel<RawEvent>,
    parsers: seq<Parser>,
    active: int,
    parsed: Channel<ParsedEvent>,
    rules: Rules,
    enriched: Channel<EnrichedEvent>,
    aggregator: Aggregator,
    stats: map<string, Stats>,
    emission: seq<AggregateResult>,
    results: Channel<AggregateResult>,
    writer: Writer,
    output: seq<AggregateResult>,
    readCount: nat,
    parsedCount: nat,
    invalid: seq<nat>,
    filtered: seq<nat>,
    aggregated: seq<nat>)

  function Start(cfg: Config): State {
    State(0, Reading, Channel([], false), seq(cfg.parsers, _ => ParserPopping), cfg.parsers, Channel([], false),
          RulesPopping, Channel([], false), Folding, map[], [], Channel([], false),
          if cfg.outputOpens then WriterPopping else WriterExited, [],
          0, 0, [], [], [])
  }

  datatype Move =
    | ReadLine | ReachEnd | PushRaw | RawRefused | CloseRaw
    | PopRaw(i: nat) | RawDrained(i: nat) | PushParsed(i: nat) | ParsedRefused(i: nat) | LeaveParser(i: nat)
    | CloseParsed(i: nat)
    | PopParsed | ParsedDrained | PushEnriched | EnrichedRefused | CloseEnriched
    | PopEnriched | EnrichedDrained(keys: seq<string>) | PushResult | ResultRefused | CloseResults
    | PopResult | ResultsDrained

  predicate Lists(keys: seq<string>, all: set<string>) {
    && (forall k :: k in keys ==> k in all)
    && (forall k :: k in all ==> k in keys)
    && (forall i, j :: 0 <= i < j < |keys| ==> keys[i] != keys[j])
  }

  predicate Enabled(cfg: Config, s: State, m: Move) {
    match m
    case ReadLine => s.reader.Reading? && s.next < |cfg.input|
    case ReachEnd => s.reader.Reading? && s.next >= |cfg.input|
    case PushRaw => s.reader.HasRaw? && CanPush(cfg.cap, s.raw)
    case RawRefused => s.reader.HasRaw? && Refuses(s.raw)
    case CloseRaw => s.reader.ReaderAtEnd?
    case PopRaw(i) => i < |s.parsers| && s.parsers[i].ParserPopping? && CanPop(s.raw)
    case RawDrained(i) => i < |s.parsers| && s.parsers[i].ParserPopping? && Drained(s.raw)
    case PushParsed(i) => i < |s.parsers| && s.parsers[i].HasParsed? && CanPush(cfg.cap, s.parsed)
    case ParsedRefused(i) => i < |s.parsers| && s.parsers[i].HasParsed? && Refuses(s.parsed)
    case LeaveParser(i) => i < |s.parsers| && s.parsers[i].ParserDone?
    case CloseParsed(i) => i < |s.parsers| && s.parsers[i].LastParser?
    case PopParsed => s.rules.RulesPopping? && CanPop(s.parsed)
    case ParsedDrained => s.rules.RulesPopping? && Drained(s.parsed)
    case PushEnriched => s.rules.HasEnriched? && CanPush(cfg.cap, s.enriched)
    case EnrichedRefused => s.rules.HasEnriched? && Refuses(s.enriched)
    case CloseEnriched => s.rules.RulesDone?
    case PopEnriched => s.aggregator.Folding? && CanPop(s.enriched)
    case EnrichedDrained(keys) => s.aggregator.Folding? && Drained(s.enriched) && Lists(keys, s.stats.Keys)
    case PushResult => s.aggregator.Emitting? && s.aggregator.todo != [] && CanPush(cfg.cap, s.results)
    case ResultRefused => s.aggregator.Emitting? && s.aggregator.todo != [] && Refuses(s.results)
    case CloseResults => s.aggregator.Emitting? && s.aggregator.todo == []
    case PopResult => s.writer.WriterPopping? && CanPop(s.results)
    case ResultsDrained => s.writer.WriterPopping? && Drained(s.results)
  }

  function AfterReader(cfg: Config, s: State, m: Move): State
    requires Enabled(cfg, s, m) && m in {ReadLine, ReachEnd, PushRaw, RawRefused, CloseRaw}
  {
    match m
    case ReadLine => s.(next := s.next + 1, reader := HasRaw(RawEvent(cfg.input[s.next], s.next)))
    case ReachEnd => s.(reader := ReaderAtEnd)
    case PushRaw => s.(raw := Enqueue(s.raw, s.reader.raw), reader := Reading, readCount := s.readCount + 1)
    case RawRefused => s.(reader := ReaderAtEnd)
    case CloseRaw => s.(raw := Shut(s.raw), reader := ReaderExited)
  }

  function AfterParser(cfg: Config, s: State, m: Move): State
    requires Enabled(cfg, s, m)
    requires m.PopRaw? || m.RawDrained? || m.PushParsed? || m.ParsedRefused? || m.LeaveParser? || m.CloseParsed?
  {
    match m
    case PopRaw(i) =>
      var event := s.raw.items[0];
      (match cfg.parse(event.line)
       case None => s.(raw := Dequeue(s.raw), invalid := s.invalid + [event.sequence])
       case Some(fields) =>
         s.(raw := Dequeue(s.raw), parsedCount := s.parsedCount + 1,
            parsers := s.parsers[i := HasParsed(ParsedEvent(fields, event.sequence))]))
    case RawDrained(i) => s.(parsers := s.parsers[i := ParserDone])
    case PushParsed(i) => s.(parsed := Enqueue(s.parsed, s.parsers[i].parsed), parsers := s.parsers[i := ParserPopping])
    case ParsedRefused(i) => s.(parsers := s.parsers[i := ParserDone])
    case LeaveParser(i) =>
      s.(active := s.active - 1, parsers := s.parsers[i := if s.active == 1 then LastParser else ParserExited])
    case CloseParsed(i) => s.(parsed := Shut(s.parsed), parsers := s.parsers[i := ParserExited])
  }

  function AfterRules(cfg: Config, s: State, m: Move): State
    requires Enabled(cfg, s, m) && m in {PopParsed, ParsedDrained, PushEnriched, EnrichedRefused, CloseEnriched}
  {
    match m
    case PopParsed =>
      var event := s.parsed.items[0];
      if Passes(event.fields) then s.(parsed := Dequeue(s.parsed), rules := HasEnriched(EnrichedEvent(event, true)))
      else s.(parsed := Dequeue(s.parsed), filtered := s.filtered + [event.sequence])
    case ParsedDrained => s.(rules := RulesDone)
    case PushEnriched => s.(enriched := Enqueue(s.enriched, s.rules.enriched), rules := RulesPopping)
    case EnrichedRefused => s.(rules := RulesDone)
    case CloseEnriched => s.(enriched := Shut(s.enriched), rules := RulesExited)
  }

  function Emission(keys: seq<string>, stats: map<string, Stats>): (r: seq<AggregateResult>)
    requires forall k :: k in keys ==> k in stats
    ensures |r| == |keys|
    ensures forall i :: 0 <= i < |keys| ==> r[i] == ResultOf(keys[i], stats[keys[i]])
  {
    seq(|keys|, i requires 0 <= i < |keys| => ResultOf(keys[i], stats[keys[i]]))
  }

  function AfterAggregator(cfg: Config, s: State, m: Move): State
    requires Enabled(cfg, s, m)
    requires m.PopEnriched? || m.EnrichedDrained? || m.PushResult? || m.ResultRefused? || m.CloseResults?
  {
    match m
    case PopEnriched =>
      var e := s.enriched.items[0];
      if e.passedRules then
        s.(enriched := Dequeue(s.enriched), stats := AddTo(s.stats, e.event.fields),
           aggregated := s.aggregated + [e.event.sequence])
      else s.(enriched := Dequeue(s.enriched))
    case EnrichedDrained(keys) =>
      s.(aggregator := Emitting(Emission(keys, s.stats)), emission := Emission(keys, s.stats))
    case PushResult =>
      s.(results := Enqueue(s.results, s.aggregator.todo[0]), aggregator := Emitting(s.aggregator.todo[1..]))
    case ResultRefused => s.(aggregator := Emitting([]))
    case CloseResults => s.(results := Shut(s.results), aggregator := AggregatorExited)
  }

  function AfterWriter(cfg: Config, s: State, m: Move): State
    requires Enabled(cfg, s, m) && (m.PopResult? || m.ResultsDrained?)
  {
    match m
    case PopResult => s.(results := Dequeue(s.results), output := s.output + [s.results.items[0]])
    case ResultsDrained => s.(writer := WriterExited)
  }

  function After(cfg: Config, s: State, m: Move): State
    requires Enabled(cfg, s, m)
  {
    match m
    case ReadLine => AfterReader(cfg, s, m)
    case ReachEnd => AfterReader(cfg, s, m)
    case PushRaw => AfterReader(cfg, s, m)
    case RawRefused => AfterReader(cfg, s, m)
    case CloseRaw => AfterReader(cfg, s, m)
    case PopRaw(_) => AfterParser(cfg, s, m)
    case RawDrained(_) => AfterParser(cfg, s, m)
    case PushParsed(_) => AfterParser(cfg, s, m)
    case ParsedRefused(_) => AfterParser(cfg, s, m)
    case LeaveParser(_) => AfterParser(cfg, s, m)
    case CloseParsed(_) => AfterParser(cfg, s, m)
    case PopParsed => AfterRules(cfg, s, m)
    case ParsedDrained => AfterRules(cfg, s, m)
    case PushEnriched => AfterRules(cfg, s, m)
    case EnrichedRefused => AfterRules(cfg, s, m)
    case CloseEnriched => AfterRules(cfg, s, m)
    case PopEnriched => AfterAggregator(cfg, s, m)
    case EnrichedDrained(_) => AfterAggregator(cfg, s, m)
    case PushResult => AfterAggregator(cfg, s, m)
    case ResultRefused => AfterAggregator(cfg, s, m)
    case CloseResults => AfterAggregator(cfg, s, m)
    case PopResult => AfterWriter(cfg, s, m)
    case ResultsDrained => AfterWriter(cfg, s, m)
  }

  ghost predicate Step(cfg: Config, s: State, m: Move, s': State) {
    Enabled(cfg, s, m) && s' == After(cfg, s, m)
  }

  /** run() returns: every thread can be joined. */
  predicate AllExited(s: State) {
    && s.reader.ReaderExited?
    && (forall i :: 0 <= i < |s.parsers| ==> s.parsers[i].ParserExited?)
    && s.rules.RulesExited? && s.aggregator.AggregatorExited? && s.writer.WriterExited?
  }

  // ----- runs -----

  ghost predicate Linked(cfg: Config, run: seq<State>, moves: seq<Move>, i: nat)
    requires i < |moves| && i + 1 < |run|
  {
    Step(cfg, run[i], moves[i], run[i + 1])
  }

  /** Any interleaving, from the start of the program. */
  ghost predicate Run(cfg: Config, run: seq<State>, moves: seq<Move>) {
    && |run| == |moves| + 1
    && run[0] == Start(cfg)
    && forall i :: 0 <= i < |moves| ==> Linked(cfg, run, moves, i)
  }
}
