/** What the monolith computes: the result of one sequential pass, whatever the schedule. */
module MonolithResults {
  import opened Wrappers
  import opened Sums
  import opened Channels
  import opened Monolith
  import opened MonolithControl

  // ----- conservation: every line is in exactly one place -----

  /** A weight for each line, by its sequence number. */
  type Weight = nat -> int

  function OfRaw(f: Weight): RawEvent -> int { (r: RawEvent) => f(r.sequence) }
  function OfParsed(f: Weight): ParsedEvent -> int { (p: ParsedEvent) => f(p.sequence) }
  function OfEnriched(f: Weight): EnrichedEvent -> int { (e: EnrichedEvent) => f(e.event.sequence) }
  function OfParser(f: Weight): Parser -> int { (p: Parser) => if p.HasParsed? then f(p.parsed.sequence) else 0 }

  /** The weight of all lines read, wherever they are: in hands, in queues, or counted under a heading. */
  function Total(f: Weight, s: State): int {
    (if s.reader.HasRaw? then f(s.reader.raw.sequence) else 0)
    + Sum(s.raw.items, OfRaw(f))
    + Sum(s.parsers, OfParser(f))
    + Sum(s.parsed.items, OfParsed(f))
    + (if s.rules.HasEnriched? then f(s.rules.enriched.event.sequence) else 0)
    + Sum(s.enriched.items, OfEnriched(f))
    + Sum(s.invalid, f) + Sum(s.filtered, f) + Sum(s.aggregated, f)
  }

  /** The weight of the first n lines. */
  function Upto(f: Weight, n: nat): int {
    if n == 0 then 0 else Upto(f, n - 1) + f(n - 1)
  }

  /** Enriched events always carry the mark that they passed. */
  predicate AllPassed(s: State) {
    && (s.rules.HasEnriched? ==> s.rules.enriched.passedRules)
    && forall e :: e in s.enriched.items ==> e.passedRules
  }

  lemma PopRawConserves(cfg: Config, s: State, i: nat, f: Weight)
    requires Enabled(cfg, s, PopRaw(i))
    ensures Total(f, AfterParser(cfg, s, PopRaw(i))) == Total(f, s)
  {
    var event := s.raw.items[0];
    SumHead(s.raw.items, OfRaw(f));
    match cfg.parse(event.line)
    case None => SumAppend(s.invalid, event.sequence, f);
    case Some(fields) => SumUpdate(s.parsers, OfParser(f), i, HasParsed(ParsedEvent(fields, event.sequence)));
  }

  lemma PushParsedConserves(cfg: Config, s: State, i: nat, f: Weight)
    requires Enabled(cfg, s, PushParsed(i))
    ensures Total(f, AfterParser(cfg, s, PushParsed(i))) == Total(f, s)
  {
    SumUpdate(s.parsers, OfParser(f), i, ParserPopping);
    SumAppend(s.parsed.items, s.parsers[i].parsed, OfParsed(f));
  }

  lemma LeavingConserves(cfg: Config, s: State, m: Move, i: nat, f: Weight)
    requires Enabled(cfg, s, m) && (m == RawDrained(i) || m == LeaveParser(i) || m == CloseParsed(i))
    ensures Total(f, AfterParser(cfg, s, m)) == Total(f, s)
  {
    var s' := AfterParser(cfg, s, m);
    SumUpdate(s.parsers, OfParser(f), i, s'.parsers[i]);
    assert s'.parsers == s.parsers[i := s'.parsers[i]];
  }

  lemma RulesConserves(cfg: Config, s: State, m: Move, f: Weight)
    requires Enabled(cfg, s, m) && m in {PopParsed, ParsedDrained, PushEnriched, CloseEnriched}
    ensures Total(f, AfterRules(cfg, s, m)) == Total(f, s)
  {
    if m.PopParsed? {
      SumHead(s.parsed.items, OfParsed(f));
      SumAppend(s.filtered, s.parsed.items[0].sequence, f);
    }
    if m.PushEnriched? {
      SumAppend(s.enriched.items, s.rules.enriched, OfEnriched(f));
    }
  }

  lemma PushRawConserves(cfg: Config, s: State, f: Weight)
    requires Enabled(cfg, s, PushRaw)
    ensures Total(f, AfterReader(cfg, s, PushRaw)) == Total(f, s)
  {
    SumAppend(s.raw.items, s.reader.raw, OfRaw(f));
  }

  lemma PopEnrichedConserves(cfg: Config, s: State, f: Weight)
    requires Enabled(cfg, s, PopEnriched) && AllPassed(s)
    ensures Total(f, AfterAggregator(cfg, s, PopEnriched)) == Total(f, s)
  {
    assert s.enriched.items[0] in s.enriched.items;
    SumHead(s.enriched.items, OfEnriched(f));
    SumAppend(s.aggregated, s.enriched.items[0].event.sequence, f);
  }

  lemma MoveConserves(cfg: Config, s: State, m: Move, f: Weight)
    requires AllPassed(s) && Enabled(cfg, s, m)
    requires !m.RawRefused? && !m.ParsedRefused? && !m.EnrichedRefused?
    ensures var s' := After(cfg, s, m); Total(f, s') - Upto(f, s'.next) == Total(f, s) - Upto(f, s.next)
  {
    match m
    case PushRaw => PushRawConserves(cfg, s, f);
    case PopRaw(i) => PopRawConserves(cfg, s, i, f);
    case RawDrained(i) => LeavingConserves(cfg, s, m, i, f);
    case PushParsed(i) => PushParsedConserves(cfg, s, i, f);
    case LeaveParser(i) => LeavingConserves(cfg, s, m, i, f);
    case CloseParsed(i) => LeavingConserves(cfg, s, m, i, f);
    case PopParsed => RulesConserves(cfg, s, m, f);
    case PushEnriched => RulesConserves(cfg, s, m, f);
    case PopEnriched => PopEnrichedConserves(cfg, s, f);
    case _ =>
  }

  lemma StaysPassed(cfg: Config, s: State, m: Move)
    requires AllPassed(s) && Enabled(cfg, s, m)
    ensures AllPassed(After(cfg, s, m))
  {
  }

  lemma StepConserves(cfg: Config, s: State, m: Move, s': State, f: Weight)
    requires Control(cfg, s) && AllPassed(s) && Step(cfg, s, m, s')
    ensures Total(f, s') - Upto(f, s'.next) == Total(f, s) - Upto(f, s.next)
    ensures AllPassed(s')
  {
    NothingRefused(cfg, s, m);
    MoveConserves(cfg, s, m, f);
    StaysPassed(cfg, s, m);
  }

  lemma {:induction false} IdleParsersWeighNothing(n: nat, f: Weight)
    ensures Sum(seq(n, _ => ParserPopping), OfParser(f)) == 0
  {
    if n > 0 {
      IdleParsersWeighNothing(n - 1, f);
      assert seq(n, _ => ParserPopping)[..n - 1] == seq(n - 1, _ => ParserPopping);
    }
  }

  /** Conservation: in every reachable state the weights of all the places add up to that of the lines
      read so far. With the weight of a single line this says that the line is in exactly one place. */
  lemma {:induction false} LinesConserved(cfg: Config, run: seq<State>, moves: seq<Move>, n: nat, f: Weight)
    requires cfg.parsers >= 1 && Run(cfg, run, moves) && n < |run|
    ensures Total(f, run[n]) == Upto(f, run[n].next) && AllPassed(run[n])
    decreases n
  {
    if n == 0 {
      IdleParsersWeighNothing(cfg.parsers, f);
    } else {
      LinesConserved(cfg, run, moves, n - 1, f);
      RunControl(cfg, run, moves, n - 1);
      assert Linked(cfg, run, moves, n - 1);
      StepConserves(cfg, run[n - 1], moves[n - 1], run[n], f);
    }
  }

  // ----- what the items are -----

  predicate RawOk(cfg: Config, r: RawEvent) {
    r.sequence < |cfg.input| && r.line == cfg.input[r.sequence]
  }

  predicate ParsedOk(cfg: Config, p: ParsedEvent) {
    p.sequence < |cfg.input| && cfg.parse(cfg.input[p.sequence]) == Some(p.fields)
  }

  predicate EnrichedOk(cfg: Config, e: EnrichedEvent) {
    ParsedOk(cfg, e.event) && Passes(e.event.fields) && e.passedRules
  }

  predicate Rejected(cfg: Config, i: nat) {
    i < |cfg.input| && cfg.parse(cfg.input[i]) == None
  }

  predicate Dropped(cfg: Config, i: nat) {
    i < |cfg.input| && cfg.parse(cfg.input[i]).Some? && !Passes(cfg.parse(cfg.input[i]).value)
  }

  predicate Kept(cfg: Config, i: nat) {
    i < |cfg.input| && cfg.parse(cfg.input[i]).Some? && Passes(cfg.parse(cfg.input[i]).value)
  }

  predicate ItemsOk(cfg: Config, s: State) {
    && (s.reader.HasRaw? ==> RawOk(cfg, s.reader.raw))
    && (forall r :: r in s.raw.items ==> RawOk(cfg, r))
    && (forall i :: 0 <= i < |s.parsers| && s.parsers[i].HasParsed? ==> ParsedOk(cfg, s.parsers[i].parsed))
    && (forall p :: p in s.parsed.items ==> ParsedOk(cfg, p))
    && (s.rules.HasEnriched? ==> EnrichedOk(cfg, s.rules.enriched))
    && (forall e :: e in s.enriched.items ==> EnrichedOk(cfg, e))
  }

  predicate LogsOk(cfg: Config, s: State) {
    && (forall i :: i in s.invalid ==> Rejected(cfg, i))
    && (forall i :: i in s.filtered ==> Dropped(cfg, i))
    && (forall i :: i in s.aggregated ==> Kept(cfg, i))
  }

  /** What a line adds to the count and to the sum of a key. */
  function CountFor(cfg: Config, key: string): Weight {
    (i: nat) => if Kept(cfg, i) && cfg.parse(cfg.input[i]).value.kind == key then 1 else 0
  }

  function SumFor(cfg: Config, key: string): Weight {
    (i: nat) =>
      if Kept(cfg, i) && cfg.parse(cfg.input[i]).value.kind == key then cfg.parse(cfg.input[i]).value.value else 0
  }

  predicate StatsFor(cfg: Config, stats: map<string, Stats>, log: seq<nat>, key: string) {
    if key in stats then
      && stats[key].count == Sum(log, CountFor(cfg, key)) > 0
      && stats[key].sum == Sum(log, SumFor(cfg, key))
    else Sum(log, CountFor(cfg, key)) == 0 && Sum(log, SumFor(cfg, key)) == 0
  }

  /** The map holds the totals of the listed lines. */
  ghost predicate Totals(cfg: Config, stats: map<string, Stats>, log: seq<nat>) {
    forall key :: StatsFor(cfg, stats, log, key)
  }

  lemma FoldKeepsTotals(cfg: Config, stats: map<string, Stats>, log: seq<nat>, i: nat)
    requires Totals(cfg, stats, log) && Kept(cfg, i)
    ensures Totals(cfg, AddTo(stats, cfg.parse(cfg.input[i]).value), log + [i])
  {
    var f := cfg.parse(cfg.input[i]).value;
    forall key ensures StatsFor(cfg, AddTo(stats, f), log + [i], key) {
      assert StatsFor(cfg, stats, log, key);
      assert StatsFor(cfg, stats, log, f.kind);
      SumAppend(log, i, CountFor(cfg, key));
      SumAppend(log, i, SumFor(cfg, key));
    }
  }

  /** The results are those of the map, each once. */
  ghost predicate ResultsOf(results: seq<AggregateResult>, stats: map<string, Stats>) {
    && (forall r :: r in results <==> r.key in stats && r == ResultOf(r.key, stats[r.key]))
    && forall i, j :: 0 <= i < j < |results| ==> results[i] != results[j]
  }

  ghost predicate EmissionOk(s: State) {
    if s.aggregator.Folding? then s.emission == [] && s.results.items == [] && s.output == []
    else
      && ResultsOf(s.emission, s.stats)
      && |s.emission| == |s.stats|
      && s.emission == s.output + s.results.items + if s.aggregator.Emitting? then s.aggregator.todo else []
  }

  function One(): Weight { (i: nat) => 1 }

  /** The counters agree with where the lines are. */
  predicate CountersOk(s: State) {
    && s.readCount == s.next - (if s.reader.HasRaw? then 1 else 0)
    && s.parsedCount == Sum(s.parsers, OfParser(One())) + |s.parsed.items|
                        + (if s.rules.HasEnriched? then 1 else 0) + |s.enriched.items| + |s.filtered| + |s.aggregated|
  }

  lemma ParserKeepsCounters(cfg: Config, s: State, m: Move, i: nat)
    requires CountersOk(s) && Enabled(cfg, s, m) && ParserMove(m, i) && !m.ParsedRefused?
    ensures CountersOk(AfterParser(cfg, s, m))
  {
    var s' := AfterParser(cfg, s, m);
    SumUpdate(s.parsers, OfParser(One()), i, s'.parsers[i]);
    assert s'.parsers == s.parsers[i := s'.parsers[i]];
  }

  lemma StepKeepsCounters(cfg: Config, s: State, m: Move, s': State)
    requires Control(cfg, s) && ItemsOk(cfg, s) && CountersOk(s) && Step(cfg, s, m, s')
    ensures CountersOk(s')
  {
    NothingRefused(cfg, s, m);
    match m
    case PopRaw(i) => ParserKeepsCounters(cfg, s, m, i);
    case RawDrained(i) => ParserKeepsCounters(cfg, s, m, i);
    case PushParsed(i) => ParserKeepsCounters(cfg, s, m, i);
    case LeaveParser(i) => ParserKeepsCounters(cfg, s, m, i);
    case CloseParsed(i) => ParserKeepsCounters(cfg, s, m, i);
    case PopEnriched => assert EnrichedOk(cfg, s.enriched.items[0]);
    case _ =>
  }

  ghost predicate Data(cfg: Config, s: State) {
    ItemsOk(cfg, s) && LogsOk(cfg, s) && Totals(cfg, s.stats, s.aggregated) && EmissionOk(s) && CountersOk(s)
  }

  lemma ParserKeepsItems(cfg: Config, s: State, m: Move, i: nat)
    requires ItemsOk(cfg, s) && LogsOk(cfg, s) && Enabled(cfg, s, m) && ParserMove(m, i)
    ensures ItemsOk(cfg, AfterParser(cfg, s, m)) && LogsOk(cfg, AfterParser(cfg, s, m))
  {
    if m.PopRaw? {
      assert RawOk(cfg, s.raw.items[0]);
    }
  }

  lemma RulesKeepsItems(cfg: Config, s: State, m: Move)
    requires ItemsOk(cfg, s) && LogsOk(cfg, s) && Enabled(cfg, s, m)
    requires m in {PopParsed, ParsedDrained, PushEnriched, EnrichedRefused, CloseEnriched}
    ensures ItemsOk(cfg, AfterRules(cfg, s, m)) && LogsOk(cfg, AfterRules(cfg, s, m))
  {
    if m.PopParsed? {
      assert ParsedOk(cfg, s.parsed.items[0]);
    }
  }

  lemma PopEnrichedKeepsData(cfg: Config, s: State)
    requires ItemsOk(cfg, s) && LogsOk(cfg, s) && Totals(cfg, s.stats, s.aggregated) && Enabled(cfg, s, PopEnriched)
    ensures
      var s' := AfterAggregator(cfg, s, PopEnriched);
      ItemsOk(cfg, s') && LogsOk(cfg, s') && Totals(cfg, s'.stats, s'.aggregated)
  {
    var e := s.enriched.items[0];
    assert EnrichedOk(cfg, e);
    FoldKeepsTotals(cfg, s.stats, s.aggregated, e.event.sequence);
  }

  /** Only the aggregator, while it folds, touches its map. */
  lemma StatsFramed(cfg: Config, s: State, m: Move)
    requires Enabled(cfg, s, m) && !m.PopEnriched?
    ensures After(cfg, s, m).stats == s.stats && After(cfg, s, m).aggregated == s.aggregated
  {
  }

  lemma StepKeepsItems(cfg: Config, s: State, m: Move, s': State)
    requires ItemsOk(cfg, s) && LogsOk(cfg, s) && Totals(cfg, s.stats, s.aggregated) && Step(cfg, s, m, s')
    ensures ItemsOk(cfg, s') && LogsOk(cfg, s') && Totals(cfg, s'.stats, s'.aggregated)
  {
    if !m.PopEnriched? {
      StatsFramed(cfg, s, m);
    }
    match m
    case PopRaw(i) => ParserKeepsItems(cfg, s, m, i);
    case RawDrained(i) => ParserKeepsItems(cfg, s, m, i);
    case PushParsed(i) => ParserKeepsItems(cfg, s, m, i);
    case ParsedRefused(i) => ParserKeepsItems(cfg, s, m, i);
    case LeaveParser(i) => ParserKeepsItems(cfg, s, m, i);
    case CloseParsed(i) => ParserKeepsItems(cfg, s, m, i);
    case PopParsed => RulesKeepsItems(cfg, s, m);
    case ParsedDrained => RulesKeepsItems(cfg, s, m);
    case PushEnriched => RulesKeepsItems(cfg, s, m);
    case EnrichedRefused => RulesKeepsItems(cfg, s, m);
    case CloseEnriched => RulesKeepsItems(cfg, s, m);
    case PopEnriched => PopEnrichedKeepsData(cfg, s);
    case _ =>
  }

  lemma {:induction false} ListsSize(keys: seq<string>, all: set<string>)
    requires Lists(keys, all)
    ensures |keys| == |all|
  {
    if keys != [] {
      var init, last := keys[..|keys| - 1], keys[|keys| - 1];
      assert keys == init + [last];
      ListsSize(init, all - {last});
    }
  }

  lemma EmissionLists(keys: seq<string>, stats: map<string, Stats>)
    requires Lists(keys, stats.Keys)
    ensures ResultsOf(Emission(keys, stats), stats) && |Emission(keys, stats)| == |stats|
  {
    var results := Emission(keys, stats);
    ListsSize(keys, stats.Keys);
    assert |stats.Keys| == |stats|;
    forall r ensures r in results <==> r.key in stats && r == ResultOf(r.key, stats[r.key]) {
      if r.key in stats && r == ResultOf(r.key, stats[r.key]) {
        assert r.key in keys;
        var i :| 0 <= i < |keys| && keys[i] == r.key;
        assert results[i] == r;
      }
    }
    forall i, j | 0 <= i < j < |results| ensures results[i] != results[j] {
      assert results[i].key == keys[i] && results[j].key == keys[j];
    }
  }

  lemma DrainedKeepsEmission(cfg: Config, s: State, keys: seq<string>)
    requires EmissionOk(s) && Enabled(cfg, s, EnrichedDrained(keys))
    ensures EmissionOk(AfterAggregator(cfg, s, EnrichedDrained(keys)))
  {
    var s' := AfterAggregator(cfg, s, EnrichedDrained(keys));
    EmissionLists(keys, s.stats);
    assert s'.emission == [] + [] + s'.aggregator.todo;
  }

  lemma AggregatorKeepsEmission(cfg: Config, s: State, m: Move)
    requires EmissionOk(s) && Enabled(cfg, s, m)
    requires m.PopEnriched? || m.EnrichedDrained? || m.PushResult? || m.CloseResults?
    ensures EmissionOk(AfterAggregator(cfg, s, m))
  {
    if m.EnrichedDrained? {
      DrainedKeepsEmission(cfg, s, m.keys);
    }
    if m.PushResult? {
      assert s.aggregator.todo == [s.aggregator.todo[0]] + s.aggregator.todo[1..];
    }
  }

  lemma PopResultKeepsEmission(cfg: Config, s: State)
    requires EmissionOk(s) && Enabled(cfg, s, PopResult)
    ensures EmissionOk(AfterWriter(cfg, s, PopResult))
  {
    assert s.results.items == [s.results.items[0]] + s.results.items[1..];
  }

  lemma EmissionFramed(cfg: Config, s: State, m: Move)
    requires Enabled(cfg, s, m)
    requires !m.PopEnriched? && !m.EnrichedDrained? && !m.PushResult? && !m.ResultRefused? && !m.CloseResults?
    requires !m.PopResult?
    ensures var s' := After(cfg, s, m);
            s'.aggregator == s.aggregator && s'.stats == s.stats && s'.emission == s.emission
            && s'.results == s.results && s'.output == s.output
  {
  }

  lemma StepKeepsEmission(cfg: Config, s: State, m: Move, s': State)
    requires Control(cfg, s) && EmissionOk(s) && Step(cfg, s, m, s')
    ensures EmissionOk(s')
  {
    NothingRefused(cfg, s, m);
    if m.PopEnriched? || m.EnrichedDrained? || m.PushResult? || m.CloseResults? {
      AggregatorKeepsEmission(cfg, s, m);
    } else if m.PopResult? {
      PopResultKeepsEmission(cfg, s);
    } else {
      EmissionFramed(cfg, s, m);
    }
  }

  lemma StartData(cfg: Config)
    ensures Data(cfg, Start(cfg))
  {
    forall key ensures StatsFor(cfg, map[], [], key) {}
    IdleParsersWeighNothing(cfg.parsers, One());
  }

  lemma {:induction false} RunData(cfg: Config, run: seq<State>, moves: seq<Move>, n: nat)
    requires cfg.parsers >= 1 && Run(cfg, run, moves) && n < |run|
    ensures Data(cfg, run[n])
    decreases n
  {
    if n == 0 {
      StartData(cfg);
    } else {
      RunData(cfg, run, moves, n - 1);
      RunControl(cfg, run, moves, n - 1);
      assert Linked(cfg, run, moves, n - 1);
      StepKeepsItems(cfg, run[n - 1], moves[n - 1], run[n]);
      StepKeepsEmission(cfg, run[n - 1], moves[n - 1], run[n]);
      StepKeepsCounters(cfg, run[n - 1], moves[n - 1], run[n]);
    }
  }

  // ----- the sequential pass, as sums -----

  /** The reference over the first n lines holds the same totals. */
  lemma {:induction false} SequentialTotals(cfg: Config, n: nat, key: string)
    requires n <= |cfg.input|
    ensures
      var stats := SequentialStats(cfg.parse, cfg.input[..n]);
      if key in stats then
        && stats[key].count == Upto(CountFor(cfg, key), n) > 0
        && stats[key].sum == Upto(SumFor(cfg, key), n)
      else Upto(CountFor(cfg, key), n) == 0 && Upto(SumFor(cfg, key), n) == 0
    decreases n
  {
    if n > 0 {
      SequentialTotals(cfg, n - 1, key);
      assert cfg.input[..n][..n - 1] == cfg.input[..n - 1];
    }
  }

  lemma {:induction false} NothingFor(log: seq<nat>, f: Weight)
    requires forall i :: i in log ==> f(i) == 0
    ensures Sum(log, f) == 0
  {
    if log != [] { NothingFor(log[..|log| - 1], f); }
  }

  lemma {:induction false} IdleHands(parsers: seq<Parser>, f: Weight)
    requires forall i :: 0 <= i < |parsers| ==> !parsers[i].HasParsed?
    ensures Sum(parsers, OfParser(f)) == 0
  {
    if parsers != [] { IdleHands(parsers[..|parsers| - 1], f); }
  }

  /** Once the aggregator emits, every line is accounted for under one of the three headings. */
  lemma AllAccounted(cfg: Config, run: seq<State>, moves: seq<Move>, n: nat, f: Weight)
    requires cfg.parsers >= 1 && Run(cfg, run, moves) && n < |run| && !run[n].aggregator.Folding?
    ensures var s := run[n];
            Sum(s.invalid, f) + Sum(s.filtered, f) + Sum(s.aggregated, f) == Upto(f, |cfg.input|)
  {
    LinesConserved(cfg, run, moves, n, f);
    RunControl(cfg, run, moves, n);
    UpstreamExited(cfg, run[n]);
    UpstreamEmpty(cfg, run[n]);
    IdleHands(run[n].parsers, f);
  }

  lemma FinalStatsFor(cfg: Config, run: seq<State>, moves: seq<Move>, n: nat, key: string)
    requires cfg.parsers >= 1 && Run(cfg, run, moves) && n < |run| && !run[n].aggregator.Folding?
    requires LogsOk(cfg, run[n]) && StatsFor(cfg, run[n].stats, run[n].aggregated, key)
    ensures key in run[n].stats <==> key in SequentialStats(cfg.parse, cfg.input)
    ensures key in run[n].stats ==> run[n].stats[key] == SequentialStats(cfg.parse, cfg.input)[key]
  {
    var s := run[n];
    NothingFor(s.invalid, CountFor(cfg, key));
    NothingFor(s.filtered, CountFor(cfg, key));
    NothingFor(s.invalid, SumFor(cfg, key));
    NothingFor(s.filtered, SumFor(cfg, key));
    AllAccounted(cfg, run, moves, n, CountFor(cfg, key));
    AllAccounted(cfg, run, moves, n, SumFor(cfg, key));
    SequentialTotals(cfg, |cfg.input|, key);
    assert cfg.input[..|cfg.input|] == cfg.input;
  }

  /** What the aggregator emits is what one sequential pass computes. */
  lemma FinalStats(cfg: Config, run: seq<State>, moves: seq<Move>, n: nat)
    requires cfg.parsers >= 1 && Run(cfg, run, moves) && n < |run| && !run[n].aggregator.Folding?
    ensures run[n].stats == SequentialStats(cfg.parse, cfg.input)
  {
    RunData(cfg, run, moves, n);
    forall key ensures key in run[n].stats <==> key in SequentialStats(cfg.parse, cfg.input)
      ensures key in run[n].stats ==> run[n].stats[key] == SequentialStats(cfg.parse, cfg.input)[key]
    {
      assert StatsFor(cfg, run[n].stats, run[n].aggregated, key);
      FinalStatsFor(cfg, run, moves, n, key);
    }
  }

  // ----- the results, from the lines alone -----

  /** A line counts for the kind it is parsed to, if its value is at least 10; views do not count. */
  predicate Counts(parse: string -> Option<Fields>, line: string, key: string) {
    match parse(line)
    case None => false
    case Some(f) => f.kind == key && key != "view" && f.value >= 10
  }

  function CountOf(parse: string -> Option<Fields>, lines: seq<string>, key: string): nat {
    if lines == [] then 0
    else
      var n := |lines| - 1;
      CountOf(parse, lines[..n], key) + if Counts(parse, lines[n], key) then 1 else 0
  }

  function SumOf(parse: string -> Option<Fields>, lines: seq<string>, key: string): int {
    if lines == [] then 0
    else
      var n := |lines| - 1;
      SumOf(parse, lines[..n], key) + if Counts(parse, lines[n], key) then parse(lines[n]).value.value else 0
  }

  /** A result holds how many lines count for its key, their sum and their average. */
  predicate Tallied(r: AggregateResult, parse: string -> Option<Fields>, lines: seq<string>) {
    && r.key != "view"
    && r.count == CountOf(parse, lines, r.key) > 0
    && r.sum == SumOf(parse, lines, r.key)
    && r.avg * r.count as real == r.sum as real
  }

  /** One such result for every key that lines count for. */
  ghost predicate Tallies(results: seq<AggregateResult>, parse: string -> Option<Fields>, lines: seq<string>) {
    && (forall r :: r in results ==> Tallied(r, parse, lines))
    && (forall key :: CountOf(parse, lines, key) > 0 ==> exists i :: 0 <= i < |results| && results[i].key == key)
    && (forall i, j :: 0 <= i < j < |results| ==> results[i].key != results[j].key)
  }

  lemma {:induction false} SequentialTallies(parse: string -> Option<Fields>, lines: seq<string>, key: string)
    ensures
      var stats := SequentialStats(parse, lines);
      && (key in stats <==> CountOf(parse, lines, key) > 0)
      && (key in stats ==> stats[key] == Stats(CountOf(parse, lines, key), SumOf(parse, lines, key)))
      && (key !in stats ==> SumOf(parse, lines, key) == 0)
      && "view" !in stats
  {
    if lines != [] {
      SequentialTallies(parse, lines[..|lines| - 1], key);
    }
  }

  lemma AverageTimesCount(sum: real, count: real)
    requires count != 0.0
    ensures sum / count * count == sum
  {
  }

  lemma ResultTallies(parse: string -> Option<Fields>, lines: seq<string>, key: string)
    requires key in SequentialStats(parse, lines)
    ensures Tallied(ResultOf(key, SequentialStats(parse, lines)[key]), parse, lines)
  {
    SequentialTallies(parse, lines, key);
    var s := SequentialStats(parse, lines)[key];
    var r := ResultOf(key, s);
    assert r.key == key && r.count == s.count && r.sum == s.sum && r.avg == s.sum as real / s.count as real;
    AverageTimesCount(s.sum as real, s.count as real);
  }

  lemma ResultsTally(results: seq<AggregateResult>, parse: string -> Option<Fields>, lines: seq<string>)
    requires ResultsOf(results, SequentialStats(parse, lines))
    ensures Tallies(results, parse, lines)
  {
    var stats := SequentialStats(parse, lines);
    forall r | r in results ensures Tallied(r, parse, lines) {
      ResultTallies(parse, lines, r.key);
    }
    forall key | CountOf(parse, lines, key) > 0 ensures exists i :: 0 <= i < |results| && results[i].key == key {
      SequentialTallies(parse, lines, key);
      assert ResultOf(key, stats[key]) in results;
    }
    forall i, j | 0 <= i < j < |results| ensures results[i].key != results[j].key {
      assert results[i] in results && results[j] in results;
    }
  }

  /** Schedule independence: whatever the interleaving and however many parsers, a pipeline that has
      ended has written the results of one sequential pass over the lines, each exactly once. */
  lemma ScheduleIndependence(cfg: Config, run: seq<State>, moves: seq<Move>)
    requires cfg.parsers >= 1 && Run(cfg, run, moves) && AllExited(run[|run| - 1]) && cfg.outputOpens
    ensures ResultsOf(run[|run| - 1].output, SequentialStats(cfg.parse, cfg.input))
    ensures Tallies(run[|run| - 1].output, cfg.parse, cfg.input)
  {
    var last := |run| - 1;
    RunData(cfg, run, moves, last);
    RunControl(cfg, run, moves, last);
    FinalStats(cfg, run, moves, last);
    assert run[last].output + [] + [] == run[last].output;
    ResultsTally(run[last].output, cfg.parse, cfg.input);
  }

  lemma {:induction false} SumOne(s: seq<nat>)
    ensures Sum(s, One()) == |s|
  {
    if s != [] { SumOne(s[..|s| - 1]); }
  }

  lemma {:induction false} UptoOne(n: nat)
    ensures Upto(One(), n) == n
  {
    if n > 0 { UptoOne(n - 1); }
  }

  /** The counters printed at the end: every line read is parsed or invalid, and everything parsed is
      filtered or aggregated. */
  lemma FinalCounters(cfg: Config, run: seq<State>, moves: seq<Move>)
    requires cfg.parsers >= 1 && Run(cfg, run, moves) && AllExited(run[|run| - 1])
    ensures
      var s := run[|run| - 1];
      && s.readCount == |cfg.input| == s.parsedCount + |s.invalid|
      && s.parsedCount == |s.filtered| + |s.aggregated|
  {
    var last := |run| - 1;
    var s := run[last];
    RunData(cfg, run, moves, last);
    RunControl(cfg, run, moves, last);
    UpstreamEmpty(cfg, s);
    IdleHands(s.parsers, One());
    AllAccounted(cfg, run, moves, last, One());
    SumOne(s.invalid);
    SumOne(s.filtered);
    SumOne(s.aggregated);
    UptoOne(|cfg.input|);
  }

  function Only(i: nat): Weight { (j: nat) => if j == i then 1 else 0 }

  lemma {:induction false} UptoOnly(i: nat, n: nat)
    ensures Upto(Only(i), n) == if i < n then 1 else 0
  {
    if n > 0 { UptoOnly(i, n - 1); }
  }

  /** In every reachable state each line read so far is in exactly one place, once; no other is in any. */
  lemma EachLineOnce(cfg: Config, run: seq<State>, moves: seq<Move>, n: nat, i: nat)
    requires cfg.parsers >= 1 && Run(cfg, run, moves) && n < |run|
    ensures Total(Only(i), run[n]) == if i < run[n].next then 1 else 0
  {
    LinesConserved(cfg, run, moves, n, Only(i));
    UptoOnly(i, run[n].next);
  }

  lemma {:induction false} SumOnly(log: seq<nat>, i: nat)
    ensures Sum(log, Only(i)) == multiset(log)[i]
  {
    if log != [] {
      var n := |log| - 1;
      SumOnly(log[..n], i);
      assert log == log[..n] + [log[n]];
    }
  }

  /** The fate of every line once the aggregator emits: one that cannot be parsed is counted as invalid, one
      parsed to a value of at least 10 and not to a view is aggregated, any other is filtered; each once. */
  lemma LineFates(cfg: Config, run: seq<State>, moves: seq<Move>, n: nat, i: nat)
    requires cfg.parsers >= 1 && Run(cfg, run, moves) && n < |run| && !run[n].aggregator.Folding?
    requires i < |cfg.input|
    ensures
      var s, parsed := run[n], cfg.parse(cfg.input[i]);
      var counts := parsed.Some? && parsed.value.value >= 10 && parsed.value.kind != "view";
      && multiset(s.aggregated)[i] == (if counts then 1 else 0)
      && multiset(s.filtered)[i] == (if parsed.Some? && !counts then 1 else 0)
      && multiset(s.invalid)[i] == (if parsed == None then 1 else 0)
  {
    var s := run[n];
    RunData(cfg, run, moves, n);
    AllAccounted(cfg, run, moves, n, Only(i));
    UptoOnly(i, |cfg.input|);
    SumOnly(s.invalid, i);
    SumOnly(s.filtered, i);
    SumOnly(s.aggregated, i);
    assert i in multiset(s.aggregated) ==> Kept(cfg, i);
    assert i in multiset(s.filtered) ==> Dropped(cfg, i);
    assert i in multiset(s.invalid) ==> Rejected(cfg, i);
  }

  // ----- how runs end -----

  /** A writer that is gone from the start is no obstacle when all results fit the queue. */
  predicate Fits(cfg: Config) {
    cfg.outputOpens || cfg.cap == 0 || |SequentialStats(cfg.parse, cfg.input)| <= cfg.cap
  }

  lemma WriterFramed(cfg: Config, s: State, m: Move)
    requires Enabled(cfg, s, m) && s.writer.WriterExited?
    ensures After(cfg, s, m).writer == s.writer && After(cfg, s, m).output == s.output
  {
  }

  lemma GoneWriterWritesNothing(cfg: Config, run: seq<State>, moves: seq<Move>, n: nat)
    requires Run(cfg, run, moves) && n < |run| && !cfg.outputOpens
    ensures run[n].writer.WriterExited? && run[n].output == []
    decreases n
  {
    if n > 0 {
      GoneWriterWritesNothing(cfg, run, moves, n - 1);
      assert Linked(cfg, run, moves, n - 1);
      WriterFramed(cfg, run[n - 1], moves[n - 1]);
    }
  }

  /** A run that cannot go on has ended with all threads joined exactly when the output file opened or
      all results fit the result queue; otherwise the aggregator is stuck. */
  lemma EndsWellExactly(cfg: Config, run: seq<State>, moves: seq<Move>)
    requires cfg.parsers >= 1 && Run(cfg, run, moves) && !CanMove(cfg, run[|run| - 1])
    ensures AllExited(run[|run| - 1]) <==> Fits(cfg)
  {
    var last := |run| - 1;
    var s := run[last];
    RunControl(cfg, run, moves, last);
    RunData(cfg, run, moves, last);
    if !AllExited(s) && !WriterGone(cfg, s) {
      NoDeadlock(cfg, s);
    }
    FinalStats(cfg, run, moves, last);
    if !cfg.outputOpens {
      GoneWriterWritesNothing(cfg, run, moves, last);
      assert |s.emission| == |s.results.items| + if s.aggregator.Emitting? then |s.aggregator.todo| else 0;
    }
  }

  /** There is such a run for every configuration, so that either ending occurs. */
  lemma MaximalRun(cfg: Config) returns (run: seq<State>, moves: seq<Move>)
    requires cfg.parsers >= 1
    ensures Run(cfg, run, moves) && !CanMove(cfg, run[|run| - 1])
    ensures AllExited(run[|run| - 1]) <==> Fits(cfg)
  {
    run, moves := RunOn(cfg, [Start(cfg)], []);
    EndsWellExactly(cfg, run, moves);
  }

  lemma TwoKeys(parse: string -> Option<Fields>, lines: seq<string>, first: Fields, second: Fields)
    requires |lines| == 2 && parse(lines[0]) == Some(first) && parse(lines[1]) == Some(second)
    requires Passes(first) && Passes(second) && first.kind != second.kind
    ensures |SequentialStats(parse, lines)| == 2
  {
    var one := [lines[0]];
    assert one[..0] == [] && lines[..1] == one;
    assert SequentialStats(parse, []) == map[];
    assert SequentialStats(parse, one) == AddTo(map[], first);
    assert SequentialStats(parse, lines).Keys == {first.kind, second.kind};
    assert |SequentialStats(parse, lines)| == |SequentialStats(parse, lines).Keys|;
  }

  /** A click and a purchase that pass, one result slot and an output file that does not open: some run gets
      stuck with threads that cannot be joined. */
  lemma TwoResultsOneSlot(cfg: Config, click: Fields, purchase: Fields) returns (run: seq<State>, moves: seq<Move>)
    requires cfg.parsers >= 1 && !cfg.outputOpens && cfg.cap == 1 && |cfg.input| == 2
    requires cfg.parse(cfg.input[0]) == Some(click) && click.kind == "click" && click.value >= 10
    requires cfg.parse(cfg.input[1]) == Some(purchase) && purchase.kind == "purchase" && purchase.value >= 10
    ensures Run(cfg, run, moves) && !CanMove(cfg, run[|run| - 1]) && !AllExited(run[|run| - 1])
  {
    run, moves := MaximalRun(cfg);
    TwoKeys(cfg.parse, cfg.input, click, purchase);
  }
}
