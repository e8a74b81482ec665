/** The monolith with its four queues as monitors: every thread of the pipeline is a thread of the two monitors
    it uses, and each of its queue operations goes through mutex, condition variables and wakeups. */
module WiredMonolith {
  import opened Wrappers
  import opened BlockingQueue
  import opened Channels
  import M = Monolith
  import C = MonolithControl
  import R = MonolithResults

  /** `s` is where the threads stand in their code, with the contents of the queues. */
  datatype System = System(
    s: M.State,
    raw: Monitor<M.RawEvent>,
    parsed: Monitor<M.ParsedEvent>,
    enriched: Monitor<M.EnrichedEvent>,
    results: Monitor<M.AggregateResult>)

  // ----- which call each thread is about to make; at most one at a time -----

  /** On the raw queue: the reader is thread 0, parser i thread i + 1. */
  function RawCall(s: M.State, t: nat): Option<Call<M.RawEvent>> {
    if t == 0 then
      match s.reader
      case HasRaw(event) => Some(Push(event))
      case ReaderAtEnd => Some(Close)
      case _ => None
    else if t <= |s.parsers| && s.parsers[t - 1].ParserPopping? then Some(Pop)
    else None
  }

  /** On the parsed queue: parser i is thread i, the rules come after the parsers. */
  function ParsedCall(s: M.State, t: nat): Option<Call<M.ParsedEvent>> {
    if t < |s.parsers| then
      match s.parsers[t]
      case HasParsed(event) => Some(Push(event))
      case LastParser => Some(Close)
      case _ => None
    else if t == |s.parsers| && s.rules.RulesPopping? then Some(Pop)
    else None
  }

  /** On the enriched queue: the rules are thread 0, the aggregator thread 1. */
  function EnrichedCall(s: M.State, t: nat): Option<Call<M.EnrichedEvent>> {
    if t == 0 then
      match s.rules
      case HasEnriched(event) => Some(Push(event))
      case RulesDone => Some(Close)
      case _ => None
    else if t == 1 && s.aggregator.Folding? then Some(Pop)
    else None
  }

  /** On the result queue: the aggregator is thread 0, the writer thread 1. */
  function ResultCall(s: M.State, t: nat): Option<Call<M.AggregateResult>> {
    if t == 0 && s.aggregator.Emitting? then
      Some(if s.aggregator.todo == [] then Close else Push(s.aggregator.todo[0]))
    else if t == 1 && s.writer.WriterPopping? then Some(Pop)
    else None
  }

  type Calls<T> = nat -> Option<Call<T>>

  function RawCalls(s: M.State): Calls<M.RawEvent> { (t: nat) => RawCall(s, t) }
  function ParsedCalls(s: M.State): Calls<M.ParsedEvent> { (t: nat) => ParsedCall(s, t) }
  function EnrichedCalls(s: M.State): Calls<M.EnrichedEvent> { (t: nat) => EnrichedCall(s, t) }
  function ResultCalls(s: M.State): Calls<M.AggregateResult> { (t: nat) => ResultCall(s, t) }

  predicate InCall<T>(th: Thread<T>) {
    th.Entering? || th.Testing? || th.Waiting? || th.Woken?
  }

  /** Every thread inside a call is inside the one it wanted to make. */
  predicate Manned<T(==)>(m: Monitor<T>, n: nat, calls: Calls<T>) {
    && |m.threads| == n
    && forall t: nat :: t < n && InCall(m.threads[t]) ==> calls(t) == Some(m.threads[t].call)
  }

  ghost predicate Serves<T>(cap: nat, m: Monitor<T>, c: Channel<T>, n: nat, calls: Calls<T>) {
    Invariant(cap, m) && ChannelOf(m) == c && Manned(m, n, calls)
  }

  ghost predicate Coupled(cfg: M.Config, w: System) {
    && |w.s.parsers| == cfg.parsers
    && Serves(cfg.cap, w.raw, w.s.raw, cfg.parsers + 1, RawCalls(w.s))
    && Serves(cfg.cap, w.parsed, w.s.parsed, cfg.parsers + 1, ParsedCalls(w.s))
    && Serves(cfg.cap, w.enriched, w.s.enriched, 2, EnrichedCalls(w.s))
    && Serves(cfg.cap, w.results, w.s.results, 2, ResultCalls(w.s))
  }

  // ----- steps -----

  /** A thread leaves the other monitor before it enters this one. */
  predicate Away<T>(m: Monitor<T>, t: nat) {
    t < |m.threads| ==> m.threads[t].Outside?
  }

  /** The operation takes effect. */
  predicate Succeeds<T>(m': Monitor<T>, t: nat, kind: StepKind) {
    kind == Test && t < |m'.threads| && m'.threads[t].Leaving?
  }

  /** A step inside the monitor that leaves the queue as it is. */
  ghost predicate Quiet<T>(cap: nat, m: Monitor<T>, calls: Calls<T>, free: bool, t: nat, kind: StepKind,
                           m': Monitor<T>) {
    && t < |m.threads| && StepBy(cap, m, t, kind, m') && !Succeeds(m', t, kind)
    && (kind.Arrive? ==> free && calls(t) == Some(m'.threads[t].call))
  }

  ghost predicate Loud<T>(cap: nat, m: Monitor<T>, t: nat, m': Monitor<T>) {
    t < |m.threads| && StepBy(cap, m, t, Test, m') && m'.threads[t].Leaving?
  }

  predicate RawFree(w: System, t: nat) {
    t > 0 ==> Away(w.parsed, t - 1)
  }

  predicate ParsedFree(w: System, t: nat) {
    if t < |w.s.parsers| then Away(w.raw, t + 1) else Away(w.enriched, 0)
  }

  predicate EnrichedFree(w: System, t: nat) {
    if t == 0 then Away(w.parsed, |w.s.parsers|) else Away(w.results, 0)
  }

  predicate ResultFree(w: System, t: nat) {
    t == 0 ==> Away(w.enriched, 1)
  }

  /** How the code goes on after the reply. */
  predicate RawGoesOn(t: nat, reply: Reply<M.RawEvent>, m: M.Move) {
    match m
    case PushRaw => t == 0 && reply == Pushed(true)
    case RawRefused => t == 0 && reply == Pushed(false)
    case CloseRaw => t == 0 && reply == Closed
    case PopRaw(i) => t == i + 1 && reply.Popped? && reply.item.Some?
    case RawDrained(i) => t == i + 1 && reply == Popped(None)
    case _ => false
  }

  predicate ParsedGoesOn(parsers: nat, t: nat, reply: Reply<M.ParsedEvent>, m: M.Move) {
    match m
    case PushParsed(i) => t == i < parsers && reply == Pushed(true)
    case ParsedRefused(i) => t == i < parsers && reply == Pushed(false)
    case CloseParsed(i) => t == i < parsers && reply == Closed
    case PopParsed => t == parsers && reply.Popped? && reply.item.Some?
    case ParsedDrained => t == parsers && reply == Popped(None)
    case _ => false
  }

  predicate EnrichedGoesOn(t: nat, reply: Reply<M.EnrichedEvent>, m: M.Move) {
    match m
    case PushEnriched => t == 0 && reply == Pushed(true)
    case EnrichedRefused => t == 0 && reply == Pushed(false)
    case CloseEnriched => t == 0 && reply == Closed
    case PopEnriched => t == 1 && reply.Popped? && reply.item.Some?
    case EnrichedDrained(_) => t == 1 && reply == Popped(None)
    case _ => false
  }

  predicate ResultGoesOn(t: nat, reply: Reply<M.AggregateResult>, m: M.Move) {
    match m
    case PushResult => t == 0 && reply == Pushed(true)
    case ResultRefused => t == 0 && reply == Pushed(false)
    case CloseResults => t == 0 && reply == Closed
    case PopResult => t == 1 && reply.Popped? && reply.item.Some?
    case ResultsDrained => t == 1 && reply == Popped(None)
    case _ => false
  }

  /** Moves that touch no queue, made outside of every monitor. */
  predicate OwnMove(w: System, m: M.Move) {
    match m
    case ReadLine => Away(w.raw, 0)
    case ReachEnd => Away(w.raw, 0)
    case LeaveParser(i) => Away(w.raw, i + 1) && Away(w.parsed, i)
    case _ => false
  }

  /** What happens next, at a monitor by thread t or in a thread's own code. */
  datatype Step =
    | RawQuiet(t: nat, kind: StepKind) | ParsedQuiet(t: nat, kind: StepKind)
    | EnrichedQuiet(t: nat, kind: StepKind) | ResultQuiet(t: nat, kind: StepKind)
    | RawLoud(t: nat, m: M.Move) | ParsedLoud(t: nat, m: M.Move)
    | EnrichedLoud(t: nat, m: M.Move) | ResultLoud(t: nat, m: M.Move)
    | Own(m: M.Move)

  ghost predicate Follows(cfg: M.Config, w: System, step: Step, w': System) {
    match step
    case RawQuiet(t, kind) =>
      Quiet(cfg.cap, w.raw, RawCalls(w.s), RawFree(w, t), t, kind, w'.raw) && w' == w.(raw := w'.raw)
    case ParsedQuiet(t, kind) =>
      Quiet(cfg.cap, w.parsed, ParsedCalls(w.s), ParsedFree(w, t), t, kind, w'.parsed) && w' == w.(parsed := w'.parsed)
    case EnrichedQuiet(t, kind) =>
      && Quiet(cfg.cap, w.enriched, EnrichedCalls(w.s), EnrichedFree(w, t), t, kind, w'.enriched)
      && w' == w.(enriched := w'.enriched)
    case ResultQuiet(t, kind) =>
      && Quiet(cfg.cap, w.results, ResultCalls(w.s), ResultFree(w, t), t, kind, w'.results)
      && w' == w.(results := w'.results)
    case RawLoud(t, m) =>
      && Loud(cfg.cap, w.raw, t, w'.raw) && RawGoesOn(t, w'.raw.threads[t].reply, m)
      && M.Step(cfg, w.s, m, w'.s) && w' == w.(raw := w'.raw, s := w'.s)
    case ParsedLoud(t, m) =>
      && Loud(cfg.cap, w.parsed, t, w'.parsed) && ParsedGoesOn(|w.s.parsers|, t, w'.parsed.threads[t].reply, m)
      && M.Step(cfg, w.s, m, w'.s) && w' == w.(parsed := w'.parsed, s := w'.s)
    case EnrichedLoud(t, m) =>
      && Loud(cfg.cap, w.enriched, t, w'.enriched) && EnrichedGoesOn(t, w'.enriched.threads[t].reply, m)
      && M.Step(cfg, w.s, m, w'.s) && w' == w.(enriched := w'.enriched, s := w'.s)
    case ResultLoud(t, m) =>
      && Loud(cfg.cap, w.results, t, w'.results) && ResultGoesOn(t, w'.results.threads[t].reply, m)
      && M.Step(cfg, w.s, m, w'.s) && w' == w.(results := w'.results, s := w'.s)
    case Own(m) => OwnMove(w, m) && M.Step(cfg, w.s, m, w'.s) && w' == w.(s := w'.s)
  }

  // ----- one monitor at a time -----

  lemma LoudSucceeds<T(!new)>(cap: nat, m: Monitor<T>, t: nat, m': Monitor<T>)
    requires t < |m.threads| && StepBy(cap, m, t, Test, m') && MayProceed(cap, m, m.threads[t].call)
    ensures |m'.threads| == |m.threads| && m'.threads[t].Leaving?
    ensures forall u: nat :: u < |m.threads| && InCall(m'.threads[u]) ==>
              u != t && InCall(m.threads[u]) && m'.threads[u].call == m.threads[u].call
  {
    match m.threads[t].call
    case Push(_) => if !m.closed { NotifyPopCounts(m.threads[t := Leaving(Pushed(true))], m'.threads); }
    case Pop => if m.queue != [] { NotifyPushCounts(m.threads[t := Leaving(Popped(Some(m.queue[0])))], m'.threads); }
    case Close =>
  }

  lemma QuietServes<T(!new)>(cap: nat, m: Monitor<T>, c: Channel<T>, n: nat, calls: Calls<T>, free: bool, t: nat,
                             kind: StepKind, m': Monitor<T>)
    requires Serves(cap, m, c, n, calls) && Quiet(cap, m, calls, free, t, kind, m')
    ensures Serves(cap, m', c, n, calls)
  {
    assert Next(cap, m, m');
    StepKeeps(cap, m, m');
    MonitorRefinesChannel(cap, m, t, kind, m');
    if kind == Test && MayProceed(cap, m, m.threads[t].call) {
      LoudSucceeds(cap, m, t, m');
    }
  }

  /** After an operation the monitor serves the new contents, and threads that want what they wanted. */
  lemma LoudServes<T(!new)>(cap: nat, m: Monitor<T>, c: Channel<T>, n: nat, calls: Calls<T>, t: nat, m': Monitor<T>,
                            calls': Calls<T>)
    requires Serves(cap, m, c, n, calls) && Loud(cap, m, t, m')
    requires forall u: nat :: u != t ==> calls'(u) == calls(u)
    ensures Serves(cap, m', ChannelOf(m'), n, calls')
  {
    assert Next(cap, m, m');
    StepKeeps(cap, m, m');
    MonitorRefinesChannel(cap, m, t, Test, m');
    LoudSucceeds(cap, m, t, m');
  }

  /** A move elsewhere only changes what threads want that are not inside. */
  lemma ElsewhereServes<T>(cap: nat, m: Monitor<T>, c: Channel<T>, n: nat, calls: Calls<T>, calls': Calls<T>)
    requires Serves(cap, m, c, n, calls)
    requires forall u: nat :: calls(u) == None || calls'(u) == calls(u)
    ensures Serves(cap, m, c, n, calls')
  {
  }

  // ----- the moves of the threads -----

  lemma RawMoveCalls(cfg: M.Config, s: M.State, t: nat, reply: Reply<M.RawEvent>, m: M.Move)
    requires M.Enabled(cfg, s, m) && RawGoesOn(t, reply, m)
    ensures
      var s' := M.After(cfg, s, m);
      && |s'.parsers| == |s.parsers| && s'.parsed == s.parsed && s'.enriched == s.enriched && s'.results == s.results
      && (forall u: nat :: u != t ==> RawCall(s', u) == RawCall(s, u))
      && (forall u: nat :: ParsedCall(s, u) == None || ParsedCall(s', u) == ParsedCall(s, u))
      && (forall u: nat :: EnrichedCall(s', u) == EnrichedCall(s, u))
      && (forall u: nat :: ResultCall(s', u) == ResultCall(s, u))
  {
  }

  lemma ParsedMoveCalls(cfg: M.Config, s: M.State, t: nat, reply: Reply<M.ParsedEvent>, m: M.Move)
    requires M.Enabled(cfg, s, m) && ParsedGoesOn(|s.parsers|, t, reply, m)
    ensures
      var s' := M.After(cfg, s, m);
      && |s'.parsers| == |s.parsers| && s'.raw == s.raw && s'.enriched == s.enriched && s'.results == s.results
      && (forall u: nat :: RawCall(s, u) == None || RawCall(s', u) == RawCall(s, u))
      && (forall u: nat :: u != t ==> ParsedCall(s', u) == ParsedCall(s, u))
      && (forall u: nat :: EnrichedCall(s, u) == None || EnrichedCall(s', u) == EnrichedCall(s, u))
      && (forall u: nat :: ResultCall(s', u) == ResultCall(s, u))
  {
  }

  lemma EnrichedMoveCalls(cfg: M.Config, s: M.State, t: nat, reply: Reply<M.EnrichedEvent>, m: M.Move)
    requires M.Enabled(cfg, s, m) && EnrichedGoesOn(t, reply, m)
    ensures
      var s' := M.After(cfg, s, m);
      && |s'.parsers| == |s.parsers| && s'.raw == s.raw && s'.parsed == s.parsed && s'.results == s.results
      && (forall u: nat :: RawCall(s', u) == RawCall(s, u))
      && (forall u: nat :: ParsedCall(s, u) == None || ParsedCall(s', u) == ParsedCall(s, u))
      && (forall u: nat :: u != t ==> EnrichedCall(s', u) == EnrichedCall(s, u))
      && (forall u: nat :: ResultCall(s, u) == None || ResultCall(s', u) == ResultCall(s, u))
  {
  }

  lemma ResultMoveCalls(cfg: M.Config, s: M.State, t: nat, reply: Reply<M.AggregateResult>, m: M.Move)
    requires M.Enabled(cfg, s, m) && ResultGoesOn(t, reply, m)
    ensures
      var s' := M.After(cfg, s, m);
      && |s'.parsers| == |s.parsers| && s'.raw == s.raw && s'.parsed == s.parsed && s'.enriched == s.enriched
      && (forall u: nat :: RawCall(s', u) == RawCall(s, u))
      && (forall u: nat :: ParsedCall(s', u) == ParsedCall(s, u))
      && (forall u: nat :: EnrichedCall(s, u) == None || EnrichedCall(s', u) == EnrichedCall(s, u))
      && (forall u: nat :: u != t ==> ResultCall(s', u) == ResultCall(s, u))
  {
  }

  lemma OwnMoveCalls(cfg: M.Config, s: M.State, m: M.Move)
    requires M.Enabled(cfg, s, m) && (m.ReadLine? || m.ReachEnd? || m.LeaveParser?)
    ensures
      var s' := M.After(cfg, s, m);
      && |s'.parsers| == |s.parsers|
      && s'.raw == s.raw && s'.parsed == s.parsed && s'.enriched == s.enriched && s'.results == s.results
      && (forall u: nat :: RawCall(s, u) == None || RawCall(s', u) == RawCall(s, u))
      && (forall u: nat :: ParsedCall(s, u) == None || ParsedCall(s', u) == ParsedCall(s, u))
      && (forall u: nat :: EnrichedCall(s', u) == EnrichedCall(s, u))
      && (forall u: nat :: ResultCall(s', u) == ResultCall(s, u))
  {
  }

  // ----- every operation takes effect as the corresponding move -----

  lemma RawMoveOf(cfg: M.Config, w: System, t: nat, raw': Monitor<M.RawEvent>) returns (m: M.Move)
    requires Coupled(cfg, w) && Loud(cfg.cap, w.raw, t, raw')
    ensures M.Enabled(cfg, w.s, m) && RawGoesOn(t, raw'.threads[t].reply, m)
    ensures M.After(cfg, w.s, m).raw == ChannelOf(raw')
  {
    MonitorRefinesChannel(cfg.cap, w.raw, t, Test, raw');
    assert InCall(w.raw.threads[t]) && RawCalls(w.s)(t) == Some(w.raw.threads[t].call);
    match raw'.threads[t].reply
    case Pushed(ok) => m := if ok then M.PushRaw else M.RawRefused;
    case Popped(item) => m := if item.Some? then M.PopRaw(t - 1) else M.RawDrained(t - 1);
    case Closed => m := M.CloseRaw;
  }

  lemma ParsedMoveOf(cfg: M.Config, w: System, t: nat, parsed': Monitor<M.ParsedEvent>) returns (m: M.Move)
    requires Coupled(cfg, w) && Loud(cfg.cap, w.parsed, t, parsed')
    ensures M.Enabled(cfg, w.s, m) && ParsedGoesOn(|w.s.parsers|, t, parsed'.threads[t].reply, m)
    ensures M.After(cfg, w.s, m).parsed == ChannelOf(parsed')
  {
    MonitorRefinesChannel(cfg.cap, w.parsed, t, Test, parsed');
    assert InCall(w.parsed.threads[t]) && ParsedCalls(w.s)(t) == Some(w.parsed.threads[t].call);
    match parsed'.threads[t].reply
    case Pushed(ok) => m := if ok then M.PushParsed(t) else M.ParsedRefused(t);
    case Popped(item) => m := if item.Some? then M.PopParsed else M.ParsedDrained;
    case Closed => m := M.CloseParsed(t);
  }

  lemma EnrichedMoveOf(cfg: M.Config, w: System, t: nat, enriched': Monitor<M.EnrichedEvent>) returns (m: M.Move)
    requires Coupled(cfg, w) && Loud(cfg.cap, w.enriched, t, enriched')
    ensures M.Enabled(cfg, w.s, m) && EnrichedGoesOn(t, enriched'.threads[t].reply, m)
    ensures M.After(cfg, w.s, m).enriched == ChannelOf(enriched')
  {
    MonitorRefinesChannel(cfg.cap, w.enriched, t, Test, enriched');
    assert InCall(w.enriched.threads[t]) && EnrichedCalls(w.s)(t) == Some(w.enriched.threads[t].call);
    match enriched'.threads[t].reply
    case Pushed(ok) => m := if ok then M.PushEnriched else M.EnrichedRefused;
    case Popped(item) =>
      var keys := C.KeysInSomeOrder(w.s.stats.Keys);
      m := if item.Some? then M.PopEnriched else M.EnrichedDrained(keys);
    case Closed => m := M.CloseEnriched;
  }

  lemma ResultMoveOf(cfg: M.Config, w: System, t: nat, results': Monitor<M.AggregateResult>) returns (m: M.Move)
    requires Coupled(cfg, w) && Loud(cfg.cap, w.results, t, results')
    ensures M.Enabled(cfg, w.s, m) && ResultGoesOn(t, results'.threads[t].reply, m)
    ensures M.After(cfg, w.s, m).results == ChannelOf(results')
  {
    MonitorRefinesChannel(cfg.cap, w.results, t, Test, results');
    assert InCall(w.results.threads[t]) && ResultCalls(w.s)(t) == Some(w.results.threads[t].call);
    match results'.threads[t].reply
    case Pushed(ok) => m := if ok then M.PushResult else M.ResultRefused;
    case Popped(item) => m := if item.Some? then M.PopResult else M.ResultsDrained;
    case Closed => m := M.CloseResults;
  }
}
