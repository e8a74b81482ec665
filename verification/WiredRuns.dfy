/** Runs of the monolith over monitors: what was shown with atomic queues holds of them too. */
module WiredRuns {
  import opened Wrappers
  import opened BlockingQueue
  import opened Channels
  import opened WiredMonolith
  import M = Monolith
  import C = MonolithControl
  import R = MonolithResults

  // ----- every step keeps monitors and threads together -----

  lemma RawEffect(cfg: M.Config, w: System, t: nat, raw': Monitor<M.RawEvent>, m: M.Move)
    requires Coupled(cfg, w) && Loud(cfg.cap, w.raw, t, raw')
    requires M.Enabled(cfg, w.s, m) && RawGoesOn(t, raw'.threads[t].reply, m)
    ensures M.After(cfg, w.s, m).raw == ChannelOf(raw')
  {
    MonitorRefinesChannel(cfg.cap, w.raw, t, Test, raw');
    assert InCall(w.raw.threads[t]) && RawCalls(w.s)(t) == Some(w.raw.threads[t].call);
  }

  lemma ParsedEffect(cfg: M.Config, w: System, t: nat, parsed': Monitor<M.ParsedEvent>, m: M.Move)
    requires Coupled(cfg, w) && Loud(cfg.cap, w.parsed, t, parsed')
    requires M.Enabled(cfg, w.s, m) && ParsedGoesOn(|w.s.parsers|, t, parsed'.threads[t].reply, m)
    ensures M.After(cfg, w.s, m).parsed == ChannelOf(parsed')
  {
    MonitorRefinesChannel(cfg.cap, w.parsed, t, Test, parsed');
    assert InCall(w.parsed.threads[t]) && ParsedCalls(w.s)(t) == Some(w.parsed.threads[t].call);
  }

  lemma EnrichedEffect(cfg: M.Config, w: System, t: nat, enriched': Monitor<M.EnrichedEvent>, m: M.Move)
    requires Coupled(cfg, w) && Loud(cfg.cap, w.enriched, t, enriched')
    requires M.Enabled(cfg, w.s, m) && EnrichedGoesOn(t, enriched'.threads[t].reply, m)
    ensures M.After(cfg, w.s, m).enriched == ChannelOf(enriched')
  {
    MonitorRefinesChannel(cfg.cap, w.enriched, t, Test, enriched');
    assert InCall(w.enriched.threads[t]) && EnrichedCalls(w.s)(t) == Some(w.enriched.threads[t].call);
  }

  lemma ResultEffect(cfg: M.Config, w: System, t: nat, results': Monitor<M.AggregateResult>, m: M.Move)
    requires Coupled(cfg, w) && Loud(cfg.cap, w.results, t, results')
    requires M.Enabled(cfg, w.s, m) && ResultGoesOn(t, results'.threads[t].reply, m)
    ensures M.After(cfg, w.s, m).results == ChannelOf(results')
  {
    MonitorRefinesChannel(cfg.cap, w.results, t, Test, results');
    assert InCall(w.results.threads[t]) && ResultCalls(w.s)(t) == Some(w.results.threads[t].call);
  }

  lemma RawLoudCouples(cfg: M.Config, w: System, t: nat, m: M.Move, w': System)
    requires Coupled(cfg, w) && Follows(cfg, w, RawLoud(t, m), w')
    ensures Coupled(cfg, w')
  {
    var n := cfg.parsers + 1;
    RawEffect(cfg, w, t, w'.raw, m);
    RawMoveCalls(cfg, w.s, t, w'.raw.threads[t].reply, m);
    LoudServes(cfg.cap, w.raw, w.s.raw, n, RawCalls(w.s), t, w'.raw, RawCalls(w'.s));
    ElsewhereServes(cfg.cap, w.parsed, w.s.parsed, n, ParsedCalls(w.s), ParsedCalls(w'.s));
    ElsewhereServes(cfg.cap, w.enriched, w.s.enriched, 2, EnrichedCalls(w.s), EnrichedCalls(w'.s));
    ElsewhereServes(cfg.cap, w.results, w.s.results, 2, ResultCalls(w.s), ResultCalls(w'.s));
  }

  lemma ParsedLoudCouples(cfg: M.Config, w: System, t: nat, m: M.Move, w': System)
    requires Coupled(cfg, w) && Follows(cfg, w, ParsedLoud(t, m), w')
    ensures Coupled(cfg, w')
  {
    var n := cfg.parsers + 1;
    ParsedEffect(cfg, w, t, w'.parsed, m);
    ParsedMoveCalls(cfg, w.s, t, w'.parsed.threads[t].reply, m);
    LoudServes(cfg.cap, w.parsed, w.s.parsed, n, ParsedCalls(w.s), t, w'.parsed, ParsedCalls(w'.s));
    ElsewhereServes(cfg.cap, w.raw, w.s.raw, n, RawCalls(w.s), RawCalls(w'.s));
    ElsewhereServes(cfg.cap, w.enriched, w.s.enriched, 2, EnrichedCalls(w.s), EnrichedCalls(w'.s));
    ElsewhereServes(cfg.cap, w.results, w.s.results, 2, ResultCalls(w.s), ResultCalls(w'.s));
  }

  lemma EnrichedLoudCouples(cfg: M.Config, w: System, t: nat, m: M.Move, w': System)
    requires Coupled(cfg, w) && Follows(cfg, w, EnrichedLoud(t, m), w')
    ensures Coupled(cfg, w')
  {
    var n := cfg.parsers + 1;
    EnrichedEffect(cfg, w, t, w'.enriched, m);
    EnrichedMoveCalls(cfg, w.s, t, w'.enriched.threads[t].reply, m);
    LoudServes(cfg.cap, w.enriched, w.s.enriched, 2, EnrichedCalls(w.s), t, w'.enriched, EnrichedCalls(w'.s));
    ElsewhereServes(cfg.cap, w.raw, w.s.raw, n, RawCalls(w.s), RawCalls(w'.s));
    ElsewhereServes(cfg.cap, w.parsed, w.s.parsed, n, ParsedCalls(w.s), ParsedCalls(w'.s));
    ElsewhereServes(cfg.cap, w.results, w.s.results, 2, ResultCalls(w.s), ResultCalls(w'.s));
  }

  lemma ResultLoudCouples(cfg: M.Config, w: System, t: nat, m: M.Move, w': System)
    requires Coupled(cfg, w) && Follows(cfg, w, ResultLoud(t, m), w')
    ensures Coupled(cfg, w')
  {
    var n := cfg.parsers + 1;
    ResultEffect(cfg, w, t, w'.results, m);
    ResultMoveCalls(cfg, w.s, t, w'.results.threads[t].reply, m);
    LoudServes(cfg.cap, w.results, w.s.results, 2, ResultCalls(w.s), t, w'.results, ResultCalls(w'.s));
    ElsewhereServes(cfg.cap, w.raw, w.s.raw, n, RawCalls(w.s), RawCalls(w'.s));
    ElsewhereServes(cfg.cap, w.parsed, w.s.parsed, n, ParsedCalls(w.s), ParsedCalls(w'.s));
    ElsewhereServes(cfg.cap, w.enriched, w.s.enriched, 2, EnrichedCalls(w.s), EnrichedCalls(w'.s));
  }

  lemma OwnCouples(cfg: M.Config, w: System, m: M.Move, w': System)
    requires Coupled(cfg, w) && Follows(cfg, w, Own(m), w')
    ensures Coupled(cfg, w')
  {
    var n := cfg.parsers + 1;
    OwnMoveCalls(cfg, w.s, m);
    ElsewhereServes(cfg.cap, w.raw, w.s.raw, n, RawCalls(w.s), RawCalls(w'.s));
    ElsewhereServes(cfg.cap, w.parsed, w.s.parsed, n, ParsedCalls(w.s), ParsedCalls(w'.s));
    ElsewhereServes(cfg.cap, w.enriched, w.s.enriched, 2, EnrichedCalls(w.s), EnrichedCalls(w'.s));
    ElsewhereServes(cfg.cap, w.results, w.s.results, 2, ResultCalls(w.s), ResultCalls(w'.s));
  }

  lemma QuietCouples(cfg: M.Config, w: System, step: Step, w': System)
    requires step.RawQuiet? || step.ParsedQuiet? || step.EnrichedQuiet? || step.ResultQuiet?
    requires Coupled(cfg, w) && Follows(cfg, w, step, w')
    ensures Coupled(cfg, w')
  {
    var n := cfg.parsers + 1;
    match step
    case RawQuiet(t, kind) =>
      QuietServes(cfg.cap, w.raw, w.s.raw, n, RawCalls(w.s), RawFree(w, t), t, kind, w'.raw);
    case ParsedQuiet(t, kind) =>
      QuietServes(cfg.cap, w.parsed, w.s.parsed, n, ParsedCalls(w.s), ParsedFree(w, t), t, kind, w'.parsed);
    case EnrichedQuiet(t, kind) =>
      QuietServes(cfg.cap, w.enriched, w.s.enriched, 2, EnrichedCalls(w.s), EnrichedFree(w, t), t, kind, w'.enriched);
    case ResultQuiet(t, kind) =>
      QuietServes(cfg.cap, w.results, w.s.results, 2, ResultCalls(w.s), ResultFree(w, t), t, kind, w'.results);
  }

  /** The move of the pipeline that a step amounts to, if any. */
  function MoveIn(step: Step): Option<M.Move> {
    match step
    case RawLoud(_, m) => Some(m)
    case ParsedLoud(_, m) => Some(m)
    case EnrichedLoud(_, m) => Some(m)
    case ResultLoud(_, m) => Some(m)
    case Own(m) => Some(m)
    case _ => None
  }

  /** Every step inside a monitor leaves the pipeline where it is; every operation that takes effect, and every
      move in a thread's own code, is one move of the pipeline over atomic queues. */
  lemma StepRefines(cfg: M.Config, w: System, step: Step, w': System)
    requires Coupled(cfg, w) && Follows(cfg, w, step, w')
    ensures Coupled(cfg, w')
    ensures match MoveIn(step)
            case Some(m) => M.Step(cfg, w.s, m, w'.s)
            case None => w'.s == w.s
  {
    match step
    case RawLoud(t, m) => RawLoudCouples(cfg, w, t, m, w');
    case ParsedLoud(t, m) => ParsedLoudCouples(cfg, w, t, m, w');
    case EnrichedLoud(t, m) => EnrichedLoudCouples(cfg, w, t, m, w');
    case ResultLoud(t, m) => ResultLoudCouples(cfg, w, t, m, w');
    case Own(m) => OwnCouples(cfg, w, m, w');
    case _ => QuietCouples(cfg, w, step, w');
  }

  // ----- runs -----

  ghost predicate Begins(cfg: M.Config, w: System) {
    && w.s == M.Start(cfg)
    && Start(w.raw) && |w.raw.threads| == cfg.parsers + 1
    && Start(w.parsed) && |w.parsed.threads| == cfg.parsers + 1
    && Start(w.enriched) && |w.enriched.threads| == 2
    && Start(w.results) && |w.results.threads| == 2
  }

  ghost predicate Linked(cfg: M.Config, run: seq<System>, steps: seq<Step>, i: nat)
    requires i < |steps| && i + 1 < |run|
  {
    Follows(cfg, run[i], steps[i], run[i + 1])
  }

  ghost predicate Run(cfg: M.Config, run: seq<System>, steps: seq<Step>) {
    && |run| == |steps| + 1 && Begins(cfg, run[0])
    && forall i :: 0 <= i < |steps| ==> Linked(cfg, run, steps, i)
  }

  lemma BeginsCoupled(cfg: M.Config, w: System)
    requires Begins(cfg, w)
    ensures Coupled(cfg, w)
  {
    StartOk(cfg.cap, w.raw);
    StartOk(cfg.cap, w.parsed);
    StartOk(cfg.cap, w.enriched);
    StartOk(cfg.cap, w.results);
  }

  lemma StepProjects(cfg: M.Config, states: seq<M.State>, moves: seq<M.Move>, w: System, step: Step, w': System)
    returns (states': seq<M.State>, moves': seq<M.Move>)
    requires M.Run(cfg, states, moves) && states[|states| - 1] == w.s
    requires Coupled(cfg, w) && Follows(cfg, w, step, w')
    ensures Coupled(cfg, w')
    ensures M.Run(cfg, states', moves') && states'[|states'| - 1] == w'.s
  {
    StepRefines(cfg, w, step, w');
    states', moves' := states, moves;
    if MoveIn(step).Some? {
      C.OneMoreMove(cfg, states, moves, MoveIn(step).value);
      states', moves' := states + [w'.s], moves + [MoveIn(step).value];
    }
  }

  /** Dropping the steps inside the monitors leaves a run of the pipeline over atomic queues, to the same
      state. */
  lemma {:induction false} Projection(cfg: M.Config, run: seq<System>, steps: seq<Step>, n: nat)
    returns (states: seq<M.State>, moves: seq<M.Move>)
    requires Run(cfg, run, steps) && n < |run|
    ensures Coupled(cfg, run[n])
    ensures M.Run(cfg, states, moves) && states[|states| - 1] == run[n].s
    decreases n
  {
    if n == 0 {
      BeginsCoupled(cfg, run[0]);
      states, moves := [M.Start(cfg)], [];
    } else {
      states, moves := Projection(cfg, run, steps, n - 1);
      assert Linked(cfg, run, steps, n - 1);
      states, moves := StepProjects(cfg, states, moves, run[n - 1], steps[n - 1], run[n]);
    }
  }

  /** Schedule independence down to the mutexes: whatever the interleaving, the wakeups and the parsers, a program
      that has ended has written the results of one sequential pass, each once. */
  lemma WiredScheduleIndependence(cfg: M.Config, run: seq<System>, steps: seq<Step>)
    requires cfg.parsers >= 1 && cfg.outputOpens
    requires Run(cfg, run, steps) && M.AllExited(run[|run| - 1].s)
    ensures R.ResultsOf(run[|run| - 1].s.output, M.SequentialStats(cfg.parse, cfg.input))
    ensures R.Tallies(run[|run| - 1].s.output, cfg.parse, cfg.input)
  {
    var states, moves := Projection(cfg, run, steps, |run| - 1);
    R.ScheduleIndependence(cfg, states, moves);
  }

  // ----- progress -----

  predicate IsSpurious(step: Step) {
    match step
    case RawQuiet(_, kind) => kind == Spurious
    case ParsedQuiet(_, kind) => kind == Spurious
    case EnrichedQuiet(_, kind) => kind == Spurious
    case ResultQuiet(_, kind) => kind == Spurious
    case _ => false
  }

  /** Some thread can go on, other than by a spurious wakeup. */
  ghost predicate CanStep(cfg: M.Config, w: System) {
    exists step, w' :: Follows(cfg, w, step, w') && !IsSpurious(step)
  }

  lemma RawOperationSteps(cfg: M.Config, w: System, t: nat, raw': Monitor<M.RawEvent>)
    requires Coupled(cfg, w) && Loud(cfg.cap, w.raw, t, raw')
    ensures CanStep(cfg, w)
  {
    var m := RawMoveOf(cfg, w, t, raw');
    assert Follows(cfg, w, RawLoud(t, m), w.(raw := raw', s := M.After(cfg, w.s, m)));
  }

  lemma RawMonitorMoves(cfg: M.Config, w: System)
    requires Coupled(cfg, w) && CanMove(cfg.cap, w.raw)
    ensures CanStep(cfg, w)
  {
    var t, kind, raw' :| 0 <= t < |w.raw.threads| && kind in {Acquire, BlockingQueue.Test, Release}
                         && StepBy(cfg.cap, w.raw, t, kind, raw');
    if Succeeds(raw', t, kind) {
      RawOperationSteps(cfg, w, t, raw');
    } else {
      assert Follows(cfg, w, RawQuiet(t, kind), w.(raw := raw'));
    }
  }

  lemma ParsedOperationSteps(cfg: M.Config, w: System, t: nat, parsed': Monitor<M.ParsedEvent>)
    requires Coupled(cfg, w) && Loud(cfg.cap, w.parsed, t, parsed')
    ensures CanStep(cfg, w)
  {
    var m := ParsedMoveOf(cfg, w, t, parsed');
    assert Follows(cfg, w, ParsedLoud(t, m), w.(parsed := parsed', s := M.After(cfg, w.s, m)));
  }

  lemma ParsedMonitorMoves(cfg: M.Config, w: System)
    requires Coupled(cfg, w) && CanMove(cfg.cap, w.parsed)
    ensures CanStep(cfg, w)
  {
    var t, kind, parsed' :| 0 <= t < |w.parsed.threads| && kind in {Acquire, BlockingQueue.Test, Release}
                            && StepBy(cfg.cap, w.parsed, t, kind, parsed');
    if Succeeds(parsed', t, kind) {
      ParsedOperationSteps(cfg, w, t, parsed');
    } else {
      assert Follows(cfg, w, ParsedQuiet(t, kind), w.(parsed := parsed'));
    }
  }

  lemma EnrichedOperationSteps(cfg: M.Config, w: System, t: nat, enriched': Monitor<M.EnrichedEvent>)
    requires Coupled(cfg, w) && Loud(cfg.cap, w.enriched, t, enriched')
    ensures CanStep(cfg, w)
  {
    var m := EnrichedMoveOf(cfg, w, t, enriched');
    assert Follows(cfg, w, EnrichedLoud(t, m), w.(enriched := enriched', s := M.After(cfg, w.s, m)));
  }

  lemma EnrichedMonitorMoves(cfg: M.Config, w: System)
    requires Coupled(cfg, w) && CanMove(cfg.cap, w.enriched)
    ensures CanStep(cfg, w)
  {
    var t, kind, enriched' :| 0 <= t < |w.enriched.threads| && kind in {Acquire, BlockingQueue.Test, Release}
                              && StepBy(cfg.cap, w.enriched, t, kind, enriched');
    if Succeeds(enriched', t, kind) {
      EnrichedOperationSteps(cfg, w, t, enriched');
    } else {
      assert Follows(cfg, w, EnrichedQuiet(t, kind), w.(enriched := enriched'));
    }
  }

  lemma ResultOperationSteps(cfg: M.Config, w: System, t: nat, results': Monitor<M.AggregateResult>)
    requires Coupled(cfg, w) && Loud(cfg.cap, w.results, t, results')
    ensures CanStep(cfg, w)
  {
    var m := ResultMoveOf(cfg, w, t, results');
    assert Follows(cfg, w, ResultLoud(t, m), w.(results := results', s := M.After(cfg, w.s, m)));
  }

  lemma ResultMonitorMoves(cfg: M.Config, w: System)
    requires Coupled(cfg, w) && CanMove(cfg.cap, w.results)
    ensures CanStep(cfg, w)
  {
    var t, kind, results' :| 0 <= t < |w.results.threads| && kind in {Acquire, BlockingQueue.Test, Release}
                             && StepBy(cfg.cap, w.results, t, kind, results');
    if Succeeds(results', t, kind) {
      ResultOperationSteps(cfg, w, t, results');
    } else {
      assert Follows(cfg, w, ResultQuiet(t, kind), w.(results := results'));
    }
  }

  /** Nobody inside any monitor can go on by itself. */
  ghost predicate AllQuiet(cfg: M.Config, w: System) {
    && !CanMove(cfg.cap, w.raw) && !CanMove(cfg.cap, w.parsed)
    && !CanMove(cfg.cap, w.enriched) && !CanMove(cfg.cap, w.results)
  }

  lemma NotQuietSteps(cfg: M.Config, w: System)
    requires Coupled(cfg, w) && !AllQuiet(cfg, w)
    ensures CanStep(cfg, w)
  {
    if CanMove(cfg.cap, w.raw) {
      RawMonitorMoves(cfg, w);
    } else if CanMove(cfg.cap, w.parsed) {
      ParsedMonitorMoves(cfg, w);
    } else if CanMove(cfg.cap, w.enriched) {
      EnrichedMonitorMoves(cfg, w);
    } else {
      ResultMonitorMoves(cfg, w);
    }
  }

  /** In a monitor where nobody can go on, a thread that wants nothing there is outside, and one that is inside
      waits for a condition that does not hold. */
  lemma QuietThread<T(!new)>(cap: nat, m: Monitor<T>, c: Channel<T>, n: nat, calls: Calls<T>, t: nat)
    requires Serves(cap, m, c, n, calls) && !CanMove(cap, m) && t < n
    ensures calls(t) == None ==> m.threads[t].Outside?
    ensures m.threads[t].Outside? || (calls(t).Some? && !MayProceed(cap, m, calls(t).value))
  {
    if !m.threads[t].Outside? {
      StuckOnlyWhenBlocked(cap, m, t);
      assert InCall(m.threads[t]);
    }
  }

  lemma ArriveStep<T(!new)>(cap: nat, m: Monitor<T>, calls: Calls<T>, t: nat) returns (m': Monitor<T>)
    requires t < |m.threads| && m.threads[t].Outside? && calls(t).Some?
    ensures Quiet(cap, m, calls, true, t, Arrive, m')
  {
    m' := m.(threads := m.threads[t := Entering(calls(t).value)]);
  }

  lemma RawBlocked(cfg: M.Config, w: System, t: nat)
    requires Coupled(cfg, w) && AllQuiet(cfg, w) && t < cfg.parsers + 1 && RawCall(w.s, t).Some?
    ensures CanStep(cfg, w) || !MayProceed(cfg.cap, w.raw, RawCall(w.s, t).value)
  {
    var n := cfg.parsers + 1;
    QuietThread(cfg.cap, w.raw, w.s.raw, n, RawCalls(w.s), t);
    if w.raw.threads[t].Outside? {
      if t > 0 {
        QuietThread(cfg.cap, w.parsed, w.s.parsed, n, ParsedCalls(w.s), t - 1);
      }
      var raw' := ArriveStep(cfg.cap, w.raw, RawCalls(w.s), t);
      assert Follows(cfg, w, RawQuiet(t, Arrive), w.(raw := raw'));
    }
  }

  lemma ParsedBlocked(cfg: M.Config, w: System, t: nat)
    requires Coupled(cfg, w) && AllQuiet(cfg, w) && t < cfg.parsers + 1 && ParsedCall(w.s, t).Some?
    ensures CanStep(cfg, w) || !MayProceed(cfg.cap, w.parsed, ParsedCall(w.s, t).value)
  {
    var n := cfg.parsers + 1;
    QuietThread(cfg.cap, w.parsed, w.s.parsed, n, ParsedCalls(w.s), t);
    if w.parsed.threads[t].Outside? {
      if t < cfg.parsers {
        QuietThread(cfg.cap, w.raw, w.s.raw, n, RawCalls(w.s), t + 1);
      } else {
        QuietThread(cfg.cap, w.enriched, w.s.enriched, 2, EnrichedCalls(w.s), 0);
      }
      var parsed' := ArriveStep(cfg.cap, w.parsed, ParsedCalls(w.s), t);
      assert Follows(cfg, w, ParsedQuiet(t, Arrive), w.(parsed := parsed'));
    }
  }

  lemma EnrichedBlocked(cfg: M.Config, w: System, t: nat)
    requires Coupled(cfg, w) && AllQuiet(cfg, w) && t < 2 && EnrichedCall(w.s, t).Some?
    ensures CanStep(cfg, w) || !MayProceed(cfg.cap, w.enriched, EnrichedCall(w.s, t).value)
  {
    QuietThread(cfg.cap, w.enriched, w.s.enriched, 2, EnrichedCalls(w.s), t);
    if w.enriched.threads[t].Outside? {
      if t == 0 {
        QuietThread(cfg.cap, w.parsed, w.s.parsed, cfg.parsers + 1, ParsedCalls(w.s), cfg.parsers);
      } else {
        QuietThread(cfg.cap, w.results, w.s.results, 2, ResultCalls(w.s), 0);
      }
      var enriched' := ArriveStep(cfg.cap, w.enriched, EnrichedCalls(w.s), t);
      assert Follows(cfg, w, EnrichedQuiet(t, Arrive), w.(enriched := enriched'));
    }
  }

  lemma ResultBlocked(cfg: M.Config, w: System, t: nat)
    requires Coupled(cfg, w) && AllQuiet(cfg, w) && t < 2 && ResultCall(w.s, t).Some?
    ensures CanStep(cfg, w) || !MayProceed(cfg.cap, w.results, ResultCall(w.s, t).value)
  {
    QuietThread(cfg.cap, w.results, w.s.results, 2, ResultCalls(w.s), t);
    if w.results.threads[t].Outside? {
      if t == 0 {
        QuietThread(cfg.cap, w.enriched, w.s.enriched, 2, EnrichedCalls(w.s), 1);
      }
      var results' := ArriveStep(cfg.cap, w.results, ResultCalls(w.s), t);
      assert Follows(cfg, w, ResultQuiet(t, Arrive), w.(results := results'));
    }
  }

  lemma OwnUnblocked(cfg: M.Config, w: System, m: M.Move)
    requires Coupled(cfg, w) && AllQuiet(cfg, w) && M.Enabled(cfg, w.s, m)
    requires m.ReadLine? || m.ReachEnd? || m.LeaveParser?
    ensures CanStep(cfg, w)
  {
    var n := cfg.parsers + 1;
    if m.LeaveParser? {
      QuietThread(cfg.cap, w.raw, w.s.raw, n, RawCalls(w.s), m.i + 1);
      QuietThread(cfg.cap, w.parsed, w.s.parsed, n, ParsedCalls(w.s), m.i);
    } else {
      QuietThread(cfg.cap, w.raw, w.s.raw, n, RawCalls(w.s), 0);
    }
    assert Follows(cfg, w, Own(m), w.(s := M.After(cfg, w.s, m)));
  }

  /** If the pipeline over atomic queues can move, then so can the program: no wakeup is missing. */
  lemma EnabledMeansStep(cfg: M.Config, w: System, m: M.Move)
    requires Coupled(cfg, w) && M.Enabled(cfg, w.s, m)
    ensures CanStep(cfg, w)
  {
    if !AllQuiet(cfg, w) {
      NotQuietSteps(cfg, w);
    } else {
      match m
      case ReadLine => OwnUnblocked(cfg, w, m);
      case ReachEnd => OwnUnblocked(cfg, w, m);
      case LeaveParser(_) => OwnUnblocked(cfg, w, m);
      case PushRaw => RawBlocked(cfg, w, 0);
      case RawRefused => RawBlocked(cfg, w, 0);
      case CloseRaw => RawBlocked(cfg, w, 0);
      case PopRaw(i) => RawBlocked(cfg, w, i + 1);
      case RawDrained(i) => RawBlocked(cfg, w, i + 1);
      case PushParsed(i) => ParsedBlocked(cfg, w, i);
      case ParsedRefused(i) => ParsedBlocked(cfg, w, i);
      case CloseParsed(i) => ParsedBlocked(cfg, w, i);
      case PopParsed => ParsedBlocked(cfg, w, cfg.parsers);
      case ParsedDrained => ParsedBlocked(cfg, w, cfg.parsers);
      case PushEnriched => EnrichedBlocked(cfg, w, 0);
      case EnrichedRefused => EnrichedBlocked(cfg, w, 0);
      case CloseEnriched => EnrichedBlocked(cfg, w, 0);
      case PopEnriched => EnrichedBlocked(cfg, w, 1);
      case EnrichedDrained(_) => EnrichedBlocked(cfg, w, 1);
      case PushResult => ResultBlocked(cfg, w, 0);
      case ResultRefused => ResultBlocked(cfg, w, 0);
      case CloseResults => ResultBlocked(cfg, w, 0);
      case PopResult => ResultBlocked(cfg, w, 1);
      case ResultsDrained => ResultBlocked(cfg, w, 1);
    }
  }

  /** Deadlock freedom down to the mutexes: when no thread can go on, spurious wakeups aside, all threads have
      been joined if and only if the output file opened or all results fit the result queue. */
  lemma WiredEndsWellExactly(cfg: M.Config, run: seq<System>, steps: seq<Step>)
    requires cfg.parsers >= 1 && Run(cfg, run, steps) && !CanStep(cfg, run[|run| - 1])
    ensures M.AllExited(run[|run| - 1].s) <==> R.Fits(cfg)
  {
    var w := run[|run| - 1];
    var states, moves := Projection(cfg, run, steps, |run| - 1);
    if C.CanMove(cfg, w.s) {
      var m :| M.Enabled(cfg, w.s, m);
      EnabledMeansStep(cfg, w, m);
    }
    R.EndsWellExactly(cfg, states, moves);
  }
}
