/** The split pipeline as it runs: the orchestrator and the three services, interleaved in any order over
    streams that deliver every message once and in order. */
module SplitRoute {
  import opened Wrappers
  import opened Streams
  import opened Stages
  import opened Handlers
  import M = Monolith

  type Raw = M.RawEvent
  type Parsed = M.ParsedEvent
  type Enriched = M.EnrichedEvent
  type Result = M.AggregateResult

  /** A stage with the streams to and from it: of the requests fed to it the first `taken` have been handled,
      of its responses the first `delivered` have reached the orchestrator. */
  datatype Stage<A, B> = Stage(feed: Feed<A>, taken: nat, responses: seq<seq<B>>, ended: bool, delivered: nat)

  /** `seen` lists the events the aggregate call has received. */
  datatype State = State(
    arrived: nat,
    parse: Stage<Raw, Parsed>,
    rules: Stage<Parsed, Enriched>,
    aggregate: Stage<Enriched, Result>,
    seen: seq<Enriched>,
    sink: seq<Result>,
    sinkEnded: bool)

  const IDLE_PARSE: Stage<Raw, Parsed> := Stage(Feed([], [], false), 0, [], false, 0)
  const IDLE_RULES: Stage<Parsed, Enriched> := Stage(Feed([], [], false), 0, [], false, 0)
  const IDLE_AGGREGATE: Stage<Enriched, Result> := Stage(Feed([], [], false), 0, [], false, 0)

  const START := State(0, IDLE_PARSE, IDLE_RULES, IDLE_AGGREGATE, [], [], false)

  predicate HasRequest<A, B>(s: Stage<A, B>) {
    s.taken < |s.feed.requests|
  }

  predicate MayEnd<A, B>(s: Stage<A, B>) {
    !s.ended && s.feed.closed && s.taken == |s.feed.requests|
  }

  predicate HasResponse<A, B>(s: Stage<A, B>) {
    s.delivered < |s.responses|
  }

  /** The stream from this stage reports its end. */
  predicate AtEnd<A, B>(s: Stage<A, B>) {
    s.ended && s.delivered == |s.responses|
  }

  /** A handler answers a request with what is left of its events, and not at all when nothing is left. */
  function Serve<A, B>(f: A -> Option<B>, s: Stage<A, B>): Stage<A, B>
    requires HasRequest(s)
  {
    var out := FilterMap(f, s.feed.requests[s.taken]);
    s.(taken := s.taken + 1, responses := if out == [] then s.responses else s.responses + [out])
  }

  function Deliver<A, B>(s: Stage<A, B>): Stage<A, B>
    requires HasResponse(s)
  {
    s.(delivered := s.delivered + 1)
  }

  datatype Move =
    | Ingest | IngestEnds
    | ServeParse | ParseEnds | DeliverParsed | CloseRules
    | ServeRules | RulesEnds | DeliverEnriched | CloseAggregate
    | ServeAggregate | AggregateEnds | DeliverResults | CloseSink

  predicate Enabled(events: seq<Raw>, s: State, m: Move) {
    match m
    case Ingest => s.arrived < |events|
    case IngestEnds => s.arrived >= |events| && !s.parse.feed.closed
    case ServeParse => HasRequest(s.parse)
    case ParseEnds => MayEnd(s.parse)
    case DeliverParsed => HasResponse(s.parse)
    case CloseRules => AtEnd(s.parse) && !s.rules.feed.closed
    case ServeRules => HasRequest(s.rules)
    case RulesEnds => MayEnd(s.rules)
    case DeliverEnriched => HasResponse(s.rules)
    case CloseAggregate => AtEnd(s.rules) && !s.aggregate.feed.closed
    case ServeAggregate => HasRequest(s.aggregate)
    case AggregateEnds => MayEnd(s.aggregate)
    case DeliverResults => HasResponse(s.aggregate)
    case CloseSink => AtEnd(s.aggregate) && !s.sinkEnded
  }

  /** What the single or the batch handler of the aggregate service sends at the end of its call. */
  function Responses(cfg: Services, mode: Mode, seen: seq<Enriched>): seq<seq<Result>> {
    if mode.Direct? then Singles(Answer(cfg, mode, seen)) else [Answer(cfg, mode, seen)]
  }

  /** A message from one stage goes on to the next. */
  function Forward<A, B, C>(mode: Mode, from: Stage<A, B>, to: Stage<B, C>): Stage<B, C>
    requires HasResponse(from)
  {
    to.(feed := Accept(mode, to.feed, from.responses[from.delivered]))
  }

  function Shut<A, B>(mode: Mode, s: Stage<A, B>): Stage<A, B> {
    s.(feed := Close(mode, s.feed))
  }

  function Take(a: Stage<Enriched, Result>): Stage<Enriched, Result> {
    a.(taken := a.taken + 1)
  }

  function Finish(cfg: Services, mode: Mode, a: Stage<Enriched, Result>, seen: seq<Enriched>): Stage<Enriched, Result> {
    a.(ended := true, responses := Responses(cfg, mode, seen))
  }

  function After(cfg: Services, mode: Mode, events: seq<Raw>, s: State, m: Move): State
    requires Enabled(events, s, m)
  {
    match m
    case Ingest =>
      s.(arrived := s.arrived + 1, parse := s.parse.(feed := Accept(mode, s.parse.feed, [events[s.arrived]])))
    case IngestEnds => s.(parse := Shut(mode, s.parse))
    case ServeParse => s.(parse := Serve(Parsing(cfg), s.parse))
    case ParseEnds => s.(parse := s.parse.(ended := true))
    case DeliverParsed => s.(parse := Deliver(s.parse), rules := Forward(mode, s.parse, s.rules))
    case CloseRules => s.(rules := Shut(mode, s.rules))
    case ServeRules => s.(rules := Serve(Enriching(cfg, mode), s.rules))
    case RulesEnds => s.(rules := s.rules.(ended := true))
    case DeliverEnriched => s.(rules := Deliver(s.rules), aggregate := Forward(mode, s.rules, s.aggregate))
    case CloseAggregate => s.(aggregate := Shut(mode, s.aggregate))
    case ServeAggregate => s.(aggregate := Take(s.aggregate), seen :=
      s.seen + s.aggregate.feed.requests[s.aggregate.taken])
    case AggregateEnds => s.(aggregate := Finish(cfg, mode, s.aggregate, s.seen))
    case DeliverResults =>
      s.(aggregate := Deliver(s.aggregate), sink := s.sink + s.aggregate.responses[s.aggregate.delivered])
    case CloseSink => s.(sinkEnded := true)
  }

  ghost predicate Linked(cfg: Services, mode: Mode, events: seq<Raw>, run: seq<State>, moves: seq<Move>, i: nat)
    requires i < |moves| && i + 1 < |run|
  {
    Enabled(events, run[i], moves[i]) && run[i + 1] == After(cfg, mode, events, run[i], moves[i])
  }

  /** Any interleaving, for the events `events` streamed by the ingest service. */
  ghost predicate Run(cfg: Services, mode: Mode, events: seq<Raw>, run: seq<State>, moves: seq<Move>) {
    && |run| == |moves| + 1
    && run[0] == START
    && forall i :: 0 <= i < |moves| ==> Linked(cfg, mode, events, run, moves, i)
  }

  // ----- what every stage keeps, whatever the cuts and the interleaving -----

  predicate Filled<T>(parts: seq<seq<T>>) {
    forall i :: 0 <= i < |parts| ==> parts[i] != []
  }

  ghost predicate FeedOk<T>(mode: Mode, f: Feed<T>, input: seq<T>) {
    && Concat(f.requests) + f.pending == input
    && (f.closed || mode.Direct? ==> f.pending == [])
    && Filled(f.requests)
  }

  /** A stage that has been given `input` so far. */
  ghost predicate StageOk<A, B>(mode: Mode, f: A -> Option<B>, s: Stage<A, B>, input: seq<A>) {
    && FeedOk(mode, s.feed, input)
    && s.taken <= |s.feed.requests|
    && s.delivered <= |s.responses|
    && (s.ended ==> s.feed.closed && s.taken == |s.feed.requests|)
    && Concat(s.responses) == FilterMap(f, Concat(s.feed.requests[..s.taken]))
    && Filled(s.responses)
  }

  function Delivered<A, B>(s: Stage<A, B>): seq<B>
    requires s.delivered <= |s.responses|
  {
    Concat(s.responses[..s.delivered])
  }

  /** One more request keeps a feed in order. */
  lemma WriteKeeps<T>(mode: Mode, f: Feed<T>, part: seq<T>, input: seq<T>)
    requires Filled(f.requests) && part != [] && Concat(f.requests) + part == input && !f.closed
    ensures FeedOk(mode, Feed([], f.requests + [part], false), input)
  {
    ConcatOne(f.requests, part);
    assert Concat(f.requests + [part]) + [] == input;
  }

  lemma AcceptKeeps<T>(mode: Mode, f: Feed<T>, input: seq<T>, items: seq<T>)
    requires FeedOk(mode, f, input) && !f.closed && items != []
    ensures FeedOk(mode, Accept(mode, f, items), input + items)
    ensures !Accept(mode, f, items).closed && f.requests <= Accept(mode, f, items).requests
  {
    if mode.Direct? {
      assert Concat(f.requests) + items == input + items;
      WriteKeeps(mode, f, items, input + items);
    } else {
      assert Concat(f.requests) + (f.pending + items) == input + items;
      assert f.pending + items != [];
      WriteKeeps(mode, f, f.pending + items, input + items);
    }
  }

  lemma CloseKeeps<T>(mode: Mode, f: Feed<T>, input: seq<T>)
    requires FeedOk(mode, f, input)
    ensures FeedOk(mode, Close(mode, f), input)
    ensures Close(mode, f).closed && f.requests <= Close(mode, f).requests
  {
    ConcatOne(f.requests, f.pending);
  }

  /** More requests at the end do not disturb what has been handled. */
  lemma FeedGrows<A, B>(mode: Mode, f: A -> Option<B>, s: Stage<A, B>, input: seq<A>, feed: Feed<A>, input': seq<A>)
    requires StageOk(mode, f, s, input) && !s.feed.closed
    requires FeedOk(mode, feed, input') && s.feed.requests <= feed.requests
    ensures StageOk(mode, f, s.(feed := feed), input')
  {
    assert feed.requests[..s.taken] == s.feed.requests[..s.taken];
  }

  lemma TakeOne<T>(parts: seq<seq<T>>, n: nat)
    requires n < |parts|
    ensures Concat(parts[..n + 1]) == Concat(parts[..n]) + parts[n]
  {
    assert parts[..n + 1] == parts[..n] + [parts[n]];
    ConcatOne(parts[..n], parts[n]);
  }

  lemma ServeKeeps<A, B>(mode: Mode, f: A -> Option<B>, s: Stage<A, B>, input: seq<A>)
    requires StageOk(mode, f, s, input) && HasRequest(s)
    ensures StageOk(mode, f, Serve(f, s), input)
    ensures Delivered(Serve(f, s)) == Delivered(s)
  {
    var request := s.feed.requests[s.taken];
    TakeOne(s.feed.requests, s.taken);
    FilterMapSplit(f, Concat(s.feed.requests[..s.taken]), request);
    ConcatOne(s.responses, FilterMap(f, request));
    assert Serve(f, s).responses[..s.delivered] == s.responses[..s.delivered];
  }

  /** A stage that has reported its end has passed on all it was given. */
  lemma AtEndMeansAll<A, B>(mode: Mode, f: A -> Option<B>, s: Stage<A, B>, input: seq<A>)
    requires StageOk(mode, f, s, input) && AtEnd(s)
    ensures Delivered(s) == FilterMap(f, input)
  {
    assert s.responses[..s.delivered] == s.responses;
    assert s.feed.requests[..s.taken] == s.feed.requests;
    assert Concat(s.feed.requests) + [] == Concat(s.feed.requests);
  }

  // ----- the whole pipeline -----

  ghost predicate ParseOk(cfg: Services, mode: Mode, events: seq<Raw>, arrived: nat, parse: Stage<Raw, Parsed>) {
    && arrived <= |events|
    && StageOk(mode, Parsing(cfg), parse, events[..arrived])
    && (parse.feed.closed ==> arrived == |events|)
  }

  ghost predicate RulesOk(cfg: Services, mode: Mode, parse: Stage<Raw, Parsed>, rules: Stage<Parsed, Enriched>)
    requires parse.delivered <= |parse.responses|
  {
    && StageOk(mode, Enriching(cfg, mode), rules, Delivered(parse))
    && (rules.feed.closed ==> AtEnd(parse))
  }

  /** The aggregate stage has been given `input` so far and has taken `seen`. */
  ghost predicate CallOk(cfg: Services, mode: Mode, a: Stage<Enriched, Result>, seen: seq<Enriched>,
                         input: seq<Enriched>) {
    && FeedOk(mode, a.feed, input)
    && a.taken <= |a.feed.requests|
    && seen == Concat(a.feed.requests[..a.taken])
    && (a.ended ==> a.feed.closed && a.taken == |a.feed.requests|)
    && a.responses == (if a.ended then Responses(cfg, mode, seen) else [])
  }

  ghost predicate AggregateOk(cfg: Services, mode: Mode, rules: Stage<Parsed, Enriched>,
                              aggregate: Stage<Enriched, Result>, seen: seq<Enriched>)
    requires rules.delivered <= |rules.responses|
  {
    && CallOk(cfg, mode, aggregate, seen, Delivered(rules))
    && (aggregate.feed.closed ==> AtEnd(rules))
  }

  ghost predicate SinkOk(aggregate: Stage<Enriched, Result>, sink: seq<Result>, sinkEnded: bool) {
    && aggregate.delivered <= |aggregate.responses|
    && sink == Delivered(aggregate)
    && (sinkEnded ==> AtEnd(aggregate))
  }

  ghost predicate Invariant(cfg: Services, mode: Mode, events: seq<Raw>, s: State) {
    && ParseOk(cfg, mode, events, s.arrived, s.parse)
    && RulesOk(cfg, mode, s.parse, s.rules)
    && AggregateOk(cfg, mode, s.rules, s.aggregate, s.seen)
    && SinkOk(s.aggregate, s.sink, s.sinkEnded)
  }

  lemma ParseAccepts(cfg: Services, mode: Mode, events: seq<Raw>, arrived: nat, parse: Stage<Raw, Parsed>)
    requires arrived < |events| && ParseOk(cfg, mode, events, arrived, parse)
    ensures ParseOk(cfg, mode, events, arrived + 1, parse.(feed := Accept(mode, parse.feed, [events[arrived]])))
  {
    var x := events[arrived];
    AcceptKeeps(mode, parse.feed, events[..arrived], [x]);
    assert events[..arrived + 1] == events[..arrived] + [x];
    FeedGrows(mode, Parsing(cfg), parse, events[..arrived], Accept(mode, parse.feed, [x]), events[..arrived + 1]);
  }

  lemma ParseShuts(cfg: Services, mode: Mode, events: seq<Raw>, parse: Stage<Raw, Parsed>)
    requires ParseOk(cfg, mode, events, |events|, parse) && !parse.feed.closed
    ensures ParseOk(cfg, mode, events, |events|, Shut(mode, parse))
  {
    CloseKeeps(mode, parse.feed, events[..|events|]);
    FeedGrows(mode, Parsing(cfg), parse, events[..|events|], Close(mode, parse.feed), events[..|events|]);
  }

  lemma RulesFramed(cfg: Services, mode: Mode, parse: Stage<Raw, Parsed>, feed: Feed<Raw>,
                    rules: Stage<Parsed, Enriched>)
    requires parse.delivered <= |parse.responses| && RulesOk(cfg, mode, parse, rules)
    ensures RulesOk(cfg, mode, parse.(feed := feed), rules)
  {
  }

  lemma LaterStagesFramed(cfg: Services, mode: Mode, s: State, s': State)
    requires s.rules.delivered <= |s.rules.responses| && s'.rules == s.rules
    requires AggregateOk(cfg, mode, s.rules, s.aggregate, s.seen) && SinkOk(s.aggregate, s.sink, s.sinkEnded)
    requires s'.aggregate == s.aggregate && s'.seen == s.seen && s'.sink == s.sink && s'.sinkEnded == s.sinkEnded
    ensures AggregateOk(cfg, mode, s'.rules, s'.aggregate, s'.seen) && SinkOk(s'.aggregate, s'.sink, s'.sinkEnded)
  {
  }

  /** Feeding the parse stage leaves the later stages alone. */
  lemma FedParse(cfg: Services, mode: Mode, events: seq<Raw>, s: State, arrived: nat, feed: Feed<Raw>)
    requires Invariant(cfg, mode, events, s) && ParseOk(cfg, mode, events, arrived, s.parse.(feed := feed))
    ensures Invariant(cfg, mode, events, s.(arrived := arrived, parse := s.parse.(feed := feed)))
  {
    RulesFramed(cfg, mode, s.parse, feed, s.rules);
    LaterStagesFramed(cfg, mode, s, s.(arrived := arrived, parse := s.parse.(feed := feed)));
  }

  lemma IngestKeeps(cfg: Services, mode: Mode, events: seq<Raw>, s: State)
    requires Invariant(cfg, mode, events, s) && Enabled(events, s, Ingest)
    ensures Invariant(cfg, mode, events, After(cfg, mode, events, s, Ingest))
  {
    ParseAccepts(cfg, mode, events, s.arrived, s.parse);
    FedParse(cfg, mode, events, s, s.arrived + 1, Accept(mode, s.parse.feed, [events[s.arrived]]));
  }

  lemma IngestEndsKeeps(cfg: Services, mode: Mode, events: seq<Raw>, s: State)
    requires Invariant(cfg, mode, events, s) && Enabled(events, s, IngestEnds)
    ensures Invariant(cfg, mode, events, After(cfg, mode, events, s, IngestEnds))
  {
    ParseShuts(cfg, mode, events, s.parse);
    FedParse(cfg, mode, events, s, s.arrived, Close(mode, s.parse.feed));
  }

  lemma ParseMovesKeep(cfg: Services, mode: Mode, events: seq<Raw>, s: State, m: Move)
    requires Invariant(cfg, mode, events, s) && Enabled(events, s, m)
    requires m in {ServeParse, ParseEnds}
    ensures Invariant(cfg, mode, events, After(cfg, mode, events, s, m))
  {
    if m == ServeParse {
      ServeKeeps(mode, Parsing(cfg), s.parse, events[..s.arrived]);
    }
  }

  lemma DeliverKeepsStage<A, B>(mode: Mode, f: A -> Option<B>, s: Stage<A, B>, input: seq<A>)
    requires StageOk(mode, f, s, input) && HasResponse(s)
    ensures StageOk(mode, f, Deliver(s), input)
  {
  }

  lemma RulesFed(cfg: Services, mode: Mode, parse: Stage<Raw, Parsed>, rules: Stage<Parsed, Enriched>)
    requires HasResponse(parse) && Filled(parse.responses) && RulesOk(cfg, mode, parse, rules)
    ensures RulesOk(cfg, mode, Deliver(parse), Forward(mode, parse, rules))
  {
    var input, items := Delivered(parse), parse.responses[parse.delivered];
    TakeOne(parse.responses, parse.delivered);
    AcceptKeeps(mode, rules.feed, input, items);
    FeedGrows(mode, Enriching(cfg, mode), rules, input, Accept(mode, rules.feed, items), input + items);
  }

  lemma AggregateFramed(cfg: Services, mode: Mode, rules: Stage<Parsed, Enriched>, feed: Feed<Parsed>,
                        aggregate: Stage<Enriched, Result>, seen: seq<Enriched>)
    requires rules.delivered <= |rules.responses| && AggregateOk(cfg, mode, rules, aggregate, seen)
    ensures AggregateOk(cfg, mode, rules.(feed := feed), aggregate, seen)
  {
  }

  lemma DeliverParsedKeeps(cfg: Services, mode: Mode, events: seq<Raw>, s: State)
    requires Invariant(cfg, mode, events, s) && Enabled(events, s, DeliverParsed)
    ensures Invariant(cfg, mode, events, After(cfg, mode, events, s, DeliverParsed))
  {
    RulesFed(cfg, mode, s.parse, s.rules);
    DeliverKeepsStage(mode, Parsing(cfg), s.parse, events[..s.arrived]);
    AggregateFramed(cfg, mode, s.rules, Forward(mode, s.parse, s.rules).feed, s.aggregate, s.seen);
  }

  lemma CloseRulesKeeps(cfg: Services, mode: Mode, events: seq<Raw>, s: State)
    requires Invariant(cfg, mode, events, s) && Enabled(events, s, CloseRules)
    ensures Invariant(cfg, mode, events, After(cfg, mode, events, s, CloseRules))
  {
    var input := Delivered(s.parse);
    CloseKeeps(mode, s.rules.feed, input);
    FeedGrows(mode, Enriching(cfg, mode), s.rules, input, Close(mode, s.rules.feed), input);
  }

  lemma RulesMovesKeep(cfg: Services, mode: Mode, events: seq<Raw>, s: State, m: Move)
    requires Invariant(cfg, mode, events, s) && Enabled(events, s, m)
    requires m in {ServeRules, RulesEnds}
    ensures Invariant(cfg, mode, events, After(cfg, mode, events, s, m))
  {
    if m == ServeRules {
      ServeKeeps(mode, Enriching(cfg, mode), s.rules, Delivered(s.parse));
    }
  }

  lemma CallFeedGrows(cfg: Services, mode: Mode, a: Stage<Enriched, Result>, seen: seq<Enriched>, input: seq<Enriched>,
                      feed: Feed<Enriched>, input': seq<Enriched>)
    requires CallOk(cfg, mode, a, seen, input) && !a.feed.closed
    requires FeedOk(mode, feed, input') && a.feed.requests <= feed.requests
    ensures CallOk(cfg, mode, a.(feed := feed), seen, input')
  {
    assert feed.requests[..a.taken] == a.feed.requests[..a.taken];
  }

  lemma CallAccepts(cfg: Services, mode: Mode, a: Stage<Enriched, Result>, seen: seq<Enriched>, input: seq<Enriched>,
                    items: seq<Enriched>)
    requires CallOk(cfg, mode, a, seen, input) && !a.feed.closed && items != []
    ensures CallOk(cfg, mode, a.(feed := Accept(mode, a.feed, items)), seen, input + items)
    ensures !Accept(mode, a.feed, items).closed
  {
    AcceptKeeps(mode, a.feed, input, items);
    CallFeedGrows(cfg, mode, a, seen, input, Accept(mode, a.feed, items), input + items);
  }

  lemma FedKeeps(cfg: Services, mode: Mode, rules: Stage<Parsed, Enriched>, a: Stage<Enriched, Result>,
                 seen: seq<Enriched>)
    requires HasResponse(rules) && Filled(rules.responses) && AggregateOk(cfg, mode, rules, a, seen)
    ensures AggregateOk(cfg, mode, Deliver(rules), Forward(mode, rules, a), seen)
  {
    TakeOne(rules.responses, rules.delivered);
    CallAccepts(cfg, mode, a, seen, Delivered(rules), rules.responses[rules.delivered]);
  }

  lemma SinkFramed(a: Stage<Enriched, Result>, feed: Feed<Enriched>, sink: seq<Result>, sinkEnded: bool)
    requires SinkOk(a, sink, sinkEnded)
    ensures SinkOk(a.(feed := feed), sink, sinkEnded)
  {
  }

  lemma DeliverEnrichedKeeps(cfg: Services, mode: Mode, events: seq<Raw>, s: State)
    requires Invariant(cfg, mode, events, s) && Enabled(events, s, DeliverEnriched)
    ensures Invariant(cfg, mode, events, After(cfg, mode, events, s, DeliverEnriched))
  {
    FedKeeps(cfg, mode, s.rules, s.aggregate, s.seen);
    SinkFramed(s.aggregate, Forward(mode, s.rules, s.aggregate).feed, s.sink, s.sinkEnded);
    DeliverKeepsStage(mode, Enriching(cfg, mode), s.rules, Delivered(s.parse));
  }

  lemma ShutKeeps(cfg: Services, mode: Mode, rules: Stage<Parsed, Enriched>, a: Stage<Enriched, Result>,
                  seen: seq<Enriched>,
                  sink: seq<Result>, sinkEnded: bool)
    requires rules.delivered <= |rules.responses| && AggregateOk(cfg, mode, rules, a, seen)
    requires AtEnd(rules) && !a.feed.closed && SinkOk(a, sink, sinkEnded)
    ensures AggregateOk(cfg, mode, rules, Shut(mode, a), seen) && SinkOk(Shut(mode, a), sink, sinkEnded)
  {
    var input := Delivered(rules);
    CloseKeeps(mode, a.feed, input);
    CallFeedGrows(cfg, mode, a, seen, input, Close(mode, a.feed), input);
  }

  lemma CloseAggregateKeeps(cfg: Services, mode: Mode, events: seq<Raw>, s: State)
    requires Invariant(cfg, mode, events, s) && Enabled(events, s, CloseAggregate)
    ensures Invariant(cfg, mode, events, After(cfg, mode, events, s, CloseAggregate))
  {
    ShutKeeps(cfg, mode, s.rules, s.aggregate, s.seen, s.sink, s.sinkEnded);
  }

  lemma TakeKeeps(cfg: Services, mode: Mode, rules: Stage<Parsed, Enriched>, a: Stage<Enriched, Result>,
                  seen: seq<Enriched>,
                  sink: seq<Result>, sinkEnded: bool)
    requires rules.delivered <= |rules.responses| && AggregateOk(cfg, mode, rules, a, seen) && HasRequest(a)
    requires SinkOk(a, sink, sinkEnded)
    ensures AggregateOk(cfg, mode, rules, Take(a), seen + a.feed.requests[a.taken]) && SinkOk(Take(a), sink, sinkEnded)
  {
    TakeOne(a.feed.requests, a.taken);
  }

  lemma ServeAggregateKeeps(cfg: Services, mode: Mode, events: seq<Raw>, s: State)
    requires Invariant(cfg, mode, events, s) && Enabled(events, s, ServeAggregate)
    ensures Invariant(cfg, mode, events, After(cfg, mode, events, s, ServeAggregate))
  {
    TakeKeeps(cfg, mode, s.rules, s.aggregate, s.seen, s.sink, s.sinkEnded);
  }

  lemma EndKeeps(cfg: Services, mode: Mode, a: Stage<Enriched, Result>, seen: seq<Enriched>, input: seq<Enriched>,
                 sink: seq<Result>)
    requires CallOk(cfg, mode, a, seen, input) && MayEnd(a) && SinkOk(a, sink, false)
    ensures CallOk(cfg, mode, Finish(cfg, mode, a, seen), seen, input)
    ensures SinkOk(Finish(cfg, mode, a, seen), sink, false)
  {
    assert a.delivered == 0;
    assert a.responses[..0] == Responses(cfg, mode, seen)[..0] == [];
  }

  lemma AggregateEndsKeeps(cfg: Services, mode: Mode, events: seq<Raw>, s: State)
    requires Invariant(cfg, mode, events, s) && Enabled(events, s, AggregateEnds)
    ensures Invariant(cfg, mode, events, After(cfg, mode, events, s, AggregateEnds))
  {
    EndKeeps(cfg, mode, s.aggregate, s.seen, Delivered(s.rules), s.sink);
  }

  lemma SinkKeeps(cfg: Services, mode: Mode, rules: Stage<Parsed, Enriched>, a: Stage<Enriched, Result>,
                  seen: seq<Enriched>,
                  sink: seq<Result>, sinkEnded: bool)
    requires rules.delivered <= |rules.responses|
    requires AggregateOk(cfg, mode, rules, a, seen) && HasResponse(a) && SinkOk(a, sink, sinkEnded)
    ensures AggregateOk(cfg, mode, rules, Deliver(a), seen)
    ensures SinkOk(Deliver(a), sink + a.responses[a.delivered], sinkEnded)
  {
    TakeOne(a.responses, a.delivered);
  }

  lemma DeliverResultsKeeps(cfg: Services, mode: Mode, events: seq<Raw>, s: State)
    requires Invariant(cfg, mode, events, s) && Enabled(events, s, DeliverResults)
    ensures Invariant(cfg, mode, events, After(cfg, mode, events, s, DeliverResults))
  {
    SinkKeeps(cfg, mode, s.rules, s.aggregate, s.seen, s.sink, s.sinkEnded);
  }

  lemma CloseSinkKeeps(cfg: Services, mode: Mode, events: seq<Raw>, s: State)
    requires Invariant(cfg, mode, events, s) && Enabled(events, s, CloseSink)
    ensures Invariant(cfg, mode, events, After(cfg, mode, events, s, CloseSink))
  {
    assert SinkOk(s.aggregate, s.sink, true);
  }

  /** Every step keeps the invariant. */
  lemma StepKeeps(cfg: Services, mode: Mode, events: seq<Raw>, s: State, m: Move)
    requires Invariant(cfg, mode, events, s) && Enabled(events, s, m)
    ensures Invariant(cfg, mode, events, After(cfg, mode, events, s, m))
  {
    if m == Ingest {
      IngestKeeps(cfg, mode, events, s);
    } else if m == IngestEnds {
      IngestEndsKeeps(cfg, mode, events, s);
    } else if m in {ServeParse, ParseEnds} {
      ParseMovesKeep(cfg, mode, events, s, m);
    } else if m == DeliverParsed {
      DeliverParsedKeeps(cfg, mode, events, s);
    } else if m == CloseRules {
      CloseRulesKeeps(cfg, mode, events, s);
    } else if m in {ServeRules, RulesEnds} {
      RulesMovesKeep(cfg, mode, events, s, m);
    } else if m == DeliverEnriched {
      DeliverEnrichedKeeps(cfg, mode, events, s);
    } else if m == CloseAggregate {
      CloseAggregateKeeps(cfg, mode, events, s);
    } else if m == ServeAggregate {
      ServeAggregateKeeps(cfg, mode, events, s);
    } else if m == AggregateEnds {
      AggregateEndsKeeps(cfg, mode, events, s);
    } else if m == DeliverResults {
      DeliverResultsKeeps(cfg, mode, events, s);
    } else {
      CloseSinkKeeps(cfg, mode, events, s);
    }
  }

  /** `p` is a property of a state and the number of moves made so far. */
  ghost predicate Survives(cfg: Services, mode: Mode, events: seq<Raw>, p: (State, nat) -> bool, s: State, m: Move,
                           n: nat) {
    p(s, n) && Enabled(events, s, m) ==> p(After(cfg, mode, events, s, m), n + 1)
  }

  ghost predicate Inductive(cfg: Services, mode: Mode, events: seq<Raw>, p: (State, nat) -> bool) {
    p(START, 0) && forall s, m, n: nat :: Survives(cfg, mode, events, p, s, m, n)
  }

  lemma {:induction false} HoldsThroughout(cfg: Services, mode: Mode, events: seq<Raw>, p: (State, nat) -> bool,
                                           run: seq<State>, moves: seq<Move>, n: nat)
    requires Inductive(cfg, mode, events, p) && Run(cfg, mode, events, run, moves) && n < |run|
    ensures p(run[n], n)
    decreases n
  {
    if n > 0 {
      HoldsThroughout(cfg, mode, events, p, run, moves, n - 1);
      assert Linked(cfg, mode, events, run, moves, n - 1);
      assert Survives(cfg, mode, events, p, run[n - 1], moves[n - 1], n - 1);
    }
  }

  lemma StartKeeps(cfg: Services, mode: Mode, events: seq<Raw>)
    ensures Invariant(cfg, mode, events, START)
  {
    assert events[..0] == [];
  }

  lemma RunInvariant(cfg: Services, mode: Mode, events: seq<Raw>, run: seq<State>, moves: seq<Move>, n: nat)
    requires Run(cfg, mode, events, run, moves) && n < |run|
    ensures Invariant(cfg, mode, events, run[n])
  {
    var p := (s: State, k: nat) => Invariant(cfg, mode, events, s);
    StartKeeps(cfg, mode, events);
    forall s, m, k: nat ensures Survives(cfg, mode, events, p, s, m, k) {
      if Invariant(cfg, mode, events, s) && Enabled(events, s, m) {
        StepKeeps(cfg, mode, events, s, m);
      }
    }
    HoldsThroughout(cfg, mode, events, p, run, moves, n);
  }

  lemma ConcatResponses(cfg: Services, mode: Mode, seen: seq<Enriched>)
    ensures Concat(Responses(cfg, mode, seen)) == Answer(cfg, mode, seen)
  {
    if mode.Direct? {
      ConcatSingles(Answer(cfg, mode, seen));
    } else {
      ConcatOne([], Answer(cfg, mode, seen));
    }
  }

  /** Once the sink has been told of the end, the aggregate service has seen all there was. */
  lemma AllSeen(cfg: Services, mode: Mode, events: seq<Raw>, s: State)
    requires Invariant(cfg, mode, events, s) && AtEnd(s.aggregate)
    ensures s.seen == Stages.Enriched(cfg, mode, events)
  {
    assert s.aggregate.feed.requests[..s.aggregate.taken] == s.aggregate.feed.requests;
    assert Concat(s.aggregate.feed.requests) + [] == Concat(s.aggregate.feed.requests);
    assert events[..|events|] == events;
    AtEndMeansAll(mode, Parsing(cfg), s.parse, events);
    AtEndMeansAll(mode, Enriching(cfg, mode), s.rules, Delivered(s.parse));
  }

  /** However the stages are interleaved and the stream is cut, what reaches the sink is each stage applied to
      the whole list of events. */
  lemma CutsMakeNoDifference(cfg: Services, mode: Mode, events: seq<Raw>, run: seq<State>, moves: seq<Move>)
    requires Run(cfg, mode, events, run, moves) && run[|run| - 1].sinkEnded
    ensures run[|run| - 1].sink == Answer(cfg, mode, Stages.Enriched(cfg, mode, events))
  {
    var s := run[|run| - 1];
    RunInvariant(cfg, mode, events, run, moves, |run| - 1);
    assert s.seen == Stages.Enriched(cfg, mode, events) by {
      AllSeen(cfg, mode, events, s);
    }
    assert s.aggregate.responses[..s.aggregate.delivered] == s.aggregate.responses;
    ConcatResponses(cfg, mode, s.seen);
  }
}
