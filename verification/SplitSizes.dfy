/** How large the requests of the batched route are. */
module SplitSizes {
  import opened Wrappers
  import opened Streams
  import opened Stages
  import opened Handlers
  import opened SplitRoute

  /** Messages of at most `most` events come in: every request written before the feed is closed holds at least
      a batch; closing it may add one last, smaller one. */
  predicate Sized<T>(size: int, most: int, f: Feed<T>) {
    && |f.pending| < size
    && (forall i :: 0 <= i < |f.requests| ==> 1 <= |f.requests[i]| <= size - 1 + most)
    && (forall i :: 0 <= i < |f.requests| && (!f.closed || i < |f.requests| - 1) ==> size <= |f.requests[i]|)
  }

  predicate AtMost<T>(most: int, parts: seq<seq<T>>) {
    forall i :: 0 <= i < |parts| ==> |parts[i]| <= most
  }

  /** Batches grow from stage to stage, since a message is never split: b, then 2b - 1, then 3b - 2. */
  predicate Sizes(b: int, s: State) {
    && Sized(b, 1, s.parse.feed) && AtMost(b, s.parse.responses)
    && Sized(b, b, s.rules.feed) && AtMost(2 * b - 1, s.rules.responses)
    && Sized(b, 2 * b - 1, s.aggregate.feed)
  }

  lemma AcceptSized<T>(size: int, most: int, f: Feed<T>, items: seq<T>)
    requires size >= 1 && Sized(size, most, f) && !f.closed && |items| <= most
    ensures Sized(size, most, Accept(Batched(size), f, items))
  {
  }

  lemma CloseSized<T>(size: int, most: int, f: Feed<T>)
    requires size >= 1 && most >= 1 && Sized(size, most, f) && !f.closed
    ensures Sized(size, most, Close(Batched(size), f))
  {
  }

  lemma ServeSized<A, B>(f: A -> Option<B>, s: Stage<A, B>, size: int, most: int)
    requires HasRequest(s) && Sized(size, most, s.feed) && AtMost(size - 1 + most, s.responses)
    ensures AtMost(size - 1 + most, Serve(f, s).responses)
  {
  }

  /** Nothing is fed to a stage once its feed is closed. */
  predicate FeedsOpen(events: seq<Raw>, s: State) {
    && (s.arrived < |events| ==> !s.parse.feed.closed)
    && (HasResponse(s.parse) ==> !s.rules.feed.closed)
    && (HasResponse(s.rules) ==> !s.aggregate.feed.closed)
  }

  lemma InvariantOpen(cfg: Services, mode: Mode, events: seq<Raw>, s: State)
    requires Invariant(cfg, mode, events, s)
    ensures FeedsOpen(events, s)
  {
  }

  lemma StepSized(cfg: Services, b: int, events: seq<Raw>, s: State, m: Move)
    requires b >= 1 && Sizes(b, s) && Enabled(events, s, m) && FeedsOpen(events, s)
    ensures Sizes(b, After(cfg, Batched(b), events, s, m))
  {
    match m
    case Ingest => AcceptSized(b, 1, s.parse.feed, [events[s.arrived]]);
    case IngestEnds => CloseSized(b, 1, s.parse.feed);
    case ServeParse => ServeSized(Parsing(cfg), s.parse, b, 1);
    case DeliverParsed => AcceptSized(b, b, s.rules.feed, s.parse.responses[s.parse.delivered]);
    case CloseRules => CloseSized(b, b, s.rules.feed);
    case ServeRules => ServeSized(Enriching(cfg, Batched(b)), s.rules, b, b);
    case DeliverEnriched => AcceptSized(b, 2 * b - 1, s.aggregate.feed, s.rules.responses[s.rules.delivered]);
    case CloseAggregate => CloseSized(b, 2 * b - 1, s.aggregate.feed);
    case _ =>
  }

  lemma RunSized(cfg: Services, b: int, events: seq<Raw>, run: seq<State>, moves: seq<Move>, n: nat)
    requires b >= 1 && Run(cfg, Batched(b), events, run, moves) && n < |run|
    ensures Sizes(b, run[n])
  {
    var p := (s: State, k: nat) => Invariant(cfg, Batched(b), events, s) && Sizes(b, s);
    StartKeeps(cfg, Batched(b), events);
    forall s, m, k: nat ensures Survives(cfg, Batched(b), events, p, s, m, k) {
      if p(s, k) && Enabled(events, s, m) {
        InvariantOpen(cfg, Batched(b), events, s);
        StepKeeps(cfg, Batched(b), events, s, m);
        StepSized(cfg, b, events, s, m);
      }
    }
    HoldsThroughout(cfg, Batched(b), events, p, run, moves, n);
  }

  /** In every reachable state no request is empty; the parse requests hold b events, the rules requests at most
      2b - 1 and the aggregate requests at most 3b - 2, and each holds at least b but for what is flushed when
      the stage before has ended. */
  lemma BatchSizes(cfg: Services, b: int, events: seq<Raw>, run: seq<State>, moves: seq<Move>, n: nat, i: nat)
    requires b >= 1 && Run(cfg, Batched(b), events, run, moves) && n < |run|
    ensures i < |run[n].parse.feed.requests| ==> 1 <= |run[n].parse.feed.requests[i]| <= b
    ensures i < |run[n].rules.feed.requests| ==> 1 <= |run[n].rules.feed.requests[i]| <= 2 * b - 1
    ensures i < |run[n].aggregate.feed.requests| ==> 1 <= |run[n].aggregate.feed.requests[i]| <= 3 * b - 2
    ensures i < |run[n].parse.feed.requests| && (!run[n].parse.feed.closed || i < |run[n].parse.feed.requests| - 1)
            ==> |run[n].parse.feed.requests[i]| == b
    ensures i < |run[n].rules.feed.requests| && (!run[n].rules.feed.closed || i < |run[n].rules.feed.requests| - 1)
            ==> |run[n].rules.feed.requests[i]| >= b
    ensures i < |run[n].aggregate.feed.requests|
            && (!run[n].aggregate.feed.closed || i < |run[n].aggregate.feed.requests| - 1)
            ==> |run[n].aggregate.feed.requests[i]| >= b
  {
    RunSized(cfg, b, events, run, moves, n);
  }

  lemma {:induction false} EvenParts<T>(parts: seq<seq<T>>, b: int)
    requires forall i :: 0 <= i < |parts| ==> |parts[i]| == b
    ensures |Concat(parts)| == |parts| * b
  {
    if parts != [] {
      var k := |parts| - 1;
      EvenParts(parts[..k], b);
      assert |parts[k]| == b && k * b + b == (k + 1) * b;
    }
  }

  lemma MulMonotone(a: int, c: int, b: int)
    requires b >= 0
    ensures a <= c ==> a * b <= c * b
  {
    if a <= c {
      assert (c - a) * b >= 0;
    }
  }

  lemma QuotientIs(n: int, b: int, q: int)
    requires b >= 1 && q * b <= n < (q + 1) * b
    ensures n / b == q
  {
    var p := n / b;
    MulMonotone(p + 1, q, b);
    MulMonotone(q + 1, p, b);
  }

  lemma RoundedUp(k: int, b: int, rest: int)
    requires b >= 1 && 1 <= rest <= b
    ensures (k * b + rest + b - 1) / b == k + 1
  {
    QuotientIs(k * b + rest + b - 1, b, k + 1);
  }

  /** As many parse requests as batches of b are needed for the events: the quotient, rounded up. */
  lemma ParseRequests(cfg: Services, b: int, events: seq<Raw>, run: seq<State>, moves: seq<Move>)
    requires b >= 1 && Run(cfg, Batched(b), events, run, moves) && run[|run| - 1].parse.feed.closed
    ensures |run[|run| - 1].parse.feed.requests| == (|events| + b - 1) / b
  {
    var last := |run| - 1;
    var requests := run[last].parse.feed.requests;
    RunSized(cfg, b, events, run, moves, last);
    RunInvariant(cfg, Batched(b), events, run, moves, last);
    assert events[..|events|] == events;
    assert Concat(requests) + [] == Concat(requests) == events;
    if requests != [] {
      var k := |requests| - 1;
      EvenParts(requests[..k], b);
      var rest := |requests[k]|;
      assert |events| == k * b + rest && 1 <= rest <= b;
      RoundedUp(k, b, rest);
    } else {
      RoundedUp(-1, b, b);
    }
  }
}
