/** What holds of the reporter between any two steps. */
module ReporterInvariant {
  import opened Wrappers
  import opened Topology
  import opened Reporting

  /** Before shutdown: at most one registration call is in flight, and none while registered; the retry loop
      waits for that call or for its timer. */
  predicate Alive(registered: bool, c: Control) {
    && c.pending == (if c.inFlight.Some? then {c.inFlight.value} else {})
    && (registered ==> c.inFlight.None?)
    && (c.reconnecting <==> c.loop != NotRunning)
    && (c.loop.Awaiting? ==> c.inFlight == Some(c.loop.call))
    && (c.loop != NotRunning ==> c.autoReconnect)
  }

  /** From shutdown on: not registered, and no new loop. */
  predicate Down(registered: bool, c: Control) {
    && !registered
    && !c.autoReconnect && !c.reconnecting
    && (c.inFlight.Some? ==> c.inFlight.value in c.pending)
  }

  predicate ControlOk(registered: bool, c: Control) {
    && (if c.isShuttingDown then Down(registered, c) else Alive(registered, c))
    && (forall call :: call in c.pending ==> call < c.nextCall)
    && (c.loop.Awaiting? ==> c.loop.call in c.pending)
    && (c.loop.Sleeping? ==> 1000 <= c.loop.ms <= 15000)
    && c.retryAttempt <= 10
  }

  /** Streams are open only while registered; shutdown leaves nothing open. */
  predicate ConnectionOk(c: Connection, isShuttingDown: bool) {
    && (c.heartbeatStream ==> IsRegistered(c))
    && (isShuttingDown ==> c == DISCONNECTED)
  }

  predicate Invariant(r: Reporter) {
    ControlOk(IsRegistered(r.connection), r.control) && ConnectionOk(r.connection, r.control.isShuttingDown)
  }

  lemma {:induction false} Pow2Positive(n: nat)
    ensures Pow2(n) >= 1
  {
    if n > 0 { Pow2Positive(n - 1); }
  }

  lemma TurnKeeps(registered: bool, c: Control)
    requires ControlOk(registered, c)
    ensures ControlOk(registered, BeginRegister(registered, c).0.control)
    ensures c.loop.Sleeping? ==> ControlOk(registered, LoopTurn(registered, c).control)
    ensures ControlOk(registered, TriggerReconnect(registered, c).control)
    ensures TriggerReconnect(registered, c).control.isShuttingDown == c.isShuttingDown
  {
  }

  lemma StreamGoneKeeps(r: Reporter)
    requires Invariant(r)
    ensures Invariant(StreamGone(r).reporter)
  {
    assert ControlOk(false, r.control);
    TurnKeeps(false, r.control);
  }

  /** What a handle leaves behind. */
  lemma ConnectedShape(r: Reporter, h: Handle, throws: bool)
    requires !r.control.isShuttingDown && !r.connection.heartbeatStream
    ensures
      var s := Connected(r, h, throws).reporter;
      var dropped := throws && r.control.autoReconnect;
      && (IsRegistered(s.connection) <==> h.serviceId != "" && !dropped)
      && (s.connection.heartbeatStream ==> IsRegistered(s.connection))
      && s.control == if h.serviceId != "" && dropped then TriggerReconnect(false, r.control).control else r.control
  {
  }

  lemma SettleKeeps(registered: bool, c: Control, call: nat)
    requires !c.isShuttingDown && c.pending == {} && c.inFlight == Some(call)
    requires c.reconnecting <==> c.loop != NotRunning
    requires c.loop.Awaiting? ==> c.loop == Awaiting(call)
    requires c.loop != NotRunning ==> c.autoReconnect
    requires (c.loop.Sleeping? ==> 1000 <= c.loop.ms <= 15000) && c.retryAttempt <= 10
    ensures ControlOk(registered, Settled(c, call, true)) && !Settled(c, call, true).isShuttingDown
  {
  }

  /** A response to `call`, which is the one in flight, leaves nothing pending and nobody waiting. */
  lemma ResponseKeeps(r: Reporter, call: nat, handle: Option<Handle>, throws: bool)
    requires Invariant(r) && call in r.control.pending && !r.control.isShuttingDown && handle.Some?
    ensures Invariant(Answered(r, call, handle, throws).reporter)
  {
    assert r.control.inFlight == Some(call) && !IsRegistered(r.connection);
    var s := Connected(Received(r, call), handle.value, throws).reporter;
    ConnectedShape(Received(r, call), handle.value, throws);
    SettleKeeps(IsRegistered(s.connection), s.control, call);
  }

  lemma FailureKeeps(r: Reporter, call: nat)
    requires Invariant(r) && call in r.control.pending
    ensures Invariant(Settle(Outcome(Received(r, call), []), call, false).reporter)
  {
    Pow2Positive(r.control.retryAttempt);
  }

  lemma StepKeepsInvariant(r: Reporter, e: Event)
    requires Invariant(r) && Possible(r, e)
    ensures Invariant(Next(r, e).reporter)
  {
    match e
    case Register => TurnKeeps(IsRegistered(r.connection), r.control);
    case Start =>
      if !r.control.autoReconnect && !r.control.isShuttingDown {
        TurnKeeps(IsRegistered(r.connection), r.control.(autoReconnect := true));
      }
    case Shutdown =>
    case SetHealth(_) =>
    case ReportActivity(_, _) => StreamGoneKeeps(r);
    case HeartbeatDue(_) =>
      if !r.control.isShuttingDown {
        StreamGoneKeeps(r.(connection := r.connection.(heartbeatSeq := r.connection.heartbeatSeq + 1)));
      }
    case Responded(call, handle, throws) =>
      if r.control.isShuttingDown || handle.None? {
        FailureKeeps(r, call);
      } else {
        ResponseKeeps(r, call, handle, throws);
      }
    case Refused(call) => FailureKeeps(r, call);
    case Woke => TurnKeeps(IsRegistered(r.connection), r.control);
    case StreamFailed => StreamGoneKeeps(r);
  }

  lemma {:induction false} RunInvariant(run: seq<Reporter>, events: seq<Event>, n: nat)
    requires Run(run, events) && n < |run|
    ensures Invariant(run[n])
    decreases n
  {
    if n > 0 {
      RunInvariant(run, events, n - 1);
      assert Follows(run, events, n - 1);
      StepKeepsInvariant(run[n - 1], events[n - 1]);
    }
  }

  /** Before shutdown at most one registration call is in flight, and a retry loop that waits for a call waits
      for one that will be settled; after shutdown there is no id and no stream, and the field for the interval
      is clear. */
  lemma OneCallInFlight(run: seq<Reporter>, events: seq<Event>, n: nat)
    requires Run(run, events) && n < |run|
    ensures var c := run[n].control;
            && (!c.isShuttingDown ==> |c.pending| <= 1)
            && (c.loop.Awaiting? ==> c.loop.call in c.pending)
            && (c.isShuttingDown ==> run[n].connection == DISCONNECTED)
  {
    RunInvariant(run, events, n);
  }

  // ----- intervals nobody can clear any more -----

  /** Intervals that still fire although the field does not hold them. */
  function Strays(r: Reporter): int {
    r.liveIntervals - if r.connection.heartbeatTimer then 1 else 0
  }

  predicate Accepts(r: Reporter, e: Event) {
    e.Responded? && !r.control.isShuttingDown && e.handle.Some? && e.handle.value.serviceId != ""
  }

  /** The first heartbeat on a new stream throws, and the connection is reset before the interval is started. */
  predicate FirstWriteFails(r: Reporter, e: Event) {
    Accepts(r, e) && e.throws && r.control.autoReconnect
  }

  /** The step overwrites an interval in the field. */
  predicate Strands(r: Reporter, e: Event) {
    Accepts(r, e) && !FirstWriteFails(r, e) && r.connection.heartbeatTimer
  }

  /** An interval in the field that belongs to no stream. */
  predicate LoneInterval(r: Reporter) {
    r.connection.heartbeatTimer && !r.connection.heartbeatStream
  }

  lemma ConnectedIntervals(r: Reporter, h: Handle, throws: bool)
    requires !r.control.isShuttingDown && !r.connection.heartbeatStream
    ensures
      var s := Connected(r, h, throws).reporter;
      && Strays(s) == Strays(r)
         + (if h.serviceId != "" && r.connection.heartbeatTimer && !(throws && r.control.autoReconnect) then 1 else 0)
      && (LoneInterval(s) ==> LoneInterval(r) || (throws && r.control.autoReconnect && h.serviceId != ""))
  {
  }

  lemma ResponseIntervals(r: Reporter, call: nat, handle: Option<Handle>, throws: bool)
    requires Invariant(r) && call in r.control.pending
    ensures
      var e, s := Responded(call, handle, throws), Answered(r, call, handle, throws).reporter;
      && Strays(s) == Strays(r) + (if Strands(r, e) then 1 else 0)
      && (LoneInterval(s) ==> LoneInterval(r) || FirstWriteFails(r, e))
  {
    if !r.control.isShuttingDown && handle.Some? {
      ConnectedIntervals(Received(r, call), handle.value, throws);
    }
  }

  /** A step strands an interval exactly when it accepts a handle while the field still holds one; that is an
      interval without a stream, which only a first write that throws puts there. */
  lemma StrandsExactly(r: Reporter, e: Event)
    requires Invariant(r) && Possible(r, e)
    ensures Strays(Next(r, e).reporter) == Strays(r) + if Strands(r, e) then 1 else 0
    ensures Strands(r, e) ==> LoneInterval(r)
    ensures LoneInterval(Next(r, e).reporter) ==> LoneInterval(r) || FirstWriteFails(r, e)
  {
    if e.Responded? {
      ResponseIntervals(r, e.call, e.handle, e.throws);
    }
  }

  function Strandings(run: seq<Reporter>, events: seq<Event>, n: nat): nat
    requires n <= |events| && n <= |run|
  {
    if n == 0 then 0
    else Strandings(run, events, n - 1) + if Strands(run[n - 1], events[n - 1]) then 1 else 0
  }

  /** What keeps firing after shutdown is exactly what was stranded before: nothing, if every first write on a
      stream went through. */
  lemma {:induction false} IntervalsAfterShutdown(run: seq<Reporter>, events: seq<Event>, n: nat)
    requires Run(run, events) && n < |run|
    ensures Strays(run[n]) == Strandings(run, events, n)
    ensures run[n].control.isShuttingDown ==> run[n].liveIntervals == Strandings(run, events, n)
    ensures (forall i :: 0 <= i < n ==> !FirstWriteFails(run[i], events[i]))
            ==> !LoneInterval(run[n]) && Strandings(run, events, n) == 0
    decreases n
  {
    RunInvariant(run, events, n);
    if n > 0 {
      IntervalsAfterShutdown(run, events, n - 1);
      RunInvariant(run, events, n - 1);
      assert Follows(run, events, n - 1);
      StrandsExactly(run[n - 1], events[n - 1]);
    }
  }

  const STALLED := Control(None, false, NotRunning, 0, true, false, 1, {})

  lemma UpToFirstWrite(first: Handle) returns (r1: Reporter, r2: Reporter)
    requires first.serviceId != ""
    ensures Possible(Created(true), Start) && r1 == Next(Created(true), Start).reporter
    ensures Possible(r1, Responded(0, Some(first), true)) && r2 == Next(r1, Responded(0, Some(first), true)).reporter
    ensures r2.control == STALLED && r2.liveIntervals == 1 && r2.enableActivity
    ensures LoneInterval(r2) && !IsRegistered(r2.connection)
  {
    r1 := Next(Created(true), Start).reporter;
    assert r1.control == Control(Some(0), true, Awaiting(0), 0, true, false, 1, {0});
    ConnectedShape(Received(r1, 0), first, true);
    ConnectedIntervals(Received(r1, 0), first, true);
    r2 := Next(r1, Responded(0, Some(first), true)).reporter;
  }

  lemma UpToSecondHandle(r2: Reporter, second: Handle) returns (r3: Reporter, r4: Reporter)
    requires second.serviceId != "" && r2.control == STALLED && r2.liveIntervals == 1
    requires LoneInterval(r2) && !IsRegistered(r2.connection)
    ensures r3 == Next(r2, Register).reporter
    ensures Possible(r3, Responded(1, Some(second), false))
             && r4 == Next(r3, Responded(1, Some(second), false)).reporter
    ensures Strays(r4) == 1 && !r4.control.isShuttingDown
  {
    r3 := Next(r2, Register).reporter;
    assert r3.control == Control(Some(1), false, NotRunning, 0, true, false, 2, {1});
    ConnectedIntervals(Received(r3, 1), second, false);
    r4 := Next(r3, Responded(1, Some(second), false)).reporter;
  }

  /** It can happen: a first heartbeat that throws, another registration, and shutdown, leave one interval
      behind that nothing clears. */
  lemma IntervalOutlivesShutdown(first: Handle, second: Handle)
    returns (run: seq<Reporter>, events: seq<Event>)
    requires first.serviceId != "" && second.serviceId != ""
    ensures Run(run, events) && |events| == 5
    ensures run[5].control.isShuttingDown && run[5].connection == DISCONNECTED
    ensures run[5].liveIntervals == 1 && Possible(run[5], HeartbeatDue(false))
  {
    events := [Start, Responded(0, Some(first), true), Register, Responded(1, Some(second), false), Shutdown];
    var r0 := Created(true);
    var r1, r2 := UpToFirstWrite(first);
    var r3, r4 := UpToSecondHandle(r2, second);
    var r5 := Next(r4, Shutdown).reporter;
    run := [r0, r1, r2, r3, r4, r5];
    forall i | 0 <= i < 5 ensures Follows(run, events, i) {}
  }

  // ----- the reporter never gives up -----

  /** With automatic reconnection on, the reporter is registered or trying to be. */
  predicate Connecting(r: Reporter) {
    r.control.autoReconnect && !r.control.isShuttingDown ==> IsRegistered(r.connection) || r.control.reconnecting
  }

  predicate LoopAwaits(r: Reporter, call: nat) {
    !r.control.isShuttingDown && r.control.loop == Awaiting(call)
  }

  /** The one way to lose both: the response the retry loop is waiting for brings no id, or opens a heartbeat
      stream whose first write throws while the loop is about to end. */
  predicate Derails(r: Reporter, e: Event) {
    && e.Responded? && LoopAwaits(r, e.call) && e.handle.Some?
    && (e.handle.value.serviceId == "" || e.throws)
  }

  lemma ResponseConnects(r: Reporter, call: nat, handle: Option<Handle>, throws: bool)
    requires Invariant(r) && Connecting(r) && call in r.control.pending && !r.control.isShuttingDown && handle.Some?
    ensures Connecting(Answered(r, call, handle, throws).reporter) <==> !Derails(r, Responded(call, handle, throws))
  {
    assert r.control.inFlight == Some(call) && !IsRegistered(r.connection);
    ConnectedShape(Received(r, call), handle.value, throws);
  }

  lemma FailureConnects(r: Reporter, call: nat)
    requires Invariant(r) && Connecting(r) && call in r.control.pending
    ensures Connecting(Settle(Outcome(Received(r, call), []), call, false).reporter)
  {
  }

  /** A step keeps the reporter connecting if and only if it does not derail it. */
  lemma ConnectingExactly(r: Reporter, e: Event)
    requires Invariant(r) && Connecting(r) && Possible(r, e)
    ensures Connecting(Next(r, e).reporter) <==> !Derails(r, e)
  {
    match e
    case Responded(call, handle, throws) =>
      if r.control.isShuttingDown || handle.None? {
        FailureConnects(r, call);
      } else {
        ResponseConnects(r, call, handle, throws);
      }
    case Refused(call) => FailureConnects(r, call);
    case _ =>
  }

  /** It can happen: a reporter that is started, and whose first heartbeat cannot be written, stays unregistered
      with nobody retrying. */
  lemma FirstWriteThrows(handle: Handle)
    requires handle.serviceId != ""
    ensures
      var started := Next(Created(true), Start).reporter;
      && Possible(started, Responded(0, Some(handle), true))
      && var r := Next(started, Responded(0, Some(handle), true)).reporter;
         && r.control.autoReconnect && !IsRegistered(r.connection)
         && r.control.loop == NotRunning && r.control.pending == {}
  {
    var started := Next(Created(true), Start).reporter;
    assert started.control == Control(Some(0), true, Awaiting(0), 0, true, false, 1, {0});
    ConnectedShape(Received(started, 0), handle, true);
  }

  lemma {:induction false} RunConnecting(run: seq<Reporter>, events: seq<Event>, n: nat)
    requires Run(run, events) && n < |run|
    requires forall i :: 0 <= i < n ==> !Derails(run[i], events[i])
    ensures Connecting(run[n])
    decreases n
  {
    if n > 0 {
      RunConnecting(run, events, n - 1);
      RunInvariant(run, events, n - 1);
      assert Follows(run, events, n - 1);
      ConnectingExactly(run[n - 1], events[n - 1]);
    }
  }

  /** Shutdown is final: whatever arrives afterwards, no id is ever taken on again, and nothing but further
      registration calls a caller asks for is sent. */
  lemma ShutdownFinal(r: Reporter, e: Event)
    requires Invariant(r) && Possible(r, e) && r.control.isShuttingDown
    ensures Next(r, e).reporter.control.isShuttingDown && Next(r, e).reporter.connection == DISCONNECTED
    ensures Next(r, e).sent != [] ==> e == Register
  {
  }

  // ----- back-off -----

  /** The loop learns in this step that its registration failed. */
  predicate LoopFails(r: Reporter, e: Event) {
    match e
    case Responded(call, handle, _) => LoopAwaits(r, call) && handle.None?
    case Refused(call) => LoopAwaits(r, call)
    case _ => false
  }

  /** A first write that throws while no loop runs starts one, which ends with the registration in progress. */
  predicate LateLoop(r: Reporter, h: Handle, throws: bool) {
    throws && h.serviceId != "" && r.control.autoReconnect && !r.control.reconnecting
  }

  /** The loop finds itself registered in this step. */
  predicate LoopSucceeds(r: Reporter, e: Event) {
    && !r.control.isShuttingDown
    && match e
       case Responded(call, handle, throws) =>
         handle.Some? && (LoopAwaits(r, call) || LateLoop(r, handle.value, throws))
       case Woke => IsRegistered(r.connection)
       case Start => !r.control.autoReconnect && IsRegistered(r.connection)
       case _ => false
  }

  /** Failures of the loop since it last succeeded. */
  function Failures(run: seq<Reporter>, events: seq<Event>, n: nat): nat
    requires n <= |events| && n <= |run|
  {
    if n == 0 then 0
    else if LoopFails(run[n - 1], events[n - 1]) then Failures(run, events, n - 1) + 1
    else if LoopSucceeds(run[n - 1], events[n - 1]) then 0
    else Failures(run, events, n - 1)
  }

  function AttemptAfter(r: Reporter, e: Event): nat {
    if LoopFails(r, e) then NextAttempt(r.control.retryAttempt)
    else if LoopSucceeds(r, e) then 0
    else r.control.retryAttempt
  }

  lemma ResponseAttempt(r: Reporter, call: nat, handle: Option<Handle>, throws: bool)
    requires Invariant(r) && call in r.control.pending && !r.control.isShuttingDown && handle.Some?
    ensures Answered(r, call, handle, throws).reporter.control.retryAttempt
            == AttemptAfter(r, Responded(call, handle, throws))
  {
    assert r.control.inFlight == Some(call) && !IsRegistered(r.connection);
    ConnectedShape(Received(r, call), handle.value, throws);
  }

  lemma AttemptFollows(r: Reporter, e: Event)
    requires Invariant(r) && Possible(r, e)
    ensures Next(r, e).reporter.control.retryAttempt == AttemptAfter(r, e)
    ensures LoopFails(r, e) ==> Next(r, e).reporter.control.loop == Sleeping(RetryDelayMs(r.control.retryAttempt))
  {
    if e.Responded? && !r.control.isShuttingDown && e.handle.Some? {
      ResponseAttempt(r, e.call, e.handle, e.throws);
    }
  }

  lemma {:induction false} AttemptSaturates(run: seq<Reporter>, events: seq<Event>, n: nat)
    requires Run(run, events) && n < |run|
    ensures run[n].control.retryAttempt == Min(10, Failures(run, events, n))
    decreases n
  {
    if n > 0 {
      AttemptSaturates(run, events, n - 1);
      RunInvariant(run, events, n - 1);
      assert Follows(run, events, n - 1);
      AttemptFollows(run[n - 1], events[n - 1]);
    }
  }

  lemma {:induction false} Pow2Grows(a: nat, b: nat)
    requires a <= b
    ensures Pow2(a) <= Pow2(b)
    decreases b
  {
    if a < b { Pow2Grows(a, b - 1); }
  }

  /** The k-th failure in a row, counted from 0, is answered by a wait of min(15000, 1000 * 2^k) milliseconds,
      although the exponent that is kept stops at 10. */
  lemma BackOff(run: seq<Reporter>, events: seq<Event>, n: nat)
    requires Run(run, events) && n < |events| && LoopFails(run[n], events[n])
    ensures run[n + 1].control.loop == Sleeping(Min(15000, 1000 * Pow2(Failures(run, events, n))))
  {
    var k := Failures(run, events, n);
    AttemptSaturates(run, events, n);
    RunInvariant(run, events, n);
    assert Follows(run, events, n);
    AttemptFollows(run[n], events[n]);
    if k > 10 {
      Pow2Grows(4, 10);
      Pow2Grows(4, k);
      assert Pow2(4) == 16;
    }
  }
}
