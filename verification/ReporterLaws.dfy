/** What the reporter holds and what it sends, told from the events alone. */
module ReporterLaws {
  import opened Wrappers
  import opened Topology
  import opened Reporting
  import opened ReporterInvariant

  // ----- what the events so far amount to -----

  predicate ShutBefore(events: seq<Event>, n: nat)
    requires n <= |events|
  {
    Shutdown in events[..n]
  }

  /** Automatic reconnection is on from the first start to the shutdown. */
  predicate Reconnects(events: seq<Event>, n: nat)
    requires n <= |events|
  {
    Start in events[..n] && Shutdown !in events[..n]
  }

  function HealthSet(events: seq<Event>, n: nat): Option<HealthState>
    requires n <= |events|
  {
    if n == 0 then None
    else if events[n - 1].SetHealth? then events[n - 1].health
    else HealthSet(events, n - 1)
  }

  /** The handle held after an event. A response brings one, unless the first heartbeat cannot be written; a
      stream that fails, or cannot be written to, loses it, both only while reconnection is on. */
  function HeldAfter(held: Option<Handle>, e: Event, reconnects: bool, enableActivity: bool): Option<Handle> {
    var lost := if reconnects then None else held;
    match e
    case Shutdown => None
    case Responded(_, Some(h), throws) => if h.serviceId == "" || (throws && reconnects) then None else Some(h)
    case StreamFailed => lost
    case HeartbeatDue(throws) => if throws then lost else held
    case ReportActivity(_, throws) => if throws && enableActivity then lost else held
    case _ => held
  }

  function Held(enableActivity: bool, events: seq<Event>, n: nat): Option<Handle>
    requires n <= |events|
  {
    if n == 0 || ShutBefore(events, n) then None
    else HeldAfter(Held(enableActivity, events, n - 1), events[n - 1], Reconnects(events, n - 1), enableActivity)
  }

  /** How many heartbeats were written, or failed to be, under the handle held. */
  function Written(enableActivity: bool, events: seq<Event>, n: nat): nat
    requires n <= |events|
  {
    if n == 0 || Held(enableActivity, events, n) == None then 0
    else if events[n - 1].Responded? && events[n - 1].handle.Some? then 1
    else Written(enableActivity, events, n - 1) + if events[n - 1].HeartbeatDue? then 1 else 0
  }

  /** A handle held is in the fields, and everything that comes with it is running. */
  predicate Holds(r: Reporter, held: Option<Handle>, written: nat) {
    match held
    case None => r.connection.serviceId == "" && !r.connection.heartbeatStream
    case Some(h) =>
      && r.connection == Connection(h.serviceId, Some(h.heartbeatIntervalMs), Some(h.timeoutMultiplier), written,
                                    true, true, r.enableActivity)
      && h.serviceId != ""
  }

  // ----- one step -----

  lemma ConnectedHolds(r: Reporter, h: Handle, throws: bool)
    requires !r.control.isShuttingDown && !r.connection.heartbeatStream
    requires r.connection.activityStream ==> r.enableActivity
    ensures
      var o := Connected(r, h, throws);
      && o.reporter.currentHealth == r.currentHealth
      && o.reporter.control.nextCall >= r.control.nextCall
      && (o.reporter.connection.activityStream ==> r.enableActivity)
      && (h.serviceId == "" || (throws && r.control.autoReconnect) ==> Holds(o.reporter, None, 0))
      && (h.serviceId != "" && !(throws && r.control.autoReconnect) ==> Holds(o.reporter, Some(h), 1))
      && (r.control.inFlight.Some? || throws == false ==>
            o.sent == if h.serviceId == "" || throws then []
                      else [Beat(HeartbeatRequest(h.serviceId, r.currentHealth), 1)])
  {
  }

  /** The fields that hold no handle, after an event. */
  predicate KeepsFlags(r: Reporter, e: Event, r': Reporter) {
    && r'.enableActivity == r.enableActivity
    && (r'.control.isShuttingDown <==> r.control.isShuttingDown || e == Shutdown)
    && (r'.control.autoReconnect <==>
          !r'.control.isShuttingDown && (r.control.autoReconnect || e == Start))
    && r'.currentHealth == (if e.SetHealth? then e.health else r.currentHealth)
    && (r'.connection.activityStream ==> r.enableActivity)
  }

  lemma ResponseKeepsFlags(r: Reporter, e: Event)
    requires Invariant(r) && Possible(r, e) && (r.connection.activityStream ==> r.enableActivity) && e.Responded?
    ensures KeepsFlags(r, e, Next(r, e).reporter)
  {
    if !r.control.isShuttingDown && e.handle.Some? {
      assert r.control.inFlight == Some(e.call) && !IsRegistered(r.connection);
      ConnectedShape(Received(r, e.call), e.handle.value, e.throws);
      ConnectedHolds(Received(r, e.call), e.handle.value, e.throws);
    }
  }

  lemma StepKeepsFlags(r: Reporter, e: Event)
    requires Invariant(r) && Possible(r, e) && (r.connection.activityStream ==> r.enableActivity)
    ensures KeepsFlags(r, e, Next(r, e).reporter)
  {
    if e.Responded? {
      ResponseKeepsFlags(r, e);
    }
  }

  lemma {:induction false} Flags(run: seq<Reporter>, events: seq<Event>, n: nat)
    requires Run(run, events) && n < |run|
    ensures run[n].enableActivity == run[0].enableActivity
    ensures run[n].control.isShuttingDown <==> ShutBefore(events, n)
    ensures run[n].control.autoReconnect <==> Reconnects(events, n)
    ensures run[n].currentHealth == HealthSet(events, n)
    ensures run[n].connection.activityStream ==> run[0].enableActivity
    decreases n
  {
    if n > 0 {
      Flags(run, events, n - 1);
      RunInvariant(run, events, n - 1);
      assert Follows(run, events, n - 1);
      StepKeepsFlags(run[n - 1], events[n - 1]);
      assert events[..n] == events[..n - 1] + [events[n - 1]];
    }
  }

  lemma ResponseHolds(r: Reporter, e: Event, held: Option<Handle>, written: nat)
    requires Invariant(r) && Possible(r, e) && (r.connection.activityStream ==> r.enableActivity)
    requires e.Responded? && !r.control.isShuttingDown && Holds(r, held, written)
    ensures
      var after := HeldAfter(held, e, r.control.autoReconnect, r.enableActivity);
      Holds(Next(r, e).reporter, after, if after == None then 0 else 1)
  {
    assert r.control.inFlight == Some(e.call) && !IsRegistered(r.connection);
    if e.handle.Some? {
      ConnectedHolds(Received(r, e.call), e.handle.value, e.throws);
    }
  }

  lemma StepHolds(r: Reporter, e: Event, held: Option<Handle>, written: nat)
    requires Invariant(r) && Possible(r, e) && !r.control.isShuttingDown && !e.Responded?
    requires Holds(r, held, written) && (r.connection.activityStream ==> r.enableActivity)
    ensures
      var after := HeldAfter(held, e, r.control.autoReconnect, r.enableActivity);
      Holds(Next(r, e).reporter, after, if after == None then 0 else written + if e.HeartbeatDue? then 1 else 0)
  {
  }

  /** The reporter holds exactly the handle that its events left it, with the streams and the interval that go
      with it. */
  lemma {:induction false} HeldExactly(run: seq<Reporter>, events: seq<Event>, n: nat)
    requires Run(run, events) && n < |run|
    ensures Holds(run[n], Held(run[0].enableActivity, events, n), Written(run[0].enableActivity, events, n))
    decreases n
  {
    RunInvariant(run, events, n);
    Flags(run, events, n);
    if n > 0 && !ShutBefore(events, n) {
      HeldExactly(run, events, n - 1);
      RunInvariant(run, events, n - 1);
      Flags(run, events, n - 1);
      assert Follows(run, events, n - 1);
      var r, e, on := run[n - 1], events[n - 1], run[0].enableActivity;
      assert events[..n] == events[..n - 1] + [e];
      if e.Responded? {
        ResponseHolds(r, e, Held(on, events, n - 1), Written(on, events, n - 1));
      } else {
        StepHolds(r, e, Held(on, events, n - 1), Written(on, events, n - 1));
      }
    }
  }

  // ----- what is sent -----

  /** A step that makes the reporter want to be registered makes a call, unless one is in flight or, for a stream
      that is lost, the retry loop is at it already. */
  predicate SendsCall(r: Reporter, e: Event, held: Option<Handle>, sent: seq<Message>) {
    var c := r.control;
    var wants := match e
      case Register => held == None
      case Start => held == None && !c.autoReconnect
      case Woke => held == None
      case StreamFailed => c.autoReconnect && !c.reconnecting
      case HeartbeatDue(throws) => throws && held.Some? && c.autoReconnect && !c.reconnecting
      case ReportActivity(_, throws) =>
        throws && held.Some? && r.enableActivity && c.autoReconnect && !c.reconnecting
      case _ => false;
    sent == if wants && c.inFlight == None then [RegisterCall(c.nextCall)] else []
  }

  /** What a step sends while the reporter is up: at most one message, by what happens and what it holds. */
  predicate SendsAsHeld(r: Reporter, e: Event, held: Option<Handle>, beats: nat, sent: seq<Message>) {
    match e
    case Shutdown => sent == if held == None then [] else [UnregisterCall(held.value.serviceId)]
    case HeartbeatDue(false) =>
      sent == if held == None then [] else [Beat(HeartbeatRequest(held.value.serviceId, r.currentHealth), beats + 1)]
    case Responded(_, Some(h), throws) =>
      sent == if h.serviceId == "" || throws then [] else [Beat(HeartbeatRequest(h.serviceId, r.currentHealth), 1)]
    case ReportActivity(report, false) =>
      sent == if held == None || !r.enableActivity then [] else [Report(report.(serviceId := held.value.serviceId))]
    case _ => SendsCall(r, e, held, sent)
  }

  /** Calls are numbered in turn, and pending from when they are made until they are settled. */
  predicate CountsCalls(r: Reporter, e: Event, o: Outcome) {
    var settled: set<nat> := if e.Responded? || e.Refused? then {e.call} else {};
    if RegisterCall(r.control.nextCall) in o.sent then
      && o.reporter.control.nextCall == r.control.nextCall + 1
      && o.reporter.control.inFlight == Some(r.control.nextCall)
      && o.reporter.control.pending == r.control.pending - settled + {r.control.nextCall}
    else
      && o.reporter.control.nextCall == r.control.nextCall
      && o.reporter.control.pending == r.control.pending - settled
  }

  /** A loop that starts while a call is in flight waits for that call. */
  lemma ConnectedJoins(r: Reporter, h: Handle, throws: bool)
    requires !r.control.isShuttingDown && !r.connection.heartbeatStream && r.control.inFlight.Some?
    ensures
      var c := Connected(r, h, throws).reporter.control;
      c.nextCall == r.control.nextCall && c.pending == r.control.pending
  {
    ConnectedShape(r, h, throws);
  }

  lemma HandleSends(r: Reporter, call: nat, h: Handle, throws: bool)
    requires Invariant(r) && call in r.control.pending
    requires !r.control.isShuttingDown && (r.connection.activityStream ==> r.enableActivity)
    ensures
      var o := Next(r, Responded(call, Some(h), throws));
      && o.sent == (if h.serviceId == "" || throws then []
                    else [Beat(HeartbeatRequest(h.serviceId, r.currentHealth), 1)])
      && o.reporter.control.nextCall == r.control.nextCall
      && o.reporter.control.pending == r.control.pending - {call}
  {
    assert r.control.inFlight == Some(call) && !IsRegistered(r.connection);
    ConnectedHolds(Received(r, call), h, throws);
    ConnectedJoins(Received(r, call), h, throws);
  }

  lemma ResponseSends(r: Reporter, e: Event, held: Option<Handle>, written: nat)
    requires Invariant(r) && Possible(r, e) && (r.connection.activityStream ==> r.enableActivity)
    requires e.Responded? && !r.control.isShuttingDown && Holds(r, held, written)
    ensures SendsAsHeld(r, e, held, written, Next(r, e).sent) && CountsCalls(r, e, Next(r, e))
  {
    if e.handle.Some? {
      HandleSends(r, e.call, e.handle.value, e.throws);
    }
  }

  lemma StepSends(r: Reporter, e: Event, held: Option<Handle>, written: nat)
    requires Invariant(r) && Possible(r, e) && !r.control.isShuttingDown && !e.Responded?
    requires Holds(r, held, written) && (r.connection.activityStream ==> r.enableActivity)
    ensures SendsAsHeld(r, e, held, written, Next(r, e).sent) && CountsCalls(r, e, Next(r, e))
  {
  }

  /** After shutdown, only a caller of register() makes the reporter send anything. */
  lemma DownSends(r: Reporter, e: Event)
    requires Invariant(r) && Possible(r, e) && r.control.isShuttingDown
    ensures Next(r, e).sent ==
              if e == Register && r.control.inFlight == None then [RegisterCall(r.control.nextCall)] else []
    ensures CountsCalls(r, e, Next(r, e))
  {
  }

  /** What every event of every run sends. */
  lemma SentExactly(run: seq<Reporter>, events: seq<Event>, n: nat)
    requires Run(run, events) && n < |events|
    ensures Possible(run[n], events[n])
    ensures
      var on, sent := run[0].enableActivity, Next(run[n], events[n]).sent;
      if ShutBefore(events, n) then
        sent == if events[n] == Register && run[n].control.inFlight == None
                then [RegisterCall(run[n].control.nextCall)] else []
      else SendsAsHeld(run[n], events[n], Held(on, events, n), Written(on, events, n), sent)
    ensures CountsCalls(run[n], events[n], Next(run[n], events[n]))
  {
    RunInvariant(run, events, n);
    Flags(run, events, n);
    HeldExactly(run, events, n);
    assert Follows(run, events, n);
    var r, e, on := run[n], events[n], run[0].enableActivity;
    if ShutBefore(events, n) {
      DownSends(r, e);
    } else if e.Responded? {
      ResponseSends(r, e, Held(on, events, n), Written(on, events, n));
    } else {
      StepSends(r, e, Held(on, events, n), Written(on, events, n));
    }
  }

  /** The first shutdown sends one call to unregister the id held, if one is held, and nothing else ever sends
      such a call. */
  lemma UnregistersExactly(run: seq<Reporter>, events: seq<Event>, n: nat, id: string)
    requires Run(run, events) && n < |events|
    ensures
      && Possible(run[n], events[n])
      && var held, sent := Held(run[0].enableActivity, events, n), Next(run[n], events[n]).sent;
      && (UnregisterCall(id) in sent <==>
            events[n] == Shutdown && !ShutBefore(events, n) && held.Some? && id == held.value.serviceId)
      && (events[n] == Shutdown ==>
            sent == if ShutBefore(events, n) || held == None then [] else [UnregisterCall(held.value.serviceId)])
  {
    SentExactly(run, events, n);
  }

  /** A heartbeat goes out when its timer fires, or as soon as a handle is taken on, for the id then held, with
      the health set last and the next number. */
  lemma BeatsExactly(run: seq<Reporter>, events: seq<Event>, n: nat, beat: HeartbeatRequest, sequence: nat)
    requires Run(run, events) && n < |events|
    ensures
      && Possible(run[n], events[n])
      && var on, e := run[0].enableActivity, events[n];
      && var held := Held(on, events, n + 1);
      && (Beat(beat, sequence) in Next(run[n], e).sent <==>
            && held.Some? && (e.HeartbeatDue? || (e.Responded? && e.handle.Some?)) && !e.throws
            && beat == HeartbeatRequest(held.value.serviceId, HealthSet(events, n))
            && sequence == Written(on, events, n + 1))
  {
    SentExactly(run, events, n);
    Flags(run, events, n);
    assert events[..n + 1] == events[..n] + [events[n]];
  }
}
