/** The reporter as a state machine: what each call, response, timer and stream failure does to it, and what
    it sends. Everything between two suspensions is one step. */
module Reporting {
  import opened Wrappers
  import opened Topology

  datatype Handle = Handle(serviceId: string, heartbeatIntervalMs: int, timeoutMultiplier: int)

  datatype Message =
    | RegisterCall(call: nat)
    | Beat(beat: HeartbeatRequest, sequence: nat)
    | Report(event: ActivityEvent)
    | UnregisterCall(serviceId: string)

  /** Where connectWithRetry stands: not running, waiting for a registration, or for its retry timer. */
  datatype Loop = NotRunning | Awaiting(call: nat) | Sleeping(ms: int)

  /** What resetConnectionState forgets. An empty `serviceId` stands for null: the code only asks whether it
      is truthy. */
  datatype Connection = Connection(
    serviceId: string,
    heartbeatIntervalMs: Option<int>,
    timeoutMultiplier: Option<int>,
    heartbeatSeq: nat,
    heartbeatStream: bool,
    heartbeatTimer: bool,
    activityStream: bool)

  /** `inFlight` is the call whose promise is kept in registerInFlight, `reconnecting` whether reconnectPromise
      is set; `pending` are the calls the server has not settled. */
  datatype Control = Control(
    inFlight: Option<nat>,
    reconnecting: bool,
    loop: Loop,
    retryAttempt: nat,
    autoReconnect: bool,
    isShuttingDown: bool,
    nextCall: nat,
    pending: set<nat>)

  /** `heartbeatTimer` is the field; `liveIntervals` counts the intervals that were started and not cleared. */
  datatype Reporter = Reporter(
    connection: Connection,
    liveIntervals: int,
    control: Control,
    currentHealth: Option<HealthState>,
    enableActivity: bool)

  const DISCONNECTED := Connection("", None, None, 0, false, false, false)

  function Created(enableActivity: bool): Reporter {
    Reporter(DISCONNECTED, 0, Control(None, false, NotRunning, 0, false, false, 0, {}), None, enableActivity)
  }

  predicate IsRegistered(c: Connection) {
    c.serviceId != ""
  }

  datatype Event =
    | Register
    | Start
    | Shutdown
    | SetHealth(health: Option<HealthState>)
    | ReportActivity(report: ActivityEvent, throws: bool)
    | HeartbeatDue(throws: bool)
    | Responded(call: nat, handle: Option<Handle>, throws: bool)
    | Refused(call: nat)
    | Woke
    | StreamFailed

  predicate Possible(r: Reporter, e: Event) {
    match e
    case HeartbeatDue(_) => r.liveIntervals > 0
    case Responded(call, _, _) => call in r.control.pending
    case Refused(call) => call in r.control.pending
    case Woke => r.control.loop.Sleeping?
    case _ => true
  }

  datatype Outcome = Outcome(reporter: Reporter, sent: seq<Message>)

  // ----- the retry loop -----

  datatype Turn = Turn(control: Control, sent: seq<Message>)

  /** register() up to its first suspension: the call it then waits for, None when already registered. */
  function BeginRegister(registered: bool, c: Control): (Turn, Option<nat>) {
    if registered then (Turn(c, []), None)
    else if c.inFlight.Some? then (Turn(c, []), c.inFlight)
    else
      (Turn(c.(inFlight := Some(c.nextCall), nextCall := c.nextCall + 1, pending := c.pending + {c.nextCall}),
            [RegisterCall(c.nextCall)]),
       Some(c.nextCall))
  }

  /** connectWithRetry from the top of its loop up to the next suspension. */
  function LoopTurn(registered: bool, c: Control): Turn {
    if c.isShuttingDown || !c.autoReconnect then Turn(c.(loop := NotRunning, reconnecting := false), [])
    else
      var (begun, waits) := BeginRegister(registered, c);
      match waits
      case None => begun.(control := begun.control.(loop := NotRunning, reconnecting := false, retryAttempt := 0))
      case Some(call) => begun.(control := begun.control.(loop := Awaiting(call)))
  }

  function TriggerReconnect(registered: bool, c: Control): Turn {
    if c.reconnecting || c.isShuttingDown || !c.autoReconnect then Turn(c, [])
    else LoopTurn(registered, c.(reconnecting := true))
  }

  function Pow2(n: nat): nat {
    if n == 0 then 1 else 2 * Pow2(n - 1)
  }

  function RetryDelayMs(attempt: nat): int {
    Min(15000, 1000 * Pow2(attempt))
  }

  function NextAttempt(attempt: nat): nat {
    if attempt + 1 <= 10 then attempt + 1 else 10
  }

  /** The promise of `call` is settled: register() forgets it, and the retry loop, if it waits for this call,
      ends or goes to sleep. */
  function Settled(c: Control, call: nat, succeeded: bool): Control {
    var s := if c.inFlight == Some(call) then c.(inFlight := None) else c;
    if s.loop != Awaiting(call) then s
    else if succeeded then s.(loop := NotRunning, reconnecting := false, retryAttempt := 0)
    else if s.isShuttingDown || !s.autoReconnect then s.(loop := NotRunning, reconnecting := false)
    else s.(loop := Sleeping(RetryDelayMs(s.retryAttempt)), retryAttempt := NextAttempt(s.retryAttempt))
  }

  // ----- streams -----

  /** resetConnectionState: only the interval in the field is cleared. */
  function ResetConnection(r: Reporter): Reporter {
    r.(connection := DISCONNECTED, liveIntervals := r.liveIntervals - if r.connection.heartbeatTimer then 1 else 0)
  }

  /** handleStreamError and handleStreamEnd. */
  function StreamGone(r: Reporter): Outcome {
    if r.control.isShuttingDown || !r.control.autoReconnect then Outcome(r, [])
    else
      var turn := TriggerReconnect(false, r.control);
      Outcome(ResetConnection(r).(control := turn.control), turn.sent)
  }

  /** sendHeartbeat. */
  function SendHeartbeat(r: Reporter, throws: bool): Outcome {
    if !IsRegistered(r.connection) || !r.connection.heartbeatStream then Outcome(r, [])
    else
      var s := r.(connection := r.connection.(heartbeatSeq := r.connection.heartbeatSeq + 1));
      if throws then StreamGone(s)
      else Outcome(s, [Beat(HeartbeatRequest(r.connection.serviceId, r.currentHealth), s.connection.heartbeatSeq)])
  }

  /** setInterval, its result kept in the field whatever the field held before. */
  function WithInterval(r: Reporter): Reporter {
    r.(connection := r.connection.(heartbeatTimer := true), liveIntervals := r.liveIntervals + 1)
  }

  function StartHeartbeat(r: Reporter, throws: bool): Outcome {
    var c := r.connection;
    if !IsRegistered(c) || c.heartbeatIntervalMs.None? || c.heartbeatStream then Outcome(r, [])
    else
      var first := SendHeartbeat(r.(connection := c.(heartbeatStream := true)), throws);
      Outcome(WithInterval(first.reporter), first.sent)
  }

  // ----- calls and responses -----

  /** performRegister from the response on, to where the heartbeats and the activity stream are started. */
  function Connected(r: Reporter, h: Handle, throws: bool): Outcome {
    var c := r.connection.(serviceId := h.serviceId, heartbeatIntervalMs := Some(h.heartbeatIntervalMs),
                           timeoutMultiplier := Some(h.timeoutMultiplier), heartbeatSeq := 0);
    var beating := StartHeartbeat(r.(connection := c), throws);
    if r.enableActivity then
      beating.(reporter := beating.reporter.(connection := beating.reporter.connection.(activityStream := true)))
    else beating
  }

  function Settle(o: Outcome, call: nat, succeeded: bool): Outcome {
    o.(reporter := o.reporter.(control := Settled(o.reporter.control, call, succeeded)))
  }

  function Received(r: Reporter, call: nat): Reporter {
    r.(control := r.control.(pending := r.control.pending - {call}))
  }

  function Answered(r: Reporter, call: nat, handle: Option<Handle>, throws: bool): Outcome {
    if r.control.isShuttingDown || handle.None? then Settle(Outcome(Received(r, call), []), call, false)
    else Settle(Connected(Received(r, call), handle.value, throws), call, true)
  }

  /** shutdown(); repeated, it does nothing. */
  function ShutDown(r: Reporter): Outcome {
    if r.control.isShuttingDown then Outcome(r, [])
    else
      Outcome(ResetConnection(r).(
                control := r.control.(
                  isShuttingDown := true, autoReconnect := false, inFlight := None, reconnecting := false)),
              if IsRegistered(r.connection) then [UnregisterCall(r.connection.serviceId)] else [])
  }

  function Reported(r: Reporter, report: ActivityEvent, throws: bool): Outcome {
    if !r.connection.activityStream || !IsRegistered(r.connection) then Outcome(r, [])
    else if throws then StreamGone(r)
    else Outcome(r, [Report(report.(serviceId := r.connection.serviceId))])
  }

  function Steered(r: Reporter, turn: Turn): Outcome {
    Outcome(r.(control := turn.control), turn.sent)
  }

  function Started(r: Reporter): Outcome {
    if r.control.autoReconnect || r.control.isShuttingDown then Outcome(r, [])
    else Steered(r, TriggerReconnect(IsRegistered(r.connection), r.control.(autoReconnect := true)))
  }

  function Next(r: Reporter, e: Event): Outcome
    requires Possible(r, e)
  {
    match e
    case Register => Steered(r, BeginRegister(IsRegistered(r.connection), r.control).0)
    case Start => Started(r)
    case Shutdown => ShutDown(r)
    case SetHealth(health) => Outcome(r.(currentHealth := health), [])
    case ReportActivity(report, throws) => Reported(r, report, throws)
    case HeartbeatDue(throws) => SendHeartbeat(r, throws)
    case Responded(call, handle, throws) => Answered(r, call, handle, throws)
    case Refused(call) => Settle(Outcome(Received(r, call), []), call, false)
    case Woke => Steered(r, LoopTurn(IsRegistered(r.connection), r.control))
    case StreamFailed => StreamGone(r)
  }

  // ----- runs -----

  ghost predicate Follows(run: seq<Reporter>, events: seq<Event>, i: nat)
    requires i < |events| && i + 1 < |run|
  {
    Possible(run[i], events[i]) && run[i + 1] == Next(run[i], events[i]).reporter
  }

  ghost predicate Run(run: seq<Reporter>, events: seq<Event>) {
    && |run| == |events| + 1
    && (exists enableActivity :: run[0] == Created(enableActivity))
    && forall i :: 0 <= i < |events| ==> Follows(run, events, i)
  }
}
