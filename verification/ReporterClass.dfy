/** The class itself. Calls of the server, timers and stream events arrive as method calls. */
module ReporterClass {
  import opened Wrappers
  import opened Topology
  import opened Reporting

  class TopologyReporter {
    var serviceId: string
    var heartbeatIntervalMs: Option<int>
    var timeoutMultiplier: Option<int>
    var heartbeatSeq: nat
    var heartbeatStream: bool
    var heartbeatTimer: bool
    var liveIntervals: int
    var activityStream: bool
    var currentHealth: Option<HealthState>
    var registerInFlight: Option<nat>
    var reconnectPromise: bool
    var loop: Loop
    var retryAttempt: nat
    var autoReconnect: bool
    var isShuttingDown: bool
    const enableActivity: bool
    var nextCall: nat
    var pending: set<nat>

    ghost function ConnectionValue(): Connection
      reads this
    {
      Connection(serviceId, heartbeatIntervalMs, timeoutMultiplier, heartbeatSeq, heartbeatStream, heartbeatTimer,
                 activityStream)
    }

    ghost function ControlValue(): Control
      reads this
    {
      Control(registerInFlight, reconnectPromise, loop, retryAttempt, autoReconnect, isShuttingDown, nextCall, pending)
    }

    ghost function Value(): Reporter
      reads this
    {
      Reporter(ConnectionValue(), liveIntervals, ControlValue(), currentHealth, enableActivity)
    }

    constructor (enableActivity: bool)
      ensures Value() == Created(enableActivity)
    {
      serviceId, heartbeatIntervalMs, timeoutMultiplier, heartbeatSeq := "", None, None, 0;
      heartbeatStream, heartbeatTimer, liveIntervals, activityStream, currentHealth := false, false, 0, false, None;
      registerInFlight, reconnectPromise, loop, retryAttempt := None, false, NotRunning, 0;
      autoReconnect, isShuttingDown, nextCall, pending := false, false, 0, {};
      this.enableActivity := enableActivity;
    }

    method Register() returns (sent: seq<Message>, waits: Option<nat>)
      modifies `registerInFlight, `nextCall, `pending
      ensures (Turn(ControlValue(), sent), waits) == BeginRegister(serviceId != "", old(ControlValue()))
      ensures waits == if serviceId == "" then registerInFlight else None
      ensures serviceId == "" ==> waits.Some?
      ensures sent == if waits.Some? && old(registerInFlight) == None then [RegisterCall(waits.value)] else []
    {
      if serviceId != "" {
        return [], None;
      }
      if registerInFlight.Some? {
        return [], registerInFlight;
      }
      var call := nextCall;
      nextCall := nextCall + 1;
      pending := pending + {call};
      registerInFlight := Some(call);
      return [RegisterCall(call)], Some(call);
    }

    /** One pass of the loop, up to where it suspends. */
    method ConnectWithRetry() returns (sent: seq<Message>)
      modifies `registerInFlight, `reconnectPromise, `loop, `retryAttempt, `nextCall, `pending
      ensures Turn(ControlValue(), sent) == LoopTurn(serviceId != "", old(ControlValue()))
    {
      sent := [];
      if isShuttingDown || !autoReconnect {
        loop, reconnectPromise := NotRunning, false;
        return;
      }
      var waits;
      sent, waits := Register();
      if waits.Some? {
        loop := Awaiting(waits.value);
      } else {
        retryAttempt := 0;
        loop, reconnectPromise := NotRunning, false;
      }
    }

    method TriggerReconnectNow() returns (sent: seq<Message>)
      modifies `registerInFlight, `reconnectPromise, `loop, `retryAttempt, `nextCall, `pending
      ensures Turn(ControlValue(), sent) == TriggerReconnect(serviceId != "", old(ControlValue()))
    {
      sent := [];
      if reconnectPromise || isShuttingDown || !autoReconnect {
        return;
      }
      reconnectPromise := true;
      sent := ConnectWithRetry();
    }

    method Start() returns (sent: seq<Message>)
      modifies this
      ensures Outcome(Value(), sent) == Started(old(Value()))
    {
      sent := [];
      if autoReconnect || isShuttingDown {
        return;
      }
      autoReconnect := true;
      sent := TriggerReconnectNow();
    }

    method StopBeating()
      modifies `heartbeatTimer, `liveIntervals, `heartbeatStream
      ensures !heartbeatTimer && !heartbeatStream
      ensures liveIntervals == old(liveIntervals) - if old(heartbeatTimer) then 1 else 0
    {
      if heartbeatTimer {
        liveIntervals := liveIntervals - 1;
        heartbeatTimer := false;
      }
      if heartbeatStream {
        heartbeatStream := false;
      }
    }

    method EndActivityStream()
      modifies `activityStream
      ensures !activityStream
    {
      if activityStream {
        activityStream := false;
      }
    }

    method ResetConnectionState()
      modifies `heartbeatTimer, `liveIntervals, `heartbeatStream, `activityStream,
               `serviceId, `heartbeatIntervalMs, `timeoutMultiplier, `heartbeatSeq
      ensures ConnectionValue() == DISCONNECTED
      ensures liveIntervals == old(liveIntervals) - if old(heartbeatTimer) then 1 else 0
    {
      StopBeating();
      EndActivityStream();
      serviceId := "";
      heartbeatIntervalMs := None;
      timeoutMultiplier := None;
      heartbeatSeq := 0;
    }

    method HandleStreamGone() returns (sent: seq<Message>)
      modifies this
      ensures Outcome(Value(), sent) == StreamGone(old(Value()))
    {
      sent := [];
      if isShuttingDown {
        return;
      }
      if !autoReconnect {
        return;
      }
      ResetConnectionState();
      sent := TriggerReconnectNow();
    }

    method ReportNow(report: ActivityEvent, throws: bool) returns (sent: seq<Message>)
      modifies this
      ensures Outcome(Value(), sent) == Reported(old(Value()), report, throws)
    {
      sent := [];
      if !activityStream || serviceId == "" {
        return;
      }
      if throws {
        sent := HandleStreamGone();
      } else {
        sent := [Report(report.(serviceId := serviceId))];
      }
    }

    method SetCurrentHealth(health: Option<HealthState>)
      modifies this
      ensures Value() == old(Value()).(currentHealth := health)
    {
      currentHealth := health;
    }

    method MarkShutdown()
      modifies `isShuttingDown, `autoReconnect, `registerInFlight, `reconnectPromise
      ensures ControlValue() == old(ControlValue()).(
                isShuttingDown := true, autoReconnect := false, inFlight := None, reconnecting := false)
    {
      isShuttingDown := true;
      autoReconnect := false;
      registerInFlight := None;
      reconnectPromise := false;
    }

    method ShutdownNow() returns (sent: seq<Message>)
      modifies this
      ensures Outcome(Value(), sent) == ShutDown(old(Value()))
      ensures sent == if !old(isShuttingDown) && old(serviceId) != "" then [UnregisterCall(old(serviceId))] else []
      ensures isShuttingDown && (old(isShuttingDown) ==> Value() == old(Value()))
    {
      sent := [];
      if isShuttingDown {
        return;
      }
      MarkShutdown();
      var id := serviceId;
      ResetConnectionState();
      if id != "" {
        sent := [UnregisterCall(id)];
      }
    }

    method TakeOn(h: Handle)
      modifies `serviceId, `heartbeatIntervalMs, `timeoutMultiplier, `heartbeatSeq
      ensures ConnectionValue() == old(ConnectionValue()).(
                serviceId := h.serviceId, heartbeatIntervalMs := Some(h.heartbeatIntervalMs),
                timeoutMultiplier := Some(h.timeoutMultiplier), heartbeatSeq := 0)
    {
      serviceId := h.serviceId;
      heartbeatIntervalMs := Some(h.heartbeatIntervalMs);
      timeoutMultiplier := Some(h.timeoutMultiplier);
      heartbeatSeq := 0;
    }

    method BeatNow(throws: bool) returns (sent: seq<Message>)
      modifies this
      ensures Outcome(Value(), sent) == SendHeartbeat(old(Value()), throws)
    {
      sent := [];
      if serviceId == "" || !heartbeatStream {
        return;
      }
      heartbeatSeq := heartbeatSeq + 1;
      if throws {
        sent := HandleStreamGone();
      } else {
        sent := [Beat(HeartbeatRequest(serviceId, currentHealth), heartbeatSeq)];
      }
    }

    method StartBeating(throws: bool) returns (sent: seq<Message>)
      modifies this
      ensures Outcome(Value(), sent) == StartHeartbeat(old(Value()), throws)
    {
      sent := [];
      if serviceId == "" || heartbeatIntervalMs.None? || heartbeatStream {
        return;
      }
      heartbeatStream := true;
      sent := BeatNow(throws);
      heartbeatTimer := true;
      liveIntervals := liveIntervals + 1;
    }

    method Connect(h: Handle, throws: bool) returns (sent: seq<Message>)
      modifies this
      ensures Outcome(Value(), sent) == Connected(old(Value()), h, throws)
    {
      TakeOn(h);
      sent := StartBeating(throws);
      if enableActivity {
        activityStream := true;
      }
    }

    method NextRetryDelayMs() returns (delayMs: int)
      modifies this`retryAttempt
      ensures delayMs == RetryDelayMs(old(retryAttempt)) && retryAttempt == NextAttempt(old(retryAttempt))
    {
      var attemptDelay := 1000 * Pow2(retryAttempt);
      retryAttempt := if retryAttempt + 1 < 10 then retryAttempt + 1 else 10;
      delayMs := if attemptDelay < 15000 then attemptDelay else 15000;
    }

    /** The promise of the call settles: first register() runs on, then the loop if it waits for it. */
    method SettleCall(call: nat, succeeded: bool)
      modifies `registerInFlight, `reconnectPromise, `loop, `retryAttempt
      ensures ControlValue() == Settled(old(ControlValue()), call, succeeded)
      ensures Value() == old(Value()).(control := Settled(old(ControlValue()), call, succeeded))
    {
      if registerInFlight == Some(call) {
        registerInFlight := None;
      }
      if loop != Awaiting(call) {
        return;
      }
      if succeeded {
        retryAttempt := 0;
        loop, reconnectPromise := NotRunning, false;
      } else if isShuttingDown || !autoReconnect {
        loop, reconnectPromise := NotRunning, false;
      } else {
        var delayMs := NextRetryDelayMs();
        loop := Sleeping(delayMs);
      }
    }

    /** The server's answer to a registration call. */
    method OnResponse(call: nat, handle: Option<Handle>, throws: bool) returns (sent: seq<Message>)
      requires call in pending
      modifies this
      ensures Outcome(Value(), sent) == Next(old(Value()), Responded(call, handle, throws))
    {
      sent := [];
      ghost var before := Value();
      pending := pending - {call};
      assert Value() == Received(before, call);
      if isShuttingDown || handle.None? {
        SettleCall(call, false);
        return;
      }
      sent := Connect(handle.value, throws);
      SettleCall(call, true);
    }

    /** The call failed, or its deadline passed. */
    method OnRefusal(call: nat)
      requires call in pending
      modifies this
      ensures Value() == Next(old(Value()), Refused(call)).reporter
    {
      pending := pending - {call};
      SettleCall(call, false);
    }

    method OnRetryTimer() returns (sent: seq<Message>)
      requires loop.Sleeping?
      modifies this
      ensures Outcome(Value(), sent) == Next(old(Value()), Woke)
    {
      sent := ConnectWithRetry();
    }
  }
}
