/** A reporter and the store it reports to, with the messages under way between them. */
module Zombies {
  import opened Wrappers
  import opened Topology
  import opened Reporting
  import ReporterInvariant
  import S = StoreSpec
  import StoreInvariant

  /** `wire` holds the messages to the server, `replies` the handles on their way back, `mine` all ids ever
      given to this reporter. */
  datatype World = World(
    reporter: Reporter,
    store: S.State,
    wire: multiset<Message>,
    replies: map<nat, Handle>,
    mine: set<string>)

  /** Messages may be delayed, overtake each other or get lost. Everything else that happens to the store, the
      calls of other reporters and its timers, happens elsewhere. */
  datatype Move =
    | ReporterDoes(event: Event)
    | Lost(message: Message)
    | Delivered(message: Message, req: RegisterRequest, id: string, now: int)
    | Elsewhere(op: S.Op)

  function ServerOp(message: Message, req: RegisterRequest, id: string, now: int): S.Op {
    match message
    case RegisterCall(_) => S.DoRegister(req, id, now)
    case Beat(beat, _) => S.DoHeartbeat(beat, now)
    case Report(event) => S.DoActivity(event, now)
    case UnregisterCall(serviceId) => S.DoUnregister(serviceId)
  }

  /** The id an operation speaks for. */
  function About(op: S.Op): Option<string> {
    match op
    case DoRegister(_, id, _) => Some(id)
    case DoUnregister(id) => Some(id)
    case DoHeartbeat(beat, _) => Some(beat.serviceId)
    case DoActivity(event, _) => Some(event.serviceId)
    case DoFlush(_) => None
    case DoSweep(_) => None
  }

  /** Ids are drawn at random: never empty, never drawn before. Nobody else uses the ids of this reporter. */
  predicate Enabled(w: World, m: Move) {
    match m
    case ReporterDoes(e) =>
      && Possible(w.reporter, e)
      && (e.Responded? && e.handle.Some? ==> e.call in w.replies && e.handle.value == w.replies[e.call])
    case Lost(message) => message in w.wire
    case Delivered(message, _, id, now) =>
      && message in w.wire && now > 0
      && (message.RegisterCall? ==> id != "" && id !in w.store.services && id !in w.mine)
    case Elsewhere(op) =>
      && StoreInvariant.PositiveClock(op) && S.Fresh(w.store, op)
      && (About(op).Some? ==> About(op).value !in w.mine)
  }

  function After(cfg: S.Config, w: World, m: Move): World
    requires Enabled(w, m)
  {
    match m
    case ReporterDoes(e) =>
      var next := Next(w.reporter, e);
      w.(reporter := next.reporter, wire := w.wire + multiset(next.sent),
         replies := if e.Responded? then w.replies - {e.call} else w.replies)
    case Lost(message) => w.(wire := w.wire - multiset{message})
    case Delivered(message, req, id, now) =>
      var s := w.(store := S.StateAfter(cfg, w.store, ServerOp(message, req, id, now)),
                  wire := w.wire - multiset{message});
      if message.RegisterCall? then
        s.(replies := w.replies[message.call := Handle(id, cfg.heartbeatIntervalMs, cfg.timeoutMultiplier)],
           mine := w.mine + {id})
      else s
    case Elsewhere(op) => w.(store := S.StateAfter(cfg, w.store, op))
  }

  ghost predicate Follows(cfg: S.Config, run: seq<World>, moves: seq<Move>, i: nat)
    requires i < |moves| && i + 1 < |run|
  {
    Enabled(run[i], moves[i]) && run[i + 1] == After(cfg, run[i], moves[i])
  }

  /** From any moment at which the reporter is created. */
  ghost predicate Run(cfg: S.Config, run: seq<World>, moves: seq<Move>) {
    && |run| == |moves| + 1
    && run[0].reporter == Created(run[0].reporter.enableActivity)
    && StoreInvariant.Invariant(run[0].store)
    && run[0].wire == multiset{} && run[0].replies == map[] && run[0].mine == {}
    && forall i :: 0 <= i < |moves| ==> Follows(cfg, run, moves, i)
  }

  // ----- what every world keeps -----

  /** An id on its way to the reporter is on its way once, and has not been used yet. */
  predicate Undelivered(w: World) {
    && (forall call :: call in w.replies ==> w.replies[call].serviceId != w.reporter.connection.serviceId)
    && (forall a, b :: a in w.replies && b in w.replies && a != b ==> w.replies[a].serviceId != w.replies[b].serviceId)
    && (forall call, message :: call in w.replies && message in w.wire && message.Beat? ==>
          message.beat.serviceId != w.replies[call].serviceId)
    && (forall message :: message in w.wire && message.Beat? ==> message.beat.serviceId in w.mine)
    && (forall message :: message in w.wire && message.UnregisterCall? ==> message.serviceId in w.mine)
  }

  predicate Traffic(w: World) {
    && "" !in w.mine
    && (w.reporter.connection.serviceId != "" ==> w.reporter.connection.serviceId in w.mine)
    && (forall call :: call in w.replies ==> call < w.reporter.control.nextCall && w.replies[call].serviceId in w.mine)
    && Undelivered(w)
    && (forall message :: message in w.wire && message.RegisterCall? ==> message.call < w.reporter.control.nextCall)
  }

  predicate Sound(w: World) {
    ReporterInvariant.Invariant(w.reporter) && StoreInvariant.Invariant(w.store) && Traffic(w)
  }

  lemma StoreOpKeeps(cfg: S.Config, s: S.State, op: S.Op)
    requires StoreInvariant.Invariant(s) && S.Fresh(s, op) && StoreInvariant.PositiveClock(op)
    ensures StoreInvariant.Invariant(S.StateAfter(cfg, s, op))
  {
    match op
    case DoRegister(req, id, now) => StoreInvariant.RegisterKeepsInvariant(cfg, s, req, id, now);
    case DoHeartbeat(beat, now) => StoreInvariant.HeartbeatKeepsInvariant(cfg, s, beat, now);
    case DoUnregister(id) => StoreInvariant.RemoveKeepsInvariant(s, id);
    case DoActivity(event, now) => StoreInvariant.ActivityKeepsInvariant(cfg, s, event, now);
    case DoFlush(now) => StoreInvariant.FlushKeepsInvariant(cfg, s, now);
    case DoSweep(now) => StoreInvariant.SweepKeepsInvariant(cfg, s, now);
  }

  /** Nothing but numbered registration calls. */
  predicate CallsOnly(before: Control, after: Control, sent: seq<Message>) {
    && (forall x :: x in sent ==> x.RegisterCall? && x.call < after.nextCall)
    && before.nextCall <= after.nextCall
    && (forall call :: call in after.pending ==> call in before.pending || call >= before.nextCall)
    && (before.isShuttingDown ==> after.isShuttingDown)
  }

  lemma LoopSendsCalls(registered: bool, c: Control)
    ensures var (turn, _) := BeginRegister(registered, c); CallsOnly(c, turn.control, turn.sent)
    ensures CallsOnly(c, LoopTurn(registered, c).control, LoopTurn(registered, c).sent)
    ensures CallsOnly(c, TriggerReconnect(registered, c).control, TriggerReconnect(registered, c).sent)
  {
  }

  /** Heartbeats and unregistrations carry only the id held before or taken on in this step; calls are numbered
      in turn. */
  predicate CurrentOnly(r: Reporter, o: Outcome, id: string) {
    && (forall x :: x in o.sent && x.Beat? ==> x.beat.serviceId == id != "")
    && (forall x :: x in o.sent && x.UnregisterCall? ==> x.serviceId == id != "")
    && (forall x :: x in o.sent && x.RegisterCall? ==> x.call < o.reporter.control.nextCall)
    && CallsOnly(r.control, o.reporter.control, [])
    && (o.reporter.connection.serviceId == "" || o.reporter.connection.serviceId == id)
  }

  lemma StreamGoneSends(r: Reporter)
    ensures CurrentOnly(r, StreamGone(r), r.connection.serviceId)
  {
    LoopSendsCalls(false, r.control);
  }

  lemma HeartbeatSends(r: Reporter, throws: bool)
    ensures CurrentOnly(r, SendHeartbeat(r, throws), r.connection.serviceId)
  {
    StreamGoneSends(r.(connection := r.connection.(heartbeatSeq := r.connection.heartbeatSeq + 1)));
  }

  lemma ConnectedSends(r: Reporter, h: Handle, throws: bool)
    ensures CurrentOnly(r, Connected(r, h, throws), h.serviceId)
  {
    var c := r.connection.(serviceId := h.serviceId, heartbeatIntervalMs := Some(h.heartbeatIntervalMs),
                           timeoutMultiplier := Some(h.timeoutMultiplier), heartbeatSeq := 0);
    HeartbeatSends(r.(connection := c.(heartbeatStream := true)), throws);
  }

  function IdInStep(r: Reporter, e: Event): string
    requires Possible(r, e)
  {
    if e.Responded? && !r.control.isShuttingDown && e.handle.Some? then e.handle.value.serviceId
    else r.connection.serviceId
  }

  lemma AnsweredSends(r: Reporter, call: nat, handle: Option<Handle>, throws: bool)
    requires Possible(r, Responded(call, handle, throws))
    ensures CurrentOnly(r, Answered(r, call, handle, throws), IdInStep(r, Responded(call, handle, throws)))
  {
    if handle.Some? {
      ConnectedSends(Received(r, call), handle.value, throws);
    }
  }

  lemma CallsSend(r: Reporter, e: Event)
    requires Possible(r, e) && e in {Register, Start, Shutdown, Woke}
    ensures CurrentOnly(r, Next(r, e), r.connection.serviceId)
  {
    LoopSendsCalls(IsRegistered(r.connection), r.control);
    LoopSendsCalls(IsRegistered(r.connection), r.control.(autoReconnect := true));
  }

  lemma ReportSends(r: Reporter, report: ActivityEvent, throws: bool)
    ensures CurrentOnly(r, Reporting.Reported(r, report, throws), r.connection.serviceId)
  {
    StreamGoneSends(r);
  }

  lemma SendsOnlyCurrent(r: Reporter, e: Event)
    requires Possible(r, e)
    ensures CurrentOnly(r, Next(r, e), IdInStep(r, e))
  {
    match e
    case ReportActivity(report, throws) => ReportSends(r, report, throws);
    case HeartbeatDue(throws) => HeartbeatSends(r, throws);
    case Responded(call, handle, throws) => AnsweredSends(r, call, handle, throws);
    case StreamFailed => StreamGoneSends(r);
    case SetHealth(_) =>
    case Refused(_) =>
    case _ => CallsSend(r, e);
  }

  /** The reporter goes on with the id it holds, or takes one on that no reply carries any more. */
  lemma OutcomeTraffic(w: World, o: Outcome, id: string, replies: map<nat, Handle>)
    requires Traffic(w) && CurrentOnly(w.reporter, o, id)
    requires forall call :: call in replies ==>
      call in w.replies && replies[call] == w.replies[call] && replies[call].serviceId != id
    requires id != "" ==> id in w.mine
    ensures Traffic(w.(reporter := o.reporter, wire := w.wire + multiset(o.sent), replies := replies))
  {
  }

  lemma ReporterMoveTraffic(cfg: S.Config, w: World, e: Event)
    requires Traffic(w) && Enabled(w, ReporterDoes(e))
    ensures Traffic(After(cfg, w, ReporterDoes(e)))
  {
    SendsOnlyCurrent(w.reporter, e);
    OutcomeTraffic(w, Next(w.reporter, e), IdInStep(w.reporter, e),
                   if e.Responded? then w.replies - {e.call} else w.replies);
  }

  lemma DeliveryTraffic(cfg: S.Config, w: World, m: Move)
    requires Traffic(w) && Enabled(w, m) && m.Delivered?
    ensures Traffic(After(cfg, w, m))
  {
  }

  lemma StoreFramed(cfg: S.Config, w: World, m: Move)
    requires StoreInvariant.Invariant(w.store) && Enabled(w, m)
    ensures StoreInvariant.Invariant(After(cfg, w, m).store)
  {
    match m
    case Delivered(message, req, id, now) => StoreOpKeeps(cfg, w.store, ServerOp(message, req, id, now));
    case Elsewhere(op) => StoreOpKeeps(cfg, w.store, op);
    case _ =>
  }

  lemma StepSound(cfg: S.Config, w: World, m: Move)
    requires Sound(w) && Enabled(w, m)
    ensures Sound(After(cfg, w, m))
  {
    StoreFramed(cfg, w, m);
    match m
    case ReporterDoes(e) =>
      ReporterMoveTraffic(cfg, w, e);
      ReporterInvariant.StepKeepsInvariant(w.reporter, e);
    case Lost(message) =>
    case Delivered(_, _, _, _) => DeliveryTraffic(cfg, w, m);
    case Elsewhere(_) =>
  }

  lemma {:induction false} RunSound(cfg: S.Config, run: seq<World>, moves: seq<Move>, n: nat)
    requires Run(cfg, run, moves) && n < |run|
    ensures Sound(run[n])
    decreases n
  {
    if n > 0 {
      RunSound(cfg, run, moves, n - 1);
      assert Follows(cfg, run, moves, n - 1);
      StepSound(cfg, run[n - 1], moves[n - 1]);
    }
  }

  // ----- an id lives exactly as long as it is heard of -----

  function OpOf(m: Move): Option<S.Op> {
    match m
    case Delivered(message, req, id, now) => Some(ServerOp(message, req, id, now))
    case Elsewhere(op) => Some(op)
    case _ => None
  }

  predicate Hears(m: Move, id: string) {
    OpOf(m).Some? && OpOf(m).value.DoHeartbeat? && OpOf(m).value.beat.serviceId == id
  }

  /** When the server last heard a heartbeat of `id` before move n, if not since move i then `before`. */
  function LastHeard(moves: seq<Move>, i: nat, n: nat, id: string, before: int): int
    requires i <= n <= |moves|
    decreases n
  {
    if n == i then before
    else if Hears(moves[n - 1], id) then OpOf(moves[n - 1]).value.now
    else LastHeard(moves, i, n - 1, id, before)
  }

  /** Move n neither unregisters `id` nor sweeps it away for being silent longer than `bound`. */
  predicate Spared(moves: seq<Move>, i: nat, n: nat, id: string, before: int, bound: int)
    requires i <= n < |moves|
  {
    match OpOf(moves[n])
    case Some(DoUnregister(gone)) => gone != id
    case Some(DoSweep(now)) => now - LastHeard(moves, i, n, id, before) <= bound
    case _ => true
  }

  predicate SameTerms(a: S.ServiceRecord, b: S.ServiceRecord) {
    a.heartbeatIntervalMs == b.heartbeatIntervalMs && a.timeoutMultiplier == b.timeoutMultiplier
  }

  function Bound(record: S.ServiceRecord): int {
    record.heartbeatIntervalMs * record.timeoutMultiplier
  }

  /** One operation on the store, as far as `id` is concerned. */
  lemma OpOnId(cfg: S.Config, s: S.State, op: S.Op, id: string)
    requires op.DoRegister? ==> op.id != id
    ensures
      var s' := S.StateAfter(cfg, s, op);
      && (id !in s.services ==> id !in s'.services)
      && (id in s.services ==>
           && (id in s'.services <==>
                 && (op.DoUnregister? ==> op.id != id)
                 && (op.DoSweep? ==> op.now - s.services[id].lastHeartbeatMs <= Bound(s.services[id])))
           && (id in s'.services ==>
                 && SameTerms(s'.services[id], s.services[id])
                 && s'.services[id].lastHeartbeatMs ==
                      if op.DoHeartbeat? && op.beat.serviceId == id then op.now else s.services[id].lastHeartbeatMs))
  {
  }

  lemma MoveOnId(cfg: S.Config, w: World, m: Move, id: string)
    requires Enabled(w, m) && id in w.mine
    ensures id in After(cfg, w, m).mine
    ensures After(cfg, w, m).store == if OpOf(m).Some? then S.StateAfter(cfg, w.store, OpOf(m).value) else w.store
    ensures OpOf(m).Some? && OpOf(m).value.DoRegister? ==> OpOf(m).value.id != id
  {
  }

  ghost predicate AllSpared(moves: seq<Move>, i: nat, n: nat, id: string, before: int, bound: int)
    requires i <= n <= |moves|
  {
    forall j :: i <= j < n ==> Spared(moves, i, j, id, before, bound)
  }

  lemma SparedFurther(moves: seq<Move>, i: nat, n: nat, id: string, before: int, bound: int)
    requires i <= n < |moves|
    ensures AllSpared(moves, i, n + 1, id, before, bound) <==>
              AllSpared(moves, i, n, id, before, bound) && Spared(moves, i, n, id, before, bound)
  {
  }

  /** An id given to the reporter stays with the store exactly until it is unregistered, or until a sweep comes
      more than interval times multiplier after its last heartbeat; the store knows when that was. */
  lemma {:induction false} LifeExactly(cfg: S.Config, run: seq<World>, moves: seq<Move>, i: nat, n: nat, id: string)
    requires Run(cfg, run, moves) && i <= n < |run|
    requires id in run[i].mine && id in run[i].store.services
    ensures id in run[n].mine
    ensures var record := run[i].store.services[id];
            && (id in run[n].store.services <==> AllSpared(moves, i, n, id, record.lastHeartbeatMs, Bound(record)))
            && (id in run[n].store.services ==>
                 && SameTerms(run[n].store.services[id], record)
                 && run[n].store.services[id].lastHeartbeatMs == LastHeard(moves, i, n, id, record.lastHeartbeatMs))
    decreases n
  {
    if i < n {
      LifeExactly(cfg, run, moves, i, n - 1, id);
      assert Follows(cfg, run, moves, n - 1);
      MoveOnId(cfg, run[n - 1], moves[n - 1], id);
      if OpOf(moves[n - 1]).Some? {
        OpOnId(cfg, run[n - 1].store, OpOf(moves[n - 1]).value, id);
      }
      var record := run[i].store.services[id];
      SparedFurther(moves, i, n - 1, id, record.lastHeartbeatMs, Bound(record));
    }
  }

  /** Once gone, gone for good. */
  lemma {:induction false} StaysGone(cfg: S.Config, run: seq<World>, moves: seq<Move>, i: nat, n: nat, id: string)
    requires Run(cfg, run, moves) && i <= n < |run|
    requires id in run[i].mine && id !in run[i].store.services
    ensures id in run[n].mine && id !in run[n].store.services
    decreases n
  {
    if i < n {
      StaysGone(cfg, run, moves, i, n - 1, id);
      assert Follows(cfg, run, moves, n - 1);
      MoveOnId(cfg, run[n - 1], moves[n - 1], id);
      if OpOf(moves[n - 1]).Some? {
        OpOnId(cfg, run[n - 1].store, OpOf(moves[n - 1]).value, id);
      }
    }
  }

  /** From its registration on, an id stays with the store exactly until it is unregistered, or until a sweep
      comes more than the store's interval times its multiplier after its registration or last heartbeat. */
  lemma RegisteredLife(cfg: S.Config, run: seq<World>, moves: seq<Move>, i: nat, n: nat)
    requires Run(cfg, run, moves) && i < n < |run|
    requires moves[i].Delivered? && moves[i].message.RegisterCall?
    ensures
      var id, now := moves[i].id, moves[i].now;
      && (id in run[n].store.services <==>
            AllSpared(moves, i + 1, n, id, now, cfg.heartbeatIntervalMs * cfg.timeoutMultiplier))
      && (id in run[n].store.services ==>
            run[n].store.services[id].lastHeartbeatMs == LastHeard(moves, i + 1, n, id, now))
  {
    assert Follows(cfg, run, moves, i);
    var id := moves[i].id;
    assert id in run[i + 1].mine && id in run[i + 1].store.services;
    var record := run[i + 1].store.services[id];
    assert record.lastHeartbeatMs == moves[i].now;
    assert Bound(record) == cfg.heartbeatIntervalMs * cfg.timeoutMultiplier;
    LifeExactly(cfg, run, moves, i + 1, n, id);
  }

  /** Shutting down puts the call that unregisters the id held under way. */
  lemma ShutdownUnregisters(cfg: S.Config, run: seq<World>, moves: seq<Move>, i: nat)
    requires Run(cfg, run, moves) && i < |moves| && moves[i] == ReporterDoes(Shutdown)
    requires run[i].reporter.connection.serviceId != ""
    ensures run[i + 1].wire == run[i].wire + multiset{UnregisterCall(run[i].reporter.connection.serviceId)}
    ensures run[i + 1].reporter.connection.serviceId == ""
  {
    RunSound(cfg, run, moves, i);
    assert Follows(cfg, run, moves, i);
  }

  /** Once a call to unregister is delivered, the id and the edges it was the source of are out of the store for
      good, without any sweep. */
  lemma UnregisteredForGood(cfg: S.Config, run: seq<World>, moves: seq<Move>, i: nat, n: nat)
    requires Run(cfg, run, moves) && i < n < |run|
    requires moves[i].Delivered? && moves[i].message.UnregisterCall?
    ensures moves[i].message.serviceId !in run[n].store.services
    ensures forall k :: k in run[n].store.edges ==>
      run[n].store.edges[k].edge.sourceServiceId != moves[i].message.serviceId
  {
    RunSound(cfg, run, moves, i);
    assert Follows(cfg, run, moves, i);
    var id := moves[i].message.serviceId;
    assert id in run[i + 1].mine && id !in run[i + 1].store.services;
    StaysGone(cfg, run, moves, i + 1, n, id);
    RunSound(cfg, run, moves, n);
  }

  // ----- no zombies -----

  /** The reporter does not hold the id, has no heartbeat for it under way, and cannot be handed it any more:
      a response that would do so has been given up on, or finds the reporter shutting down. */
  ghost predicate Dropped(w: World, id: string) {
    && id in w.mine
    && w.reporter.connection.serviceId != id
    && (forall message :: message in w.wire && message.Beat? ==> message.beat.serviceId != id)
    && (forall call :: call in w.replies && w.replies[call].serviceId == id ==>
          call !in w.reporter.control.pending || w.reporter.control.isShuttingDown)
  }

  lemma ReporterKeepsDropped(cfg: S.Config, w: World, e: Event, id: string)
    requires Sound(w) && Enabled(w, ReporterDoes(e)) && Dropped(w, id)
    ensures Dropped(After(cfg, w, ReporterDoes(e)), id)
  {
    SendsOnlyCurrent(w.reporter, e);
  }

  lemma StepKeepsDropped(cfg: S.Config, w: World, m: Move, id: string)
    requires Sound(w) && Enabled(w, m) && Dropped(w, id)
    ensures Dropped(After(cfg, w, m), id) && !Hears(m, id)
  {
    match m
    case ReporterDoes(e) => ReporterKeepsDropped(cfg, w, e, id);
    case Lost(_) =>
    case Delivered(_, _, _, _) =>
    case Elsewhere(_) =>
  }

  lemma {:induction false} DroppedIsSilent(cfg: S.Config, run: seq<World>, moves: seq<Move>, i: nat, n: nat,
                                           id: string, before: int)
    requires Run(cfg, run, moves) && i <= n < |run| && Dropped(run[i], id)
    ensures Dropped(run[n], id) && LastHeard(moves, i, n, id, before) == before
    decreases n
  {
    if i < n {
      DroppedIsSilent(cfg, run, moves, i, n - 1, id, before);
      RunSound(cfg, run, moves, n - 1);
      assert Follows(cfg, run, moves, n - 1);
      StepKeepsDropped(cfg, run[n - 1], moves[n - 1], id);
    }
  }

  /** No zombies: an id the reporter has dropped is gone, with the edges it was the source of, after the first
      sweep more than interval times multiplier past its last heartbeat, and never comes back. */
  lemma NoZombies(cfg: S.Config, run: seq<World>, moves: seq<Move>, i: nat, j: nat, n: nat, id: string, now: int)
    requires Run(cfg, run, moves) && i <= j < n < |run|
    requires Dropped(run[i], id) && moves[j] == Elsewhere(S.DoSweep(now))
    requires id in run[i].store.services ==>
               now - run[i].store.services[id].lastHeartbeatMs > Bound(run[i].store.services[id])
    ensures id !in run[n].store.services
    ensures forall k :: k in run[n].store.edges ==> run[n].store.edges[k].edge.sourceServiceId != id
  {
    if id in run[i].store.services {
      var record := run[i].store.services[id];
      DroppedIsSilent(cfg, run, moves, i, j, id, record.lastHeartbeatMs);
      assert !Spared(moves, i, j, id, record.lastHeartbeatMs, Bound(record));
      LifeExactly(cfg, run, moves, i, n, id);
    } else {
      StaysGone(cfg, run, moves, i, n, id);
    }
    RunSound(cfg, run, moves, n);
  }

  /** Whatever makes the reporter let go of its id, a failed stream or shutdown, leaves it dropped as soon as
      its last heartbeats have arrived or are lost. */
  lemma LettingGoDrops(cfg: S.Config, w: World, e: Event, id: string)
    requires Sound(w) && Enabled(w, ReporterDoes(e)) && id == w.reporter.connection.serviceId != ""
    requires After(cfg, w, ReporterDoes(e)).reporter.connection.serviceId != id
    ensures
      var w' := After(cfg, w, ReporterDoes(e));
      Dropped(w', id) <==> forall message :: message in w'.wire && message.Beat? ==> message.beat.serviceId != id
  {
  }

  /** An id whose response the reporter has given up on, or that comes back after shutdown, is dropped at once. */
  lemma UnclaimedIsDropped(w: World, call: nat)
    requires Sound(w) && call in w.replies
    requires call !in w.reporter.control.pending || w.reporter.control.isShuttingDown
    ensures Dropped(w, w.replies[call].serviceId)
  {
  }
}
