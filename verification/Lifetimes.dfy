/** How long a service stays with the store, and when it shows as stale or active, told from the calls alone. */
module Lifetimes {
  import opened Wrappers
  import opened Topology
  import opened StoreSpec

  predicate Registers(op: Op, id: string) {
    op.DoRegister? && op.id == id
  }

  predicate Beats(op: Op, id: string) {
    op.DoHeartbeat? && op.beat.serviceId == id
  }

  predicate Reports(op: Op, id: string) {
    op.DoActivity? && op.event.serviceId == id
  }

  /** When `id`, registered by call i, last showed a sign of life before call n: at its registration or at its
      last heartbeat. */
  function LastHeard(ops: seq<Op>, i: nat, n: nat, id: string): int
    requires i < n <= |ops| && ops[i].DoRegister?
    decreases n
  {
    if n == i + 1 then ops[i].now
    else if Beats(ops[n - 1], id) then ops[n - 1].now
    else LastHeard(ops, i, n - 1, id)
  }

  /** Call j does not unregister `id`, nor sweep it away. */
  predicate Spared(cfg: Config, ops: seq<Op>, i: nat, j: nat, id: string)
    requires i < j < |ops| && ops[i].DoRegister?
  {
    && ops[j] != DoUnregister(id)
    && (ops[j].DoSweep? ==>
          ops[j].now - LastHeard(ops, i, j, id) <= cfg.heartbeatIntervalMs * cfg.timeoutMultiplier)
  }

  /** Call i registered `id`, and no call since, up to call n, took it away. */
  ghost predicate Alive(cfg: Config, ops: seq<Op>, i: nat, n: nat, id: string)
    requires i < n <= |ops|
  {
    Registers(ops[i], id) && forall j :: i < j < n ==> Spared(cfg, ops, i, j, id)
  }

  /** What a service declared about itself. */
  predicate Declares(node: ServiceNode, req: RegisterRequest, id: string) {
    && node.serviceId == id && node.serviceName == req.serviceName
    && node.serviceType == req.serviceType && node.language == req.language
    && node.version == req.version && node.address == req.address && node.host == req.host
    && node.metadata == req.metadata
  }

  predicate HeldFrom(cfg: Config, r: ServiceRecord, req: RegisterRequest, id: string) {
    && Declares(r.node, req, id)
    && r.heartbeatIntervalMs == cfg.heartbeatIntervalMs && r.timeoutMultiplier == cfg.timeoutMultiplier
  }

  /** One call, as far as the presence of `id` is concerned. */
  lemma OpOnPresence(cfg: Config, s: State, op: Op, id: string)
    requires Fresh(s, op)
    ensures
      var s' := StateAfter(cfg, s, op);
      && (Registers(op, id) ==>
            && id !in s.services && id in s'.services
            && HeldFrom(cfg, s'.services[id], op.req, id) && s'.services[id].lastHeartbeatMs == op.now)
      && (!Registers(op, id) && id !in s.services ==> id !in s'.services)
      && (id in s.services ==>
            && (id in s'.services <==>
                  && op != DoUnregister(id)
                  && (op.DoSweep? ==> op.now - s.services[id].lastHeartbeatMs
                                      <= s.services[id].heartbeatIntervalMs * s.services[id].timeoutMultiplier))
            && (id in s'.services ==>
                  && var r, r' := s.services[id], s'.services[id];
                  && r'.lastHeartbeatMs == (if Beats(op, id) then op.now else r.lastHeartbeatMs)
                  && r'.heartbeatIntervalMs == r.heartbeatIntervalMs && r'.timeoutMultiplier == r.timeoutMultiplier
                  && r'.node == r.node.(state := r'.node.state, health := r'.node.health,
                                        lastHeartbeatMs := r'.node.lastHeartbeatMs,
                                        lastActivityMs := r'.node.lastActivityMs)))
  {
  }

  /** A service that is alive by its calls is held, under what it declared and the terms it was given, with the
      time it was last heard. */
  lemma {:induction false} AliveIsHeld(cfg: Config, states: seq<State>, ops: seq<Op>,
                                       emitted: seq<seq<TopologyUpdate>>, i: nat, n: nat, id: string)
    requires Run(cfg, states, ops, emitted) && i < n < |states| && Alive(cfg, ops, i, n, id)
    ensures id in states[n].services
    ensures HeldFrom(cfg, states[n].services[id], ops[i].req, id)
    ensures states[n].services[id].lastHeartbeatMs == LastHeard(ops, i, n, id)
    decreases n
  {
    assert Follows(cfg, states, ops, emitted, n - 1);
    OpOnPresence(cfg, states[n - 1], ops[n - 1], id);
    if n > i + 1 {
      assert Alive(cfg, ops, i, n - 1, id) && Spared(cfg, ops, i, n - 1, id);
      AliveIsHeld(cfg, states, ops, emitted, i, n - 1, id);
    }
  }

  lemma {:induction false} HeldIsAlive(cfg: Config, states: seq<State>, ops: seq<Op>,
                                       emitted: seq<seq<TopologyUpdate>>, n: nat, id: string) returns (i: nat)
    requires Run(cfg, states, ops, emitted) && n < |states| && id in states[n].services
    ensures i < n && Alive(cfg, ops, i, n, id)
    decreases n
  {
    if n > 0 {
      assert Follows(cfg, states, ops, emitted, n - 1);
      OpOnPresence(cfg, states[n - 1], ops[n - 1], id);
      if Registers(ops[n - 1], id) {
        i := n - 1;
      } else {
        i := HeldIsAlive(cfg, states, ops, emitted, n - 1, id);
        AliveIsHeld(cfg, states, ops, emitted, i, n - 1, id);
        assert Spared(cfg, ops, i, n - 1, id);
      }
    }
  }

  /** In every run the store holds exactly the services that registered, did not unregister since, and were not
      swept away: no sweep came later than the interval times the multiplier after their registration or their
      last heartbeat. */
  lemma LifetimeExactly(cfg: Config, states: seq<State>, ops: seq<Op>, emitted: seq<seq<TopologyUpdate>>, n: nat,
                        id: string)
    requires Run(cfg, states, ops, emitted) && n < |states|
    ensures id in states[n].services <==> exists i: nat :: i < n && Alive(cfg, ops, i, n, id)
  {
    if id in states[n].services {
      var i := HeldIsAlive(cfg, states, ops, emitted, n, id);
    }
    if i: nat :| i < n && Alive(cfg, ops, i, n, id) {
      AliveIsHeld(cfg, states, ops, emitted, i, n, id);
    }
  }

  // ----- stale -----

  /** Call j is a sweep that finds `id` silent for more than two intervals. */
  predicate FindsSilent(cfg: Config, ops: seq<Op>, i: nat, j: nat, id: string)
    requires i < j < |ops| && ops[i].DoRegister?
  {
    ops[j].DoSweep? && ops[j].now - LastHeard(ops, i, j, id) > 2 * cfg.heartbeatIntervalMs
  }

  /** A sweep found `id` silent, and it has not been heard of since. */
  ghost predicate SilentSince(cfg: Config, ops: seq<Op>, i: nat, j: nat, n: nat, id: string)
    requires i < j < n <= |ops| && ops[i].DoRegister?
  {
    FindsSilent(cfg, ops, i, j, id) && forall m :: j < m < n ==> !Beats(ops[m], id) && !Reports(ops[m], id)
  }

  /** One call, as far as the state shown for `id` is concerned. */
  lemma OpOnState(cfg: Config, s: State, op: Op, id: string)
    requires Fresh(s, op) && id in StateAfter(cfg, s, op).services
    ensures
      var r' := StateAfter(cfg, s, op).services[id];
      && (Registers(op, id) ==> r'.node.state == Registered && r'.lastActivityMs == 0)
      && (!Registers(op, id) ==>
            && id in s.services
            && var r := s.services[id];
            && r'.lastActivityMs == (if Reports(op, id) then op.now else r.lastActivityMs)
            && (Reports(op, id) ==> r'.node.state == Active)
            && (Beats(op, id) ==> r'.node.state != Stale)
            && (Beats(op, id) ==> (r'.node.state == Active <==> r.node.state == Active))
            && (!Reports(op, id) && !Beats(op, id) && !op.DoSweep? ==> r'.node.state == r.node.state)
            && (op.DoSweep? ==>
                  && var silent := op.now - r.lastHeartbeatMs > 2 * r.heartbeatIntervalMs;
                  && (r'.node.state == Stale <==> r.node.state == Stale || silent)
                  && (r'.node.state == Active <==>
                        && r.node.state == Active && !silent
                        && !(r.lastActivityMs > 0 && op.now - r.lastActivityMs > cfg.idleTimeoutMs))))
  {
  }

  lemma SilentFurther(cfg: Config, ops: seq<Op>, i: nat, n: nat, next: nat, id: string)
    requires i < n < |ops| && next == n + 1 && ops[i].DoRegister?
    ensures (exists j: nat :: i < j < next && SilentSince(cfg, ops, i, j, next, id))
       <==> || FindsSilent(cfg, ops, i, n, id)
            || (&& !Beats(ops[n], id) && !Reports(ops[n], id)
                && exists j: nat :: i < j < n && SilentSince(cfg, ops, i, j, n, id))
  {
    if FindsSilent(cfg, ops, i, n, id) {
      assert SilentSince(cfg, ops, i, n, next, id);
    }
    if j: nat :| i < j < n && SilentSince(cfg, ops, i, j, n, id) && !Beats(ops[n], id) && !Reports(ops[n], id) {
      assert SilentSince(cfg, ops, i, j, next, id);
    }
    if j: nat :| i < j < next && SilentSince(cfg, ops, i, j, next, id) {
      if j < n {
        assert SilentSince(cfg, ops, i, j, n, id);
      }
    }
  }

  /** A service shows as stale exactly if a sweep found it silent for more than two intervals, and it has neither
      beaten nor reported activity since. */
  lemma {:induction false} StaleExactly(cfg: Config, states: seq<State>, ops: seq<Op>,
                                        emitted: seq<seq<TopologyUpdate>>, i: nat, n: nat, id: string)
    requires Run(cfg, states, ops, emitted) && i < n < |states| && Alive(cfg, ops, i, n, id)
    ensures id in states[n].services
    ensures states[n].services[id].node.state == Stale
       <==> exists j: nat :: i < j < n && SilentSince(cfg, ops, i, j, n, id)
    decreases n
  {
    AliveIsHeld(cfg, states, ops, emitted, i, n, id);
    assert Follows(cfg, states, ops, emitted, n - 1);
    OpOnState(cfg, states[n - 1], ops[n - 1], id);
    if n > i + 1 {
      assert Alive(cfg, ops, i, n - 1, id);
      AliveIsHeld(cfg, states, ops, emitted, i, n - 1, id);
      OpOnPresence(cfg, states[n - 1], ops[n - 1], id);
      StaleExactly(cfg, states, ops, emitted, i, n - 1, id);
      SilentFurther(cfg, ops, i, n - 1, n, id);
    }
  }

  // ----- active -----

  /** Call j does not mark `id`, which last reported at `reported`, as stale or idle. */
  predicate StaysActive(cfg: Config, ops: seq<Op>, i: nat, j: nat, id: string, reported: int)
    requires i < j < |ops| && ops[i].DoRegister?
  {
    ops[j].DoSweep? ==>
      !FindsSilent(cfg, ops, i, j, id) && !(reported > 0 && ops[j].now - reported > cfg.idleTimeoutMs)
  }

  /** Call j was the last report of `id` before call n, and no sweep has marked the service since. */
  ghost predicate ActiveSince(cfg: Config, ops: seq<Op>, i: nat, j: nat, n: nat, id: string)
    requires i < j < n <= |ops| && ops[i].DoRegister?
  {
    && Reports(ops[j], id)
    && forall m :: j < m < n ==> !Reports(ops[m], id) && StaysActive(cfg, ops, i, m, id, ops[j].now)
  }

  ghost predicate LastReport(ops: seq<Op>, j: nat, n: nat, id: string)
    requires j < n <= |ops|
  {
    Reports(ops[j], id) && forall m :: j < m < n ==> !Reports(ops[m], id)
  }

  lemma {:induction false} HeldReport(cfg: Config, states: seq<State>, ops: seq<Op>,
                                      emitted: seq<seq<TopologyUpdate>>, i: nat, j: nat, n: nat, id: string)
    requires Run(cfg, states, ops, emitted) && i < j < n < |states| && Alive(cfg, ops, i, n, id)
    requires LastReport(ops, j, n, id)
    ensures id in states[n].services && states[n].services[id].lastActivityMs == ops[j].now
    decreases n
  {
    AliveIsHeld(cfg, states, ops, emitted, i, n, id);
    assert Follows(cfg, states, ops, emitted, n - 1);
    assert Alive(cfg, ops, i, n - 1, id);
    AliveIsHeld(cfg, states, ops, emitted, i, n - 1, id);
    OpOnPresence(cfg, states[n - 1], ops[n - 1], id);
    OpOnState(cfg, states[n - 1], ops[n - 1], id);
    if n > j + 1 {
      HeldReport(cfg, states, ops, emitted, i, j, n - 1, id);
    }
  }

  lemma ActiveFurther(cfg: Config, ops: seq<Op>, i: nat, n: nat, next: nat, id: string)
    requires i < n < |ops| && next == n + 1 && ops[i].DoRegister?
    ensures (exists j: nat :: i < j < next && ActiveSince(cfg, ops, i, j, next, id))
       <==> || Reports(ops[n], id)
            || exists j: nat :: i < j < n && ActiveSince(cfg, ops, i, j, n, id)
                                && StaysActive(cfg, ops, i, n, id, ops[j].now)
  {
    if Reports(ops[n], id) {
      assert ActiveSince(cfg, ops, i, n, next, id);
    } else {
      if j: nat :| i < j < n && ActiveSince(cfg, ops, i, j, n, id) && StaysActive(cfg, ops, i, n, id, ops[j].now) {
        assert ActiveSince(cfg, ops, i, j, next, id);
      }
      if j: nat :| i < j < next && ActiveSince(cfg, ops, i, j, next, id) {
        assert ActiveSince(cfg, ops, i, j, n, id);
      }
    }
  }

  /** A service shows as active exactly if it has reported activity, and no sweep since its last report found it
      silent for more than two intervals or without activity for more than the idle timeout. */
  lemma {:induction false} ActiveExactly(cfg: Config, states: seq<State>, ops: seq<Op>,
                                         emitted: seq<seq<TopologyUpdate>>, i: nat, n: nat, id: string)
    requires Run(cfg, states, ops, emitted) && i < n < |states| && Alive(cfg, ops, i, n, id)
    ensures id in states[n].services
    ensures states[n].services[id].node.state == Active
       <==> exists j: nat :: i < j < n && ActiveSince(cfg, ops, i, j, n, id)
    decreases n
  {
    AliveIsHeld(cfg, states, ops, emitted, i, n, id);
    assert Follows(cfg, states, ops, emitted, n - 1);
    OpOnState(cfg, states[n - 1], ops[n - 1], id);
    if n > i + 1 {
      assert Alive(cfg, ops, i, n - 1, id);
      AliveIsHeld(cfg, states, ops, emitted, i, n - 1, id);
      OpOnPresence(cfg, states[n - 1], ops[n - 1], id);
      ActiveExactly(cfg, states, ops, emitted, i, n - 1, id);
      ActiveFurther(cfg, ops, i, n - 1, n, id);
      var before := n - 1;
      if j: nat :| i < j < before && ActiveSince(cfg, ops, i, j, before, id) {
        HeldReport(cfg, states, ops, emitted, i, j, before, id);
      }
    }
  }
}
