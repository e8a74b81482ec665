/** The service around the store: which calls are broadcast, and what each watching stream is sent. */
module Service {
  import opened Wrappers
  import opened Topology
  import opened StoreSpec
  import opened Store
  import opened Replica

  type WatcherId = nat

  /** Tells for a watcher and the index of an update whether writing it throws. */
  type WriteFaults = (WatcherId, nat) -> bool

  predicate Reaches(faults: WriteFaults, w: WatcherId, n: nat) {
    forall i :: 0 <= i < n ==> !faults(w, i)
  }

  /** The stream was sent its snapshot first. */
  predicate Welcomed(messages: seq<TopologyUpdate>) {
    messages != [] && messages[0].kind == SnapshotUpdate
  }

  /** No call of the store emits a snapshot. */
  lemma NoSnapshotEmitted(cfg: Config, s: State, op: Op, updates: seq<TopologyUpdate>, u: TopologyUpdate)
    requires Emits(cfg, s, op, updates) && u in updates
    ensures u.kind != SnapshotUpdate
  {
  }

  lemma NoSnapshotLater(cfg: Config, s: State, op: Op, s': State, updates: seq<TopologyUpdate>,
                        messages: seq<TopologyUpdate>)
    requires Step(cfg, s, op, s', updates)
    ensures Welcomed(messages + updates) ==> Welcomed(messages)
  {
    if messages == [] && updates != [] {
      NoSnapshotEmitted(cfg, s, op, updates, updates[0]);
      assert messages + updates == updates;
    }
  }

  lemma UnwelcomedInSync(cfg: Config, s: State, clock: nat -> int)
    ensures InSync(cfg, s, [], clock) <==> s.services == map[] && s.edges == map[]
  {
  }

  class TopologyService {
    const store: TopologyStore
    /** For every watching stream, the messages written to it so far. */
    var watchers: map<WatcherId, seq<TopologyUpdate>>

    ghost predicate Valid()
      reads this, store
    {
      store.Valid() && Countable(store.Contents())
    }

    /** Whoever still watches and got its snapshot agrees with the store, whatever the clock of its dashboard
        shows. */
    ghost predicate AllInSync()
      reads this, store
    {
      forall w, clock :: w in watchers && Welcomed(watchers[w]) ==>
        InSync(store.cfg, store.Contents(), watchers[w], clock)
    }

    constructor (store: TopologyStore)
      requires store.Valid() && Countable(store.Contents())
      ensures this.store == store && watchers == map[] && Valid() && AllInSync()
    {
      this.store := store;
      watchers := map[];
    }

    /** The inner loop of the broadcast: one watcher, up to the first write that throws. */
    method WriteAll(w: WatcherId, updates: seq<TopologyUpdate>, faults: WriteFaults)
      returns (after: map<WatcherId, seq<TopologyUpdate>>)
      requires w in watchers
      ensures after == if Reaches(faults, w, |updates|) then watchers[w := watchers[w] + updates] else watchers - {w}
    {
      var written, i := watchers[w], 0;
      while i < |updates|
        invariant 0 <= i <= |updates| && Reaches(faults, w, i)
        invariant written == watchers[w] + updates[..i]
      {
        if faults(w, i) {
          return watchers - {w};
        }
        written := written + [updates[i]];
        i := i + 1;
      }
      assert updates[..i] == updates;
      after := watchers[w := written];
    }

    /** Writes the updates to every watcher in order; one whose stream throws is dropped. */
    method Broadcast(updates: seq<TopologyUpdate>, faults: WriteFaults)
      modifies this`watchers
      ensures watchers == map w | w in old(watchers) && Reaches(faults, w, |updates|) :: old(watchers)[w] + updates
    {
      ghost var before := watchers;
      if |updates| == 0 {
        assert forall w :: w in before ==> before[w] + updates == before[w];
        return;
      }
      var todo := watchers.Keys;
      while todo != {}
        invariant todo <= watchers.Keys <= before.Keys
        invariant forall w :: w in before ==> (w in watchers <==> w in todo || Reaches(faults, w, |updates|))
        invariant forall w :: w in watchers ==> watchers[w] == if w in todo then before[w] else before[w] + updates
        decreases todo
      {
        var w :| w in todo;
        todo := todo - {w};
        watchers := WriteAll(w, updates, faults);
      }
    }

    /** What every handler below does after its store call. */
    method Publish(ghost s: State, ghost op: Op, updates: seq<TopologyUpdate>, faults: WriteFaults)
      requires store.Valid() && Countable(s) && Fresh(s, op) && Step(store.cfg, s, op, store.Contents(), updates)
      requires forall w, clock :: w in watchers && Welcomed(watchers[w]) ==> InSync(store.cfg, s, watchers[w], clock)
      modifies this`watchers
      ensures Valid() && AllInSync()
      ensures watchers.Keys == set w | w in old(watchers) && Reaches(faults, w, |updates|)
    {
      StepDelivers(store.cfg, s, op, store.Contents(), updates);
      ghost var before := watchers;
      Broadcast(updates, faults);
      forall w, clock | w in watchers && Welcomed(watchers[w])
        ensures InSync(store.cfg, store.Contents(), watchers[w], clock)
      {
        NoSnapshotLater(store.cfg, s, op, store.Contents(), updates, before[w]);
        StepInSync(store.cfg, s, op, store.Contents(), updates, before[w], clock);
      }
    }

    method RegisterService(req: RegisterRequest, id: string, now: int, faults: WriteFaults)
      requires Valid() && AllInSync() && id !in store.services
      modifies this`watchers, store
      ensures Valid() && AllInSync()
      ensures store.Contents() == Register(store.cfg, old(store.Contents()), req, id, now).state
    {
      ghost var s := store.Contents();
      var updates := store.RegisterService(req, id, now);
      Publish(s, DoRegister(req, id, now), updates, faults);
    }

    method Heartbeat(req: HeartbeatRequest, now: int, faults: WriteFaults)
      requires Valid() && AllInSync()
      modifies this`watchers, store
      ensures Valid() && AllInSync()
      ensures store.Contents() == StoreSpec.Heartbeat(store.cfg, old(store.Contents()), req, now).state
    {
      ghost var s := store.Contents();
      var updates := store.RecordHeartbeat(req, now);
      Publish(s, DoHeartbeat(req, now), updates, faults);
    }

    method ReportActivity(event: ActivityEvent, now: int, faults: WriteFaults)
      requires Valid() && AllInSync()
      modifies this`watchers, store
      ensures Valid() && AllInSync()
      ensures store.Contents() == Activity(store.cfg, old(store.Contents()), event, now).state
    {
      ghost var s := store.Contents();
      var updates := store.RecordActivity(event, now);
      Publish(s, DoActivity(event, now), updates, faults);
    }

    /** Answers whether there was anything to remove. */
    method UnregisterService(id: string, faults: WriteFaults) returns (removed: bool)
      requires Valid() && AllInSync()
      modifies this`watchers, store
      ensures Valid() && AllInSync()
      ensures store.Contents() == Remove(old(store.Contents()), id)
      ensures removed <==> id in old(store.services)
    {
      ghost var s := store.Contents();
      var updates := store.UnregisterService(id);
      if id in s.services {
        assert RemoveSays(s, id, OfNode(NodeRemoved, s.services[id].node));
      }
      removed := |updates| > 0;
      if removed {
        assert updates[0] in updates;
      }
      Publish(s, DoUnregister(id), updates, faults);
    }

    method OnSweepTimer(now: int, faults: WriteFaults)
      requires Valid() && AllInSync()
      modifies this`watchers, store
      ensures Valid() && AllInSync()
      ensures store.Contents() == Sweep(store.cfg, old(store.Contents()), now)
    {
      ghost var s := store.Contents();
      var updates := store.SweepAll(now);
      Publish(s, DoSweep(now), updates, faults);
    }

    method OnFlushTimer(now: int, faults: WriteFaults)
      requires Valid() && AllInSync()
      modifies this`watchers, store
      ensures Valid() && AllInSync()
      ensures store.Contents() == Flush(store.cfg, old(store.Contents()), now)
    {
      ghost var s := store.Contents();
      var updates := store.FlushActivity(now);
      Publish(s, DoFlush(now), updates, faults);
    }

    /** A new stream is added to the watchers and then sent a snapshot, before anything else. When that write
        throws, the stream goes on watching without one: it is in sync if and only if there was nothing to
        show. */
    method WatchTopology(w: WatcherId, now: int, throws: bool)
      requires Valid() && AllInSync() && w !in watchers
      modifies this`watchers
      ensures Valid() && AllInSync()
      ensures watchers.Keys == old(watchers.Keys) + {w} && (Welcomed(watchers[w]) <==> !throws)
      ensures forall clock: nat -> int :: InSync(store.cfg, store.Contents(), watchers[w], clock)
                <==> !throws || (store.services == map[] && store.edges == map[])
    {
      watchers := watchers[w := []];
      var snapshot := store.Snapshot(now);
      if throws {
        forall clock: nat -> int
          ensures InSync(store.cfg, store.Contents(), [], clock) <==> store.services == map[] && store.edges == map[]
        {
          UnwelcomedInSync(store.cfg, store.Contents(), clock);
        }
        return;
      }
      forall clock: nat -> int ensures InSync(store.cfg, store.Contents(), [OfSnapshot(snapshot)], clock) {
        FirstMessage(store.cfg, store.Contents(), snapshot, clock);
      }
      watchers := watchers[w := [OfSnapshot(snapshot)]];
    }

    /** A cancelled or closed stream stops watching. */
    method Unwatch(w: WatcherId)
      requires Valid() && AllInSync()
      modifies this`watchers
      ensures Valid() && AllInSync() && watchers == old(watchers) - {w}
    {
      watchers := watchers - {w};
    }
  }
}
