/** The runtime as it runs: one operation at a time over its engine, its store and the network. */
module RaftNodeClass {
  import opened RaftTypes
  import opened Machines
  import opened CoreSpec
  import opened RaftCoreClass
  import opened Stores
  import opened StoreClasses
  import opened NetworkClass
  import opened Runtime

  /** The commands a store holds as committed, in order. */
  function CommittedCommands(store: Store): seq<Entry> {
    Commands(store.entries[..Min(store.hard.commit, |store.entries|)])
  }

  class RaftNode<M(0)> {
    const app: App<M>
    const core: RaftCore
    const storage: DurableMemoryStorageState
    const transport: MemoryRaftTransport
    var machine: M
    var healthy: bool
    var lastRole: Role

    /** The node at a phase the fields do not show. */
    ghost function At(phase: Phase): Scene<M>
      reads this, core, storage, transport.network
    {
      Scene(Live(core.Value(), machine, phase), storage.Value(), transport.network.Value())
    }

    /** The fields agree with a finished scene, and a reported freeze has cost the node its health. */
    ghost predicate Shows(s: Scene<M>, wasHealthy: bool)
      reads this, core, storage, transport.network
    {
      && At(s.live.phase) == s
      && healthy == (wasHealthy && !(s.live.phase.Frozen? && s.live.phase.reported))
    }

    constructor (app: App<M>, core: RaftCore, storage: DurableMemoryStorageState, transport: MemoryRaftTransport, machine: M)
      ensures this.app == app && this.core == core && this.storage == storage && this.transport == transport
      ensures this.machine == machine && healthy && lastRole == core.role
    {
      this.app, this.core, this.storage, this.transport := app, core, storage, transport;
      this.machine, healthy, lastRole := machine, true, core.role;
    }

    /** Load, replay what is committed, record it as applied, and open the engine over the store. */
    static method Create(app: App<M>, cfg: Config, electionMin: int, electionMax: int, heartbeat: int,
                         storage: DurableMemoryStorageState, transport: MemoryRaftTransport)
      returns (node: RaftNode?<M>)
      requires StoreInv(storage.Value()) && storage.snapshot == None
      modifies storage
      ensures node != null ==> fresh(node) && fresh(node.core) && node.core.Valid() && node.app == app
                               && node.storage == storage && node.transport == transport && node.healthy
      ensures electionMin <= heartbeat || electionMax < electionMin ==> node == null && storage.Value() == old(storage.Value())
      ensures electionMin > heartbeat && electionMax >= electionMin ==>
                var r := Recover(app, cfg, old(storage.Value()));
                && storage.Value() == r.store
                && (node != null <==> r.Reopened? && OptionError(cfg, electionMin, heartbeat) == None)
                && (node != null ==> node.At(Idle) == Scene(r.live, r.store, transport.network.Value()))
      ensures node != null ==> Applied(app.apply, app.init, CommittedCommands(old(storage.Value()))) == Some(node.machine)
    {
      node := null;
      if electionMin <= heartbeat || electionMax < electionMin {
        return;
      }
      var hard, log, snap, applied := storage.Inspect();
      var machine := ReplayCommitted(app, hard.commit, log);
      if machine == None {
        return;
      }
      FoldIsApplied(app, app.init, log[..Min(hard.commit, |log|)]);
      if applied < hard.commit {
        var saved := storage.Persist(AppliedBatch(hard.commit));
        if saved.Refused? {
          return;
        }
        hard, log, snap, applied := storage.Inspect();
      }
      var engine, thrown := RaftCore.Create(cfg, electionMin, heartbeat, Persisted(hard, log, applied));
      if engine != null {
        node := new RaftNode(app, engine, storage, transport, machine.value);
      }
    }

    /** The committed entries are applied in order, and the first that throws ends the replay. */
    static method ReplayCommitted(app: App<M>, commit: nat, log: seq<Entry>) returns (machine: Option<M>)
      requires RunsFrom(log, 1)
      ensures machine == Fold(app, app.init, log[..Min(commit, |log|)])
    {
      var m, k := app.init, 0;
      ghost var goal := Min(commit, |log|);
      while k < |log|
        invariant 0 <= k <= |log| && Fold(app, app.init, log[..Min(k, goal)]) == Some(m)
      {
        var e := log[k];
        if e.index <= commit {
          assert log[..k + 1][..k] == log[..k];
          var next := ApplyEntry(app, m, e);
          if next == None {
            assert log[..goal][..k + 1] == log[..k + 1] && log[..k + 1][k] == e;
            FoldFails(app, app.init, log[..goal], k + 1);
            return None;
          }
          m := next.value;
        }
        k := k + 1;
      }
      machine := Some(m);
    }

    /** One queued operation: step the engine, see its Ready batch through, and announce a new role. */
    method Process(event: Event) returns (thrown: Thrown, announced: Option<Role>)
      requires core.Valid() && transport.nodeId == core.cfg.self
      modifies this, core, storage, transport.network
      ensures core.Valid()
      ensures var begun := old(At(Idle)).(live := Begun(old(At(Idle)).live, event));
              && Shows(Finished(app, begun, transport.started), old(healthy))
              && (thrown == Returned <==>
                    StepCore(old(core.Value()), event).Stepped? && !Finished(app, begun, transport.started).live.phase.Frozen?)
      ensures announced == if thrown == Returned && (old(core.role) != core.role || old(lastRole) != core.role)
                           then Some(core.role) else None
      ensures lastRole == if announced.Some? then core.role else old(lastRole)
    {
      hide Finished, StepCore;
      announced := None;
      var oldRole := core.role;
      var ready;
      StepKeepsCore(core.Value(), event);
      BatchIsOutstanding(core.Value(), event);
      ready, thrown := core.Step(event);
      if thrown == Returned && ready.Some? {
        thrown := ProcessReady(ready.value, event);
      } else {
        NothingToFinish(app, At(Idle), transport.started);
      }
      if thrown == Returned {
        if oldRole != core.role || lastRole != core.role {
          lastRole := core.role;
          announced := Some(core.role);
        }
      }
    }

    /** Save the batch, send its messages, apply its entries in order, and only then advance. */
    method ProcessReady(ready: Ready, ghost event: Event) returns (thrown: Thrown)
      requires core.Valid() && core.outstanding == Some(ready) && transport.nodeId == core.cfg.self
      modifies this, core, storage, transport.network
      ensures core.Valid() && lastRole == old(lastRole)
      ensures Shows(Finished(app, old(At(Saving(event))), transport.started), old(healthy))
      ensures thrown == Returned <==> !Finished(app, old(At(Saving(event))), transport.started).live.phase.Frozen?
    {
      ghost var goal := Finished(app, At(Saving(event)), transport.started);
      var saved := storage.Persist(ReadyBatch(ready));
      if saved.Refused? {
        healthy := false;
        return Raised(saved.error);
      }
      SendMessages(ready);
      thrown := ApplyCommitted(ready);
      if thrown == Returned {
        AdvanceKeepsCore(core.Value(), ready.id);
        thrown := core.Advance(ready.id);
      }
    }

    /** A message the transport refuses is reported and skipped. */
    method SendMessages(ready: Ready)
      requires core.outstanding == Some(ready) && transport.nodeId == core.cfg.self
      modifies transport.network
      ensures Finished(app, At(Applying(0)), transport.started) == Finished(app, old(At(Sending(0))), transport.started)
    {
      ghost var goal := Finished(app, At(Sending(0)), transport.started);
      var k := 0;
      while k < |ready.messages|
        invariant 0 <= k <= |ready.messages|
        invariant Finished(app, At(Sending(k)), transport.started) == goal
      {
        var taken := transport.Send(ready.messages[k].to, ready.messages[k]);
        k := k + 1;
      }
    }

    method ApplyCommitted(ready: Ready) returns (thrown: Thrown)
      requires core.outstanding == Some(ready)
      modifies this, storage
      ensures lastRole == old(lastRole)
      ensures var goal := Finished(app, old(At(Applying(0))), transport.started);
              if thrown == Returned
              then Finished(app, At(Applying(|ready.committed|)), transport.started) == goal && healthy == old(healthy)
              else Shows(goal, old(healthy)) && goal.live.phase.Frozen?
    {
      ghost var goal := Finished(app, At(Applying(0)), transport.started);
      var k := 0;
      while k < |ready.committed|
        invariant 0 <= k <= |ready.committed| && healthy == old(healthy) && lastRole == old(lastRole)
        invariant Finished(app, At(Applying(k)), transport.started) == goal
      {
        thrown := Apply(ready.committed[k], k);
        if thrown.Raised? {
          return;
        }
        k := k + 1;
      }
      thrown := Returned;
    }

    /** Apply one committed entry and record it; a failure on a command marks the node unhealthy. */
    method Apply(entry: Entry, ghost k: nat) returns (thrown: Thrown)
      modifies this, storage
      ensures lastRole == old(lastRole)
      ensures var s := AppliedOne(app, old(At(Applying(k))), entry, k);
              && Shows(s, old(healthy)) && (thrown == Returned <==> !s.live.phase.Frozen?)
      ensures machine == if entry.kind != Command || entry.commandId == None || app.apply(old(machine), entry) == None
                         then old(machine) else app.apply(old(machine), entry).value
    {
      if entry.kind != Command {
        var saved := storage.Persist(AppliedBatch(entry.index));
        return if saved.Refused? then Raised(saved.error) else Returned;
      }
      if entry.commandId == None {
        return Raised(MissingCommandId);
      }
      var next := app.apply(machine, entry);
      if next == None {
        healthy := false;
        return Raised(MachineFailed);
      }
      machine := next.value;
      var saved := storage.Persist(AppliedBatch(entry.index));
      if saved.Refused? {
        healthy := false;
        return Raised(saved.error);
      }
      thrown := Returned;
    }
  }
}
