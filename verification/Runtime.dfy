/**
 The runtime around the engine, one small step at a time: save the Ready batch, send its messages,
 apply its entries, advance. A crash may fall between any two steps; only the store survives it.
 */
module Runtime {
  import opened RaftTypes
  import opened CoreSpec
  import opened Stores
  import opened Networks
  import opened Histories

  /** The application: a start state and an apply that may throw (None). */
  datatype App<!M> = App(init: M, apply: (M, Entry) -> Option<M>)

  /** Only commands reach the application; one without an ID throws. */
  function ApplyEntry<M>(app: App<M>, machine: M, e: Entry): Option<M> {
    if e.kind != Command then Some(machine)
    else if e.commandId == None then None
    else app.apply(machine, e)
  }

  function Fold<M>(app: App<M>, machine: M, entries: seq<Entry>): Option<M> {
    if entries == [] then Some(machine)
    else
      var before := Fold(app, machine, entries[..|entries| - 1]);
      if before == None then None else ApplyEntry(app, before.value, entries[|entries| - 1])
  }

  /** Once an apply throws, the whole replay throws. */
  lemma {:induction false} FoldFails<M>(app: App<M>, machine: M, entries: seq<Entry>, k: nat)
    requires k <= |entries| && Fold(app, machine, entries[..k]) == None
    ensures Fold(app, machine, entries) == None
    decreases |entries|
  {
    if k == |entries| {
      assert entries[..k] == entries;
    } else {
      var last := |entries| - 1;
      assert entries[..last][..k] == entries[..k];
      FoldFails(app, machine, entries[..last], k);
    }
  }

  /**
   Where a node is with its outstanding Ready. A frozen node keeps the event it failed to save, and
   whether the runtime marked itself unhealthy.
   */
  datatype Phase =
    | Idle
    | Saving(event: Event)
    | Sending(next: nat)
    | Applying(next: nat)
    | Frozen(unsaved: Option<Event>, reported: bool)

  datatype Live<M> = Live(core: Core, machine: M, phase: Phase)

  /** The last step's batch has not been saved. */
  predicate Unsettled<M>(l: Live<M>) {
    l.phase.Saving? || (l.phase.Frozen? && l.phase.unsaved.Some?)
  }

  datatype Proc<M> = Down | Up(live: Live<M>)

  /** One live node with the store and network it works on. */
  datatype Scene<M> = Scene(live: Live<M>, store: Store, net: Network)

  function ReadyBatch(r: Ready): Batch {
    Batch(r.hardState, r.truncateFrom, r.unstable, None, None)
  }

  function AppliedBatch(index: nat): Batch {
    Batch(None, None, [], None, Some(index))
  }

  /** An event enters the engine; with nothing to do the node is idle again at once. */
  function Begun<M>(l: Live<M>, e: Event): Live<M> {
    var o := StepCore(l.core, e);
    if o.Failed? then l.(core := o.core)
    else l.(core := o.core, phase := if o.ready.Some? then Saving(e) else l.phase)
  }

  predicate Busy<M>(l: Live<M>) {
    l.core.outstanding.Some? &&
    match l.phase
    case Saving(_) => true
    case Sending(k) => k <= |l.core.outstanding.value.messages|
    case Applying(k) => k <= |l.core.outstanding.value.committed|
    case _ => false
  }

  /** The next small step of a busy node; `delivered` is false when the transport fails to send. */
  function Continued<M>(app: App<M>, s: Scene<M>, delivered: bool): Scene<M>
    requires Busy(s.live)
  {
    var ready := s.live.core.outstanding.value;
    match s.live.phase
    case Saving(e) =>
      var o := PersistDurable(s.store, ReadyBatch(ready));
      s.(store := o.store, live := s.live.(phase := if o.Stored? then Sending(0) else Frozen(Some(e), true)))
    case Sending(k) =>
      if k == |ready.messages| then s.(live := s.live.(phase := Applying(0)))
      else s.(net := if delivered then Enqueued(s.net, ready.messages[k]) else s.net,
              live := s.live.(phase := Sending(k + 1)))
    case Applying(k) =>
      if k == |ready.committed| then s.(live := s.live.(core := AdvanceCore(s.live.core, ready.id).core, phase := Idle))
      else AppliedOne(app, s, ready.committed[k], k)
    case _ => s
  }

  /** Apply one committed entry, then record that it was applied. */
  function AppliedOne<M>(app: App<M>, s: Scene<M>, e: Entry, k: nat): Scene<M> {
    var m := ApplyEntry(app, s.live.machine, e);
    if m == None then s.(live := s.live.(phase := Frozen(None, e.commandId.Some?)))
    else
      var o := PersistDurable(s.store, AppliedBatch(e.index));
      s.(store := o.store,
         live := s.live.(machine := m.value, phase := if o.Stored? then Applying(k + 1) else Frozen(None, e.kind == Command)))
  }

  function StepsLeft<M>(l: Live<M>): int {
    if !Busy(l) then 0
    else
      var r := l.core.outstanding.value;
      1 + match l.phase
          case Saving(_) => |r.messages| + |r.committed| + 3
          case Sending(k) => |r.messages| - k + |r.committed| + 2
          case Applying(k) => |r.committed| - k
          case _ => 0
  }

  /** Whether the transport takes the message in hand: it must be up, and the node must be its sender. */
  predicate Passes<M>(l: Live<M>, up: bool) {
    up && (l.phase.Sending? && l.core.outstanding.Some? && l.phase.next < |l.core.outstanding.value.messages| ==>
             l.core.outstanding.value.messages[l.phase.next].from == l.core.cfg.self)
  }

  /** Run a busy node until it is idle or frozen, over a transport that is up or not. */
  function Finished<M>(app: App<M>, s: Scene<M>, up: bool): Scene<M>
    decreases StepsLeft(s.live)
  {
    if Busy(s.live) then Finished(app, Continued(app, s, Passes(s.live, up)), up) else s
  }

  lemma NothingToFinish<M>(app: App<M>, s: Scene<M>, up: bool)
    requires !Busy(s.live)
    ensures Finished(app, s, up) == s
  {
  }

  // ----- Recovery -----

  datatype Recovery<M> = Reopened(live: Live<M>, store: Store) | Shut(store: Store)

  /** Replay what is committed, record it as applied, and open the engine over the store. */
  function Recover<M>(app: App<M>, cfg: Config, store: Store): Recovery<M> {
    var machine := Fold(app, app.init, store.entries[..Min(store.hard.commit, |store.entries|)]);
    if machine == None then Shut(store)
    else
      var o := if store.applied < store.hard.commit then PersistDurable(store, AppliedBatch(store.hard.commit)) else Stored(store);
      var core := Opened(cfg, Persisted(o.store.hard, o.store.entries, o.store.applied));
      if o.Rejected? || Broken(core).Some? then Shut(o.store)
      else Reopened(Live(core, machine.value, Idle), o.store)
  }

  // ----- The system -----

  datatype System<M> = System(procs: map<NodeId, Proc<M>>, stores: map<NodeId, Store>, net: Network)

  ghost predicate SysInit<M>(en: Ensemble, sys: System<M>) {
    && Distinct(en.members)
    && sys == System(map i | i in en.members :: Down, map i | i in en.members :: EMPTY, IDLE)
  }

  ghost predicate IsUp<M>(en: Ensemble, sys: System<M>, i: NodeId) {
    i in en.members && i in sys.procs && i in sys.stores && sys.procs[i].Up?
  }

  /** A local call: campaign, heartbeat or proposal, on an idle node. */
  ghost predicate CallStep<M>(en: Ensemble, sys: System<M>, sys': System<M>, i: NodeId, e: Event) {
    && IsUp(en, sys, i) && sys.procs[i].live.phase == Idle && !e.Deliver?
    && sys' == sys.(procs := sys.procs[i := Up(Begun(sys.procs[i].live, e))])
  }

  /** A delivery: the message leaves the queue, and reaches an idle or frozen node if its way is open. */
  ghost predicate DeliverStep<M>(en: Ensemble, sys: System<M>, sys': System<M>, index: nat) {
    && index < |sys.net.queue|
    && var m := sys.net.queue[index].message;
       var net' := Dropped(sys.net, index);
       if Handed(sys.net, index).Some? && IsUp(en, sys, m.to) then
         && (sys.procs[m.to].live.phase == Idle || sys.procs[m.to].live.phase.Frozen?)
         && sys' == System(sys.procs[m.to := Up(Begun(sys.procs[m.to].live, Event.Deliver(m)))], sys.stores, net')
       else sys' == sys.(net := net')
  }

  ghost predicate WorkStep<M>(en: Ensemble, app: App<M>, sys: System<M>, sys': System<M>, i: NodeId, delivered: bool) {
    && IsUp(en, sys, i) && Busy(sys.procs[i].live)
    && var s := Continued(app, Scene(sys.procs[i].live, sys.stores[i], sys.net), delivered);
       sys' == System(sys.procs[i := Up(s.live)], sys.stores[i := s.store], s.net)
  }

  ghost predicate CrashStep<M>(en: Ensemble, sys: System<M>, sys': System<M>, i: NodeId) {
    && IsUp(en, sys, i)
    && sys' == System(sys.procs[i := Down], sys.stores, ApplyNet(sys.net, NetOp.Unregister(i)))
  }

  ghost predicate StartStep<M>(en: Ensemble, app: App<M>, sys: System<M>, sys': System<M>, i: NodeId) {
    && i in en.members && i in sys.procs && i in sys.stores && sys.procs[i].Down?
    && var r := Recover(app, ConfigOf(en, i), sys.stores[i]);
       sys' == if r.Reopened?
               then System(sys.procs[i := Up(r.live)], sys.stores[i := r.store], ApplyNet(sys.net, NetOp.Register(i)))
               else sys.(stores := sys.stores[i := r.store])
  }

  /** A test arms a store to refuse its next batch. */
  ghost predicate ArmStep<M>(en: Ensemble, sys: System<M>, sys': System<M>, i: NodeId) {
    && i in en.members && i in sys.stores
    && sys' == sys.(stores := sys.stores[i := sys.stores[i].(failing := true)])
  }

  /** A test reshapes the network; it never invents a message. */
  ghost predicate NetworkStep<M>(sys: System<M>, sys': System<M>, op: NetOp) {
    && (op.Duplicate? || op.Drop? || op.Reorder? || op.Partition? || op.Heal? || op.SetDropAll?)
    && sys' == sys.(net := ApplyNet(sys.net, op))
  }

  ghost predicate SysNext<M>(en: Ensemble, app: App<M>, sys: System<M>, sys': System<M>) {
    || (exists i: NodeId, e: Event :: CallStep(en, sys, sys', i, e))
    || (exists index: nat :: DeliverStep(en, sys, sys', index))
    || (exists i: NodeId, delivered: bool :: WorkStep(en, app, sys, sys', i, delivered))
    || (exists i: NodeId :: CrashStep(en, sys, sys', i))
    || (exists i: NodeId :: StartStep(en, app, sys, sys', i))
    || (exists i: NodeId :: ArmStep(en, sys, sys', i))
    || (exists op: NetOp :: NetworkStep(sys, sys', op))
  }

  ghost predicate IsSysRun<M>(en: Ensemble, app: App<M>, run: seq<System<M>>) {
    && 0 < |run| && SysInit(en, run[0])
    && forall k :: 0 < k < |run| ==> SysNext(en, app, run[k - 1], run[k])
  }
}
