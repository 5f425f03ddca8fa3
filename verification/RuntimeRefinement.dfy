/** The runtime with its stores, crash points and queue is an instance of the abstract cluster. */
module RuntimeRefinement {
  import opened RaftTypes
  import opened Logs
  import opened Protocol
  import opened NodeFacts
  import opened CoreSpec
  import opened Stores
  import opened Networks
  import opened Histories
  import opened Handlers
  import opened Clusters
  import opened Runtime
  import opened ReadyRefinement

  /** The machine is the fold of apply over the first `applied` entries. */
  ghost predicate Folded<M>(app: App<M>, log: seq<Entry>, applied: nat, machine: M) {
    applied <= |log| && Fold(app, app.init, log[..applied]) == Some(machine)
  }

  ghost predicate Possible(i: NodeId, e: Event, net: set<Message>) {
    e.Deliver? ==> e.message in net && e.message.to == i
  }

  /** The engine has taken a step the store has not seen: the cluster still sees the node before it. */
  ghost predicate Unsaved(en: Ensemble, i: NodeId, core: Core, e: Event, a: Node, net: set<Message>) {
    && core.outstanding.Some? && Possible(i, e, net)
    && var o := Handle(ConfigOf(en, i), a, e); var r := core.outstanding.value;
       o.Done? && o.node == core.node && r == ReadyFrom(r.id, o.fx, r.committed)
  }

  ghost predicate SavedReady(core: Core, a: Node, net: set<Message>) {
    && core.outstanding.Some? && core.node == a
    && Stamped(core.cfg, a, core.outstanding.value.messages)
    && forall m :: m in core.outstanding.value.messages ==> m in net
  }

  ghost predicate PhaseRel<M>(en: Ensemble, app: App<M>, i: NodeId, l: Live<M>, store: Store, a: Node, net: set<Message>) {
    match l.phase
    case Idle =>
      && l.core.outstanding == None && l.core.node == a && store.applied == l.core.applied == a.commit
      && Folded(app, a.log, l.core.applied, l.machine)
    case Saving(e) =>
      && Unsaved(en, i, l.core, e, a, net) && store.applied == l.core.applied
      && Folded(app, l.core.node.log, l.core.applied, l.machine)
    case Sending(k) =>
      && SavedReady(l.core, a, net) && k <= |l.core.outstanding.value.messages| && store.applied == l.core.applied
      && Folded(app, a.log, l.core.applied, l.machine)
    case Applying(k) =>
      && SavedReady(l.core, a, net) && k <= |l.core.outstanding.value.committed| && store.applied == l.core.applied + k
      && Folded(app, a.log, l.core.applied + k, l.machine)
    case Frozen(u, _) =>
      if u.Some? then
        && Unsaved(en, i, l.core, u.value, a, net) && store.applied == l.core.applied
        && Folded(app, l.core.node.log, l.core.applied, l.machine)
      else l.core.outstanding.Some? && l.core.outstanding.value.committed != [] && l.core.node == a
  }

  ghost predicate LiveRel<M>(en: Ensemble, app: App<M>, i: NodeId, l: Live<M>, store: Store, a: Node, net: set<Message>) {
    && l.core.cfg == ConfigOf(en, i) && CoreInv(l.core) && Holds(store, a)
    && PhaseRel(en, app, i, l, store, a, net)
  }

  ghost predicate ProcRel<M>(en: Ensemble, app: App<M>, i: NodeId, p: Proc<M>, store: Store, a: Node, net: set<Message>) {
    if p.Up? then LiveRel(en, app, i, p.live, store, a, net) else Holds(store, a)
  }

  ghost predicate Related<M>(en: Ensemble, app: App<M>, sys: System<M>, c: Cluster, i: NodeId) {
    && i in sys.procs && i in sys.stores && i in c.nodes
    && ProcRel(en, app, i, sys.procs[i], sys.stores[i], c.nodes[i], c.net)
  }

  ghost predicate SysRel<M>(en: Ensemble, app: App<M>, sys: System<M>, c: Cluster) {
    && NetworkInv(sys.net) && Carries(sys.net, c.net)
    && forall i {:trigger Related(en, app, sys, c, i)} :: i in en.members ==> Related(en, app, sys, c, i)
  }

  lemma ProcRelGrows<M>(en: Ensemble, app: App<M>, i: NodeId, p: Proc<M>, store: Store, a: Node,
                        net: set<Message>, net': set<Message>)
    requires ProcRel(en, app, i, p, store, a, net) && net <= net'
    ensures ProcRel(en, app, i, p, store, a, net')
  {
  }

  /** Changing one node, its store and the network keeps the relation for everyone else. */
  lemma OneMoved<M>(en: Ensemble, app: App<M>, sys: System<M>, c: Cluster, i: NodeId, p: Proc<M>, store: Store,
                    a: Node, sent: set<Message>, net: Network)
    requires SysRel(en, app, sys, c) && i in en.members
    requires ProcRel(en, app, i, p, store, a, c.net + sent)
    requires NetworkInv(net) && Carries(net, c.net + sent)
    ensures SysRel(en, app, System(sys.procs[i := p], sys.stores[i := store], net), Cluster(c.nodes[i := a], c.net + sent))
  {
    var sys' := System(sys.procs[i := p], sys.stores[i := store], net);
    var c' := Cluster(c.nodes[i := a], c.net + sent);
    forall j | j in en.members ensures Related(en, app, sys', c', j) {
      if j != i {
        assert Related(en, app, sys, c, j);
        ProcRelGrows(en, app, j, sys.procs[j], sys.stores[j], c.nodes[j], c.net, c.net + sent);
      }
    }
  }

  lemma OneMovedAlone<M>(en: Ensemble, app: App<M>, sys: System<M>, c: Cluster, i: NodeId, p: Proc<M>, store: Store,
                         net: Network)
    requires SysRel(en, app, sys, c) && i in en.members && i in c.nodes
    requires ProcRel(en, app, i, p, store, c.nodes[i], c.net)
    requires NetworkInv(net) && Carries(net, c.net)
    ensures SysRel(en, app, System(sys.procs[i := p], sys.stores[i := store], net), c)
  {
    OneMoved(en, app, sys, c, i, p, store, c.nodes[i], {}, net);
    assert c.net + {} == c.net;
    assert c.nodes[i := c.nodes[i]] == c.nodes;
  }

  // ----- Events entering an engine -----

  lemma PossibleIsHonest(en: Ensemble, c: Cluster, h: History, i: NodeId, e: Event)
    requires Inv(en, c, h) && Possible(i, e, c.net)
    ensures HonestEvent(en, h, i, e) && WellFormedEvent(e)
  {
    if e.Deliver? && e.message.body.AppendRequest? {
      assert MessageInv(en, h, e.message);
      assert ReignInv(en, h, e.message.term);
    }
  }

  /** An engine that equals its cluster node and has nothing outstanding takes a step the cluster can take. */
  lemma IdleBegins<M>(en: Ensemble, app: App<M>, c: Cluster, h: History, i: NodeId, l: Live<M>, store: Store, e: Event)
    returns (c': Cluster)
    requires Inv(en, c, h) && i in en.members && Possible(i, e, c.net)
    requires LiveRel(en, app, i, l, store, c.nodes[i], c.net) && l.phase == Idle
    ensures Next(en, c, c') && c'.net == c.net && c' == c.(nodes := c.nodes[i := c'.nodes[i]]) && i in c'.nodes
    ensures LiveRel(en, app, i, Begun(l, e), store, c'.nodes[i], c.net)
  {
    PossibleIsHonest(en, c, h, i, e);
    var s := c.nodes[i];
    assert NodeInv(en, h, i, s);
    var o := Handle(ConfigOf(en, i), s, e);
    IdleStep(en, h, i, l.core, store, e);
    var r := StepCore(l.core, e);
    FoldKept(app, s, r.core.node, l.core.applied, l.machine);
    c' := c;
    assert c.nodes[i := s] == c.nodes;
    if r.Stepped? && r.ready == None {
      c' := Cluster(c.nodes[i := o.node], c.net + Sent(o));
      assert NodeStep(en, c, c', i, e);
      assert Sent(o) == {};
      assert c.net + {} == c.net;
    }
  }

  /** What one step of an idle engine can be, when its event is honest. */
  lemma IdleStep(en: Ensemble, h: History, i: NodeId, core: Core, store: Store, e: Event)
    requires HistoryInv(en, h) && NodeInv(en, h, i, core.node) && HonestEvent(en, h, i, e) && WellFormedEvent(e)
    requires CoreInv(core) && core.cfg == ConfigOf(en, i) && core.outstanding == None
    requires Holds(store, core.node) && store.applied == core.applied
    ensures var r := StepCore(core, e); var o := Handle(core.cfg, core.node, e);
            && CoreInv(r.core) && r.core.cfg == core.cfg && r.core.applied == core.applied && Advances(core.node, r.core.node)
            && (r.Failed? ==> r.core == core)
            && (r.Stepped? ==> o.Done? && r.core.node == o.node && r.core.outstanding == r.ready)
            && (r.Stepped? && r.ready == None ==> o.fx.messages == [] && Holds(store, o.node))
            && (r.Stepped? && r.ready.Some? ==> r.ready.value == ReadyFrom(r.ready.value.id, o.fx, r.ready.value.committed))
  {
    hide HistoryInv, NodeInv, Handle, BodyInv;
    var h' := EventHandled(en, h, i, core.node, e);
    StepKeepsCore(core, e);
    ReadyMatchesStore(core, e, store);
  }

  lemma FoldKept<M>(app: App<M>, s: Node, s': Node, applied: nat, machine: M)
    requires Advances(s, s') && applied <= s.commit && Folded(app, s.log, applied, machine)
    ensures Folded(app, s'.log, applied, machine)
  {
    assert s'.log[..applied] == s'.log[..s.commit][..applied];
    assert s.log[..applied] == s.log[..s.commit][..applied];
  }

  lemma FrozenIgnores<M>(l: Live<M>, e: Event)
    requires l.core.outstanding.Some? && l.phase.Frozen?
    ensures Begun(l, e) == l
  {
  }

  // ----- Small steps of a busy node -----

  lemma SaveSim<M>(en: Ensemble, app: App<M>, sys: System<M>, c: Cluster, h: History, sys': System<M>, i: NodeId, d: bool)
    returns (c': Cluster)
    requires SysRel(en, app, sys, c) && Inv(en, c, h) && WorkStep(en, app, sys, sys', i, d)
    requires sys.procs[i].live.phase.Saving?
    ensures Next(en, c, c') && SysRel(en, app, sys', c')
  {
    assert Related(en, app, sys, c, i);
    var l, store, s := sys.procs[i].live, sys.stores[i], c.nodes[i];
    var e := l.phase.event;
    assert NodeInv(en, h, i, s);
    PossibleIsHonest(en, c, h, i, e);
    var o := Handle(ConfigOf(en, i), s, e);
    EventSound(ConfigOf(en, i), s, e);
    EventStamped(ConfigOf(en, i), s, e);
    BatchAccepted(store, s, o.node, o.fx, l.core.outstanding.value);
    var t := Continued(app, Scene(l, store, sys.net), d);
    if store.failing {
      c' := c;
      OneMovedAlone(en, app, sys, c, i, Up(t.live), t.store, t.net);
    } else {
      c' := Cluster(c.nodes[i := o.node], c.net + Sent(o));
      assert NodeStep(en, c, c', i, e);
      CarriesMore(sys.net, c.net, Sent(o));
      OneMoved(en, app, sys, c, i, Up(t.live), t.store, o.node, Sent(o), t.net);
    }
  }

  lemma CarriesMore(n: Network, sent: set<Message>, more: set<Message>)
    requires Carries(n, sent)
    ensures Carries(n, sent + more)
  {
  }

  lemma SendSim<M>(en: Ensemble, app: App<M>, sys: System<M>, c: Cluster, sys': System<M>, i: NodeId, d: bool)
    requires SysRel(en, app, sys, c) && WorkStep(en, app, sys, sys', i, d)
    requires sys.procs[i].live.phase.Sending?
    ensures SysRel(en, app, sys', c)
  {
    var l, store := sys.procs[i].live, sys.stores[i];
    assert Related(en, app, sys, c, i);
    var ready := l.core.outstanding.value;
    var k := l.phase.next;
    var t := Continued(app, Scene(l, store, sys.net), d);
    if k < |ready.messages| {
      var m := ready.messages[k];
      NetStep(sys.net, NetOp.Send(m), c.net);
      assert c.net + {m} == c.net;
    }
    OneMovedAlone(en, app, sys, c, i, Up(t.live), t.store, t.net);
  }

  lemma ApplySim<M>(en: Ensemble, app: App<M>, sys: System<M>, c: Cluster, sys': System<M>, i: NodeId, d: bool)
    requires SysRel(en, app, sys, c) && WorkStep(en, app, sys, sys', i, d)
    requires sys.procs[i].live.phase.Applying?
    ensures SysRel(en, app, sys', c)
  {
    assert Related(en, app, sys, c, i);
    var t := Continued(app, Scene(sys.procs[i].live, sys.stores[i], sys.net), d);
    ApplyLive(en, app, i, Scene(sys.procs[i].live, sys.stores[i], sys.net), c.nodes[i], c.net, d);
    OneMovedAlone(en, app, sys, c, i, Up(t.live), t.store, t.net);
  }

  lemma ApplyLive<M>(en: Ensemble, app: App<M>, i: NodeId, s: Scene<M>, a: Node, net: set<Message>, d: bool)
    requires LiveRel(en, app, i, s.live, s.store, a, net) && Busy(s.live) && s.live.phase.Applying?
    ensures var t := Continued(app, s, d); t.net == s.net && LiveRel(en, app, i, t.live, t.store, a, net)
  {
    var ready := s.live.core.outstanding.value;
    var k := s.live.phase.next;
    if k == |ready.committed| {
      AdvanceKeepsCore(s.live.core, ready.id);
    } else {
      AppliedOneFolds(app, s, a, k);
    }
  }

  lemma AppliedOneFolds<M>(app: App<M>, s: Scene<M>, a: Node, k: nat)
    requires CoreInv(s.live.core) && s.live.core.node == a && s.live.core.outstanding.Some?
    requires k < |s.live.core.outstanding.value.committed| && Holds(s.store, a)
    requires s.store.applied == s.live.core.applied + k && Folded(app, a.log, s.live.core.applied + k, s.live.machine)
    ensures var t := AppliedOne(app, s, s.live.core.outstanding.value.committed[k], k);
            && Holds(t.store, a) && t.net == s.net && t.live.core == s.live.core
            && ((t.live.phase.Frozen? && t.live.phase.unsaved == None)
                || (t.live.phase == Applying(k + 1) && t.store.applied == s.live.core.applied + k + 1
                    && Folded(app, a.log, s.live.core.applied + k + 1, t.live.machine)))
  {
    var n := s.live.core.applied + k;
    var e := s.live.core.outstanding.value.committed[k];
    assert e == a.log[n] && e.index == n + 1;
    assert a.log[..n + 1][..n] == a.log[..n] && a.log[..n + 1][n] == e;
    AppliedAccepted(s.store, a, e.index);
  }

  // ----- Starting and stopping -----

  lemma StartSim<M>(en: Ensemble, app: App<M>, sys: System<M>, c: Cluster, h: History, sys': System<M>, i: NodeId)
    returns (c': Cluster)
    requires SysRel(en, app, sys, c) && Inv(en, c, h) && StartStep(en, app, sys, sys', i)
    ensures Next(en, c, c') && SysRel(en, app, sys', c')
  {
    assert Related(en, app, sys, c, i);
    var store, a := sys.stores[i], c.nodes[i];
    var r := Recover(app, ConfigOf(en, i), store);
    assert NodeInv(en, h, i, a);
    RecoveredHolds(app, ConfigOf(en, i), store, a);
    var reopened := Recovered(Hard(a), a.log);
    if r.Reopened? {
      NetStep(sys.net, NetOp.Register(i), c.net);
      c' := c.(nodes := c.nodes[i := reopened]);
      assert RestartStep(en, c, c', i);
      assert c.net + {} == c.net;
      OneMoved(en, app, sys, c, i, Up(r.live), r.store, reopened, {}, ApplyNet(sys.net, NetOp.Register(i)));
    } else {
      c' := c;
      OneMovedAlone(en, app, sys, c, i, sys.procs[i], r.store, sys.net);
      assert sys.procs[i := sys.procs[i]] == sys.procs;
    }
  }

  /** Recovery replays exactly the committed prefix, and the reopened engine agrees with its store. */
  lemma RecoveredHolds<M>(app: App<M>, cfg: Config, store: Store, a: Node)
    requires Holds(store, a) && Contiguous(a.log) && a.commit <= |a.log|
    ensures var r := Recover(app, cfg, store);
            && Holds(r.store, a)
            && (r.Reopened? ==>
                  && r.live.core == Opened(cfg, Persisted(Hard(a), a.log, a.commit)) && r.live.phase == Idle
                  && r.store.applied == a.commit && CoreInv(r.live.core) && Folded(app, a.log, a.commit, r.live.machine))
  {
    if store.applied < a.commit {
      AppliedAccepted(store, a, a.commit);
    }
  }

  lemma CrashSim<M>(en: Ensemble, app: App<M>, sys: System<M>, c: Cluster, sys': System<M>, i: NodeId)
    requires SysRel(en, app, sys, c) && CrashStep(en, sys, sys', i)
    ensures SysRel(en, app, sys', c)
  {
    assert Related(en, app, sys, c, i);
    NetStep(sys.net, NetOp.Unregister(i), c.net);
    assert c.net + {} == c.net;
    OneMovedAlone(en, app, sys, c, i, Down, sys.stores[i], ApplyNet(sys.net, NetOp.Unregister(i)));
    assert sys.stores[i := sys.stores[i]] == sys.stores;
  }

  lemma ArmSim<M>(en: Ensemble, app: App<M>, sys: System<M>, c: Cluster, sys': System<M>, i: NodeId)
    requires SysRel(en, app, sys, c) && ArmStep(en, sys, sys', i)
    ensures SysRel(en, app, sys', c)
  {
    assert Related(en, app, sys, c, i);
    OneMovedAlone(en, app, sys, c, i, sys.procs[i], sys.stores[i].(failing := true), sys.net);
    assert sys.procs[i := sys.procs[i]] == sys.procs;
  }

  lemma CallSim<M>(en: Ensemble, app: App<M>, sys: System<M>, c: Cluster, h: History, sys': System<M>, i: NodeId, e: Event)
    returns (c': Cluster)
    requires SysRel(en, app, sys, c) && Inv(en, c, h) && CallStep(en, sys, sys', i, e)
    ensures Next(en, c, c') && SysRel(en, app, sys', c')
  {
    var l, store := sys.procs[i].live, sys.stores[i];
    assert Related(en, app, sys, c, i);
    c' := IdleBegins(en, app, c, h, i, l, store, e);
    BegunMoves(en, app, sys, c, c', i, Begun(l, e), sys.net);
  }

  lemma BegunMoves<M>(en: Ensemble, app: App<M>, sys: System<M>, c: Cluster, c': Cluster, i: NodeId, l: Live<M>, net: Network)
    requires SysRel(en, app, sys, c) && i in en.members && i in c'.nodes && i in sys.stores
    requires c' == Cluster(c.nodes[i := c'.nodes[i]], c.net)
    requires LiveRel(en, app, i, l, sys.stores[i], c'.nodes[i], c.net)
    requires NetworkInv(net) && Carries(net, c.net)
    ensures SysRel(en, app, System(sys.procs[i := Up(l)], sys.stores, net), c')
  {
    assert c.net + {} == c.net;
    OneMoved(en, app, sys, c, i, Up(l), sys.stores[i], c'.nodes[i], {}, net);
    assert sys.stores[i := sys.stores[i]] == sys.stores;
  }

  lemma DeliverSim<M>(en: Ensemble, app: App<M>, sys: System<M>, c: Cluster, h: History, sys': System<M>, index: nat)
    returns (c': Cluster)
    requires SysRel(en, app, sys, c) && Inv(en, c, h) && DeliverStep(en, sys, sys', index)
    ensures Next(en, c, c') && SysRel(en, app, sys', c')
  {
    NetStep(sys.net, NetOp.Deliver(index), c.net);
    assert c.net + {} == c.net;
    var m := sys.net.queue[index].message;
    var i := m.to;
    c' := c;
    NetOnly(en, app, sys, c, Dropped(sys.net, index));
    if Handed(sys.net, index).Some? && IsUp(en, sys, i) {
      var l, store := sys.procs[i].live, sys.stores[i];
      assert Related(en, app, sys, c, i);
      assert c.nodes[i := c.nodes[i]] == c.nodes;
      if l.phase == Idle {
        c' := IdleBegins(en, app, c, h, i, l, store, Event.Deliver(m));
        BegunMoves(en, app, sys, c, c', i, Begun(l, Event.Deliver(m)), Dropped(sys.net, index));
      } else {
        FrozenIgnores(l, Event.Deliver(m));
        BegunMoves(en, app, sys, c, c, i, l, Dropped(sys.net, index));
      }
    }
  }

  /** Every runtime step is a step of the abstract cluster, or none. */
  lemma SysStepSim<M>(en: Ensemble, app: App<M>, sys: System<M>, c: Cluster, h: History, sys': System<M>) returns (c': Cluster)
    requires SysRel(en, app, sys, c) && Inv(en, c, h) && SysNext(en, app, sys, sys')
    ensures Next(en, c, c') && SysRel(en, app, sys', c')
  {
    c' := c;
    if i: NodeId, e: Event :| CallStep(en, sys, sys', i, e) {
      c' := CallSim(en, app, sys, c, h, sys', i, e);
    } else if index: nat :| DeliverStep(en, sys, sys', index) {
      c' := DeliverSim(en, app, sys, c, h, sys', index);
    } else if i: NodeId, d: bool :| WorkStep(en, app, sys, sys', i, d) {
      c' := WorkSim(en, app, sys, c, h, sys', i, d);
    } else if i: NodeId :| CrashStep(en, sys, sys', i) {
      CrashSim(en, app, sys, c, sys', i);
    } else if i: NodeId :| StartStep(en, app, sys, sys', i) {
      c' := StartSim(en, app, sys, c, h, sys', i);
    } else if i: NodeId :| ArmStep(en, sys, sys', i) {
      ArmSim(en, app, sys, c, sys', i);
    } else {
      var op: NetOp :| NetworkStep(sys, sys', op);
      NetStep(sys.net, op, c.net);
      assert c.net + {} == c.net;
      NetOnly(en, app, sys, c, sys'.net);
    }
  }

  lemma NetOnly<M>(en: Ensemble, app: App<M>, sys: System<M>, c: Cluster, net: Network)
    requires SysRel(en, app, sys, c) && NetworkInv(net) && Carries(net, c.net)
    ensures SysRel(en, app, sys.(net := net), c)
  {
    forall i | i in en.members ensures Related(en, app, sys.(net := net), c, i) {
      assert Related(en, app, sys, c, i);
    }
  }

  lemma WorkSim<M>(en: Ensemble, app: App<M>, sys: System<M>, c: Cluster, h: History, sys': System<M>, i: NodeId, d: bool)
    returns (c': Cluster)
    requires SysRel(en, app, sys, c) && Inv(en, c, h) && WorkStep(en, app, sys, sys', i, d)
    ensures Next(en, c, c') && SysRel(en, app, sys', c')
  {
    c' := c;
    if sys.procs[i].live.phase.Saving? {
      c' := SaveSim(en, app, sys, c, h, sys', i, d);
    } else if sys.procs[i].live.phase.Sending? {
      SendSim(en, app, sys, c, sys', i, d);
    } else {
      ApplySim(en, app, sys, c, sys', i, d);
    }
  }

  ghost predicate Mirrors<M>(en: Ensemble, app: App<M>, srun: seq<System<M>>, run: seq<Cluster>) {
    && |run| == |srun| && IsRun(en, run)
    && forall k {:trigger srun[k]} {:trigger run[k]} :: 0 <= k < |run| ==> SysRel(en, app, srun[k], run[k])
  }

  lemma InitRel<M>(en: Ensemble, app: App<M>, sys: System<M>) returns (c: Cluster)
    requires SysInit(en, sys)
    ensures Init(en, c) && SysRel(en, app, sys, c)
  {
    c := Cluster(map i | i in en.members :: FRESH, {});
    forall i | i in en.members ensures Related(en, app, sys, c, i) {
    }
  }

  /** A whole run of the runtime is, state by state, a run of the abstract cluster. */
  lemma {:induction false} RuntimeIsCluster<M>(en: Ensemble, app: App<M>, srun: seq<System<M>>) returns (run: seq<Cluster>)
    requires IsSysRun(en, app, srun)
    ensures Mirrors(en, app, srun, run)
    decreases |srun|
  {
    if |srun| == 1 {
      var c := InitRel(en, app, srun[0]);
      run := [c];
    } else {
      var n := |srun| - 1;
      var before := RuntimeIsCluster(en, app, srun[..n]);
      assert srun[..n][n - 1] == srun[n - 1];
      var hs := RunInv(en, before);
      assert Inv(en, before[n - 1], hs[n - 1]);
      var c := SysStepSim(en, app, srun[n - 1], before[n - 1], hs[n - 1], srun[n]);
      run := before + [c];
      MirrorGrows(en, app, srun, before, c);
    }
  }

  lemma MirrorGrows<M>(en: Ensemble, app: App<M>, srun: seq<System<M>>, before: seq<Cluster>, c: Cluster)
    requires |srun| > 1 && Mirrors(en, app, srun[..|srun| - 1], before)
    requires Next(en, before[|srun| - 2], c) && SysRel(en, app, srun[|srun| - 1], c)
    ensures Mirrors(en, app, srun, before + [c])
  {
    var run, n := before + [c], |srun| - 1;
    forall k | 0 < k < |run| ensures Next(en, run[k - 1], run[k]) {
      assert k < n ==> run[k - 1] == before[k - 1] && run[k] == before[k];
    }
    forall k | 0 <= k < |run| ensures SysRel(en, app, srun[k], run[k]) {
      assert k < n ==> srun[..n][k] == srun[k] && run[k] == before[k];
    }
  }
}
