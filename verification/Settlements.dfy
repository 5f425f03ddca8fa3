/**
 The test cluster is what the runtime does when every operation is seen through to its end: each
 scenario over whole operations is a run of the small-step runtime, and what drains to equal logs
 drains to equal machines.
 */
module Settlements {
  import opened RaftTypes
  import opened Logs
  import opened Protocol
  import opened NodeFacts
  import opened CoreSpec
  import opened Stores
  import opened Networks
  import opened Histories
  import opened NodeSteps
  import opened Handlers
  import opened Clusters
  import opened SafetyTheorems
  import opened Runtime
  import opened ReadyRefinement
  import opened RuntimeRefinement
  import opened Fields
  import opened Convergence

  /** The application takes everything this node has committed, in order, without throwing. */
  ghost predicate Accepts<M>(app: App<M>, s: Node) {
    s.commit <= |s.log| && Fold(app, app.init, s.log[..s.commit]).Some?
  }

  /** Between operations: a live node is idle with all it may apply applied; a stopped one is its store. */
  ghost predicate SettledNode<M>(en: Ensemble, app: App<M>, i: NodeId, p: Proc<M>, store: Store, a: Node, handlers: set<NodeId>) {
    && Holds(store, a) && !store.failing
    && (p.Up? <==> i in handlers)
    && (p.Up? ==> LiveRel(en, app, i, p.live, store, a, {}) && p.live.phase == Idle)
  }

  ghost predicate SettledAt<M>(en: Ensemble, app: App<M>, sys: System<M>, f: Field, i: NodeId) {
    && i in sys.procs && i in sys.stores && i in f.nodes
    && SettledNode(en, app, i, sys.procs[i], sys.stores[i], f.nodes[i], f.net.handlers)
  }

  ghost predicate Settled<M>(en: Ensemble, app: App<M>, sys: System<M>, f: Field) {
    && sys.net == f.net
    && forall i {:trigger SettledAt(en, app, sys, f, i)} :: i in en.members ==> SettledAt(en, app, sys, f, i)
  }

  // ----- Seeing one operation through -----

  lemma {:induction false} SendsAll<M>(app: App<M>, s: Scene<M>, k: nat)
    requires s.live.core.outstanding.Some? && s.live.phase == Sending(k) && k <= |s.live.core.outstanding.value.messages|
    requires forall m :: m in s.live.core.outstanding.value.messages ==> m.from == s.live.core.cfg.self
    ensures var sent := EnqueuedAll(s.net, s.live.core.outstanding.value.messages[k..]);
            Finished(app, s, true) == Finished(app, s.(live := s.live.(phase := Applying(0)), net := sent), true)
    decreases |s.live.core.outstanding.value.messages| - k
  {
    var ms := s.live.core.outstanding.value.messages;
    if k < |ms| {
      assert ms[k..][0] == ms[k] && ms[k..][1..] == ms[k + 1..];
      SendsAll(app, Continued(app, s, true), k + 1);
    } else {
      assert ms[k..] == [];
      assert Continued(app, s, true) == s.(live := s.live.(phase := Applying(0)), net := s.net);
    }
  }

  /** Applying the rest of a batch ends idle exactly when the application accepts what is committed. */
  lemma {:induction false} AppliesAll<M>(en: Ensemble, app: App<M>, i: NodeId, s: Scene<M>, a: Node, net: set<Message>, k: nat)
    requires LiveRel(en, app, i, s.live, s.store, a, net) && s.live.phase == Applying(k) && !s.store.failing
    ensures var t := Finished(app, s, true);
            && t.net == s.net
            && (t.live.phase == Idle <==> Accepts(app, a))
            && (t.live.phase == Idle ==> LiveRel(en, app, i, t.live, t.store, a, {}) && !t.store.failing)
    decreases |s.live.core.outstanding.value.committed| - k
  {
    var ready := s.live.core.outstanding.value;
    ApplyLive(en, app, i, s, a, net, true);
    if k == |ready.committed| {
      AdvanceKeepsCore(s.live.core, ready.id);
    } else {
      OneApplied(en, app, i, s, a, net, k);
      if Continued(app, s, true).live.phase == Applying(k + 1) {
        AppliesAll(en, app, i, Continued(app, s, true), a, net, k + 1);
      }
    }
  }

  lemma OneApplied<M>(en: Ensemble, app: App<M>, i: NodeId, s: Scene<M>, a: Node, net: set<Message>, k: nat)
    requires LiveRel(en, app, i, s.live, s.store, a, net) && s.live.phase == Applying(k) && !s.store.failing
    requires k < |s.live.core.outstanding.value.committed|
    ensures var t := Continued(app, s, true);
            if t.live.phase == Applying(k + 1)
            then !t.store.failing && t.live.core == s.live.core && t.net == s.net
            else t.live.phase.Frozen? && t.net == s.net && !Accepts(app, a)
  {
    var n := s.live.core.applied + k;
    var e := s.live.core.outstanding.value.committed[k];
    assert e == a.log[n] && n < a.commit;
    AppliedAccepted(s.store, a, e.index);
    assert a.log[..n + 1][..n] == a.log[..n];
    if ApplyEntry(app, s.live.machine, e) == None {
      assert Fold(app, app.init, a.log[..n + 1]) == None;
      assert a.log[..a.commit][..n + 1] == a.log[..n + 1];
      FoldFails(app, app.init, a.log[..a.commit], n + 1);
    }
  }

  /** The event leads to a Ready batch. */
  ghost predicate Batches<M>(l: Live<M>, e: Event) {
    StepCore(l.core, e).Stepped? && StepCore(l.core, e).ready.Some?
  }

  /**
   A whole operation on an idle node ends idle exactly when it leads to no batch, or its store takes the
   batch and the application what it commits. Then it did to the node, to its store and to the network
   what the test cluster says.
   */
  lemma OperationDone<M>(en: Ensemble, app: App<M>, h: History, i: NodeId, l: Live<M>, store: Store, a: Node, n: Network, e: Event)
    requires Good(en, h, i, a) && HonestEvent(en, h, i, e) && WellFormedEvent(e)
    requires LiveRel(en, app, i, l, store, a, {}) && l.phase == Idle
    ensures var o := Handle(ConfigOf(en, i), a, e); var t := Finished(app, Scene(Begun(l, e), store, n), true);
            && (t.live.phase == Idle <==> !Batches(l, e) || (!store.failing && Accepts(app, o.node)))
            && (t.live.phase == Idle ==>
                  && LiveRel(en, app, i, t.live, t.store, o.node, {}) && t.store.failing == store.failing
                  && t.net == if o.Done? then EnqueuedAll(n, o.fx.messages) else n)
  {
    hide HistoryInv, Committed, ValidLog, TermsBounded, VoteRecorded, LeaderInv, CandidateInv, Handle, Fold, Accepts;
    IdleStep(en, h, i, l.core, store, e);
    var r := StepCore(l.core, e);
    if r.Stepped? {
      FoldKept(app, a, r.core.node, l.core.applied, l.machine);
      if r.ready.Some? {
        ReadySeenThrough(en, app, i, l, store, a, n, e);
      }
    }
  }

  lemma ReadySeenThrough<M>(en: Ensemble, app: App<M>, i: NodeId, l: Live<M>, store: Store, a: Node, n: Network, e: Event)
    requires WellFormedEvent(e) && LiveRel(en, app, i, l, store, a, {}) && l.phase == Idle
    requires var r := StepCore(l.core, e); var o := Handle(ConfigOf(en, i), a, e);
             && r.Stepped? && r.ready.Some? && o.Done? && r.core.node == o.node && r.core.outstanding == r.ready
             && r.ready.value == ReadyFrom(r.ready.value.id, o.fx, r.ready.value.committed)
             && CoreInv(r.core) && r.core.cfg == l.core.cfg && r.core.applied == l.core.applied
             && Folded(app, o.node.log, l.core.applied, l.machine)
    ensures var o := Handle(ConfigOf(en, i), a, e); var t := Finished(app, Scene(Begun(l, e), store, n), true);
            && (t.live.phase == Idle <==> !store.failing && Accepts(app, o.node))
            && (t.live.phase == Idle ==> LiveRel(en, app, i, t.live, t.store, o.node, {})
                                         && !t.store.failing && t.net == EnqueuedAll(n, o.fx.messages))
  {
    var r := StepCore(l.core, e);
    var o := Handle(ConfigOf(en, i), a, e);
    ReadyMatchesStore(l.core, e, store);
    EventStamped(ConfigOf(en, i), a, e);
    var s := Scene(Begun(l, e), store, n);
    var saved := Continued(app, s, true);
    if !store.failing {
      assert saved == Scene(Live(r.core, l.machine, Sending(0)), PersistDurable(store, ReadyBatch(r.ready.value)).store, n);
      SendsAll(app, saved, 0);
      var ms := r.ready.value.messages;
      assert ms[0..] == ms;
      var sent := saved.(live := saved.live.(phase := Applying(0)), net := EnqueuedAll(n, ms));
      AppliesAll(en, app, i, sent, o.node, set m | m in ms, 0);
    } else {
      assert saved.live.phase == Frozen(Some(e), true);
    }
  }

  // ----- Runs of the runtime -----

  function Last<T>(run: seq<T>): T
    requires run != []
  {
    run[|run| - 1]
  }

  lemma Extend<M>(en: Ensemble, app: App<M>, run: seq<System<M>>, sys: System<M>)
    requires IsSysRun(en, app, run) && SysNext(en, app, Last(run), sys)
    ensures IsSysRun(en, app, run + [sys])
  {
    var longer := run + [sys];
    forall k | 0 < k < |longer| ensures SysNext(en, app, longer[k - 1], longer[k]) {
      if k < |run| {
        assert SysNext(en, app, run[k - 1], run[k]);
      }
    }
  }

  lemma StepsShrink<M>(app: App<M>, s: Scene<M>, delivered: bool)
    requires Busy(s.live)
    ensures 0 <= StepsLeft(Continued(app, s, delivered).live) < StepsLeft(s.live)
  {
  }

  /** A busy node can be seen through to its end by its own small steps. */
  lemma {:induction false} WorkToEnd<M>(en: Ensemble, app: App<M>, run: seq<System<M>>, i: NodeId, up: bool)
    returns (run': seq<System<M>>)
    requires IsSysRun(en, app, run) && IsUp(en, Last(run), i)
    ensures IsSysRun(en, app, run') && run <= run'
    ensures var sys := Last(run);
            var t := Finished(app, Scene(sys.procs[i].live, sys.stores[i], sys.net), up);
            Last(run') == System(sys.procs[i := Up(t.live)], sys.stores[i := t.store], t.net)
    decreases StepsLeft(Last(run).procs[i].live)
  {
    hide Continued, StepsLeft, SysInit;
    var sys := Last(run);
    var s := Scene(sys.procs[i].live, sys.stores[i], sys.net);
    run' := run;
    if Busy(s.live) {
      var t := Continued(app, s, Passes(s.live, up));
      var sys1 := System(sys.procs[i := Up(t.live)], sys.stores[i := t.store], t.net);
      assert WorkStep(en, app, sys, sys1, i, Passes(s.live, up));
      Extend(en, app, run, sys1);
      StepsShrink(app, s, Passes(s.live, up));
      run' := WorkToEnd(en, app, run + [sys1], i, up);
    } else {
      assert sys.procs[i := sys.procs[i]] == sys.procs && sys.stores[i := sys.stores[i]] == sys.stores;
    }
  }

  /** No node has committed anything the application throws on. */
  ghost predicate AllAccept<M>(en: Ensemble, app: App<M>, f: Field) {
    forall i {:trigger f.nodes[i]} :: i in en.members && i in f.nodes ==> Accepts(app, f.nodes[i])
  }

  lemma AcceptedThere<M>(en: Ensemble, app: App<M>, f: Field, i: NodeId, e: Event)
    requires i in en.members && i in f.nodes && AllAccept(en, app, After(en, f, i, e))
    ensures Accepts(app, Handle(ConfigOf(en, i), f.nodes[i], e).node)
  {
    hide Handle, Accepts;
    assert Accepts(app, After(en, f, i, e).nodes[i]);
  }

  /** An event begins at a settled node and is seen through. */
  lemma EventSeenThrough<M>(en: Ensemble, app: App<M>, run: seq<System<M>>, sys: System<M>, f: Field, net: set<Message>,
                                  h: History, i: NodeId, e: Event)
    returns (run': seq<System<M>>)
    requires Settled(en, app, sys, f) && FieldInv(en, f, net, h)
    requires i in f.nodes && AllAccept(en, app, After(en, f, i, e))
    requires i in en.members && i in f.net.handlers && HonestEvent(en, h, i, e) && WellFormedEvent(e)
    requires i in sys.procs && sys.procs[i].Up?
    requires IsSysRun(en, app, run) && Last(run) == sys.(procs := sys.procs[i := Up(Begun(sys.procs[i].live, e))])
    ensures IsSysRun(en, app, run') && run <= run' && Settled(en, app, Last(run'), After(en, f, i, e))
  {
    hide Accepts, AllAccept, HistoryInv, Handle, Begun, Carries, NetworkInv, MessageInv, Fold;
    hide Committed, ValidLog, TermsBounded, VoteRecorded, LeaderInv, CandidateInv;
    assert SettledAt(en, app, sys, f, i);
    assert NodeInv(en, h, i, f.nodes[i]);
    AcceptedThere(en, app, f, i, e);
    OperationDone(en, app, h, i, sys.procs[i].live, sys.stores[i], f.nodes[i], sys.net, e);
    run' := WorkToEnd(en, app, run, i, true);
    var f' := After(en, f, i, e);
    var o := Handle(ConfigOf(en, i), f.nodes[i], e);
    if o.Done? {
      EnqueuedFrame(f.net, o.fx.messages);
    }
    forall j | j in en.members ensures SettledAt(en, app, Last(run'), f', j) {
      assert SettledAt(en, app, sys, f, j);
    }
  }

  lemma CallRealised<M>(en: Ensemble, app: App<M>, run: seq<System<M>>, f: Field, net: set<Message>, h: History,
                              i: NodeId, e: Event)
    returns (run': seq<System<M>>)
    requires IsSysRun(en, app, run) && Settled(en, app, Last(run), f) && FieldInv(en, f, net, h)
    requires i in en.members && i in f.net.handlers && !e.Deliver? && AllAccept(en, app, After(en, f, i, e))
    ensures IsSysRun(en, app, run') && run <= run' && Settled(en, app, Last(run'), After(en, f, i, e))
  {
    hide After, AllAccept, Begun, HistoryInv, NodeInv;
    var sys := Last(run);
    assert SettledAt(en, app, sys, f, i);
    var begun := sys.(procs := sys.procs[i := Up(Begun(sys.procs[i].live, e))]);
    assert CallStep(en, sys, begun, i, e);
    Extend(en, app, run, begun);
    run' := EventSeenThrough(en, app, run + [begun], sys, f, net, h, i, e);
  }

  lemma TakeRealised<M>(en: Ensemble, app: App<M>, run: seq<System<M>>, f: Field, net: set<Message>, h: History, index: nat)
    returns (run': seq<System<M>>)
    requires IsSysRun(en, app, run) && Settled(en, app, Last(run), f) && FieldInv(en, f, net, h)
    requires AllAccept(en, app, Delivered(en, f, index))
    ensures IsSysRun(en, app, run') && run <= run' && Settled(en, app, Last(run'), Delivered(en, f, index))
  {
    hide After, AllAccept, Begun, HistoryInv, NodeInv, LiveRel;
    var sys := Last(run);
    var rest := f.(net := Dropped(f.net, index));
    var m := Handed(f.net, index);
    var without := sys.(net := rest.net);
    NetSettled(en, app, sys, f, rest.net);
    if m.Some? {
      assert MessageInv(en, h, m.value) && SettledAt(en, app, sys, f, m.value.to);
      var e := Event.Deliver(m.value);
      var i := m.value.to;
      var begun := without.(procs := sys.procs[i := Up(Begun(sys.procs[i].live, e))]);
      assert DeliverStep(en, sys, begun, index);
      Extend(en, app, run, begun);
      PossibleIsHonest(en, Cluster(f.nodes, net), h, i, e);
      NetStep(f.net, NetOp.Deliver(index), net);
      assert net + {} == net;
      NetKeepsField(en, f, net, h, rest.net);
      run' := EventSeenThrough(en, app, run + [begun], without, rest, net, h, i, e);
    } else if index < |f.net.queue| {
      assert DeliverStep(en, sys, without, index);
      Extend(en, app, run, without);
      run' := run + [without];
    } else {
      run' := run;
      assert without == sys && rest == f;
    }
  }

  /** Only the queue and the rules of passage changed. */
  lemma NetSettled<M>(en: Ensemble, app: App<M>, sys: System<M>, f: Field, n: Network)
    requires Settled(en, app, sys, f) && n.handlers == f.net.handlers
    ensures Settled(en, app, sys.(net := n), f.(net := n))
  {
    forall j | j in en.members ensures SettledAt(en, app, sys.(net := n), f.(net := n), j) {
      assert SettledAt(en, app, sys, f, j);
    }
  }

  lemma ShapeRealised<M>(en: Ensemble, app: App<M>, run: seq<System<M>>, f: Field, op: NetOp) returns (run': seq<System<M>>)
    requires IsSysRun(en, app, run) && Settled(en, app, Last(run), f) && Allowed(en, f, Shape(op))
    ensures IsSysRun(en, app, run') && Settled(en, app, Last(run'), f.(net := ApplyNet(f.net, op)))
  {
    var sys := Last(run);
    var sys1 := sys.(net := ApplyNet(sys.net, op));
    assert NetworkStep(sys, sys1, op);
    Extend(en, app, run, sys1);
    run' := run + [sys1];
    NetSettled(en, app, sys, f, ApplyNet(f.net, op));
  }

  lemma CrashRealised<M>(en: Ensemble, app: App<M>, run: seq<System<M>>, f: Field, i: NodeId) returns (run': seq<System<M>>)
    requires IsSysRun(en, app, run) && Settled(en, app, Last(run), f) && Allowed(en, f, Crash(i))
    ensures IsSysRun(en, app, run') && Settled(en, app, Last(run'), Perform(en, f, Crash(i)))
  {
    var sys := Last(run);
    assert SettledAt(en, app, sys, f, i);
    var sys1 := System(sys.procs[i := Down], sys.stores, ApplyNet(sys.net, NetOp.Unregister(i)));
    assert CrashStep(en, sys, sys1, i);
    Extend(en, app, run, sys1);
    run' := run + [sys1];
    forall j | j in en.members ensures SettledAt(en, app, sys1, Perform(en, f, Crash(i)), j) {
      assert SettledAt(en, app, sys, f, j);
    }
  }

  lemma RestartRealised<M>(en: Ensemble, app: App<M>, run: seq<System<M>>, f: Field, net: set<Message>, h: History, i: NodeId)
    returns (run': seq<System<M>>)
    requires IsSysRun(en, app, run) && Settled(en, app, Last(run), f) && FieldInv(en, f, net, h)
    requires Allowed(en, f, Restart(i)) && Accepts(app, f.nodes[i])
    ensures IsSysRun(en, app, run') && Settled(en, app, Last(run'), Perform(en, f, Restart(i)))
  {
    hide HistoryInv, LiveRel, Holds, Recover, Carries, NetworkInv, Maximal, MessageInv, Fold;
    hide Committed, TermsBounded, VoteRecorded, CandidateInv, LeaderInv, ValidLog;
    var sys := Last(run);
    assert SettledAt(en, app, sys, f, i) && NodeInv(en, h, i, f.nodes[i]);
    var a := f.nodes[i];
    RecoveryOpens(en, app, i, sys.stores[i], a);
    var r := Recover(app, ConfigOf(en, i), sys.stores[i]);
    var sys1 := System(sys.procs[i := Up(r.live)], sys.stores[i := r.store], ApplyNet(sys.net, NetOp.Register(i)));
    assert StartStep(en, app, sys, sys1, i);
    Extend(en, app, run, sys1);
    run' := run + [sys1];
    forall j | j in en.members ensures SettledAt(en, app, sys1, Perform(en, f, Restart(i)), j) {
      assert SettledAt(en, app, sys, f, j);
    }
  }

  lemma RecoveryOpens<M>(en: Ensemble, app: App<M>, i: NodeId, store: Store, a: Node)
    requires Accepts(app, a) && Holds(store, a) && !store.failing
    requires Contiguous(a.log) && a.commit <= |a.log|
    ensures var r := Recover(app, ConfigOf(en, i), store); var a' := Recovered(Hard(a), a.log);
            && r.Reopened? && !r.store.failing && LiveRel(en, app, i, r.live, r.store, a', {})
            && r.live.phase == Idle
  {
    RecoveredHolds(app, ConfigOf(en, i), store, a);
    if store.applied < a.commit {
      AppliedAccepted(store, a, a.commit);
    }
  }

  lemma AcceptedReopened<M>(en: Ensemble, app: App<M>, f: Field, i: NodeId)
    requires Allowed(en, f, Restart(i)) && AllAccept(en, app, Perform(en, f, Restart(i)))
    ensures Accepts(app, f.nodes[i])
  {
    assert Accepts(app, Perform(en, f, Restart(i)).nodes[i]);
  }

  lemma OperationRealised<M>(en: Ensemble, app: App<M>, run: seq<System<M>>, f: Field, net: set<Message>, h: History,
                                   op: TestOp)
    returns (run': seq<System<M>>)
    requires IsSysRun(en, app, run) && Settled(en, app, Last(run), f) && FieldInv(en, f, net, h)
    requires Allowed(en, f, op) && AllAccept(en, app, Perform(en, f, op))
    ensures IsSysRun(en, app, run') && Settled(en, app, Last(run'), Perform(en, f, op))
  {
    match op {
      case Call(i, e) => run' := CallRealised(en, app, run, f, net, h, i, e);
      case Take(index) => run' := TakeRealised(en, app, run, f, net, h, index);
      case Shape(o) => run' := ShapeRealised(en, app, run, f, o);
      case Crash(i) => run' := CrashRealised(en, app, run, f, i);
      case Restart(i) =>
        AcceptedReopened(en, app, f, i);
        run' := RestartRealised(en, app, run, f, net, h, i);
    }
  }

  // ----- From the first start -----

  /** The members that start first, up, and the others still down. */
  ghost predicate Started<M>(en: Ensemble, app: App<M>, sys: System<M>, k: nat)
    requires k <= |en.members|
  {
    && sys.net == IDLE.(handlers := Elements(en.members[..k]))
    && (forall i :: i in en.members ==>
                      i in sys.procs && i in sys.stores && sys.stores[i] == EMPTY
                      && sys.procs[i] == if i in en.members[..k] then Up(FreshLive(en, app, i)) else Down)
  }

  function FreshLive<M>(en: Ensemble, app: App<M>, i: NodeId): Live<M> {
    Live(Opened(ConfigOf(en, i), Persisted(HardState(0, None, 0), [], 0)), app.init, Idle)
  }

  lemma {:induction false} StartAll<M>(en: Ensemble, app: App<M>, k: nat) returns (run: seq<System<M>>)
    requires Distinct(en.members) && k <= |en.members|
    ensures IsSysRun(en, app, run) && Started(en, app, Last(run), k)
    decreases k
  {
    hide SysNext;
    if k == 0 {
      run := [System(map i | i in en.members :: Down, map i | i in en.members :: EMPTY, IDLE)];
      assert Elements(en.members[..0]) == {};
    } else {
      var before := StartAll(en, app, k - 1);
      var sys1 := StartNext(en, app, Last(before), k - 1);
      Extend(en, app, before, sys1);
      run := before + [sys1];
    }
  }

  lemma StartNext<M>(en: Ensemble, app: App<M>, sys: System<M>, k: nat) returns (sys1: System<M>)
    requires Distinct(en.members) && k < |en.members| && Started(en, app, sys, k)
    ensures SysNext(en, app, sys, sys1) && Started(en, app, sys1, k + 1)
  {
    hide Recover, FreshLive, Elements;
    var i := en.members[k];
    FreshRecovery(en, app, i);
    sys1 := System(sys.procs[i := Up(FreshLive(en, app, i))], sys.stores[i := EMPTY], ApplyNet(sys.net, NetOp.Register(i)));
    assert i !in en.members[..k];
    assert StartStep(en, app, sys, sys1, i);
    assert en.members[..k + 1] == en.members[..k] + [i];
    OneMoreElement(en.members, k);
  }

  lemma OneMoreElement(s: seq<NodeId>, k: nat)
    requires k < |s|
    ensures Elements(s[..k + 1]) == Elements(s[..k]) + {s[k]}
  {
    assert s[..k + 1] == s[..k] + [s[k]];
  }

  lemma FreshRecovery<M>(en: Ensemble, app: App<M>, i: NodeId)
    ensures Recover(app, ConfigOf(en, i), EMPTY) == Reopened(FreshLive(en, app, i), EMPTY)
  {
    var none: seq<Entry> := [];
    assert none[..0] == none;
  }

  lemma StartedIsSettled<M>(en: Ensemble, app: App<M>, sys: System<M>, f: Field)
    requires FieldInit(en, f) && Started(en, app, sys, |en.members|)
    ensures Settled(en, app, sys, f)
  {
    assert en.members[..|en.members|] == en.members;
    forall i | i in en.members ensures SettledAt(en, app, sys, f, i) {
      assert FRESH.log[..0] == [];
    }
  }

  // ----- What a scenario keeps -----

  ghost predicate NodeAdvances(f: Field, g: Field, i: NodeId) {
    i in f.nodes && i in g.nodes && Advances(f.nodes[i], g.nodes[i])
  }

  ghost predicate FieldAdvances(en: Ensemble, f: Field, g: Field) {
    forall i {:trigger NodeAdvances(f, g, i)} :: i in en.members ==> NodeAdvances(f, g, i)
  }

  lemma AfterAdvances(en: Ensemble, f: Field, net: set<Message>, h: History, i: NodeId, e: Event)
    requires FieldInv(en, f, net, h) && i in en.members
    ensures FieldAdvances(en, f, After(en, f, i, e))
  {
    hide Handle, WellFormed, HistoryInv;
    assert NodeInv(en, h, i, f.nodes[i]);
    InvIsWellFormed(en, h, i, f.nodes[i]);
    EventSound(ConfigOf(en, i), f.nodes[i], e);
    forall j | j in en.members ensures NodeAdvances(f, After(en, f, i, e), j) {
      assert NodeInv(en, h, j, f.nodes[j]);
    }
  }

  lemma DeliveredAdvances(en: Ensemble, f: Field, net: set<Message>, h: History, index: nat)
    requires FieldInv(en, f, net, h)
    ensures FieldAdvances(en, f, Delivered(en, f, index))
  {
    hide After, HistoryInv, FieldAdvances;
    var rest := f.(net := Dropped(f.net, index));
    var m := Handed(f.net, index);
    NetStep(f.net, NetOp.Deliver(index), net);
    assert net + {} == net;
    NetKeepsField(en, f, net, h, rest.net);
    SelfAdvances(en, f, net, h);
    SameNodesAdvance(en, f, f, rest);
    if m.Some? && m.value.to in f.nodes {
      assert MessageInv(en, h, m.value);
      AfterAdvances(en, rest, net, h, m.value.to, Event.Deliver(m.value));
      SameNodesBefore(en, rest, f, After(en, rest, m.value.to, Event.Deliver(m.value)));
    }
  }

  lemma SameNodesAdvance(en: Ensemble, f: Field, g: Field, g': Field)
    requires FieldAdvances(en, f, g) && g'.nodes == g.nodes
    ensures FieldAdvances(en, f, g')
  {
    forall i | i in en.members ensures NodeAdvances(f, g', i) {
      assert NodeAdvances(f, g, i);
    }
  }

  lemma SameNodesBefore(en: Ensemble, f: Field, f': Field, g: Field)
    requires FieldAdvances(en, f, g) && f'.nodes == f.nodes
    ensures FieldAdvances(en, f', g)
  {
    forall i | i in en.members ensures NodeAdvances(f', g, i) {
      assert NodeAdvances(f, g, i);
    }
  }

  lemma SelfAdvances(en: Ensemble, f: Field, net: set<Message>, h: History)
    requires FieldInv(en, f, net, h)
    ensures FieldAdvances(en, f, f)
  {
    forall j | j in en.members ensures NodeAdvances(f, f, j) {
      assert NodeInv(en, h, j, f.nodes[j]);
    }
  }

  lemma RestartAdvances(en: Ensemble, f: Field, g: Field, i: NodeId)
    requires FieldAdvances(en, f, f) && i in en.members && i in f.nodes
    requires g.nodes == f.nodes[i := Recovered(Hard(f.nodes[i]), f.nodes[i].log)]
    ensures FieldAdvances(en, f, g)
  {
    forall j | j in en.members ensures NodeAdvances(f, g, j) {
      assert NodeAdvances(f, f, j);
    }
  }

  lemma PerformAdvances(en: Ensemble, f: Field, net: set<Message>, h: History, op: TestOp)
    requires FieldInv(en, f, net, h) && Allowed(en, f, op)
    ensures FieldAdvances(en, f, Perform(en, f, op))
  {
    hide After, Delivered, HistoryInv, FieldAdvances;
    SelfAdvances(en, f, net, h);
    match op {
      case Call(i, e) => AfterAdvances(en, f, net, h, i, e);
      case Take(index) => DeliveredAdvances(en, f, net, h, index);
      case Shape(_) => SameNodesAdvance(en, f, f, Perform(en, f, op));
      case Crash(_) => SameNodesAdvance(en, f, f, Perform(en, f, op));
      case Restart(i) => RestartAdvances(en, f, Perform(en, f, op), i);
    }
  }

  /** What the application accepts of a log, it accepts of any earlier commit index. */
  lemma AcceptedBefore<M>(en: Ensemble, app: App<M>, f: Field, g: Field)
    requires FieldAdvances(en, f, g) && AllAccept(en, app, g)
    ensures AllAccept(en, app, f)
  {
    forall i | i in en.members && i in f.nodes ensures Accepts(app, f.nodes[i]) {
      assert NodeAdvances(f, g, i);
      var s, t := f.nodes[i], g.nodes[i];
      assert Accepts(app, t);
      assert t.log[..t.commit][..s.commit] == s.log[..s.commit];
      if Fold(app, app.init, s.log[..s.commit]) == None {
        FoldFails(app, app.init, t.log[..t.commit], s.commit);
      }
    }
  }

  /**
   Every scenario over the test cluster is a run of the small-step runtime that ends where the scenario
   does, as long as the application accepts what has been committed by then.
   */
  lemma {:induction false} ScenarioIsRun<M>(en: Ensemble, app: App<M>, fs: seq<Field>) returns (run: seq<System<M>>)
    requires IsTestRun(en, fs) && AllAccept(en, app, Last(fs))
    ensures IsSysRun(en, app, run) && Settled(en, app, Last(run), Last(fs))
    decreases |fs|
  {
    hide FieldInv, Settled, Perform, Allowed, SysNext, SysInit, Started, AllAccept, FieldAdvances;
    var n := |fs| - 1;
    if n == 0 {
      run := StartAll(en, app, |en.members|);
      StartedIsSettled(en, app, Last(run), fs[0]);
    } else {
      var shorter := fs[..n];
      assert shorter[n - 1] == fs[n - 1];
      var net, h := TestRunInv(en, shorter);
      assert TestNext(en, fs[n - 1], fs[n]);
      var op: TestOp :| TestStep(en, fs[n - 1], fs[n], op);
      PerformAdvances(en, fs[n - 1], net, h, op);
      AcceptedBefore(en, app, fs[n - 1], fs[n]);
      var before := ScenarioIsRun(en, app, shorter);
      run := OperationRealised(en, app, before, fs[n - 1], net, h, op);
    }
  }
}
