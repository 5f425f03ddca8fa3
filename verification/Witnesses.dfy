/** Runs that reach what the exact conditions leave open: a status that falls, a node that freezes in silence. */
module Witnesses {
  import opened RaftTypes
  import opened Protocol
  import opened Quorums
  import opened NodeFacts
  import opened CoreSpec
  import opened Stores
  import opened Networks
  import opened Histories
  import opened Handlers
  import opened Clusters
  import opened SafetyTheorems
  import opened Runtime
  import opened RuntimeRefinement
  import opened RuntimeTheorems
  import opened Fields
  import opened Convergence
  import opened Settlements
  import opened Elections
  import opened Audits

  // ----- A status that falls -----

  /**
   From any state of any run, arm the store of an idle node that does not lead and let it campaign: it
   freezes, and shows in memory a term its store never heard of.
   */
  lemma ArmedCampaignUnsettles<M>(en: Ensemble, app: App<M>, srun: seq<System<M>>, i: NodeId) returns (longer: seq<System<M>>)
    requires IsSysRun(en, app, srun) && LiveAt(en, srun, |srun| - 1, i)
    requires var l := Last(srun).procs[i].live; l.phase == Idle && l.core.node.role != Leader
    ensures IsSysRun(en, app, longer) && |longer| == |srun| + 3 && srun <= longer && LiveAt(en, longer, |longer| - 1, i)
    ensures var l := Last(longer).procs[i].live; l.phase.Frozen? && Unsettled(l) && Raises(l, Last(longer).stores[i])
    ensures Last(longer).stores[i] == Last(srun).stores[i].(failing := false)
  {
    hide HistoryInv, NodeInv, LiveRel, StepCore, Raises, SysNext;
    var run := RuntimeIsCluster(en, app, srun);
    var hs := RunInv(en, run);
    var k := |srun| - 1;
    var sys := Last(srun);
    assert Related(en, app, sys, run[k], i) && Inv(en, run[k], hs[k]);
    CampaignRaises(en, app, hs[k], i, sys.procs[i].live, sys.stores[i], run[k].nodes[i], run[k].net);
    var a, b, c := CampaignUnsaved(en, app, sys, i);
    longer := ThreeMore(en, app, srun, a, b, c);
  }

  /** Arm the store, campaign, fail to save. */
  lemma CampaignUnsaved<M>(en: Ensemble, app: App<M>, sys: System<M>, i: NodeId) returns (a: System<M>, b: System<M>, c: System<M>)
    requires IsUp(en, sys, i) && sys.procs[i].live.phase == Idle
    requires var l := Begun(sys.procs[i].live, ElectionTimeout);
             l.phase == Saving(ElectionTimeout) && Busy(l) && Raises(l, sys.stores[i])
    ensures SysNext(en, app, sys, a) && SysNext(en, app, a, b) && SysNext(en, app, b, c)
    ensures IsUp(en, c, i) && c.procs[i].live.phase.Frozen? && Unsettled(c.procs[i].live) && Raises(c.procs[i].live, c.stores[i])
    ensures c.stores[i] == sys.stores[i].(failing := false)
  {
    hide StepCore, NextEntries;
    var l, store := Begun(sys.procs[i].live, ElectionTimeout), sys.stores[i].(failing := true);
    a := sys.(stores := sys.stores[i := store]);
    assert ArmStep(en, sys, a, i);
    b := a.(procs := a.procs[i := Up(l)]);
    assert CallStep(en, a, b, i, ElectionTimeout);
    var t := Continued(app, Scene(l, store, sys.net), true);
    c := System(b.procs[i := Up(t.live)], b.stores[i := t.store], t.net);
    assert WorkStep(en, app, b, c, i, true);
  }

  lemma ThreeMore<M>(en: Ensemble, app: App<M>, srun: seq<System<M>>, a: System<M>, b: System<M>, c: System<M>)
    returns (longer: seq<System<M>>)
    requires IsSysRun(en, app, srun)
    requires SysNext(en, app, Last(srun), a) && SysNext(en, app, a, b) && SysNext(en, app, b, c)
    ensures IsSysRun(en, app, longer) && longer == srun + [a, b, c]
  {
    hide SysNext;
    Extend(en, app, srun, a);
    Extend(en, app, srun + [a], b);
    Extend(en, app, srun + [a] + [b], c);
    longer := srun + [a] + [b] + [c];
  }

  lemma CampaignRaises<M>(en: Ensemble, app: App<M>, h: History, i: NodeId, l: Live<M>, store: Store, a: Node, net: set<Message>)
    requires HistoryInv(en, h) && NodeInv(en, h, i, a) && LiveRel(en, app, i, l, store, a, net)
    requires l.phase == Idle && l.core.node.role != Leader
    ensures var b := Begun(l, ElectionTimeout); b.phase == Saving(ElectionTimeout) && Busy(b) && Raises(b, store)
  {
    hide HistoryInv, NodeInv, BecomeLeader, Advances, WellFormed;
    IdleStep(en, h, i, l.core, store, ElectionTimeout);
    CampaignTerm(ConfigOf(en, i), a);
    InvIsWellFormed(en, h, i, a);
    EventSound(ConfigOf(en, i), a, ElectionTimeout);
    NeverFails(en, h, i, l.core);
  }

  lemma NeverFails(en: Ensemble, h: History, i: NodeId, core: Core)
    requires HistoryInv(en, h) && NodeInv(en, h, i, core.node) && core.cfg == ConfigOf(en, i) && CoreInv(core)
    requires core.outstanding == None
    ensures StepCore(core, ElectionTimeout).Stepped?
  {
    hide HistoryInv, NodeInv, Handle;
    var h' := EventHandled(en, h, i, core.node, ElectionTimeout);
    StepKeepsCore(core, ElectionTimeout);
  }

  lemma CampaignTerm(cfg: Config, s: Node)
    requires s.role != Leader
    ensures Handle(cfg, s, ElectionTimeout).Done? ==> Handle(cfg, s, ElectionTimeout).node.term == s.term + 1
  {
    hide CommitTarget;
  }

  /**
   And the audit reports it: crash that node and start it again. Recovery opens over the untouched store,
   and the status the audit saw in between has gone back.
   */
  lemma AuditReportsFall<M>(en: Ensemble, app: App<M>, srun: seq<System<M>>, i: NodeId) returns (longer: seq<System<M>>)
    requires IsSysRun(en, app, srun) && LiveAt(en, srun, |srun| - 1, i)
    requires var l := Last(srun).procs[i].live; l.phase == Idle && l.core.node.role != Leader
    ensures IsSysRun(en, app, longer) && |longer| == |srun| + 5 && srun <= longer
    ensures LiveAt(en, longer, |srun| + 2, i) && LiveAt(en, longer, |srun| + 4, i)
    ensures var seen, after := longer[|srun| + 2].procs[i].live.core, longer[|srun| + 4].procs[i].live.core;
            !StatusFits(MarksOf(i, seen), i, after)
  {
    hide SysNext, StatusFits, MarksOf, Raises, Recover, Unsettled, SysInit;
    var frozen := ArmedCampaignUnsettles(en, app, srun, i);
    IdleFolds(en, app, srun, i);
    RecoveryOpensExactly(en, app, frozen, |frozen| - 1, i);
    var down, up := CrashAndStart(en, app, Last(frozen), i);
    Extend(en, app, frozen, down);
    Extend(en, app, frozen + [down], up);
    longer := frozen + [down] + [up];
    assert longer[|srun| + 2] == Last(frozen) && longer[|srun| + 3] == down && longer[|srun| + 4] == up;
    RestartFallsExactly(en, app, longer, |srun| + 2, |srun| + 3, i);
  }

  lemma IdleFolds<M>(en: Ensemble, app: App<M>, srun: seq<System<M>>, i: NodeId)
    requires IsSysRun(en, app, srun) && LiveAt(en, srun, |srun| - 1, i) && Last(srun).procs[i].live.phase == Idle
    ensures var store := Last(srun).stores[i];
            store.hard.commit <= |store.entries| && Fold(app, app.init, store.entries[..store.hard.commit]).Some?
  {
    var run := RuntimeIsCluster(en, app, srun);
    assert Related(en, app, Last(srun), run[|srun| - 1], i);
  }

  lemma CrashAndStart<M>(en: Ensemble, app: App<M>, sys: System<M>, i: NodeId) returns (down: System<M>, up: System<M>)
    requires IsUp(en, sys, i) && Recover(app, ConfigOf(en, i), sys.stores[i]).Reopened?
    ensures SysNext(en, app, sys, down) && SysNext(en, app, down, up)
    ensures CrashStep(en, sys, down, i) && StartStep(en, app, down, up, i) && IsUp(en, up, i)
  {
    hide Recover;
    down := System(sys.procs[i := Down], sys.stores, ApplyNet(sys.net, NetOp.Unregister(i)));
    assert CrashStep(en, sys, down, i);
    var r := Recover(app, ConfigOf(en, i), down.stores[i]);
    up := System(down.procs[i := Up(r.live)], down.stores[i := r.store], ApplyNet(down.net, NetOp.Register(i)));
    assert StartStep(en, app, down, up, i);
  }

  // ----- A node that freezes in silence -----

  /** A cluster of one. */
  function Alone(i: NodeId): Ensemble {
    Ensemble("alone", [i], 0)
  }

  function OpeningNoop(): Entry {
    Entry(1, 1, Noop, [], None)
  }

  /** Its first campaign elects it at once, and its no-op is committed in the same step. */
  lemma AloneElected(i: NodeId)
    ensures var o := Handle(ConfigOf(Alone(i), i), FRESH, ElectionTimeout);
            && o.Done? && o.node.term == 1 && o.node.log == [OpeningNoop()] && o.node.commit == 1
            && o.node.votedFor == Some(i)
            && o.fx == Effects(Some(HardState(1, Some(i), 1)), None, [OpeningNoop()], [])
  {
    var cfg := ConfigOf(Alone(i), i);
    NoPeers(i);
    var s := Crowned(cfg, Campaigning(cfg, FRESH));
    var none: seq<Entry> := [];
    assert none + [OpeningNoop()] == [OpeningNoop()];
    var t := s.(log := [OpeningNoop()]);
    assert MatchedPeers(t, 1) == {};
    assert CommitTarget(cfg, t, 1) == 1;
  }

  lemma NoPeers(i: NodeId)
    ensures Peers(ConfigOf(Alone(i), i)) == []
  {
    var none: seq<NodeId> := [];
    assert [i][1..] == none && Without(none, i) == none;
    assert Without([i], i) == Without([i][1..], i);
  }

  lemma AloneBegins<M>(app: App<M>, i: NodeId)
    ensures var b := Begun(FreshLive(Alone(i), app, i), ElectionTimeout);
            && b.phase == Saving(ElectionTimeout) && b.machine == app.init && b.core.outstanding.Some?
            && b.core.outstanding.value == Ready(1, Some(HardState(1, Some(i), 1)), None, [OpeningNoop()], [], [OpeningNoop()])
  {
    hide Handle;
    AloneElected(i);
    var c := FreshLive(Alone(i), app, i).core;
    var o := Handle(c.cfg, c.node, ElectionTimeout);
    assert Unapplied(o.node.log, 0, 1) == [OpeningNoop()];
    assert Broken(c.(node := o.node)) == None;
  }

  lemma AloneSaves(i: NodeId)
    ensures var r := Ready(1, Some(HardState(1, Some(i), 1)), None, [OpeningNoop()], [], [OpeningNoop()]);
            PersistDurable(EMPTY, ReadyBatch(r)) == Stored(Store(HardState(1, Some(i), 1), [OpeningNoop()], None, 0, false))
  {
    var none: seq<Entry> := [];
    assert none + [OpeningNoop()] == [OpeningNoop()];
    assert [OpeningNoop()][1..] == none;
    assert Pushed([OpeningNoop()], 0, none) == Some([OpeningNoop()]);
  }

  /**
   The silent freeze happens: a node alone campaigns, saves its batch, and its store is armed just before
   the no-op is recorded as applied. The node stops for good and is still reported healthy.
   */
  lemma SilentFreezeReached<M>(app: App<M>, i: NodeId) returns (run: seq<System<M>>)
    ensures IsSysRun(Alone(i), app, run) && LiveAt(Alone(i), run, |run| - 1, i)
    ensures Last(run).procs[i].live.phase == Frozen(None, false)
  {
    hide SysNext, SysInit, Begun, PersistDurable;
    var en := Alone(i);
    run := StartAll(en, app, 1);
    assert [i][..1] == [i] && i in en.members;
    AloneBegins(app, i);
    AloneSaves(i);
    var a, b, c, d, e := AloneSteps(app, i, Last(run));
    Extend(en, app, run, a);
    Extend(en, app, run + [a], b);
    Extend(en, app, run + [a] + [b], c);
    Extend(en, app, run + [a] + [b] + [c], d);
    Extend(en, app, run + [a] + [b] + [c] + [d], e);
    run := run + [a] + [b] + [c] + [d] + [e];
  }

  /** Campaign, save, nothing to send, arm, fail to record the no-op. */
  lemma AloneSteps<M>(app: App<M>, i: NodeId, sys: System<M>)
    returns (a: System<M>, b: System<M>, c: System<M>, d: System<M>, e: System<M>)
    requires IsUp(Alone(i), sys, i) && sys.procs[i].live == FreshLive(Alone(i), app, i) && sys.stores[i] == EMPTY
    ensures var en := Alone(i);
            && SysNext(en, app, sys, a) && SysNext(en, app, a, b) && SysNext(en, app, b, c)
            && SysNext(en, app, c, d) && SysNext(en, app, d, e)
    ensures IsUp(Alone(i), e, i) && e.procs[i].live.phase == Frozen(None, false)
  {
    hide StepCore, NextEntries, Alone, Opened;
    var en := Alone(i);
    AloneBegins(app, i);
    AloneSaves(i);
    var l := Begun(sys.procs[i].live, ElectionTimeout);
    a := sys.(procs := sys.procs[i := Up(l)]);
    assert CallStep(en, sys, a, i, ElectionTimeout);
    b := Worked(app, i, a);
    c := Worked(app, i, b);
    d, e := AloneFreezes(app, i, c);
  }

  lemma AloneFreezes<M>(app: App<M>, i: NodeId, c: System<M>) returns (d: System<M>, e: System<M>)
    requires IsUp(Alone(i), c, i) && c.procs[i].live.phase == Applying(0) && c.procs[i].live.core.outstanding.Some?
    requires c.procs[i].live.core.outstanding.value.committed == [OpeningNoop()]
    ensures SysNext(Alone(i), app, c, d) && SysNext(Alone(i), app, d, e)
    ensures IsUp(Alone(i), e, i) && e.procs[i].live.phase == Frozen(None, false)
  {
    d := c.(stores := c.stores[i := c.stores[i].(failing := true)]);
    assert ArmStep(Alone(i), c, d, i);
    e := Worked(app, i, d);
  }

  lemma Worked<M>(app: App<M>, i: NodeId, sys: System<M>) returns (sys': System<M>)
    requires IsUp(Alone(i), sys, i) && Busy(sys.procs[i].live)
    ensures SysNext(Alone(i), app, sys, sys')
    ensures var t := Continued(app, Scene(sys.procs[i].live, sys.stores[i], sys.net), true);
            sys' == System(sys.procs[i := Up(t.live)], sys.stores[i := t.store], t.net)
  {
    var t := Continued(app, Scene(sys.procs[i].live, sys.stores[i], sys.net), true);
    sys' := System(sys.procs[i := Up(t.live)], sys.stores[i := t.store], t.net);
    assert WorkStep(Alone(i), app, sys, sys', i, true);
  }

  // ----- A campaign that cannot succeed -----

  function Duo(a: NodeId, c: NodeId): Ensemble {
    Ensemble("duo", [a, c], 0)
  }

  function Courier(from: NodeId, to: NodeId, body: Body): Message {
    Message(PROTOCOL_VERSION, "duo", from, to, 1, body)
  }

  lemma DuoPeers(a: NodeId, c: NodeId)
    requires a != c
    ensures Peers(ConfigOf(Duo(a, c), a)) == [c] && Peers(ConfigOf(Duo(a, c), c)) == [a]
  {
    assert [a, c][1..] == [c] && [c][1..] == [];
    assert Without([c], a) == [c] && Without([c], c) == [];
  }

  /** The first campaign: a asks, c grants, a leads with its no-op and tells c. */
  lemma DuoElects(a: NodeId, c: NodeId) returns (x: Node, y: Node, z: Node, told: Message)
    requires a != c
    ensures x.term == 1 && y.term == 1 && z.term == 1 && z.role == Leader && z.log == [OpeningNoop()]
    ensures y.role == Follower && y.log == []
    ensures var o := Handle(ConfigOf(Duo(a, c), a), FRESH, ElectionTimeout);
            o.Done? && o.node == x && o.fx.messages == [Courier(a, c, VoteRequest(0, 0))]
    ensures var o := Handle(ConfigOf(Duo(a, c), c), FRESH, Event.Deliver(Courier(a, c, VoteRequest(0, 0))));
            o.Done? && o.node == y && o.fx.messages == [Courier(c, a, VoteResponse(true))]
    ensures var o := Handle(ConfigOf(Duo(a, c), a), x, Event.Deliver(Courier(c, a, VoteResponse(true))));
            o.Done? && o.node == z && o.fx.messages == [told]
  {
    hide CommitTarget;
    DuoPeers(a, c);
    x := Handle(ConfigOf(Duo(a, c), a), FRESH, ElectionTimeout).node;
    y := Handle(ConfigOf(Duo(a, c), c), FRESH, Event.Deliver(Courier(a, c, VoteRequest(0, 0)))).node;
    var o := Handle(ConfigOf(Duo(a, c), a), x, Event.Deliver(Courier(c, a, VoteResponse(true))));
    z, told := o.node, o.fx.messages[0];
  }

  /** A node whose step sends one message, on a network with nothing else in it and nothing in the way. */
  lemma OneSent(en: Ensemble, f: Field, i: NodeId, e: Event, r: Message)
    requires i in f.nodes && f.net.blocked == {} && !f.net.dropAll && f.net.queue == []
    requires var o := Handle(ConfigOf(en, i), f.nodes[i], e); o.Done? && o.fx.messages == [r]
    ensures After(en, f, i, e) == Field(f.nodes[i := Handle(ConfigOf(en, i), f.nodes[i], e).node],
                                        f.net.(queue := [Pending(f.net.nextId, r)], nextId := f.net.nextId + 1))
  {
    hide Handle;
    assert EnqueuedAll(f.net, [r]) == EnqueuedAll(Enqueued(f.net, r), [r][1..]);
  }

  /** The only message in flight is answered with one message. */
  lemma OneAnswered(en: Ensemble, f: Field, m: Message, id: nat, r: Message)
    requires f.net.blocked == {} && !f.net.dropAll && f.net.queue == [Pending(id, m)]
    requires m.to in f.nodes && m.to in f.net.handlers
    requires var o := Handle(ConfigOf(en, m.to), f.nodes[m.to], Event.Deliver(m)); o.Done? && o.fx.messages == [r]
    ensures Delivered(en, f, 0) == Field(f.nodes[m.to := Handle(ConfigOf(en, m.to), f.nodes[m.to], Event.Deliver(m)).node],
                                         f.net.(queue := [Pending(f.net.nextId, r)], nextId := f.net.nextId + 1))
  {
    hide Handle;
    assert Removed(f.net.queue, 0) == [];
    OneSent(en, f.(net := f.net.(queue := [])), m.to, Event.Deliver(m), r);
  }

  lemma FourSteps(en: Ensemble, fs: seq<Field>)
    requires |fs| == 5 && FieldInit(en, fs[0])
    requires TestNext(en, fs[0], fs[1]) && TestNext(en, fs[1], fs[2]) && TestNext(en, fs[2], fs[3]) && TestNext(en, fs[3], fs[4])
    ensures Reached(en, fs[4])
  {
    hide TestNext, FieldInit;
    assert IsTestRun(en, fs);
  }

  lemma DuoOutvoted(a: NodeId, c: NodeId, f: Field)
    requires a != c && f.nodes.Keys == {a, c} && f.nodes[a].term == f.nodes[c].term && f.nodes[c].role == Follower
    requires f.nodes[a].log == [OpeningNoop()] && f.nodes[c].log == []
    requires f.net.queue == [] && Open(Duo(a, c), f.net)
    ensures Quiet(Duo(a, c), f, c) && !IsQuorum([a, c], Backers(Duo(a, c), f, c))
  {
    assert Backers(Duo(a, c), f, c) == {c};
  }

  /**
   A quiet state in which a campaign is bound to fail is reached: two nodes elect one of them, and the
   message with its no-op is lost. The other's log is then as new as no majority's.
   */
  lemma OutvotedReached(a: NodeId, c: NodeId) returns (f: Field)
    requires a != c
    ensures Reached(Duo(a, c), f) && Quiet(Duo(a, c), f, c) && !IsQuorum([a, c], Backers(Duo(a, c), f, c))
  {
    hide Handle, After, Delivered, Reached, Quiet, IsQuorum;
    var en := Duo(a, c);
    var x, y, z, told := DuoElects(a, c);
    var f0 := Field(map i | i in en.members :: FRESH, IDLE.(handlers := Elements(en.members)));
    var f1 := Perform(en, f0, Call(a, ElectionTimeout));
    var f2 := Perform(en, f1, Take(0));
    var f3 := Perform(en, f2, Take(0));
    f := Perform(en, f3, Shape(NetOp.Drop(0)));
    OneSent(en, f0, a, ElectionTimeout, Courier(a, c, VoteRequest(0, 0)));
    OneAnswered(en, f1, Courier(a, c, VoteRequest(0, 0)), 1, Courier(c, a, VoteResponse(true)));
    OneAnswered(en, f2, Courier(c, a, VoteResponse(true)), 2, told);
    assert TestStep(en, f0, f1, Call(a, ElectionTimeout)) && TestStep(en, f1, f2, Take(0)) && TestStep(en, f2, f3, Take(0));
    assert TestStep(en, f3, f, Shape(NetOp.Drop(0)));
    FourSteps(en, [f0, f1, f2, f3, f]);
    DuoOutvoted(a, c, f);
  }
}
