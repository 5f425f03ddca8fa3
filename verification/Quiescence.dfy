/**
 Quiescence of the whole runtime. From any moment at which all nodes are up and idle, whatever
 failures and crashes came before, operations seen through are a continuation of the run.
 */
module Quiescence {
  import opened RaftTypes
  import opened Protocol
  import opened NodeFacts
  import opened CoreSpec
  import opened Stores
  import opened Networks
  import opened Histories
  import opened Clusters
  import opened SafetyTheorems
  import opened Runtime
  import opened Machines
  import opened RuntimeRefinement
  import opened Fields
  import opened Convergence
  import opened Settlements

  // ----- The runtime seen as a test cluster -----

  function View<M>(en: Ensemble, sys: System<M>): Field {
    Field(map i | i in en.members && i in sys.procs && sys.procs[i].Up? :: sys.procs[i].live.core.node, sys.net)
  }

  /** Every member is up and idle, and no store is armed. */
  ghost predicate AllReady<M>(en: Ensemble, sys: System<M>) {
    forall i :: i in en.members ==> IsUp(en, sys, i) && sys.procs[i].live.phase == Idle && !sys.stores[i].failing
  }

  ghost predicate UpIsRegistered<M>(en: Ensemble, sys: System<M>) {
    forall i :: i in sys.net.handlers <==> IsUp(en, sys, i)
  }

  /** At any moment of a run exactly the nodes that are up can be reached. */
  lemma {:induction false} RegisteredAreUp<M>(en: Ensemble, app: App<M>, srun: seq<System<M>>, k: nat)
    requires IsSysRun(en, app, srun) && k < |srun|
    ensures UpIsRegistered(en, srun[k])
    decreases k
  {
    hide SysNext, UpIsRegistered;
    if k == 0 {
      NoneRegistered(en, srun[0]);
    } else {
      assert SysNext(en, app, srun[k - 1], srun[k]);
      RegisteredAreUp(en, app, srun, k - 1);
      RegistrationStep(en, app, srun[k - 1], srun[k]);
    }
  }

  lemma NoneRegistered<M>(en: Ensemble, sys: System<M>)
    requires SysInit(en, sys)
    ensures UpIsRegistered(en, sys)
  {
  }

  lemma RegistrationStep<M>(en: Ensemble, app: App<M>, sys: System<M>, sys': System<M>)
    requires UpIsRegistered(en, sys) && SysNext(en, app, sys, sys')
    ensures UpIsRegistered(en, sys')
  {
    hide Continued, Begun, CrashStep, StartStep, ApplyNet;
    if i: NodeId, d: bool :| WorkStep(en, app, sys, sys', i, d) {
      WorkKeepsHandlers(app, Scene(sys.procs[i].live, sys.stores[i], sys.net), d);
    } else if op: NetOp :| NetworkStep(sys, sys', op) {
      ShapeKeepsHandlers(sys.net, op);
    } else if i: NodeId, e: Event :| CallStep(en, sys, sys', i, e) {
    } else if index: nat :| DeliverStep(en, sys, sys', index) {
    } else if i: NodeId :| ArmStep(en, sys, sys', i) {
    } else {
      var i: NodeId :| CrashStep(en, sys, sys', i) || StartStep(en, app, sys, sys', i);
      ComesOrGoes(en, app, sys, sys', i);
    }
  }

  lemma ComesOrGoes<M>(en: Ensemble, app: App<M>, sys: System<M>, sys': System<M>, i: NodeId)
    requires UpIsRegistered(en, sys) && (CrashStep(en, sys, sys', i) || StartStep(en, app, sys, sys', i))
    ensures UpIsRegistered(en, sys')
  {
    hide Recover;
  }

  lemma ShapeKeepsHandlers(n: Network, op: NetOp)
    requires !op.Register? && !op.Unregister?
    ensures ApplyNet(n, op).handlers == n.handlers
  {
  }

  lemma WorkKeepsHandlers<M>(app: App<M>, s: Scene<M>, d: bool)
    requires Busy(s.live)
    ensures Continued(app, s, d).net.handlers == s.net.handlers
  {
  }

  /** Such a moment is a state of the test cluster, with all that the test cluster keeps. */
  lemma ReadyIsSettled<M>(en: Ensemble, app: App<M>, srun: seq<System<M>>) returns (net: set<Message>, h: History)
    requires IsSysRun(en, app, srun) && AllReady(en, Last(srun))
    ensures FieldInv(en, View(en, Last(srun)), net, h) && Settled(en, app, Last(srun), View(en, Last(srun)))
    ensures AllAccept(en, app, View(en, Last(srun)))
  {
    hide HistoryInv, NodeInv, Maximal, NetworkInv, Carries, LiveRel, Inv, SettledAt, Accepts;
    var sys, k := Last(srun), |srun| - 1;
    var f := View(en, sys);
    var run := RuntimeIsCluster(en, app, srun);
    var hs := RunInv(en, run);
    net, h := run[k].net, hs[k];
    RegisteredAreUp(en, app, srun, k);
    forall i | i in en.members
      ensures i in f.nodes && i in run[k].nodes && f.nodes[i] == run[k].nodes[i] && SettledAt(en, app, sys, f, i)
              && Accepts(app, f.nodes[i])
    {
      ReadyNode(en, app, srun, run, k, i);
    }
    forall i | i in en.members ensures Maximal(ConfigOf(en, i), f.nodes[i]) {
      AlwaysMaximal(en, run, k, i);
    }
    assert Inv(en, run[k], h);
    SameInv(en, run[k], f.nodes, h);
    assert SysRel(en, app, sys, run[k]);
  }

  lemma SameInv(en: Ensemble, c: Cluster, nodes: map<NodeId, Node>, h: History)
    requires Inv(en, c, h) && forall i :: i in en.members ==> i in nodes && i in c.nodes && nodes[i] == c.nodes[i]
    ensures Inv(en, Cluster(nodes, c.net), h)
  {
    forall i | i in en.members ensures NodeInv(en, h, i, nodes[i]) {
      assert NodeInv(en, h, i, c.nodes[i]);
    }
  }

  lemma ReadyNode<M>(en: Ensemble, app: App<M>, srun: seq<System<M>>, run: seq<Cluster>, k: nat, i: NodeId)
    requires IsSysRun(en, app, srun) && Mirrors(en, app, srun, run) && k < |srun| && AllReady(en, srun[k]) && i in en.members
    requires UpIsRegistered(en, srun[k])
    ensures var f := View(en, srun[k]);
            && i in f.nodes && Member(en, run, k, i) && f.nodes[i] == run[k].nodes[i]
            && SettledAt(en, app, srun[k], f, i) && Accepts(app, f.nodes[i])
  {
    assert Related(en, app, srun[k], run[k], i);
    assert IsUp(en, srun[k], i);
  }

  // ----- Draining, operation by operation -----

  lemma {:induction false} DrainedAdvances(en: Ensemble, f: Field, net: set<Message>, h: History, pick: nat -> nat, k: nat, n: nat)
    requires FieldInv(en, f, net, h)
    ensures FieldAdvances(en, f, Drained(en, f, pick, k, n))
    decreases n
  {
    hide FieldInv, Delivered, FieldAdvances;
    if n == 0 {
      SelfAdvances(en, f, net, h);
    } else {
      NextAdvances(en, f, net, h, pick(k));
      var net', h' := NextKeeps(en, f, net, h, pick(k));
      var g := DeliverNext(en, f, pick(k));
      DrainedAdvances(en, g, net', h', pick, k + 1, n - 1);
      BothAdvance(en, f, g, Drained(en, g, pick, k + 1, n - 1));
    }
  }

  lemma NextAdvances(en: Ensemble, f: Field, net: set<Message>, h: History, pick: nat)
    requires FieldInv(en, f, net, h)
    ensures FieldAdvances(en, f, DeliverNext(en, f, pick))
  {
    hide FieldInv, Delivered, FieldAdvances;
    SelfAdvances(en, f, net, h);
    if f.net.queue != [] {
      DeliveredAdvances(en, f, net, h, pick % |f.net.queue|);
    }
  }

  lemma BothAdvance(en: Ensemble, a: Field, b: Field, c: Field)
    requires FieldAdvances(en, a, b) && FieldAdvances(en, b, c)
    ensures FieldAdvances(en, a, c)
  {
    hide Advances;
    forall i | i in en.members ensures NodeAdvances(a, c, i) {
      assert NodeAdvances(a, b, i) && NodeAdvances(b, c, i);
      AdvancesTransitive(a.nodes[i], b.nodes[i], c.nodes[i]);
    }
  }

  /** A schedule of deliveries, each seen through, continues the run. */
  lemma {:induction false} DrainRealised<M>(en: Ensemble, app: App<M>, run: seq<System<M>>, f: Field, net: set<Message>,
                                            h: History, pick: nat -> nat, k: nat, n: nat)
    returns (run': seq<System<M>>)
    requires IsSysRun(en, app, run) && Settled(en, app, Last(run), f) && FieldInv(en, f, net, h)
    requires AllAccept(en, app, Drained(en, f, pick, k, n))
    ensures IsSysRun(en, app, run') && run <= run' && Settled(en, app, Last(run'), Drained(en, f, pick, k, n))
    decreases n
  {
    hide FieldInv, Delivered, Settled, AllAccept, FieldAdvances, SysNext, SysInit;
    run' := run;
    if n > 0 {
      var g := DeliverNext(en, f, pick(k));
      var net', h' := NextKeeps(en, f, net, h, pick(k));
      DrainedAdvances(en, g, net', h', pick, k + 1, n - 1);
      AcceptedBefore(en, app, g, Drained(en, g, pick, k + 1, n - 1));
      var next := NextRealised(en, app, run, f, net, h, pick(k));
      run' := DrainRealised(en, app, next, g, net', h', pick, k + 1, n - 1);
      Continues(run, next, run');
    }
  }

  lemma Continues<T>(a: seq<T>, b: seq<T>, c: seq<T>)
    requires a <= b && b <= c
    ensures a <= c
  {
  }

  lemma NextRealised<M>(en: Ensemble, app: App<M>, run: seq<System<M>>, f: Field, net: set<Message>, h: History, pick: nat)
    returns (run': seq<System<M>>)
    requires IsSysRun(en, app, run) && Settled(en, app, Last(run), f) && FieldInv(en, f, net, h)
    requires AllAccept(en, app, DeliverNext(en, f, pick))
    ensures IsSysRun(en, app, run') && run <= run' && Settled(en, app, Last(run'), DeliverNext(en, f, pick))
  {
    hide FieldInv, Delivered, Settled, AllAccept, SysNext, SysInit;
    run' := run;
    if f.net.queue != [] {
      run' := TakeRealised(en, app, run, f, net, h, pick % |f.net.queue|);
    }
  }

  /** One event, then a schedule of deliveries, continue the run to where the test cluster says. */
  lemma EventDrainRealised<M>(en: Ensemble, app: App<M>, run: seq<System<M>>, f: Field, net: set<Message>, h: History,
                              x: NodeId, e: Event, pick: nat -> nat, n: nat)
    returns (run': seq<System<M>>)
    requires IsSysRun(en, app, run) && Settled(en, app, Last(run), f) && FieldInv(en, f, net, h)
    requires x in en.members && x in f.net.handlers && !e.Deliver?
    requires AllAccept(en, app, Drained(en, After(en, f, x, e), pick, 0, n))
    ensures IsSysRun(en, app, run') && run <= run'
    ensures Settled(en, app, Last(run'), Drained(en, After(en, f, x, e), pick, 0, n))
    ensures Drained(en, After(en, f, x, e), pick, 0, n).net.handlers == f.net.handlers
  {
    hide FieldInv, Drained, Settled, AllAccept, FieldAdvances, SysNext, SysInit, After;
    NodesThere(en, f, net, h);
    var beat := After(en, f, x, e);
    var net', h' := AfterKeepsField(en, f, net, h, x, e);
    DrainedAdvances(en, beat, net', h', pick, 0, n);
    AcceptedBefore(en, app, beat, Drained(en, beat, pick, 0, n));
    var mid := CallRealised(en, app, run, f, net, h, x, e);
    run' := DrainRealised(en, app, mid, beat, net', h', pick, 0, n);
    Continues(run, mid, run');
    AfterHandlers(en, f, x, e);
    DrainedHandlers(en, beat, pick, 0, n);
  }

  lemma AfterHandlers(en: Ensemble, f: Field, x: NodeId, e: Event)
    requires x in f.nodes
    ensures After(en, f, x, e).net.handlers == f.net.handlers
  {
    hide Handle;
    var o := Handle(ConfigOf(en, x), f.nodes[x], e);
    if o.Done? {
      EnqueuedFrame(f.net, o.fx.messages);
    }
  }

  lemma {:induction false} DrainedHandlers(en: Ensemble, f: Field, pick: nat -> nat, k: nat, n: nat)
    ensures Drained(en, f, pick, k, n).net.handlers == f.net.handlers
    decreases n
  {
    hide After, Delivered;
    if n > 0 {
      if f.net.queue != [] {
        DeliveredHandlers(en, f, pick(k) % |f.net.queue|);
      }
      DrainedHandlers(en, DeliverNext(en, f, pick(k)), pick, k + 1, n - 1);
    }
  }

  lemma DeliveredHandlers(en: Ensemble, f: Field, index: nat)
    ensures Delivered(en, f, index).net.handlers == f.net.handlers
  {
    hide After;
    var m := Handed(f.net, index);
    if m.Some? && m.value.to in f.nodes {
      AfterHandlers(en, f.(net := Dropped(f.net, index)), m.value.to, Event.Deliver(m.value));
    }
  }

  // ----- Equal machines -----

  /** This node is up and idle with the given log, all of it committed, and what apply makes of its commands. */
  ghost predicate ReplicaAt<M>(app: App<M>, sys: System<M>, log: seq<Entry>, p: NodeId) {
    && p in sys.procs && p in sys.stores && sys.procs[p].Up? && sys.procs[p].live.phase == Idle
    && sys.procs[p].live.core.node.log == log && sys.procs[p].live.core.applied == |log|
    && sys.stores[p].entries == log && sys.stores[p].hard.commit == |log|
    && Applied(app.apply, app.init, Commands(log)) == Some(sys.procs[p].live.machine)
  }

  ghost predicate Replicas<M>(en: Ensemble, app: App<M>, sys: System<M>, log: seq<Entry>) {
    forall p {:trigger ReplicaAt(app, sys, log, p)} :: p in en.members ==> ReplicaAt(app, sys, log, p)
  }

  lemma ConvergedReplicas<M>(en: Ensemble, app: App<M>, sys: System<M>, f: Field, x: NodeId)
    requires Settled(en, app, sys, f) && Converged(en, f, x) && x in f.nodes
    requires forall i :: i in en.members ==> i in f.net.handlers
    ensures Replicas(en, app, sys, f.nodes[x].log)
  {
    var log := f.nodes[x].log;
    FoldIsApplied(app, app.init, log);
    forall p | p in en.members ensures ReplicaAt(app, sys, log, p) {
      assert SettledAt(en, app, sys, f, p) && ConvergedTo(f, x, p);
      assert log[..|log|] == log;
    }
  }

  lemma ConvergedAccepts<M>(en: Ensemble, app: App<M>, f: Field, x: NodeId)
    requires Converged(en, f, x) && x in f.nodes && Fold(app, app.init, f.nodes[x].log).Some?
    ensures AllAccept(en, app, f)
  {
    var log := f.nodes[x].log;
    forall p | p in en.members && p in f.nodes ensures Accepts(app, f.nodes[p]) {
      assert ConvergedTo(f, x, p);
      assert log[..|log|] == log;
    }
  }

  lemma BeatAndDrain<M>(en: Ensemble, app: App<M>, run: seq<System<M>>, f: Field, net: set<Message>, h: History,
                        x: NodeId, pick: nat -> nat)
    returns (n: nat, run': seq<System<M>>)
    requires IsSysRun(en, app, run) && Settled(en, app, Last(run), f) && FieldInv(en, f, net, h)
    requires Calm(en, f, x) && Fold(app, app.init, f.nodes[x].log).Some?
    ensures IsSysRun(en, app, run') && run <= run'
    ensures var g := Drained(en, After(en, f, x, HeartbeatTimeout), pick, 0, n);
            g.net.queue == [] && Settled(en, app, Last(run'), g)
    ensures Replicas(en, app, Last(run'), f.nodes[x].log)
  {
    hide FieldInv, Drained, Settled, AllAccept, After, Converged, SysNext, SysInit, Replicas, Fold;
    n := DrainsAfter(en, f, net, h, x, HeartbeatTimeout, pick);
    HeartbeatConvergesFrom(en, f, net, h, x, pick, n);
    var g := Drained(en, After(en, f, x, HeartbeatTimeout), pick, 0, n);
    ConvergedAccepts(en, app, g, x);
    run' := EventDrainRealised(en, app, run, f, net, h, x, HeartbeatTimeout, pick, n);
    ConvergedReplicas(en, app, Last(run'), g, x);
  }

  /**
   Quiescence of a scenario: once one leader is as new as everything else and all can be reached, its
   heartbeat and any order of deliveries, each seen through, empty the queue, and then every store holds
   the leader's whole log as committed and every machine is the fold of apply over it. All that is asked
   of the application is that it accepts that log.
   */
  lemma QuiescentReplicas<M>(en: Ensemble, app: App<M>, f: Field, x: NodeId, pick: nat -> nat)
    returns (n: nat, run: seq<System<M>>)
    requires Reached(en, f) && Calm(en, f, x) && Fold(app, app.init, f.nodes[x].log).Some?
    ensures var g := Drained(en, After(en, f, x, HeartbeatTimeout), pick, 0, n);
            && g.net.queue == [] && IsSysRun(en, app, run) && Settled(en, app, Last(run), g)
            && Replicas(en, app, Last(run), f.nodes[x].log)
  {
    hide FieldInv, Drained, Settled, AllAccept, After, Converged, SysNext, SysInit, Replicas, Fold, FieldAdvances;
    var net, h := ReachedInv(en, f);
    var d := DrainsAfter(en, f, net, h, x, HeartbeatTimeout, pick);
    HeartbeatConvergesFrom(en, f, net, h, x, pick, d);
    var beat := After(en, f, x, HeartbeatTimeout);
    var g := Drained(en, beat, pick, 0, d);
    ConvergedAccepts(en, app, g, x);
    AfterAdvances(en, f, net, h, x, HeartbeatTimeout);
    var net', h' := AfterKeepsField(en, f, net, h, x, HeartbeatTimeout);
    DrainedAdvances(en, beat, net', h', pick, 0, d);
    BothAdvance(en, f, beat, g);
    AcceptedBefore(en, app, f, g);
    var fs: seq<Field> :| IsTestRun(en, fs) && fs[|fs| - 1] == f;
    var before := ScenarioIsRun(en, app, fs);
    n, run := BeatAndDrain(en, app, before, f, net, h, x, pick);
  }

  /**
   Quiescence of the runtime: the same from any moment of any small-step run at which every member is up
   and idle, whatever was lost, refused or crashed between any two steps before. The run goes on from there.
   */
  lemma RuntimeQuiescence<M>(en: Ensemble, app: App<M>, srun: seq<System<M>>, x: NodeId, pick: nat -> nat)
    returns (n: nat, run: seq<System<M>>)
    requires IsSysRun(en, app, srun) && AllReady(en, Last(srun)) && Calm(en, View(en, Last(srun)), x)
    requires Fold(app, app.init, View(en, Last(srun)).nodes[x].log).Some?
    ensures IsSysRun(en, app, run) && srun <= run && Last(run).net.queue == []
    ensures Replicas(en, app, Last(run), View(en, Last(srun)).nodes[x].log)
  {
    hide FieldInv, Drained, AllAccept, After, Converged, SysNext, SysInit, Replicas, Fold, Calm, View, AllReady;
    var net, h := ReadyIsSettled(en, app, srun);
    n, run := BeatAndDrain(en, app, srun, View(en, Last(srun)), net, h, x, pick);
  }
}
