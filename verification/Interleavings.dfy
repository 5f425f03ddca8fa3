/**
 The nodes' own work and the deliveries, small step by small step and in any interleaving, always come
 to an end: from any state of any run, partitioned or not, with nodes down, frozen or half done.
 */
module Interleavings {
  import opened RaftTypes
  import opened Protocol
  import opened NodeFacts
  import opened CoreSpec
  import opened Stores
  import opened Networks
  import opened Histories
  import opened NodeSteps
  import opened Handlers
  import opened Clusters
  import opened Fields
  import opened Deliveries
  import opened Draining
  import opened Convergence
  import opened Runtime
  import opened RuntimeRefinement
  import opened Settlements
  import opened Quiescence

  /** A step no caller, timer, failure or test has a hand in. */
  ghost predicate InnerStep<M>(en: Ensemble, app: App<M>, sys: System<M>, sys': System<M>) {
    || (exists i: NodeId, delivered: bool :: WorkStep(en, app, sys, sys', i, delivered))
    || (exists index: nat :: DeliverStep(en, sys, sys', index))
  }

  /** The messages of the batch in hand that are still to be sent. */
  function Unsent<M>(l: Live<M>): seq<Message> {
    if !Busy(l) then []
    else match l.phase
      case Saving(_) => l.core.outstanding.value.messages
      case Sending(k) => l.core.outstanding.value.messages[k..]
      case _ => []
  }

  // ----- The engines as they are in memory -----

  function Cleared(n: Network): Network {
    n.(blocked := {}, dropAll := false)
  }

  /** Cluster c shows node i as its engine is, with everything it has yet to send counted as sent. */
  ghost predicate AheadAt<M>(en: Ensemble, sys: System<M>, c: Cluster, i: NodeId) {
    && i in sys.procs && i in sys.stores && i in c.nodes
    && (sys.procs[i].Up? ==> LiveAhead(en, i, sys.procs[i].live, c.nodes[i], c.net))
  }

  ghost predicate LiveAhead<M>(en: Ensemble, i: NodeId, l: Live<M>, s: Node, net: set<Message>) {
    && l.core.cfg == ConfigOf(en, i) && CoreInv(l.core) && l.core.node == s
    && (l.phase == Idle <==> l.core.outstanding == None) && (l.phase == Idle || l.phase.Frozen? || Busy(l))
    && forall m :: m in Unsent(l) ==> m in net
  }

  ghost predicate AllAhead<M>(en: Ensemble, sys: System<M>, c: Cluster) {
    forall i {:trigger AheadAt(en, sys, c, i)} :: i in en.members ==> AheadAt(en, sys, c, i)
  }

  ghost predicate Ahead<M>(en: Ensemble, sys: System<M>, f: Field, net: set<Message>, h: History) {
    FieldInv(en, f, net, h) && f.net == Cleared(sys.net) && AllAhead(en, sys, Cluster(f.nodes, net))
  }

  /** Let every node of members[..n] that has yet to save take its step in the cluster at once. */
  lemma {:induction false} RunAhead<M>(en: Ensemble, app: App<M>, sys: System<M>, run: seq<Cluster>, n: nat)
    returns (longer: seq<Cluster>)
    requires IsRun(en, run) && SysRel(en, app, sys, Last(run)) && n <= |en.members|
    ensures IsRun(en, longer) && Last(run).net <= Last(longer).net
    ensures forall j {:trigger en.members[j]} :: 0 <= j < n ==> AheadAt(en, sys, Last(longer), en.members[j])
    ensures forall j {:trigger en.members[j]} :: n <= j < |en.members| ==> SameNode(Last(run), Last(longer), en.members[j])
    decreases n
  {
    hide SysRel, Next, Init, LiveAhead;
    if n == 0 {
      longer := run;
      AllThere(en, app, sys, Last(run));
    } else {
      longer := RunAhead(en, app, sys, run, n - 1);
      var before := Last(longer);
      var c := OneAhead(en, app, sys, Last(run), longer, en.members[n - 1]);
      longer := longer + [c];
      RunIsDistinct(en, run);
      forall j | 0 <= j < n - 1 ensures AheadAt(en, sys, c, en.members[j]) {
        AheadStays(en, sys, before, c, en.members[j]);
      }
    }
  }

  ghost predicate SameNode(c: Cluster, c': Cluster, i: NodeId) {
    i in c.nodes && i in c'.nodes && c'.nodes[i] == c.nodes[i]
  }

  lemma AllThere<M>(en: Ensemble, app: App<M>, sys: System<M>, c: Cluster)
    requires SysRel(en, app, sys, c)
    ensures forall i :: i in en.members ==> i in c.nodes
  {
    forall i | i in en.members ensures i in c.nodes {
      assert Related(en, app, sys, c, i);
    }
  }

  lemma RunIsDistinct(en: Ensemble, run: seq<Cluster>)
    requires IsRun(en, run)
    ensures Distinct(en.members)
  {
  }

  lemma AheadStays<M>(en: Ensemble, sys: System<M>, c: Cluster, c': Cluster, i: NodeId)
    requires AheadAt(en, sys, c, i) && SameNode(c, c', i) && c.net <= c'.net
    ensures AheadAt(en, sys, c', i)
  {
  }

  lemma OneAhead<M>(en: Ensemble, app: App<M>, sys: System<M>, c0: Cluster, run: seq<Cluster>, i: NodeId) returns (c: Cluster)
    requires SysRel(en, app, sys, c0) && IsRun(en, run) && i in en.members
    requires c0.net <= Last(run).net && SameNode(c0, Last(run), i)
    ensures IsRun(en, run + [c]) && Last(run).net <= c.net && AheadAt(en, sys, c, i)
    ensures forall j :: j != i && j in Last(run).nodes ==> SameNode(Last(run), c, j)
  {
    hide Handle, CoreInv, Folded, Init;
    assert Related(en, app, sys, c0, i);
    c := Last(run);
    if sys.procs[i].Up? && Unsettled(sys.procs[i].live) {
      var l := sys.procs[i].live;
      var e := if l.phase.Saving? then l.phase.event else l.phase.unsaved.value;
      c := Cluster(c.nodes[i := l.core.node], c.net + Sent(Handle(ConfigOf(en, i), c.nodes[i], e)));
      assert NodeStep(en, Last(run), c, i, e);
    }
    assert Next(en, Last(run), c);
  }

  /** The engines of any state of a run, unsaved steps included, are together a state the invariants cover. */
  lemma AheadOf<M>(en: Ensemble, app: App<M>, srun: seq<System<M>>) returns (f: Field, net: set<Message>, h: History)
    requires IsSysRun(en, app, srun)
    ensures Ahead(en, Last(srun), f, net, h)
  {
    hide SysNext, SysInit, HistoryInv, NodeInv, Next, Init, LiveAhead, Maximal, NetworkInv, Related, MessageInv;
    var sys, k := Last(srun), |srun| - 1;
    var run := RuntimeIsCluster(en, app, srun);
    var longer := RunAhead(en, app, sys, run, |en.members|);
    var hs := RunInv(en, longer);
    var c := Last(longer);
    f, net, h := Field(c.nodes, Cleared(sys.net)), c.net, Last(hs);
    RegisteredAreUp(en, app, srun, k);
    assert SysRel(en, app, sys, run[k]);
    SameQueue(sys.net, run[k].net, c.net);
    assert Inv(en, c, h) && c == Cluster(f.nodes, net);
    forall i | i in en.members ensures AheadAt(en, sys, c, i) && Maximal(ConfigOf(en, i), f.nodes[i]) {
      var j :| 0 <= j < |en.members| && en.members[j] == i;
      AlwaysMaximal(en, longer, |longer| - 1, i);
    }
  }

  lemma SameMessages(n: Network)
    ensures Cleared(n).queue == n.queue
  {
  }

  lemma SameQueue(n: Network, net: set<Message>, net': set<Message>)
    requires NetworkInv(n) && Carries(n, net) && net <= net'
    ensures NetworkInv(Cleared(n)) && Carries(Cleared(n), net')
  {
  }

  // ----- The measure -----

  function BatchWeight(f: Field, top: nat, size: nat, ms: seq<Message>): nat {
    if ms == [] then 0 else Weight(f, top, size, ms[0]) + BatchWeight(f, top, size, ms[1..])
  }

  function UnsentWeight<M>(sys: System<M>, f: Field, top: nat, size: nat): NodeId -> nat {
    i => if i in sys.procs && sys.procs[i].Up? then BatchWeight(f, top, size, Unsent(sys.procs[i].live)) else 0
  }

  function WorkLeft<M>(sys: System<M>): NodeId -> nat {
    i => if i in sys.procs && sys.procs[i].Up? && StepsLeft(sys.procs[i].live) >= 0 then StepsLeft(sys.procs[i].live) else 0
  }

  /** What the queue and the batches in hand weigh together. */
  function Load<M>(en: Ensemble, sys: System<M>, f: Field, top: nat, size: nat): nat {
    QueueWeight(f, top, size, f.net.queue) + Total(en.members, UnsentWeight(sys, f, top, size))
  }

  ghost predicate UnsentBounded<M>(sys: System<M>, top: nat, size: nat, open: nat, i: NodeId) {
    i in sys.procs && sys.procs[i].Up? ==> forall m :: m in Unsent(sys.procs[i].live) ==> MessageBounded(top, size, open, m)
  }

  ghost predicate Within<M>(en: Ensemble, sys: System<M>, f: Field, top: nat, size: nat) {
    && Bounded(en, f, top, size)
    && forall i {:trigger UnsentBounded(sys, top, size, Total(en.members, Campaigns(f)), i)} :: i in en.members ==>
         UnsentBounded(sys, top, size, Total(en.members, Campaigns(f)), i)
  }

  function LoadMeasure<M>(en: Ensemble, sys: System<M>, f: Field, top: nat, size: nat): Measure {
    MeasureOf(en, f, top, size).(weight := Load(en, sys, f, top, size))
  }

  /** The measure of deliveries over all that is still to be delivered, and then the nodes' own steps. */
  predicate Less<M>(en: Ensemble, sys: System<M>, f: Field, sys': System<M>, f': Field, top: nat, size: nat) {
    var a, b := LoadMeasure(en, sys, f, top, size), LoadMeasure(en, sys', f', top, size);
    Smaller(b, a) || (b == a && Total(en.members, WorkLeft(sys')) < Total(en.members, WorkLeft(sys)))
  }

  /** Changing one summand. */
  lemma {:induction false} TotalMoved(members: seq<NodeId>, g: NodeId -> nat, g': NodeId -> nat, i: NodeId)
    requires Distinct(members) && i in members && forall j :: j != i ==> g'(j) == g(j)
    ensures Total(members, g') + g(i) == Total(members, g) + g'(i)
    decreases |members|
  {
    if members[0] == i {
      assert i !in members[1..];
      OthersTotal(members[1..], g, g', i);
    } else {
      TotalMoved(members[1..], g, g', i);
    }
  }

  lemma {:induction false} OthersTotal(members: seq<NodeId>, g: NodeId -> nat, g': NodeId -> nat, i: NodeId)
    requires i !in members && forall j :: j != i ==> g'(j) == g(j)
    ensures Total(members, g') == Total(members, g)
    decreases |members|
  {
    if members != [] {
      OthersTotal(members[1..], g, g', i);
    }
  }

  // ----- A node's own step -----

  /** What a busy node's step does to the messages in hand and to the queue. */
  ghost predicate HandsOver<M>(l: Live<M>, t: Scene<M>, n: Network) {
    || (t.net == n && (Unsent(t.live) == Unsent(l) || Unsent(t.live) == []))
    || (Unsent(l) != [] && Unsent(t.live) == Unsent(l)[1..] && (t.net == n || t.net == Enqueued(n, Unsent(l)[0])))
  }

  lemma LiveWorks<M>(en: Ensemble, app: App<M>, i: NodeId, s: Scene<M>, a: Node, net: set<Message>, d: bool)
    requires LiveAhead(en, i, s.live, a, net) && Busy(s.live)
    ensures var t := Continued(app, s, d);
            LiveAhead(en, i, t.live, a, net) && 0 <= StepsLeft(t.live) < StepsLeft(s.live) && HandsOver(s.live, t, s.net)
  {
    hide WellFormed, PersistDurable, Unapplied, Enqueued;
    var ready := s.live.core.outstanding.value;
    match s.live.phase {
      case Saving(_) => assert ready.messages[0..] == ready.messages;
      case Sending(k) => assert k < |ready.messages| ==> ready.messages[k..][1..] == ready.messages[k + 1..];
      case Applying(k) => AdvanceKeepsCore(s.live.core, ready.id);
      case _ =>
    }
  }
  lemma {:induction false} BatchWeightSame(f: Field, f': Field, top: nat, size: nat, ms: seq<Message>)
    requires forall x, t :: LeaderEnd(f, x, t) == LeaderEnd(f', x, t)
    ensures BatchWeight(f, top, size, ms) == BatchWeight(f', top, size, ms)
    decreases |ms|
  {
    if ms != [] {
      BatchWeightSame(f, f', top, size, ms[1..]);
    }
  }

  lemma OneMoreWeighs(f: Field, top: nat, size: nat, n: Network, m: Message)
    ensures QueueWeight(f, top, size, Enqueued(n, m).queue) <= QueueWeight(f, top, size, n.queue) + Weight(f, top, size, m)
  {
    var one := [Pending(n.nextId, m)];
    assert one[1..] == [];
    QueueWeightAppend(f, top, size, n.queue, one);
  }

  lemma HandingOverWeighs<M>(f: Field, top: nat, size: nat, l: Live<M>, t: Scene<M>, n: Network)
    requires HandsOver(l, t, n)
    ensures QueueWeight(f, top, size, t.net.queue) + BatchWeight(f, top, size, Unsent(t.live))
         <= QueueWeight(f, top, size, n.queue) + BatchWeight(f, top, size, Unsent(l))
  {
    hide Weight, Unsent, Enqueued;
    if Unsent(l) != [] {
      OneMoreWeighs(f, top, size, n, Unsent(l)[0]);
    }
  }

  /** The load of the whole system, when one node and the network have moved and all engines stand. */
  lemma LoadMoves<M>(en: Ensemble, sys: System<M>, sys': System<M>, f: Field, f': Field, top: nat, size: nat, i: NodeId)
    requires Distinct(en.members) && i in en.members && f'.nodes == f.nodes && f.net.queue == sys.net.queue
    requires i in sys.procs && sys.procs[i].Up? && i in sys'.procs && sys'.procs[i].Up?
    requires sys'.procs == sys.procs[i := sys'.procs[i]] && f'.net.queue == sys'.net.queue
    requires QueueWeight(f, top, size, sys'.net.queue) + BatchWeight(f, top, size, Unsent(sys'.procs[i].live))
          <= QueueWeight(f, top, size, sys.net.queue) + BatchWeight(f, top, size, Unsent(sys.procs[i].live))
    ensures Load(en, sys', f', top, size) <= Load(en, sys, f, top, size)
  {
    hide BatchWeight, QueueWeight, Unsent, Busy, Total, LeaderEnd;
    assert forall x, t :: LeaderEnd(f, x, t) == LeaderEnd(f', x, t) by { SameEnds(f, f'); }
    QueueWeightSame(f, f', top, size, f'.net.queue);
    var g, g' := UnsentWeight(sys, f, top, size), UnsentWeight(sys', f', top, size);
    forall j | j in sys.procs && sys.procs[j].Up?
      ensures BatchWeight(f', top, size, Unsent(sys'.procs[j].live)) == BatchWeight(f, top, size, Unsent(sys'.procs[j].live))
    {
      BatchWeightSame(f, f', top, size, Unsent(sys'.procs[j].live));
    }
    TotalMoved(en.members, g, g', i);
  }

  lemma SameEnds(f: Field, f': Field)
    requires f'.nodes == f.nodes
    ensures forall x, t :: LeaderEnd(f, x, t) == LeaderEnd(f', x, t)
  {
  }

  /** Node i has moved on to t without a change in its engine. */
  ghost predicate MovedOn<M>(en: Ensemble, sys: System<M>, sys': System<M>, i: NodeId, t: Scene<M>) {
    && IsUp(en, sys, i) && sys' == System(sys.procs[i := Up(t.live)], sys.stores[i := t.store], t.net)
    && HandsOver(sys.procs[i].live, t, sys.net) && 0 <= StepsLeft(t.live) < StepsLeft(sys.procs[i].live)
  }

  lemma MovedAhead<M>(en: Ensemble, sys: System<M>, sys': System<M>, f: Field, net: set<Message>, h: History,
                      i: NodeId, t: Scene<M>)
    requires Ahead(en, sys, f, net, h) && MovedOn(en, sys, sys', i, t) && LiveAhead(en, i, t.live, f.nodes[i], net)
    requires NetworkInv(Cleared(t.net)) && Carries(Cleared(t.net), net) && t.net.handlers == sys.net.handlers
    ensures Ahead(en, sys', f.(net := Cleared(sys'.net)), net, h)
  {
    hide HistoryInv, Inv, LiveAhead, Maximal, HandsOver, StepsLeft, NetworkInv, Carries;
    NetKeepsField(en, f, net, h, Cleared(t.net));
    forall j | j in en.members ensures AheadAt(en, sys', Cluster(f.nodes, net), j) {
      assert AheadAt(en, sys, Cluster(f.nodes, net), j);
    }
  }

  lemma MovedWithin<M>(en: Ensemble, sys: System<M>, sys': System<M>, f: Field, f': Field, top: nat, size: nat,
                       i: NodeId, t: Scene<M>)
    requires Within(en, sys, f, top, size) && MovedOn(en, sys, sys', i, t) && f' == f.(net := Cleared(sys'.net))
    requires forall m :: m in Unsent(t.live) ==> MessageBounded(top, size, Total(en.members, Campaigns(f)), m)
    requires forall k :: 0 <= k < |t.net.queue| ==>
                           MessageBounded(top, size, Total(en.members, Campaigns(f)), t.net.queue[k].message)
    ensures Within(en, sys', f', top, size)
  {
    hide HandsOver, StepsLeft, MessageBounded, Unsent, Total, Campaigns, TermGap, CommitGap, Cleared;
    assert f'.net.queue == t.net.queue by { SameMessages(t.net); }
    SameNodes(en, f, f', top, size);
    var open := Total(en.members, Campaigns(f));
    forall j | j in en.members ensures NodeBounded(f', top, size, open, j) && UnsentBounded(sys', top, size, open, j) {
      assert NodeBounded(f, top, size, open, j) && UnsentBounded(sys, top, size, open, j);
    }
  }

  lemma WorkShrinks<M>(en: Ensemble, sys: System<M>, sys': System<M>, i: NodeId, t: Scene<M>)
    requires Distinct(en.members) && MovedOn(en, sys, sys', i, t)
    ensures Total(en.members, WorkLeft(sys')) < Total(en.members, WorkLeft(sys))
  {
    hide HandsOver, StepsLeft, Total;
    TotalMoved(en.members, WorkLeft(sys), WorkLeft(sys'), i);
  }

  lemma MovedLess<M>(en: Ensemble, sys: System<M>, sys': System<M>, f: Field, f': Field, top: nat, size: nat,
                     i: NodeId, t: Scene<M>)
    requires Distinct(en.members) && MovedOn(en, sys, sys', i, t)
    requires f.net == Cleared(sys.net) && f' == f.(net := Cleared(sys'.net))
    ensures Less(en, sys, f, sys', f', top, size)
  {
    hide HandsOver, StepsLeft, Load, QueueWeight, BatchWeight, Unsent, Total, WorkLeft, TermGap, Campaigns, CommitGap;
    HandingOverWeighs(f, top, size, sys.procs[i].live, t, sys.net);
    LoadMoves(en, sys, sys', f, f', top, size, i);
    SameNodes(en, f, f', top, size);
    WorkShrinks(en, sys, sys', i, t);
  }

  /** A node's own step leaves every engine as it is, and the load no heavier. */
  lemma WorkIsLess<M>(en: Ensemble, app: App<M>, sys: System<M>, sys': System<M>, f: Field, net: set<Message>, h: History,
                      top: nat, size: nat, i: NodeId, d: bool)
    requires Ahead(en, sys, f, net, h) && Within(en, sys, f, top, size) && WorkStep(en, app, sys, sys', i, d)
    ensures var f' := f.(net := Cleared(sys'.net));
            Ahead(en, sys', f', net, h) && Within(en, sys', f', top, size) && Less(en, sys, f, sys', f', top, size)
  {
    hide NodeInv, MessageInv, Continued, Maximal, Total, MessageBounded, NodeBounded, Less, HandsOver, StepsLeft, CoreInv;
    var l, n, f' := sys.procs[i].live, sys.net, f.(net := Cleared(sys'.net));
    var open := Total(en.members, Campaigns(f));
    assert AheadAt(en, sys, Cluster(f.nodes, net), i) && UnsentBounded(sys, top, size, open, i);
    var t := Continued(app, Scene(l, sys.stores[i], n), d);
    LiveWorks(en, app, i, Scene(l, sys.stores[i], n), f.nodes[i], net, d);
    HandingOverFits(net, top, size, open, l, t, n);
    MovedAhead(en, sys, sys', f, net, h, i, t);
    MovedWithin(en, sys, sys', f, f', top, size, i, t);
    MovedLess(en, sys, sys', f, f', top, size, i, t);
  }

  lemma HandingOverFits<M>(net: set<Message>, top: nat, size: nat, open: nat, l: Live<M>, t: Scene<M>, n: Network)
    requires HandsOver(l, t, n) && NetworkInv(n) && Carries(n, net)
    requires forall m :: m in Unsent(l) ==> m in net && MessageBounded(top, size, open, m)
    requires forall k :: 0 <= k < |n.queue| ==> MessageBounded(top, size, open, n.queue[k].message)
    ensures NetworkInv(Cleared(t.net)) && Carries(Cleared(t.net), net) && t.net.handlers == n.handlers
    ensures forall m :: m in Unsent(t.live) ==> MessageBounded(top, size, open, m)
    ensures forall k :: 0 <= k < |t.net.queue| ==> MessageBounded(top, size, open, t.net.queue[k].message)
  {
    hide MessageBounded, Unsent;
  }
  // ----- A delivery -----

  /** A message that reaches no engine: lost, or for a node that is down or frozen. */
  lemma LostIsLess<M>(en: Ensemble, sys: System<M>, f: Field, net: set<Message>, h: History, top: nat, size: nat, index: nat)
    requires Ahead(en, sys, f, net, h) && Within(en, sys, f, top, size) && index < |sys.net.queue|
    ensures var sys', f' := sys.(net := Dropped(sys.net, index)), f.(net := Dropped(f.net, index));
            Ahead(en, sys', f', net, h) && Within(en, sys', f', top, size) && Less(en, sys, f, sys', f', top, size)
  {
    hide HistoryInv, Inv, LiveAhead, Maximal, NodeBounded, MessageBounded, Total, TermGap, CommitGap, Campaigns, UnsentWeight;
    hide Weight, BatchWeight, QueueWeight, StepsLeft, WorkLeft, Unsent;
    var sys', f' := sys.(net := Dropped(sys.net, index)), f.(net := Dropped(f.net, index));
    LostIsSmaller(en, f, top, size, index);
    SameNodes(en, f, f', top, size);
    DroppedKept(f.net, index, net);
    NetKeepsField(en, f, net, h, f'.net);
    SameUnsent(en, sys, sys', f, f', top, size);
    forall j | j in en.members
      ensures AheadAt(en, sys', Cluster(f'.nodes, net), j) && UnsentBounded(sys', top, size, Total(en.members, Campaigns(f')), j)
    {
      assert AheadAt(en, sys, Cluster(f.nodes, net), j) && UnsentBounded(sys, top, size, Total(en.members, Campaigns(f)), j);
    }
  }

  lemma SameUnsent<M>(en: Ensemble, sys: System<M>, sys': System<M>, f: Field, f': Field, top: nat, size: nat)
    requires sys'.procs == sys.procs && f'.nodes == f.nodes
    ensures Total(en.members, UnsentWeight(sys', f', top, size)) == Total(en.members, UnsentWeight(sys, f, top, size))
  {
    hide Unsent, Total, LeaderEnd, BatchWeight;
    SameEnds(f, f');
    forall j | j in sys.procs && sys.procs[j].Up?
      ensures BatchWeight(f', top, size, Unsent(sys.procs[j].live)) == BatchWeight(f, top, size, Unsent(sys.procs[j].live))
    {
      BatchWeightSame(f, f', top, size, Unsent(sys.procs[j].live));
    }
    SameTotal(en.members, UnsentWeight(sys, f, top, size), UnsentWeight(sys', f', top, size));
  }
  /** An idle engine takes a message: it steps at once, and its batch waits to be saved and sent. */
  lemma BegunAhead<M>(en: Ensemble, h: History, i: NodeId, l: Live<M>, s: Node, net: set<Message>, m: Message)
    requires Good(en, h, i, s) && MessageInv(en, h, m) && m.to == i && LiveAhead(en, i, l, s, net) && l.phase == Idle
    ensures var o, l' := Handle(ConfigOf(en, i), s, Event.Deliver(m)), Begun(l, Event.Deliver(m));
            o.Done? && LiveAhead(en, i, l', o.node, net + Sent(o)) && Unsent(l') == o.fx.messages
  {
    hide HistoryInv, NodeInv, BodyInv, Handle, WellFormed;
    OutputsBounded(en, h, i, s, m);
    StepKeepsCore(l.core, Event.Deliver(m));
  }

  lemma {:induction false} EnqueuedThere(n: Network, ms: seq<Message>)
    requires n.blocked == {} && !n.dropAll
    ensures n.queue <= EnqueuedAll(n, ms).queue && forall m :: m in ms ==> m in InFlight(EnqueuedAll(n, ms))
    decreases |ms|
  {
    if ms != [] {
      EnqueuedThere(Enqueued(n, ms[0]), ms[1..]);
      assert EnqueuedAll(n, ms).queue[|n.queue|].message == ms[0];
    }
  }

  lemma {:induction false} EnqueuedWeighs(f: Field, top: nat, size: nat, n: Network, ms: seq<Message>)
    requires n.blocked == {} && !n.dropAll
    ensures QueueWeight(f, top, size, EnqueuedAll(n, ms).queue)
         == QueueWeight(f, top, size, n.queue) + BatchWeight(f, top, size, ms)
    decreases |ms|
  {
    if ms != [] {
      var one := [Pending(n.nextId, ms[0])];
      assert one[1..] == [];
      QueueWeightAppend(f, top, size, n.queue, one);
      EnqueuedWeighs(f, top, size, Enqueued(n, ms[0]), ms[1..]);
    }
  }

  /** The system after an idle node took a message, and its engines. */
  ghost predicate TookUp<M>(en: Ensemble, sys: System<M>, sys': System<M>, f: Field, f': Field, index: nat, m: Message) {
    && Handed(sys.net, index) == Some(m) && IsUp(en, sys, m.to) && sys.procs[m.to].live.phase == Idle && m.to in f.nodes
    && sys' == System(sys.procs[m.to := Up(Begun(sys.procs[m.to].live, Event.Deliver(m)))], sys.stores, Dropped(sys.net, index))
    && f' == Field(Taken(en, f, index, m).nodes, Dropped(f.net, index))
  }

  lemma TookUpAhead<M>(en: Ensemble, sys: System<M>, sys': System<M>, f: Field, f': Field, net: set<Message>, h: History,
                       index: nat, m: Message)
    returns (net': set<Message>, h': History)
    requires Ahead(en, sys, f, net, h) && TookUp(en, sys, sys', f, f', index, m)
    ensures Ahead(en, sys', f', net', h')
    ensures var o := Handle(ConfigOf(en, m.to), f.nodes[m.to], Event.Deliver(m));
            o.Done? && f'.nodes == f.nodes[m.to := o.node] && Unsent(sys'.procs[m.to].live) == o.fx.messages
  {
    hide HistoryInv, NodeInv, BodyInv, LiveAhead, Maximal, Handle, NetworkInv, Carries, EnqueuedAll, Begun, Unsent;
    var i, l := m.to, sys.procs[m.to].live;
    var rest := f.(net := Dropped(f.net, index));
    assert AheadAt(en, sys, Cluster(f.nodes, net), i) && NodeInv(en, h, i, f.nodes[i]) && MessageInv(en, h, m) by {
      HandedIsSent(f.net, index, net);
    }
    BegunAhead(en, h, i, l, f.nodes[i], net, m);
    DroppedKept(f.net, index, net);
    NetKeepsField(en, f, net, h, rest.net);
    HonestDelivery(en, h, i, m);
    net', h' := AfterKeepsField(en, rest, net, h, i, Event.Deliver(m));
    CarriesAlso(rest.net, net, net');
    NetKeepsField(en, Taken(en, f, index, m), net', h', rest.net);
    forall j | j in en.members ensures AheadAt(en, sys', Cluster(f'.nodes, net'), j) {
      assert AheadAt(en, sys, Cluster(f.nodes, net), j);
      if j != i {
        AheadStays(en, sys, Cluster(f.nodes, net), Cluster(f'.nodes, net'), j);
      }
    }
  }

  lemma HandedIsSent(n: Network, index: nat, net: set<Message>)
    requires Carries(n, net) && Handed(n, index).Some?
    ensures Handed(n, index).value in net
  {
  }

  lemma HonestDelivery(en: Ensemble, h: History, i: NodeId, m: Message)
    requires MessageInv(en, h, m) && m.to == i
    ensures HonestEvent(en, h, i, Event.Deliver(m))
  {
  }
  lemma TookUpWithin<M>(en: Ensemble, sys: System<M>, sys': System<M>, f: Field, f': Field, net: set<Message>, h: History,
                        top: nat, size: nat, index: nat, m: Message)
    requires FieldInv(en, f, net, h) && f.net == Cleared(sys.net)
    requires Within(en, sys, f, top, size) && TookUp(en, sys, sys', f, f', index, m)
    requires var o := Handle(ConfigOf(en, m.to), f.nodes[m.to], Event.Deliver(m));
             o.Done? && f'.nodes == f.nodes[m.to := o.node] && Unsent(sys'.procs[m.to].live) == o.fx.messages
    ensures Within(en, sys', f', top, size) && Bounded(en, Taken(en, f, index, m), top, size)
  {
    hide HistoryInv, NodeInv, BodyInv, Maximal, Handle, NetworkInv, EnqueuedAll, Begun, Unsent, Total, Campaigns, MessageBounded;
    var i, g := m.to, Taken(en, f, index, m);
    var open, open' := Total(en.members, Campaigns(f)), Total(en.members, Campaigns(f'));
    TakenBounded(en, f, net, h, top, size, index, m);
    OpenFalls(en, f, net, h, top, size, index, m);
    SameCampaigns(en, g, f');
    EnqueuedThere(Dropped(f.net, index), Unsent(sys'.procs[i].live));
    forall j | j in en.members ensures NodeBounded(f', top, size, open', j) && UnsentBounded(sys', top, size, open', j) {
      assert NodeBounded(g, top, size, open', j) && UnsentBounded(sys, top, size, open, j);
      if j != i {
        StillBounded(sys, sys', top, size, open, open', j);
      }
    }
  }

  lemma OpenFalls(en: Ensemble, f: Field, net: set<Message>, h: History, top: nat, size: nat, index: nat, m: Message)
    requires FieldInv(en, f, net, h) && Handed(f.net, index) == Some(m) && m.to in f.nodes
    requires Bounded(en, Taken(en, f, index, m), top, size)
    ensures Total(en.members, Campaigns(Taken(en, f, index, m))) <= Total(en.members, Campaigns(f))
  {
    TakenMoves(en, f, net, h, top, size, index, m);
    OpenElections(en, f, Taken(en, f, index, m), m.to);
  }

  lemma SameCampaigns(en: Ensemble, f: Field, f': Field)
    requires f'.nodes == f.nodes
    ensures Total(en.members, Campaigns(f')) == Total(en.members, Campaigns(f))
  {
    SameTotal(en.members, Campaigns(f), Campaigns(f'));
  }

  lemma StillBounded<M>(sys: System<M>, sys': System<M>, top: nat, size: nat, open: nat, open': nat, j: NodeId)
    requires UnsentBounded(sys, top, size, open, j) && open' <= open
    requires j in sys'.procs ==> j in sys.procs && sys'.procs[j] == sys.procs[j]
    ensures UnsentBounded(sys', top, size, open', j)
  {
  }

  lemma TookUpLess<M>(en: Ensemble, sys: System<M>, sys': System<M>, f: Field, f': Field, net: set<Message>, h: History,
                      top: nat, size: nat, index: nat, m: Message)
    requires FieldInv(en, f, net, h) && f.net == Cleared(sys.net)
    requires Within(en, sys, f, top, size) && TookUp(en, sys, sys', f, f', index, m)
    requires var o := Handle(ConfigOf(en, m.to), f.nodes[m.to], Event.Deliver(m));
             o.Done? && f'.nodes == f.nodes[m.to := o.node] && Unsent(sys'.procs[m.to].live) == o.fx.messages
    requires Bounded(en, Taken(en, f, index, m), top, size)
    ensures Less(en, sys, f, sys', f', top, size)
  {
    hide FieldInv, Handle, EnqueuedAll, Begun, Unsent, Total, Campaigns, TermGap, CommitGap, Load, Bounded, UnsentBounded;
    hide QueueWeight, BatchWeight, LeaderEnd, Progressed, Removed;
    MembersDistinct(en, f, net, h);
    var g := Taken(en, f, index, m);
    TakenMoves(en, f, net, h, top, size, index, m);
    NodeProgress(en, f, f', top, size, m.to);
    if !Progressed(f.nodes[m.to], f'.nodes[m.to]) {
      QuietIsLighter(en, f, net, h, top, size, index, m);
      QuietEnds(en, f, net, h, index, m);
      EnqueuedWeighs(g, top, size, Dropped(f.net, index), Unsent(sys'.procs[m.to].live));
      TookUpLoad(en, sys, sys', f, f', g, top, size, index, m);
    }
  }

  /** When nothing progressed, leaders and their logs stand. */
  lemma QuietEnds(en: Ensemble, f: Field, net: set<Message>, h: History, index: nat, m: Message)
    requires FieldInv(en, f, net, h) && Handed(f.net, index) == Some(m) && m.to in f.nodes
    requires !Progressed(f.nodes[m.to], Taken(en, f, index, m).nodes[m.to])
    ensures forall x, t :: LeaderEnd(f, x, t) == LeaderEnd(Taken(en, f, index, m), x, t)
  {
    hide Handle, HistoryInv;
    assert MessageInv(en, h, m) && NodeInv(en, h, m.to, f.nodes[m.to]);
    DeliveryShaped(en, h, m.to, f.nodes[m.to], m);
  }

  lemma TookUpLoad<M>(en: Ensemble, sys: System<M>, sys': System<M>, f: Field, f': Field, g: Field,
                      top: nat, size: nat, index: nat, m: Message)
    requires Distinct(en.members) && m.to in en.members && TookUp(en, sys, sys', f, f', index, m)
    requires g.nodes == f'.nodes && forall x, t :: LeaderEnd(f, x, t) == LeaderEnd(g, x, t)
    requires QueueWeight(g, top, size, g.net.queue) < QueueWeight(f, top, size, f.net.queue)
    requires QueueWeight(g, top, size, g.net.queue)
          == QueueWeight(g, top, size, f'.net.queue) + BatchWeight(g, top, size, Unsent(sys'.procs[m.to].live))
    ensures Load(en, sys', f', top, size) < Load(en, sys, f, top, size)
  {
    hide BatchWeight, QueueWeight, Begun, Total, LeaderEnd, Taken;
    SameEnds(g, f');
    QueueWeightSame(g, f', top, size, f'.net.queue);
    BatchWeightSame(g, f', top, size, Unsent(sys'.procs[m.to].live));
    forall j | j in sys.procs && sys.procs[j].Up?
      ensures BatchWeight(f', top, size, Unsent(sys.procs[j].live)) == BatchWeight(f, top, size, Unsent(sys.procs[j].live))
    {
      BatchWeightSame(f, f', top, size, Unsent(sys.procs[j].live));
    }
    TotalMoved(en.members, UnsentWeight(sys, f, top, size), UnsentWeight(sys', f', top, size), m.to);
  }
  lemma DeliverIsLess<M>(en: Ensemble, sys: System<M>, sys': System<M>, f: Field, net: set<Message>, h: History,
                         top: nat, size: nat, index: nat)
    returns (f': Field, net': set<Message>, h': History)
    requires Ahead(en, sys, f, net, h) && Within(en, sys, f, top, size) && DeliverStep(en, sys, sys', index)
    ensures Ahead(en, sys', f', net', h') && Within(en, sys', f', top, size) && Less(en, sys, f, sys', f', top, size)
  {
    hide FieldInv, Within, Less, Begun, CoreInv, Taken, Dropped;
    var m := sys.net.queue[index].message;
    if Handed(sys.net, index).Some? && IsUp(en, sys, m.to) && sys.procs[m.to].live.phase == Idle {
      assert AheadAt(en, sys, Cluster(f.nodes, net), m.to);
      f' := Field(Taken(en, f, index, m).nodes, Dropped(f.net, index));
      net', h' := TookUpAhead(en, sys, sys', f, f', net, h, index, m);
      TookUpWithin(en, sys, sys', f, f', net, h, top, size, index, m);
      TookUpLess(en, sys, sys', f, f', net, h, top, size, index, m);
    } else {
      f', net', h' := f.(net := Dropped(f.net, index)), net, h;
      if Handed(sys.net, index).Some? && IsUp(en, sys, m.to) {
        assert AheadAt(en, sys, Cluster(f.nodes, net), m.to);
        FrozenIgnores(sys.procs[m.to].live, Event.Deliver(m));
        assert sys.procs[m.to := sys.procs[m.to]] == sys.procs;
      }
      LostIsLess(en, sys, f, net, h, top, size, index);
    }
  }

  lemma InnerStepIsLess<M>(en: Ensemble, app: App<M>, sys: System<M>, sys': System<M>, f: Field, net: set<Message>,
                           h: History, top: nat, size: nat)
    returns (f': Field, net': set<Message>, h': History)
    requires Ahead(en, sys, f, net, h) && Within(en, sys, f, top, size) && InnerStep(en, app, sys, sys')
    ensures Ahead(en, sys', f', net', h') && Within(en, sys', f', top, size) && Less(en, sys, f, sys', f', top, size)
  {
    hide Ahead, Within, Less, WorkStep, DeliverStep;
    if i: NodeId, d: bool :| WorkStep(en, app, sys, sys', i, d) {
      f', net', h' := f.(net := Cleared(sys'.net)), net, h;
      WorkIsLess(en, app, sys, sys', f, net, h, top, size, i, d);
    } else {
      var index: nat :| DeliverStep(en, sys, sys', index);
      f', net', h' := DeliverIsLess(en, sys, sys', f, net, h, top, size, index);
    }
  }

  // ----- Every interleaving ends -----

  lemma {:induction false} EndsWithin<M>(en: Ensemble, app: App<M>, states: nat -> System<M>, k: nat, f: Field,
                                         net: set<Message>, h: History, top: nat, size: nat) returns (n: nat)
    requires Ahead(en, states(k), f, net, h) && Within(en, states(k), f, top, size)
    ensures !InnerStep(en, app, states(n), states(n + 1))
    decreases LoadMeasure(en, states(k), f, top, size).terms, LoadMeasure(en, states(k), f, top, size).elections,
              LoadMeasure(en, states(k), f, top, size).commits, LoadMeasure(en, states(k), f, top, size).weight,
              Total(en.members, WorkLeft(states(k)))
  {
    hide Ahead, Within, InnerStep, LoadMeasure, Total;
    n := k;
    if InnerStep(en, app, states(k), states(k + 1)) {
      var f', net', h' := InnerStepIsLess(en, app, states(k), states(k + 1), f, net, h, top, size);
      n := EndsWithin(en, app, states, k + 1, f', net', h', top, size);
    }
  }

  function AllUnsent<M>(sys: System<M>, members: seq<NodeId>): seq<Message> {
    if members == [] then []
    else
      var i := members[0];
      (if i in sys.procs && sys.procs[i].Up? then Unsent(sys.procs[i].live) else []) + AllUnsent(sys, members[1..])
  }

  lemma {:induction false} UnsentAmongAll<M>(sys: System<M>, members: seq<NodeId>, i: NodeId)
    requires i in members && i in sys.procs && sys.procs[i].Up?
    ensures forall m :: m in Unsent(sys.procs[i].live) ==> m in AllUnsent(sys, members)
    decreases |members|
  {
    hide Unsent;
    if i != members[0] {
      UnsentAmongAll(sys, members[1..], i);
    }
  }

  lemma WithinSome<M>(en: Ensemble, sys: System<M>, f: Field) returns (top: nat, size: nat)
    requires (forall i :: i in en.members ==> i in f.nodes) && f.net == Cleared(sys.net)
    ensures Within(en, sys, f, top, size)
  {
    hide Unsent, MessageBounded, Total, Campaigns, AllUnsent, EnqueuedAll;
    var all := AllUnsent(sys, en.members);
    var g := f.(net := EnqueuedAll(f.net, all));
    top, size := BoundsExist(en, g);
    EnqueuedThere(f.net, all);
    SameCampaigns(en, g, f);
    var open := Total(en.members, Campaigns(f));
    forall i | i in en.members ensures NodeBounded(f, top, size, open, i) && UnsentBounded(sys, top, size, open, i) {
      assert NodeBounded(g, top, size, open, i);
      if i in sys.procs && sys.procs[i].Up? {
        UnsentAmongAll(sys, en.members, i);
      }
    }
  }

  /**
   From any state of any run, whatever is partitioned, down, armed, frozen or half done, and in whatever
   order nodes save, send, apply and take messages, finitely many such steps are possible.
   */
  lemma EveryInterleavingEnds<M>(en: Ensemble, app: App<M>, srun: seq<System<M>>, states: nat -> System<M>) returns (n: nat)
    requires IsSysRun(en, app, srun) && states(0) == Last(srun)
    ensures !InnerStep(en, app, states(n), states(n + 1))
  {
    hide SysNext, SysInit, InnerStep, Within;
    var f, net, h := AheadOf(en, app, srun);
    AheadHasNodes(en, Last(srun), f, net, h);
    var top, size := WithinSome(en, Last(srun), f);
    n := EndsWithin(en, app, states, 0, f, net, h, top, size);
  }

  lemma AheadHasNodes<M>(en: Ensemble, sys: System<M>, f: Field, net: set<Message>, h: History)
    requires Ahead(en, sys, f, net, h)
    ensures f.net == Cleared(sys.net) && forall i :: i in en.members ==> i in f.nodes
  {
    hide LiveAhead;
    forall i | i in en.members ensures i in f.nodes {
      assert AheadAt(en, sys, Cluster(f.nodes, net), i);
    }
  }

  /** And they are over exactly when the queue is empty and every live node is idle or frozen. */
  lemma RestExactly<M>(en: Ensemble, app: App<M>, srun: seq<System<M>>)
    requires IsSysRun(en, app, srun)
    ensures (exists sys' :: InnerStep(en, app, Last(srun), sys')) <==>
              Last(srun).net.queue != [] || exists i :: IsUp(en, Last(srun), i) && Busy(Last(srun).procs[i].live)
  {
    hide SysNext, SysInit, Continued, Begun, CoreInv, Dropped, FieldInv;
    var sys := Last(srun);
    var f, net, h := AheadOf(en, app, srun);
    if i :| IsUp(en, sys, i) && Busy(sys.procs[i].live) {
      var s := Continued(app, Scene(sys.procs[i].live, sys.stores[i], sys.net), true);
      var sys' := System(sys.procs[i := Up(s.live)], sys.stores[i := s.store], s.net);
      assert WorkStep(en, app, sys, sys', i, true);
      assert InnerStep(en, app, sys, sys');
    } else if sys.net.queue != [] {
      var m, sys' := sys.net.queue[0].message, sys.(net := Dropped(sys.net, 0));
      if Handed(sys.net, 0).Some? && IsUp(en, sys, m.to) {
        assert AheadAt(en, sys, Cluster(f.nodes, net), m.to);
        sys' := sys'.(procs := sys.procs[m.to := Up(Begun(sys.procs[m.to].live, Event.Deliver(m)))]);
      }
      assert DeliverStep(en, sys, sys', 0);
      assert InnerStep(en, app, sys, sys');
    }
  }
}
