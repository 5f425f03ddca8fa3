/**
 After a partition. Healed, a scenario or a run goes on as if it had never been cut: a leader left behind
 is deposed by its own heartbeat, and the newest leader's heartbeat brings every log to its own.
 */
module Healing {
  import opened RaftTypes
  import opened Logs
  import opened Protocol
  import opened Networks
  import opened Histories
  import opened NodeSteps
  import opened Clusters
  import opened Runtime
  import opened Fields
  import opened Deliveries
  import opened Convergence
  import opened Settlements
  import opened Quiescence
  import opened Depositions

  function Healed(f: Field): Field {
    f.(net := ApplyNet(f.net, NetOp.Heal))
  }

  lemma HealedKeeps(en: Ensemble, f: Field, net: set<Message>, h: History)
    requires FieldInv(en, f, net, h)
    ensures FieldInv(en, Healed(f), net, h)
  {
    NetStep(f.net, NetOp.Heal, net);
    assert net + {} == net;
    NetKeepsField(en, f, net, h, Healed(f).net);
  }

  /** Every member is registered, whatever lies between them. */
  predicate AllRegistered(en: Ensemble, f: Field) {
    forall i :: i in en.members ==> i in f.net.handlers
  }

  lemma HealedIsOpen(en: Ensemble, f: Field)
    requires AllRegistered(en, f)
    ensures Open(en, Healed(f).net)
  {
  }

  // ----- A leader left behind -----

  predicate StaleRequest(m: Message, x: NodeId, p: NodeId, t: nat) {
    m.from == x && m.to == p && m.body.AppendRequest? && m.term < t
  }

  /** Node x has reached term t, or is about to be told of it by p or by a message already on its way. */
  ghost predicate Telling(f: Field, x: NodeId, p: NodeId, t: nat) {
    && x in f.nodes && p in f.nodes
    && (|| f.nodes[x].term >= t
        || (f.nodes[p].term >= t && exists m :: m in InFlight(f.net) && StaleRequest(m, x, p, t))
        || (exists r :: r in InFlight(f.net) && r.to == x && r.term >= t))
  }

  lemma TellingStep(en: Ensemble, f: Field, net: set<Message>, h: History, x: NodeId, p: NodeId, t: nat, pick: nat)
    requires FieldInv(en, f, net, h) && Open(en, f.net) && Telling(f, x, p, t) && x in en.members && p in en.members
    ensures var g := DeliverNext(en, f, pick); Telling(g, x, p, t) && Open(en, g.net)
  {
    hide HistoryInv, NodeInv, BodyInv, Handle, NetworkInv, InFlight, Open;
    if f.net.queue != [] {
      var index := pick % |f.net.queue|;
      var m := f.net.queue[index].message;
      HandedOnOpen(en, f, net, h, index);
      var i, s := m.to, f.nodes[m.to];
      var o := Handle(ConfigOf(en, i), s, Event.Deliver(m));
      DeliveryShaped(en, h, i, s, m);
      FlightAfter(en, f.net, index, o.fx.messages);
      var g := Delivered(en, f, index);
      if f.nodes[x].term < t && f.nodes[p].term >= t && StaleRequest(m, x, p, t) {
        StaleRequestRefused(ConfigOf(en, p), s, m);
        assert Refusal(ConfigOf(en, p), s, m) in InFlight(g.net);
      }
    }
  }

  lemma HandedOnOpen(en: Ensemble, f: Field, net: set<Message>, h: History, index: nat)
    requires FieldInv(en, f, net, h) && Open(en, f.net) && index < |f.net.queue|
    ensures var m := f.net.queue[index].message;
            && MessageInv(en, h, m) && m.to in f.nodes && NodeInv(en, h, m.to, f.nodes[m.to]) && HistoryInv(en, h)
            && Delivered(en, f, index) == After(en, f.(net := Dropped(f.net, index)), m.to, Event.Deliver(m))
            && m in InFlight(f.net)
  {
    var m := f.net.queue[index].message;
    assert f.net.queue[index] in f.net.queue && m.to in Elements(en.members);
  }

  lemma {:induction false} ToldInTheEnd(en: Ensemble, f: Field, net: set<Message>, h: History, x: NodeId, p: NodeId, t: nat,
                                        pick: nat -> nat, k: nat, n: nat)
    requires FieldInv(en, f, net, h) && Open(en, f.net) && Telling(f, x, p, t) && x in en.members && p in en.members
    requires Drained(en, f, pick, k, n).net.queue == []
    ensures var g := Drained(en, f, pick, k, n); x in g.nodes && g.nodes[x].term >= t
    decreases n
  {
    hide FieldInv, Open;
    if n > 0 {
      TellingStep(en, f, net, h, x, p, t, pick(k));
      var net', h' := NextKeeps(en, f, net, h, pick(k));
      ToldInTheEnd(en, DeliverNext(en, f, pick(k)), net', h', x, p, t, pick, k + 1, n - 1);
    }
  }

  lemma HeartbeatTells(en: Ensemble, f: Field, net: set<Message>, h: History, x: NodeId, p: NodeId)
    requires FieldInv(en, f, net, h) && Open(en, f.net) && x in en.members && p in en.members && x in f.nodes && p in f.nodes
    requires f.nodes[x].role == Leader && f.nodes[x].term < f.nodes[p].term
    ensures var g := After(en, f, x, HeartbeatTimeout); Telling(g, x, p, f.nodes[p].term) && Open(en, g.net)
  {
    hide HistoryInv, BodyInv, NetworkInv, Carries, Suffix, TermOr0, EnqueuedAll, ValidLog, Committed, TermsBounded, Maximal;
    var s, cfg := f.nodes[x], ConfigOf(en, x);
    assert NodeInv(en, h, x, s);
    AppendsSent(en, h, x, s, NO_EFFECTS);
    BroadcastReaches(cfg, s, p, NO_EFFECTS);
    var ms := Broadcast(cfg, s, NO_EFFECTS).fx.messages;
    EnqueuedInFlight(f.net, ms);
    EnqueuedFrame(f.net, ms);
    assert StaleRequest(AppendFor(cfg, s, p), x, p, f.nodes[p].term);
    assert AppendFor(cfg, s, p) in InFlight(After(en, f, x, HeartbeatTimeout).net);
  }

  /**
   A leader left behind in an older term, under whatever partition, is deposed by its own heartbeat once the
   network is healed: whatever else is in flight and in whatever order it arrives, when the queue is empty
   the leader has reached the newer term.
   */
  lemma StaleLeaderDeposed(en: Ensemble, f: Field, x: NodeId, p: NodeId, pick: nat -> nat) returns (n: nat)
    requires Reached(en, f) && AllRegistered(en, f) && x in en.members && p in en.members && x in f.nodes && p in f.nodes
    requires f.nodes[x].role == Leader && f.nodes[x].term < f.nodes[p].term
    ensures var g := Drained(en, After(en, Healed(f), x, HeartbeatTimeout), pick, 0, n);
            g.net.queue == [] && x in g.nodes && g.nodes[x].term >= f.nodes[p].term
  {
    hide FieldInv, After, Drained, Open, Telling;
    var net, h := ReachedInv(en, f);
    HealedKeeps(en, f, net, h);
    HealedIsOpen(en, f);
    HeartbeatTells(en, Healed(f), net, h, x, p);
    n := DrainsAfter(en, Healed(f), net, h, x, HeartbeatTimeout, pick);
    var net', h' := AfterKeepsField(en, Healed(f), net, h, x, HeartbeatTimeout);
    ToldInTheEnd(en, After(en, Healed(f), x, HeartbeatTimeout), net', h', x, p, f.nodes[p].term, pick, 0, n);
  }

  // ----- The newest leader -----

  /** Node x leads, and nothing is newer than its term; nothing is said of who can reach whom. */
  ghost predicate Newest(en: Ensemble, f: Field, x: NodeId) {
    && x in en.members && x in f.nodes && f.nodes[x].role == Leader
    && (forall i :: i in en.members ==> i in f.nodes && f.nodes[i].term <= f.nodes[x].term)
    && (forall k :: 0 <= k < |f.net.queue| ==> f.net.queue[k].message.term <= f.nodes[x].term)
  }

  lemma HealedIsCalm(en: Ensemble, f: Field, x: NodeId)
    requires Newest(en, f, x) && AllRegistered(en, f)
    ensures Calm(en, Healed(f), x)
  {
  }

  /**
   From any scenario, however the network is cut, with every member registered: heal it, and the newest
   leader's heartbeat and any order of deliveries end with every log its own and committed.
   */
  lemma HealedConverges(en: Ensemble, f: Field, x: NodeId, pick: nat -> nat) returns (n: nat)
    requires Reached(en, f) && Newest(en, f, x) && AllRegistered(en, f)
    ensures var g := Drained(en, After(en, Healed(f), x, HeartbeatTimeout), pick, 0, n);
            g.net.queue == [] && Converged(en, g, x) && SameReign(f, g, x)
  {
    hide FieldInv, After, Drained, Converged, Calm;
    var net, h := ReachedInv(en, f);
    HealedKeeps(en, f, net, h);
    HealedIsCalm(en, f, x);
    n := DrainsAfter(en, Healed(f), net, h, x, HeartbeatTimeout, pick);
    HeartbeatConvergesFrom(en, Healed(f), net, h, x, pick, n);
  }

  /**
   And of the runtime: from any moment of any small-step run at which every member is up and idle, however
   the network is cut, healing it and the newest leader's heartbeat continue the run, in any order of
   deliveries, to a state in which every store and every machine holds that leader's whole log.
   */
  lemma RuntimeHealing<M>(en: Ensemble, app: App<M>, srun: seq<System<M>>, x: NodeId, pick: nat -> nat)
    returns (n: nat, run: seq<System<M>>)
    requires IsSysRun(en, app, srun) && AllReady(en, Last(srun)) && Newest(en, View(en, Last(srun)), x)
    requires Fold(app, app.init, View(en, Last(srun)).nodes[x].log).Some?
    ensures IsSysRun(en, app, run) && srun <= run && Last(run).net.queue == []
    ensures Replicas(en, app, Last(run), View(en, Last(srun)).nodes[x].log)
  {
    hide SysNext, SysInit, Replicas, Fold, View;
    var sys := Last(srun);
    var next := sys.(net := ApplyNet(sys.net, NetOp.Heal));
    assert NetworkStep(sys, next, NetOp.Heal);
    Extend(en, app, srun, next) by {
      SomeNetworkStep(en, app, sys, next, NetOp.Heal);
    }
    ReadyHealed(en, app, srun, next, x);
    n, run := RuntimeQuiescence(en, app, srun + [next], x, pick);
  }

  lemma SomeNetworkStep<M>(en: Ensemble, app: App<M>, sys: System<M>, sys': System<M>, op: NetOp)
    requires NetworkStep(sys, sys', op)
    ensures SysNext(en, app, sys, sys')
  {
  }

  lemma ReadyHealed<M>(en: Ensemble, app: App<M>, srun: seq<System<M>>, next: System<M>, x: NodeId)
    requires IsSysRun(en, app, srun) && AllReady(en, Last(srun)) && Newest(en, View(en, Last(srun)), x)
    requires next == Last(srun).(net := ApplyNet(Last(srun).net, NetOp.Heal))
    ensures AllReady(en, next) && View(en, next).nodes == View(en, Last(srun)).nodes && Calm(en, View(en, next), x)
  {
    hide SysNext, SysInit;
    RegisteredAreUp(en, app, srun, |srun| - 1);
    assert View(en, next) == Healed(View(en, Last(srun)));
    HealedIsCalm(en, View(en, Last(srun)), x);
  }
}
