/**
 The test cluster: nodes that finish each operation before the next, over the in-memory queue. Any
 sequence of its operations is a run of the abstract cluster.
 */
module Fields {
  import opened RaftTypes
  import opened Logs
  import opened Protocol
  import opened NodeFacts
  import opened Networks
  import opened Histories
  import opened Handlers
  import opened Clusters
  import opened SafetyTheorems

  datatype Field = Field(nodes: map<NodeId, Node>, net: Network)

  ghost predicate FieldInit(en: Ensemble, f: Field) {
    Distinct(en.members) && f == Field(map i | i in en.members :: FRESH, IDLE.(handlers := Elements(en.members)))
  }

  /** An event runs to completion at node i and its messages are enqueued in order. */
  function After(en: Ensemble, f: Field, i: NodeId, e: Event): Field
    requires i in f.nodes
  {
    var o := Handle(ConfigOf(en, i), f.nodes[i], e);
    Field(f.nodes[i := o.node], if o.Done? then EnqueuedAll(f.net, o.fx.messages) else f.net)
  }

  /** One delivery from the queue. */
  function Delivered(en: Ensemble, f: Field, index: nat): Field {
    var rest := f.(net := Dropped(f.net, index));
    var m := Handed(f.net, index);
    if m.Some? && m.value.to in f.nodes then After(en, rest, m.value.to, Event.Deliver(m.value)) else rest
  }

  datatype TestOp =
    | Call(node: NodeId, event: Event)
    | Take(index: nat)
    | Shape(op: NetOp)
    | Crash(node: NodeId)
    | Restart(node: NodeId)

  predicate Allowed(en: Ensemble, f: Field, op: TestOp) {
    match op
    case Call(i, e) => i in en.members && i in f.nodes && i in f.net.handlers && !e.Deliver?
    case Take(index) => true
    case Shape(o) => o.Duplicate? || o.Drop? || o.Reorder? || o.Partition? || o.Heal? || o.SetDropAll?
    case Crash(i) => i in en.members && i in f.net.handlers
    case Restart(i) => i in en.members && i in f.nodes && i !in f.net.handlers
  }

  function Perform(en: Ensemble, f: Field, op: TestOp): Field
    requires Allowed(en, f, op)
  {
    match op
    case Call(i, e) => After(en, f, i, e)
    case Take(index) => Delivered(en, f, index)
    case Shape(o) => f.(net := ApplyNet(f.net, o))
    case Crash(i) => f.(net := ApplyNet(f.net, NetOp.Unregister(i)))
    case Restart(i) => Field(f.nodes[i := Recovered(Hard(f.nodes[i]), f.nodes[i].log)], ApplyNet(f.net, NetOp.Register(i)))
  }

  ghost predicate TestStep(en: Ensemble, f: Field, f': Field, op: TestOp) {
    Allowed(en, f, op) && f' == Perform(en, f, op)
  }

  ghost predicate TestNext(en: Ensemble, f: Field, f': Field) {
    exists op: TestOp :: TestStep(en, f, f', op)
  }

  ghost predicate IsTestRun(en: Ensemble, fs: seq<Field>) {
    && 0 < |fs| && FieldInit(en, fs[0])
    && forall k :: 0 < k < |fs| ==> TestNext(en, fs[k - 1], fs[k])
  }

  /** A state some test scenario reaches. */
  ghost predicate Reached(en: Ensemble, f: Field) {
    exists fs: seq<Field> :: IsTestRun(en, fs) && fs[|fs| - 1] == f
  }

  /** A leader's commit index is always the greatest it could be. */
  ghost predicate Maximal(cfg: Config, s: Node) {
    s.role == Leader ==> CommitTarget(cfg, s, |s.log|) == s.commit
  }

  /** What the test cluster keeps, with the history that explains it. */
  ghost predicate FieldInv(en: Ensemble, f: Field, net: set<Message>, h: History) {
    && Inv(en, Cluster(f.nodes, net), h)
    && NetworkInv(f.net) && Carries(f.net, net) && f.net.handlers <= Elements(en.members)
    && forall i {:trigger Maximal(ConfigOf(en, i), f.nodes[i])} :: i in en.members ==> Maximal(ConfigOf(en, i), f.nodes[i])
  }

  lemma MembersDistinct(en: Ensemble, f: Field, net: set<Message>, h: History)
    requires FieldInv(en, f, net, h)
    ensures Distinct(en.members)
  {
  }

  // ----- The leader's commit index is exact -----

  lemma CommitTargetIgnores(cfg: Config, s: Node, t: Node, index: nat)
    requires s.log == t.log && s.term == t.term && s.commit == t.commit
    requires forall k :: Replicated(cfg, s, k) == Replicated(cfg, t, k)
    ensures CommitTarget(cfg, s, index) == CommitTarget(cfg, t, index)
    decreases index
  {
  }

  /** Once the scan has run there is nothing more to find. */
  lemma AdvancedIsMaximal(cfg: Config, s: Node)
    requires s.commit <= |s.log|
    ensures Maximal(cfg, AdvancedNode(cfg, s))
  {
    var t := AdvancedNode(cfg, s);
    if s.role == Leader {
      var c := CommitTarget(cfg, s, |s.log|);
      assert forall k :: MatchedPeers(t, k) == MatchedPeers(s, k);
      var d := CommitTarget(cfg, t, |s.log|);
      assert d > c ==> TermAt(t.log, d) == Some(t.term) && Replicated(cfg, t, d);
      assert d > c ==> TermAt(s.log, d) == Some(s.term) && Replicated(cfg, s, d);
    }
  }

  lemma BackedOffIsMaximal(cfg: Config, s: Node, p: NodeId, g: Progress)
    requires p in s.progress && g.matched == s.progress[p].matched && Maximal(cfg, s)
    ensures Maximal(cfg, s.(progress := s.progress[p := g]))
  {
    var t := s.(progress := s.progress[p := g]);
    forall k ensures Replicated(cfg, s, k) == Replicated(cfg, t, k) {
      assert MatchedPeers(t, k) == MatchedPeers(s, k);
    }
    CommitTargetIgnores(cfg, s, t, |s.log|);
  }

  /** Every handled event leaves a leader with the greatest commit index its book-keeping allows. */
  lemma EventKeepsMaximal(cfg: Config, s: Node, e: Event)
    requires WellFormed(cfg, s) && Maximal(cfg, s) && Handle(cfg, s, e).Done?
    ensures Maximal(cfg, Handle(cfg, s, e).node)
  {
    match e {
      case ElectionTimeout =>
        if s.role != Leader {
          LeadershipIsMaximal(cfg, Campaigning(cfg, s), SaveHard(NO_EFFECTS, Campaigning(cfg, s)).(
                messages := NO_EFFECTS.messages + VoteRequestsFor(cfg, Campaigning(cfg, s), Peers(cfg))));
        }
      case HeartbeatTimeout =>
      case Propose(id, payload) =>
        var a := AppendLocal(s, NO_EFFECTS, LocalEntry(s, Command, payload, Some(id)));
        AdvancedIsMaximal(cfg, a.node);
      case Deliver(m) =>
        var b := if m.term > s.term then BecomeFollower(s, m.term, None, NO_EFFECTS) else Done(s, NO_EFFECTS);
        DispatchKeepsMaximal(cfg, b.node, m, b.fx);
    }
  }

  lemma LeadershipIsMaximal(cfg: Config, s: Node, fx: Effects)
    requires s.commit <= |s.log|
    ensures BecomeLeader(cfg, s, fx).Done? ==> Maximal(cfg, BecomeLeader(cfg, s, fx).node)
  {
    var a := AppendLocal(Crowned(cfg, s), fx, LocalEntry(s, Noop, [], None));
    AdvancedIsMaximal(cfg, a.node);
  }

  lemma DispatchKeepsMaximal(cfg: Config, s: Node, m: Message, fx: Effects)
    requires s.commit <= |s.log| && Maximal(cfg, s)
    ensures Dispatch(cfg, s, m, fx).Done? ==> Maximal(cfg, Dispatch(cfg, s, m, fx).node)
  {
    match m.body {
      case VoteRequest(_, _) =>
      case VoteResponse(_) => LeadershipIsMaximal(cfg, s.(votes := s.votes + {m.from}), fx);
      case AppendRequest(_, _, _, _) =>
      case AppendResponse(success, index, hint) =>
        if m.from in s.progress {
          var s1 := s.(progress := s.progress[m.from := Acknowledged(s.progress[m.from], index)]);
          AdvancedIsMaximal(cfg, s1);
          BackedOffIsMaximal(cfg, s, m.from, BackedOff(s.progress[m.from], hint));
        }
    }
  }

  // ----- Every test scenario is a run of the abstract cluster -----

  lemma AfterKeepsField(en: Ensemble, f: Field, net: set<Message>, h: History, i: NodeId, e: Event)
    returns (net': set<Message>, h': History)
    requires FieldInv(en, f, net, h) && i in en.members && HonestEvent(en, h, i, e)
    ensures FieldInv(en, After(en, f, i, e), net', h') && Later(h, h') && net <= net'
    ensures net' == net + Sent(Handle(ConfigOf(en, i), f.nodes[i], e))
  {
    hide HistoryInv, Handle, Carries, NetworkInv, BodyInv, CommitTarget;
    hide Committed, ValidLog, TermsBounded, VoteRecorded, CandidateInv;
    var s := f.nodes[i];
    var o := Handle(ConfigOf(en, i), s, e);
    h' := EventHandled(en, h, i, s, e);
    net' := net + Sent(o);
    assert Maximal(ConfigOf(en, i), s);
    if o.Done? {
      EventKeepsMaximal(ConfigOf(en, i), s, e);
      OthersKept(en, Cluster(f.nodes, net), h, h', i, o.node, Sent(o));
      MovedField(en, f, net, h, net', h', i, o.node, o.fx.messages);
    } else {
      assert f.nodes[i := s] == f.nodes;
      assert net' == net;
    }
  }

  lemma MovedField(en: Ensemble, f: Field, net: set<Message>, h: History, net': set<Message>, h': History,
                   i: NodeId, s': Node, ms: seq<Message>)
    requires FieldInv(en, f, net, h)
    requires Inv(en, Cluster(f.nodes[i := s'], net'), h') && Maximal(ConfigOf(en, i), s')
    requires net <= net' && forall m :: m in ms ==> m in net'
    ensures FieldInv(en, Field(f.nodes[i := s'], EnqueuedAll(f.net, ms)), net', h')
  {
    CarriesAlso(f.net, net, net');
    EnqueuedAllKept(f.net, ms, net');
    var nodes := f.nodes[i := s'];
    forall j | j in en.members ensures Maximal(ConfigOf(en, j), nodes[j]) {
      assert Maximal(ConfigOf(en, j), f.nodes[j]);
    }
  }

  lemma CarriesAlso(n: Network, net: set<Message>, net': set<Message>)
    requires Carries(n, net) && net <= net'
    ensures Carries(n, net')
  {
  }

  lemma NetKeepsField(en: Ensemble, f: Field, net: set<Message>, h: History, n: Network)
    requires FieldInv(en, f, net, h) && NetworkInv(n) && Carries(n, net) && n.handlers <= Elements(en.members)
    ensures FieldInv(en, f.(net := n), net, h)
  {
    assert f.(net := n).nodes == f.nodes;
    forall j | j in en.members ensures Maximal(ConfigOf(en, j), f.(net := n).nodes[j]) {
      assert Maximal(ConfigOf(en, j), f.nodes[j]);
    }
  }

  lemma DeliveredKeepsField(en: Ensemble, f: Field, net: set<Message>, h: History, index: nat)
    returns (net': set<Message>, h': History)
    requires FieldInv(en, f, net, h)
    ensures FieldInv(en, Delivered(en, f, index), net', h') && Later(h, h') && net <= net'
  {
    NetStep(f.net, NetOp.Deliver(index), net);
    var rest := f.(net := Dropped(f.net, index));
    assert net + {} == net;
    NetKeepsField(en, f, net, h, rest.net);
    net', h' := net, h;
    var m := Handed(f.net, index);
    if m.Some? && m.value.to in f.nodes {
      assert MessageInv(en, h, m.value);
      net', h' := AfterKeepsField(en, rest, net, h, m.value.to, Event.Deliver(m.value));
    }
  }

  lemma RestartKeepsField(en: Ensemble, f: Field, net: set<Message>, h: History, i: NodeId)
    requires FieldInv(en, f, net, h) && i in en.members
    ensures FieldInv(en, f.(nodes := f.nodes[i := Recovered(Hard(f.nodes[i]), f.nodes[i].log)]), net, h)
  {
    var s' := Recovered(Hard(f.nodes[i]), f.nodes[i].log);
    Restarted(en, h, i, f.nodes[i]);
    OthersKept(en, Cluster(f.nodes, net), h, h, i, s', {});
    assert net + {} == net;
    var nodes := f.nodes[i := s'];
    forall j | j in en.members ensures Maximal(ConfigOf(en, j), nodes[j]) {
      assert Maximal(ConfigOf(en, j), f.nodes[j]);
    }
  }

  lemma PerformKeepsField(en: Ensemble, f: Field, net: set<Message>, h: History, op: TestOp)
    returns (net': set<Message>, h': History)
    requires FieldInv(en, f, net, h) && Allowed(en, f, op)
    ensures FieldInv(en, Perform(en, f, op), net', h')
  {
    net', h' := net, h;
    assert net + {} == net;
    match op {
      case Call(i, e) => net', h' := AfterKeepsField(en, f, net, h, i, e);
      case Take(index) => net', h' := DeliveredKeepsField(en, f, net, h, index);
      case Shape(o) =>
        NetStep(f.net, o, net);
        NetKeepsField(en, f, net, h, ApplyNet(f.net, o));
      case Crash(i) =>
        NetStep(f.net, NetOp.Unregister(i), net);
        NetKeepsField(en, f, net, h, ApplyNet(f.net, NetOp.Unregister(i)));
      case Restart(i) =>
        RestartKeepsField(en, f, net, h, i);
        var g := f.(nodes := f.nodes[i := Recovered(Hard(f.nodes[i]), f.nodes[i].log)]);
        NetStep(g.net, NetOp.Register(i), net);
        NetKeepsField(en, g, net, h, ApplyNet(g.net, NetOp.Register(i)));
    }
  }

  lemma {:induction false} TestRunInv(en: Ensemble, fs: seq<Field>) returns (net: set<Message>, h: History)
    requires IsTestRun(en, fs)
    ensures FieldInv(en, fs[|fs| - 1], net, h)
    decreases |fs|
  {
    if |fs| == 1 {
      net, h := {}, NO_HISTORY;
      InitInv(en, Cluster(fs[0].nodes, {}));
    } else {
      var n := |fs| - 1;
      net, h := TestRunInv(en, fs[..n]);
      assert fs[..n][n - 1] == fs[n - 1];
      var before, last := fs[n - 1], fs[n];
      assert TestNext(en, before, last);
      var op: TestOp :| TestStep(en, before, last, op);
      net, h := PerformKeepsField(en, before, net, h, op);
    }
  }

  lemma ReachedInv(en: Ensemble, f: Field) returns (net: set<Message>, h: History)
    requires Reached(en, f)
    ensures FieldInv(en, f, net, h)
  {
    var fs: seq<Field> :| IsTestRun(en, fs) && fs[|fs| - 1] == f;
    net, h := TestRunInv(en, fs);
  }

  // ----- The same in every run of the cluster -----

  lemma {:induction false} AlwaysMaximal(en: Ensemble, run: seq<Cluster>, k: nat, x: NodeId)
    requires IsRun(en, run) && Member(en, run, k, x)
    ensures Maximal(ConfigOf(en, x), run[k].nodes[x])
    decreases k
  {
    hide Maximal, Handle, Inv;
    if k == 0 {
      FollowersAreMaximal(ConfigOf(en, x), FRESH);
    } else {
      assert Next(en, run[k - 1], run[k]);
      AlwaysMaximal(en, run, k - 1, x);
      StepKeepsMaximal(en, run, k, x);
    }
  }

  lemma FollowersAreMaximal(cfg: Config, s: Node)
    requires s.role != Leader
    ensures Maximal(cfg, s)
  {
  }

  lemma StepKeepsMaximal(en: Ensemble, run: seq<Cluster>, k: nat, x: NodeId)
    requires IsRun(en, run) && 0 < k && Member(en, run, k - 1, x) && Member(en, run, k, x)
    requires Maximal(ConfigOf(en, x), run[k - 1].nodes[x])
    ensures Maximal(ConfigOf(en, x), run[k].nodes[x])
  {
    hide Maximal, Handle, Inv, WellFormed;
    var c, c' := run[k - 1], run[k];
    assert Next(en, c, c');
    if i: NodeId :| RestartStep(en, c, c', i) {
      if i == x {
        FollowersAreMaximal(ConfigOf(en, x), c'.nodes[x]);
      }
    } else if c' != c {
      var i: NodeId, e: Event :| NodeStep(en, c, c', i, e);
      if i == x {
        GuardsNeverFire(en, run, k - 1, x, e);
        NodesStayWellFormed(en, run, k - 1, x);
        if Handle(ConfigOf(en, x), c.nodes[x], e).Done? {
          EventKeepsMaximal(ConfigOf(en, x), c.nodes[x], e);
        }
      }
    }
  }

  /** In any run a leader's commit index is exactly the newest entry of its term that it knows on a majority. */
  lemma CommitIsExact(en: Ensemble, run: seq<Cluster>, k: nat, x: NodeId, index: nat)
    requires IsRun(en, run) && Member(en, run, k, x) && Leads(run, k, x)
    requires run[k].nodes[x].commit < index && TermAt(run[k].nodes[x].log, index) == Some(run[k].nodes[x].term)
    ensures !Replicated(ConfigOf(en, x), run[k].nodes[x], index)
  {
    AlwaysMaximal(en, run, k, x);
  }
}
