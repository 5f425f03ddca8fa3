/**
 A proposal to the one leader of a whole network: whatever the order of deliveries, every log ends with
 the proposed bytes, committed, and every machine has applied them.
 */
module Proposals {
  import opened RaftTypes
  import opened Logs
  import opened Protocol
  import opened Quorums
  import opened NodeFacts
  import opened Networks
  import opened Histories
  import opened NodeSteps
  import opened Clusters
  import opened Runtime
  import opened Machines
  import opened Fields
  import opened Convergence
  import opened Settlements
  import opened Quiescence
  import opened Origins

  /** With peers to wait for, a new entry commits nothing yet. */
  lemma NotCountedYet(cfg: Config, s: Node, e: Entry, p: NodeId)
    requires ValidConfig(cfg) && p in cfg.members && p != cfg.self && s.commit <= |s.log| && Maximal(cfg, s)
    requires s.role == Leader && forall q :: q in s.progress ==> s.progress[q].matched <= |s.log|
    ensures AdvancedNode(cfg, s.(log := s.log + [e])) == s.(log := s.log + [e])
  {
    var t, n := s.(log := s.log + [e]), |s.log|;
    assert MatchedPeers(t, n + 1) == {};
    NotAlone(cfg, p);
    assert CommitTarget(cfg, s, n) == s.commit;
    forall k | s.commit < k <= n && TermAt(t.log, k) == Some(t.term) ensures !Replicated(cfg, t, k) {
      assert MatchedPeers(t, k) == MatchedPeers(s, k) && TermAt(t.log, k) == TermAt(s.log, k);
    }
  }

  lemma NotAlone(cfg: Config, p: NodeId)
    requires ValidConfig(cfg) && p in cfg.members && p != cfg.self
    ensures !HasQuorum(cfg, 1)
  {
    assert Elements(cfg.members) >= {p, cfg.self} && |{p, cfg.self}| == 2;
    Subset({p, cfg.self}, Elements(cfg.members));
    DistinctCount(cfg.members);
  }

  /** A leader's book-keeping never runs ahead of its own log. */
  lemma MatchedInLog(en: Ensemble, h: History, x: NodeId, s: Node)
    requires Good(en, h, x, s) && s.role == Leader
    ensures forall q :: q in s.progress ==> s.progress[q].matched <= |s.log|
  {
    forall q | q in s.progress ensures s.progress[q].matched <= |s.log| {
      assert ProgressInv(h, q, s);
      if s.progress[q].matched > 0 {
        assert AckInv(h, Key(q, s.term));
      }
    }
  }

  lemma ProposalShape(cfg: Config, s: Node, id: string, payload: seq<byte>)
    requires s.role == Leader && WithinLimits(cfg, id, payload) && forall p :: p in Peers(cfg) ==> p in s.progress
    ensures var e := ProposedEntry(s, id, payload); var t := s.(log := s.log + [e]);
            var o := Handle(cfg, s, Propose(id, payload));
            o.Done? && o.node == AdvancedNode(cfg, t) && o.fx.messages == AppendsFor(cfg, t, Peers(cfg))
  {
    hide CommitTarget, Suffix, TermOr0, AppendsFor;
    var t := s.(log := s.log + [ProposedEntry(s, id, payload)]);
    assert [] + AppendsFor(cfg, t, Peers(cfg)) == AppendsFor(cfg, t, Peers(cfg));
  }

  /** The proposal sets the leader after every peer. */
  lemma ProposalSettles(en: Ensemble, f: Field, net: set<Message>, h: History, x: NodeId, id: string, payload: seq<byte>)
    requires FieldInv(en, f, net, h) && Calm(en, f, x) && WithinLimits(ConfigOf(en, x), id, payload)
    ensures var s, g := f.nodes[x], After(en, f, x, Propose(id, payload));
            && Settling(en, g, x) && g.nodes[x].role == Leader && g.nodes[x].term == s.term
            && g.nodes[x].log == s.log + [ProposedEntry(s, id, payload)]
  {
    hide HistoryInv, CommitTarget, BodyInv, NetworkInv, Carries, Chased, Informed, Handle, AppendFor, AppendsFor;
    hide ValidLog, Committed, TermsBounded, VoteRecorded, CandidateInv, Replicated, ProgressInv;
    var s, cfg, e := f.nodes[x], ConfigOf(en, x), Propose(id, payload);
    assert NodeInv(en, h, x, s) && Maximal(cfg, s);
    MembersDistinct(en, f, net, h);
    ProposalShape(cfg, s, id, payload);
    MatchedInLog(en, h, x, s);
    var t := s.(log := s.log + [ProposedEntry(s, id, payload)]);
    var o := Handle(cfg, s, e);
    EventStamped(cfg, s, e);
    EnqueuedInFlight(f.net, o.fx.messages);
    EnqueuedFrame(f.net, o.fx.messages);
    var g := After(en, f, x, e);
    forall p | p in en.members && p != x ensures Followed(g, x, p) {
      NotCountedYet(cfg, s, ProposedEntry(s, id, payload), p);
      AskedEach(cfg, t, p);
      RequestPursues(cfg, t, p, g.nodes[p], InFlight(g.net));
    }
  }

  lemma AskedEach(cfg: Config, s: Node, p: NodeId)
    requires p in cfg.members && p != cfg.self && forall q :: q in Peers(cfg) ==> q in s.progress
    ensures AppendFor(cfg, s, p) in AppendsFor(cfg, s, Peers(cfg))
  {
    hide AppendFor;
    var peers := Peers(cfg);
    assert p in peers;
    var k :| 0 <= k < |peers| && peers[k] == p;
    assert AppendsFor(cfg, s, peers)[k] == AppendFor(cfg, s, p);
  }

  predicate LeadsWith(f: Field, x: NodeId, log: seq<Entry>) {
    x in f.nodes && f.nodes[x].role == Leader && f.nodes[x].log == log
  }

  /**
   From any scenario with one leader as new as everything else and all reachable, a proposal within the
   limits and any order of deliveries end, after finitely many, with the proposed bytes as the last entry
   of every log and all of it committed.
   */
  lemma ProposalCommits(en: Ensemble, f: Field, x: NodeId, id: string, payload: seq<byte>, pick: nat -> nat) returns (n: nat)
    requires Reached(en, f) && Calm(en, f, x) && WithinLimits(ConfigOf(en, x), id, payload)
    ensures var g := Drained(en, After(en, f, x, Propose(id, payload)), pick, 0, n);
            g.net.queue == [] && Converged(en, g, x) && LeadsWith(g, x, f.nodes[x].log + [ProposedEntry(f.nodes[x], id, payload)])
  {
    hide FieldInv, Drained, After, Converged, Calm;
    var net, h := ReachedInv(en, f);
    n := ProposalDrains(en, f, net, h, x, id, payload, pick);
  }

  lemma ProposalDrains(en: Ensemble, f: Field, net: set<Message>, h: History, x: NodeId, id: string, payload: seq<byte>,
                       pick: nat -> nat)
    returns (n: nat)
    requires FieldInv(en, f, net, h) && Calm(en, f, x) && WithinLimits(ConfigOf(en, x), id, payload)
    ensures var g := Drained(en, After(en, f, x, Propose(id, payload)), pick, 0, n);
            g.net.queue == [] && Converged(en, g, x) && LeadsWith(g, x, f.nodes[x].log + [ProposedEntry(f.nodes[x], id, payload)])
  {
    hide FieldInv, Drained, After, Converged, Settling;
    n := DrainsAfter(en, f, net, h, x, Propose(id, payload), pick);
    ProposalSettles(en, f, net, h, x, id, payload);
    var net', h' := AfterKeepsField(en, f, net, h, x, Propose(id, payload));
    DrainedIsConverged(en, After(en, f, x, Propose(id, payload)), net', h', x, pick, 0, n);
  }

  /** One more command is one more apply. */
  lemma OneMoreApplied<M>(app: App<M>, log: seq<Entry>, e: Entry, machine: M)
    requires Fold(app, app.init, log) == Some(machine) && e.kind == Command && e.commandId.Some?
    ensures Fold(app, app.init, log + [e]) == app.apply(machine, e)
    ensures Applied(app.apply, app.init, Commands(log + [e])) == app.apply(machine, e)
  {
    FoldIsApplied(app, app.init, log);
    CommandsAppend(log, e);
    AppliedAppend(app.apply, app.init, Commands(log), e);
    assert AllNamed(log) && Named(e);
    FoldIsApplied(app, app.init, log + [e]);
  }

  /**
   The same of the runtime: from any moment of any small-step run at which every member is up and idle and
   the leader is as new as everything else, a proposal its application accepts, and any order of
   deliveries, continue the run to a state in which every store holds the proposed bytes as its last
   committed entry, and every machine is what apply makes of it.
   */
  lemma RuntimeProposal<M>(en: Ensemble, app: App<M>, srun: seq<System<M>>, x: NodeId, id: string, payload: seq<byte>,
                           machine: M, pick: nat -> nat)
    returns (n: nat, run: seq<System<M>>)
    requires IsSysRun(en, app, srun) && AllReady(en, Last(srun)) && Calm(en, View(en, Last(srun)), x)
    requires WithinLimits(ConfigOf(en, x), id, payload)
    requires var s := View(en, Last(srun)).nodes[x];
             && Fold(app, app.init, s.log) == Some(machine) && app.apply(machine, ProposedEntry(s, id, payload)).Some?
    ensures IsSysRun(en, app, run) && srun <= run && Last(run).net.queue == []
    ensures var s := View(en, Last(srun)).nodes[x]; var e := ProposedEntry(s, id, payload);
            && Replicas(en, app, Last(run), s.log + [e])
            && forall p :: p in en.members ==> ReplicaAt(app, Last(run), s.log + [e], p)
                                               && Some(Last(run).procs[p].live.machine) == app.apply(machine, e)
  {
    hide FieldInv, SysNext, SysInit, View, AllReady, Settled, AllAccept, Fold, Applied, Commands;
    var net, h := ReadyIsSettled(en, app, srun);
    var f := View(en, Last(srun));
    n, run := ProposeAndDrain(en, app, srun, f, net, h, x, id, payload, machine, pick);
    OneMoreApplied(app, f.nodes[x].log, ProposedEntry(f.nodes[x], id, payload), machine);
  }

  lemma ProposeAndDrain<M>(en: Ensemble, app: App<M>, run: seq<System<M>>, f: Field, net: set<Message>, h: History,
                           x: NodeId, id: string, payload: seq<byte>, machine: M, pick: nat -> nat)
    returns (n: nat, run': seq<System<M>>)
    requires IsSysRun(en, app, run) && Settled(en, app, Last(run), f) && FieldInv(en, f, net, h)
    requires Calm(en, f, x) && WithinLimits(ConfigOf(en, x), id, payload)
    requires var s := f.nodes[x];
             && Fold(app, app.init, s.log) == Some(machine) && app.apply(machine, ProposedEntry(s, id, payload)).Some?
    ensures IsSysRun(en, app, run') && run <= run' && Last(run').net.queue == []
    ensures Replicas(en, app, Last(run'), f.nodes[x].log + [ProposedEntry(f.nodes[x], id, payload)])
  {
    hide FieldInv, Drained, AllAccept, After, Converged, SysNext, SysInit, Replicas, Fold, Applied, Commands;
    n := ProposalDrains(en, f, net, h, x, id, payload, pick);
    OneMoreApplied(app, f.nodes[x].log, ProposedEntry(f.nodes[x], id, payload), machine);
    var g := Drained(en, After(en, f, x, Propose(id, payload)), pick, 0, n);
    ConvergedAccepts(en, app, g, x);
    run' := EventDrainRealised(en, app, run, f, net, h, x, Propose(id, payload), pick, n);
    ConvergedReplicas(en, app, Last(run'), g, x);
  }
}
