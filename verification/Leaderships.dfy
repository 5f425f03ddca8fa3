/** How a node comes to lead, what it does first, whom the others take for the leader, and when anything is saved. */
module Leaderships {
  import opened RaftTypes
  import opened Logs
  import opened Protocol
  import opened NodeFacts
  import opened Histories
  import opened Clusters
  import opened SafetyTheorems

  // ----- Timeouts -----

  /** Nothing happens at a leader's election timeout, nor at anyone else's heartbeat timeout. */
  lemma IdleTimeouts(cfg: Config, s: Node)
    ensures s.role == Leader ==> Handle(cfg, s, ElectionTimeout) == Done(s, NO_EFFECTS)
    ensures s.role != Leader ==> Handle(cfg, s, HeartbeatTimeout) == Done(s, NO_EFFECTS)
  {
    hide BecomeLeader, Broadcast;
  }

  /**
   A leader's heartbeat changes nothing, and asks every peer in member order to follow from the index its
   book-keeping says: with the term before it, everything after it, and the leader's commit index.
   */
  lemma HeartbeatAsks(cfg: Config, s: Node)
    requires WellFormed(cfg, s) && s.role == Leader
    requires forall p :: p in Peers(cfg) ==> s.progress[p].next <= |s.log| + 1
    ensures var o := Handle(cfg, s, HeartbeatTimeout);
            && o.Done? && o.node == s && o.fx.hardState == None && o.fx.truncateFrom == None && o.fx.entries == []
            && |o.fx.messages| == |Peers(cfg)|
            && forall k :: 0 <= k < |Peers(cfg)| ==>
                             var p := Peers(cfg)[k];
                             var prev := s.progress[p].next - 1;
                             o.fx.messages[k] == Message(1, cfg.cluster, cfg.self, p, s.term,
                                                         AppendRequest(prev, if prev == 0 then 0 else s.log[prev - 1].term,
                                                                       s.log[prev..], s.commit))
  {
    hide Peers, AppendFor, Contiguous;
    assert [] + AppendsFor(cfg, s, Peers(cfg)) == AppendsFor(cfg, s, Peers(cfg));
    forall p | p in Peers(cfg)
      ensures var prev := s.progress[p].next - 1;
              AppendFor(cfg, s, p) == Message(1, cfg.cluster, cfg.self, p, s.term,
                                              AppendRequest(prev, if prev == 0 then 0 else s.log[prev - 1].term,
                                                            s.log[prev..], s.commit))
    {
      RequestCarries(cfg, s, p);
    }
  }

  lemma RequestCarries(cfg: Config, s: Node, p: NodeId)
    requires p in s.progress && s.progress[p].next <= |s.log| + 1
    ensures var prev := s.progress[p].next - 1;
            AppendFor(cfg, s, p) == Message(1, cfg.cluster, cfg.self, p, s.term,
                                            AppendRequest(prev, if prev == 0 then 0 else s.log[prev - 1].term,
                                                          s.log[prev..], s.commit))
  {
    assert s.log[|s.log|..] == [];
  }

  /** A campaign with peers to ask saves the new term and the own vote, and asks every peer on the strength of the own log. */
  lemma CampaignAsks(cfg: Config, s: Node)
    requires s.role != Leader && !HasQuorum(cfg, 1)
    ensures var o := Handle(cfg, s, ElectionTimeout);
            && o.Done? && o.node == s.(role := Candidate, leaderId := None, term := s.term + 1, votedFor := Some(cfg.self),
                                       votes := {cfg.self})
            && o.fx.hardState == Some(HardState(s.term + 1, Some(cfg.self), s.commit)) && o.fx.entries == []
            && |o.fx.messages| == |Peers(cfg)|
            && forall k :: 0 <= k < |Peers(cfg)| ==>
                             o.fx.messages[k] == Message(1, cfg.cluster, cfg.self, Peers(cfg)[k], s.term + 1,
                                                         VoteRequest(|s.log|, LastTerm(s.log)))
  {
    hide BecomeLeader;
    assert |{cfg.self}| == 1;
    var t := Campaigning(cfg, s);
    assert [] + VoteRequestsFor(cfg, t, Peers(cfg)) == VoteRequestsFor(cfg, t, Peers(cfg));
  }

  /**
   The vote that completes the majority makes a leader: it appends a no-op of its term, and asks every peer
   to follow its log from there on, with everything before it verified.
   */
  lemma VictoryOpens(cfg: Config, s: Node, m: Message)
    requires WellFormed(cfg, s) && s.role == Candidate && m.term == s.term && m.body == VoteResponse(true)
    requires m.version == 1 && m.cluster == cfg.cluster && m.to == cfg.self && m.from in cfg.members
    requires |s.votes + {m.from}| >= Majority(cfg.members)
    ensures var o := Handle(cfg, s, Event.Deliver(m)); var noop := Entry(|s.log| + 1, s.term, Noop, [], None);
            && o.Done? && o.node.role == Leader && o.node.leaderId == Some(cfg.self) && o.node.term == s.term
            && o.node.log == s.log + [noop] && o.fx.entries == [noop]
            && (forall p :: p in Peers(cfg) ==> p in o.node.progress && o.node.progress[p] == Progress(|s.log| + 1, 0))
            && |o.fx.messages| == |Peers(cfg)|
            && forall k :: 0 <= k < |Peers(cfg)| ==>
                             o.fx.messages[k] == Message(1, cfg.cluster, cfg.self, Peers(cfg)[k], s.term,
                                                         AppendRequest(|s.log|, LastTerm(s.log), [noop], s.commit))
  {
    hide BecomeLeader;
    var won := s.(votes := s.votes + {m.from});
    assert Handle(cfg, s, Event.Deliver(m)) == BecomeLeader(cfg, won, NO_EFFECTS);
    OpeningRequests(cfg, won);
  }

  lemma OpeningRequests(cfg: Config, s: Node)
    requires WellFormed(cfg, s)
    ensures var o := BecomeLeader(cfg, s, NO_EFFECTS); var noop := Entry(|s.log| + 1, s.term, Noop, [], None);
            && o.Done? && o.node == Crowned(cfg, s).(log := s.log + [noop], commit := o.node.commit) && o.fx.entries == [noop]
            && |o.fx.messages| == |Peers(cfg)|
            && forall k :: 0 <= k < |Peers(cfg)| ==>
                             o.fx.messages[k] == Message(1, cfg.cluster, cfg.self, Peers(cfg)[k], s.term,
                                                         AppendRequest(|s.log|, LastTerm(s.log), [noop], s.commit))
  {
    hide CommitTarget, BecomeLeader, AppendFor;
    var noop := Entry(|s.log| + 1, s.term, Noop, [], None);
    var t := Crowned(cfg, s).(log := s.log + [noop]);
    Opens(cfg, s, t, noop);
    forall p | p in Peers(cfg)
      ensures AppendFor(cfg, t, p) == Message(1, cfg.cluster, cfg.self, p, s.term,
                                              AppendRequest(|s.log|, LastTerm(s.log), [noop], s.commit))
    {
      OpeningRequest(cfg, t, p, s.log, noop);
    }
  }

  lemma Opens(cfg: Config, s: Node, t: Node, noop: Entry)
    requires noop == Entry(|s.log| + 1, s.term, Noop, [], None) && t == Crowned(cfg, s).(log := s.log + [noop])
    ensures var o := BecomeLeader(cfg, s, NO_EFFECTS);
            && o.Done? && o.node == t.(commit := o.node.commit) && o.fx.entries == [noop]
            && o.fx.messages == AppendsFor(cfg, t, Peers(cfg))
  {
    hide CommitTarget, AppendsFor;
    assert [] + [noop] == [noop];
    assert [] + AppendsFor(cfg, t, Peers(cfg)) == AppendsFor(cfg, t, Peers(cfg));
  }

  lemma OpeningRequest(cfg: Config, t: Node, p: NodeId, log: seq<Entry>, noop: Entry)
    requires p in t.progress && t.progress[p].next == |log| + 1 && t.log == log + [noop]
    ensures AppendFor(cfg, t, p) == Message(1, cfg.cluster, cfg.self, p, t.term,
                                            AppendRequest(|log|, LastTerm(log), [noop], t.commit))
  {
    assert t.log[|log|..] == [noop];
    assert log != [] ==> t.log[|log| - 1] == log[|log| - 1];
  }

  // ----- Who leads -----

  /** Whoever takes a request that is not stale follows its sender. */
  lemma RequestNamesLeader(cfg: Config, s: Node, m: Message)
    requires m.body.AppendRequest? && m.term >= s.term && Handle(cfg, s, Event.Deliver(m)).Done?
    ensures var o := Handle(cfg, s, Event.Deliver(m));
            o.node.role == Follower && o.node.leaderId == Some(m.from) && o.node.term == m.term
  {
    hide MergeEntries;
  }

  /** Whom a node takes for the leader, it took before in this term, heard from now, or became. */
  lemma LeaderIdFrom(cfg: Config, s: Node, e: Event, y: NodeId)
    requires Handle(cfg, s, e).node.leaderId == Some(y)
    ensures var t := Handle(cfg, s, e).node;
            || (s.leaderId == Some(y) && t.term == s.term)
            || (t.role == Leader && y == cfg.self)
            || (e.Deliver? && e.message.body.AppendRequest? && e.message.from == y && e.message.term == t.term)
  {
    hide BecomeLeader, HandleAppendResponse, MergeEntries, AppendsFor, CommitTarget;
    match e {
      case ElectionTimeout => LeadsFrom(cfg, Campaigning(cfg, s), SaveHard(NO_EFFECTS, Campaigning(cfg, s)).(
                                messages := NO_EFFECTS.messages + VoteRequestsFor(cfg, Campaigning(cfg, s), Peers(cfg))));
      case Deliver(m) => MessageLeaderId(cfg, s, m, y);
      case _ =>
    }
  }

  lemma MessageLeaderId(cfg: Config, s: Node, m: Message, y: NodeId)
    requires HandleMessage(cfg, s, m, NO_EFFECTS).node.leaderId == Some(y)
    ensures var t := HandleMessage(cfg, s, m, NO_EFFECTS).node;
            || (s.leaderId == Some(y) && t.term == s.term)
            || (t.role == Leader && y == cfg.self)
            || (m.body.AppendRequest? && m.from == y && m.term == t.term)
  {
    hide BecomeLeader, HandleAppendResponse, MergeEntries;
    var b := if m.term > s.term then BecomeFollower(s, m.term, None, NO_EFFECTS) else Done(s, NO_EFFECTS);
    match m.body {
      case VoteResponse(_) => LeadsFrom(cfg, b.node.(votes := b.node.votes + {m.from}), b.fx);
      case AppendResponse(_, _, _) => ResponseSaves(cfg, b.node, m, b.fx);
      case _ =>
    }
  }

  /** A new leader takes itself for the leader, and saves only a commit index that moved. */
  lemma LeadsFrom(cfg: Config, s: Node, fx: Effects)
    ensures var o := BecomeLeader(cfg, s, fx);
            && o.node.leaderId == Some(cfg.self) && o.node.role == Leader
            && o.node.term == s.term && o.node.votedFor == s.votedFor
            && (o.Done? ==> (o.fx.hardState.Some? <==> fx.hardState.Some? || o.node.commit != s.commit))
            && (o.Done? ==> NoneGranted(fx.messages, o.fx.messages))
  {
    hide CommitTarget, Suffix, TermOr0;
  }

  lemma ResponseSaves(cfg: Config, s: Node, m: Message, fx: Effects)
    requires m.body.AppendResponse?
    ensures var o := HandleAppendResponse(cfg, s, m, fx);
            && o.node.leaderId == s.leaderId && o.node.role == s.role
            && o.node.term == s.term && o.node.votedFor == s.votedFor
            && (o.Done? ==> (o.fx.hardState.Some? <==> fx.hardState.Some? || o.node.commit != s.commit))
            && (o.Done? ==> NoneGranted(fx.messages, o.fx.messages))
  {
    hide CommitTarget, Suffix, TermOr0;
  }

  /** No vote is among the messages added. */
  ghost predicate NoneGranted(before: seq<Message>, after: seq<Message>) {
    forall m :: m in after && m.body == VoteResponse(true) ==> m in before
  }

  /** Node y leads term t in state i. */
  ghost predicate LedAt(run: seq<Cluster>, i: nat, y: NodeId, t: nat) {
    Leads(run, i, y) && run[i].nodes[y].term == t
  }

  /** Whomever a node of a run takes for the leader did lead the node's term, at that moment or before. */
  lemma {:induction false} KnownLeaderLed(en: Ensemble, run: seq<Cluster>, k: nat, x: NodeId, y: NodeId) returns (i: nat)
    requires IsRun(en, run) && Member(en, run, k, x) && run[k].nodes[x].leaderId == Some(y)
    ensures i <= k && LedAt(run, i, y, run[k].nodes[x].term)
    decreases k
  {
    hide Handle;
    if k == 0 {
      assert false;
    } else {
      var c, c' := run[k - 1], run[k];
      assert Next(en, c, c');
      MemberBefore(en, run, k, x);
      if c.nodes[x].leaderId == Some(y) && c.nodes[x].term == c'.nodes[x].term {
        i := KnownLeaderLed(en, run, k - 1, x, y);
      } else if LedAt(run, k, y, c'.nodes[x].term) {
        i := k;
      } else {
        var e: Event :| NodeStep(en, c, c', x, e);
        LeaderIdFrom(ConfigOf(en, x), c.nodes[x], e, y);
        i := RequestOrigin(en, run, k - 1, e.message);
      }
    }
  }

  lemma MemberBefore(en: Ensemble, run: seq<Cluster>, k: nat, x: NodeId)
    requires IsRun(en, run) && 0 < k && Member(en, run, k, x)
    ensures Member(en, run, k - 1, x)
  {
    var hs := RunInv(en, run);
    assert Inv(en, run[k - 1], hs[k - 1]);
  }

  // ----- What is saved -----

  ghost predicate Saves(s: Node, o: Outcome) {
    o.Done? ==> (o.fx.hardState.Some? <==>
                   || o.node.term != s.term || o.node.votedFor != s.votedFor || o.node.commit != s.commit
                   || exists m :: m in o.fx.messages && m.body == VoteResponse(true))
  }

  /** A step gives term, vote and commit index to save exactly when one of them moved or a vote was given. */
  lemma SavedExactly(cfg: Config, s: Node, e: Event)
    requires WellFormed(cfg, s)
    ensures Saves(s, Handle(cfg, s, e))
  {
    hide BecomeLeader, HandleAppendResponse, MergeEntries, AppendsFor, CommitTarget, Suffix, TermOr0;
    match e {
      case ElectionTimeout => LeadsFrom(cfg, Campaigning(cfg, s), SaveHard(NO_EFFECTS, Campaigning(cfg, s)).(
                                messages := NO_EFFECTS.messages + VoteRequestsFor(cfg, Campaigning(cfg, s), Peers(cfg))));
      case HeartbeatTimeout =>
      case Deliver(m) => MessageSaves(cfg, s, m);
      case Propose(_, _) =>
    }
  }

  lemma MessageSaves(cfg: Config, s: Node, m: Message)
    ensures Saves(s, HandleMessage(cfg, s, m, NO_EFFECTS))
  {
    hide BecomeLeader, HandleAppendResponse, MergeEntries;
    var b := if m.term > s.term then BecomeFollower(s, m.term, None, NO_EFFECTS) else Done(s, NO_EFFECTS);
    match m.body {
      case VoteResponse(_) => LeadsFrom(cfg, b.node.(votes := b.node.votes + {m.from}), b.fx);
      case AppendResponse(_, _, _) => ResponseSaves(cfg, b.node, m, b.fx);
      case AppendRequest(_, _, _, _) =>
      case VoteRequest(_, _) => VoteSaves(cfg, b.node, m, b.fx);
    }
  }

  lemma VoteSaves(cfg: Config, s: Node, m: Message, fx: Effects)
    requires m.body.VoteRequest? && fx.messages == []
    ensures var o := HandleVoteRequest(cfg, s, m, fx);
            && (exists r :: r in o.fx.messages && r.body == VoteResponse(true)) == WillGrant(s, m)
            && (o.fx.hardState.Some? <==> fx.hardState.Some? || WillGrant(s, m))
  {
    var r := Envelope(cfg, s, m.from, VoteResponse(WillGrant(s, m)));
    assert r in HandleVoteRequest(cfg, s, m, fx).fx.messages;
  }
}
