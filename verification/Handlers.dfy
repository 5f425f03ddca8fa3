/** Whole handlers, built from the primitive steps: none throws on honest input, all keep the invariants. */
module Handlers {
  import opened RaftTypes
  import opened Logs
  import opened Protocol
  import opened Histories
  import opened NodeSteps

  /** A handler finished, and what it leaves and sends is covered by a later history. */
  ghost predicate Handled(en: Ensemble, h: History, h': History, i: NodeId, o: Outcome) {
    && o.Done? && StepOf(i, h, h')
    && Good(en, h', i, o.node) && AllMessages(en, h', i, o.fx.messages)
  }

  lemma BroadcastHandled(en: Ensemble, h: History, i: NodeId, s: Node, fx: Effects)
    requires Good(en, h, i, s) && s.role == Leader && AllMessages(en, h, i, fx.messages)
    ensures Handled(en, h, h, i, BroadcastAndCommit(ConfigOf(en, i), s, fx))
  {
    hide HistoryInv, NodeInv, MessageInv, Broadcast, AdvancedNode;
    AppendsSent(en, h, i, s, fx);
    CommitAdvanced(en, h, i, s);
  }

  lemma LeadershipHandled(en: Ensemble, h: History, i: NodeId, s: Node, fx: Effects) returns (h': History)
    requires Good(en, h, i, s) && s.role == Candidate && HasQuorum(ConfigOf(en, i), |s.votes|)
    requires AllMessages(en, h, i, fx.messages)
    ensures Handled(en, h, h', i, BecomeLeader(ConfigOf(en, i), s, fx))
  {
    h' := Won(en, h, i, s);
    SentLater(en, h, h', i, fx.messages);
    var a := AppendLocal(Crowned(ConfigOf(en, i), s), fx, LocalEntry(s, Noop, [], None));
    BroadcastHandled(en, h', i, a.node, a.fx);
  }

  lemma RequestsSent(en: Ensemble, h: History, i: NodeId, s: Node)
    requires Good(en, h, i, s) && Key(i, s.term) in h.candidacies && h.candidacies[Key(i, s.term)] == VersionOf(s.log)
    ensures AllMessages(en, h, i, VoteRequestsFor(ConfigOf(en, i), s, Peers(ConfigOf(en, i))))
  {
    hide HistoryInv, LeaderInv, CandidateInv, Committed, ValidLog, TermsBounded;
    var cfg := ConfigOf(en, i);
    var requests := VoteRequestsFor(cfg, s, Peers(cfg));
    forall m | m in requests ensures m.from == i && MessageInv(en, h, m) {
      var k :| 0 <= k < |requests| && requests[k] == m;
      assert Peers(cfg)[k] in Peers(cfg);
    }
  }

  lemma ElectionHandled(en: Ensemble, h: History, i: NodeId, s: Node) returns (h': History)
    requires Good(en, h, i, s)
    ensures Handled(en, h, h', i, StartElection(ConfigOf(en, i), s, NO_EFFECTS))
  {
    hide HistoryInv, MessageInv, BecomeLeader, StepOf, CandidateInv, Committed, ValidLog, TermsBounded, VoteRecorded;
    var cfg := ConfigOf(en, i);
    h' := Campaigned(en, h, i, s);
    var s' := Campaigning(cfg, s);
    var requests := VoteRequestsFor(cfg, s', Peers(cfg));
    RequestsSent(en, h', i, s');
    assert NO_EFFECTS.messages + requests == requests;
    if HasQuorum(cfg, |s'.votes|) {
      var asked := SaveHard(NO_EFFECTS, s').(messages := NO_EFFECTS.messages + requests);
      var h1 := LeadershipHandled(en, h', i, s', asked);
      StepTransitive(i, h, h', h1);
      h' := h1;
    }
  }

  lemma VoteRequestHandled(en: Ensemble, h: History, i: NodeId, s: Node, m: Message, fx: Effects) returns (h': History)
    requires Good(en, h, i, s) && MessageInv(en, h, m) && m.to == i && m.body.VoteRequest?
    requires AllMessages(en, h, i, fx.messages)
    ensures Handled(en, h, h', i, HandleVoteRequest(ConfigOf(en, i), s, m, fx))
  {
    h' := h;
    if WillGrant(s, m) {
      h' := Granted(en, h, i, s, m);
      SentLater(en, h, h', i, fx.messages);
    }
  }

  lemma VoteResponseHandled(en: Ensemble, h: History, i: NodeId, s: Node, m: Message, fx: Effects) returns (h': History)
    requires Good(en, h, i, s) && MessageInv(en, h, m) && m.to == i && m.body.VoteResponse?
    requires AllMessages(en, h, i, fx.messages)
    ensures Handled(en, h, h', i, HandleVoteResponse(ConfigOf(en, i), s, m, fx))
  {
    h' := h;
    if s.role == Candidate && m.term == s.term && m.body.granted {
      VoteCounted(en, h, i, s, m);
      var s' := s.(votes := s.votes + {m.from});
      if HasQuorum(ConfigOf(en, i), |s'.votes|) {
        h' := LeadershipHandled(en, h, i, s', fx);
      }
    }
  }

  lemma AppendRequestHandled(en: Ensemble, h: History, i: NodeId, s: Node, m: Message, fx: Effects) returns (h': History)
    requires Good(en, h, i, s) && MessageInv(en, h, m) && m.to == i && m.body.AppendRequest? && m.term <= s.term
    requires AllMessages(en, h, i, fx.messages)
    ensures Handled(en, h, h', i, HandleAppendRequest(ConfigOf(en, i), s, m, fx))
  {
    hide HistoryInv, Committed, ValidLog;
    h' := h;
    if m.term == s.term {
      Demoted(en, h, i, s, m.term, Some(m.from), fx);
      var b := BecomeFollower(s, m.term, Some(m.from), fx);
      if TermAt(b.node.log, m.body.prevLogIndex) == Some(m.body.prevLogTerm) {
        h' := Accepted(en, h, i, b.node, m, b.fx);
      }
    }
  }

  /** What a receiver holds after accepting a request, whichever of its terms the request brings. */
  lemma Accepting(cfg: Config, s: Node, m: Message)
    requires m.version == PROTOCOL_VERSION && m.cluster == cfg.cluster && m.from in cfg.members && m.to == cfg.self
    requires m.body.AppendRequest? && m.term >= s.term && TermAt(s.log, m.body.prevLogIndex) == Some(m.body.prevLogTerm)
    requires MergeEntries(s.log, s.commit, None, [], m.body.entries).Merged?
    ensures var o := Handle(cfg, s, Event.Deliver(m)); var merged := MergeEntries(s.log, s.commit, None, [], m.body.entries).log;
            && o.Done? && o.node.log == merged
            && (m.body.leaderCommit <= |merged| ==> o.node.commit == Max(s.commit, m.body.leaderCommit))
  {
  }

  lemma SuccessHandled(en: Ensemble, h: History, i: NodeId, s: Node, m: Message, fx: Effects)
    requires Good(en, h, i, s) && MessageInv(en, h, m) && m.to == i && m.body.AppendResponse? && m.term == s.term
    requires s.role == Leader && m.from in s.progress && m.body.success
    requires AllMessages(en, h, i, fx.messages)
    ensures Handled(en, h, h, i, HandleAppendResponse(ConfigOf(en, i), s, m, fx))
  {
    var cfg := ConfigOf(en, i);
    var g := Acknowledged(s.progress[m.from], m.body.matchIndex);
    var s1 := s.(progress := s.progress[m.from := g]);
    assert ProgressInv(h, m.from, s) && AckInv(h, Key(m.from, s.term));
    ProgressKept(en, h, i, s, m.from, g);
    CommitAdvanced(en, h, i, s1);
    var a := AdvanceLeaderCommit(cfg, s1, fx);
    FollowUpHandled(en, h, i, a.node, a.node.commit > s.commit, m.from, a.fx);
  }

  lemma FollowUpHandled(en: Ensemble, h: History, i: NodeId, s: Node, advanced: bool, p: NodeId, fx: Effects)
    requires Good(en, h, i, s) && s.role == Leader && p in s.progress && AllMessages(en, h, i, fx.messages)
    ensures Handled(en, h, h, i, FollowUp(ConfigOf(en, i), s, advanced, p, fx))
  {
    var cfg := ConfigOf(en, i);
    AppendsSent(en, h, i, s, fx);
    AppendSent(en, h, i, s, p);
    var b := if advanced then Broadcast(cfg, s, fx) else Done(s, fx);
    OneMore(en, h, i, b.fx, AppendFor(cfg, s, p));
    var o := FollowUp(cfg, s, advanced, p, fx);
    assert o == b || o == Done(s, SendOne(b.fx, AppendFor(cfg, s, p)));
    Unmoved(en, h, i, o);
  }

  lemma Unmoved(en: Ensemble, h: History, i: NodeId, o: Outcome)
    requires o.Done? && Good(en, h, i, o.node) && AllMessages(en, h, i, o.fx.messages)
    ensures Handled(en, h, h, i, o)
  {
  }

  lemma OneMore(en: Ensemble, h: History, i: NodeId, fx: Effects, m: Message)
    requires AllMessages(en, h, i, fx.messages) && m.from == i && MessageInv(en, h, m)
    ensures AllMessages(en, h, i, SendOne(fx, m).messages)
  {
  }

  lemma AppendResponseHandled(en: Ensemble, h: History, i: NodeId, s: Node, m: Message, fx: Effects)
    requires Good(en, h, i, s) && MessageInv(en, h, m) && m.to == i && m.body.AppendResponse? && m.term <= s.term
    requires AllMessages(en, h, i, fx.messages)
    ensures Handled(en, h, h, i, HandleAppendResponse(ConfigOf(en, i), s, m, fx))
  {
    if m.term == s.term && s.role == Leader && m.from in s.progress {
      if m.body.success {
        SuccessHandled(en, h, i, s, m, fx);
      } else {
        var g := BackedOff(s.progress[m.from], m.body.rejectHint);
        assert ProgressInv(h, m.from, s);
        ProgressKept(en, h, i, s, m.from, g);
        AppendSent(en, h, i, s.(progress := s.progress[m.from := g]), m.from);
      }
    }
  }

  lemma DispatchHandled(en: Ensemble, h: History, i: NodeId, s: Node, m: Message, fx: Effects) returns (h': History)
    requires Good(en, h, i, s) && MessageInv(en, h, m) && m.to == i && m.term <= s.term
    requires AllMessages(en, h, i, fx.messages)
    ensures Handled(en, h, h', i, Dispatch(ConfigOf(en, i), s, m, fx))
  {
    match m.body {
      case VoteRequest(_, _) => h' := VoteRequestHandled(en, h, i, s, m, fx);
      case VoteResponse(_) => h' := VoteResponseHandled(en, h, i, s, m, fx);
      case AppendRequest(_, _, _, _) => h' := AppendRequestHandled(en, h, i, s, m, fx);
      case AppendResponse(_, _, _) =>
        h' := h;
        AppendResponseHandled(en, h, i, s, m, fx);
    }
  }

  lemma MessageHandled(en: Ensemble, h: History, i: NodeId, s: Node, m: Message) returns (h': History)
    requires Good(en, h, i, s) && MessageInv(en, h, m) && m.to == i
    ensures Handled(en, h, h', i, HandleMessage(ConfigOf(en, i), s, m, NO_EFFECTS))
  {
    if m.term > s.term {
      Demoted(en, h, i, s, m.term, None, NO_EFFECTS);
      var b := BecomeFollower(s, m.term, None, NO_EFFECTS);
      h' := DispatchHandled(en, h, i, b.node, m, b.fx);
    } else {
      h' := DispatchHandled(en, h, i, s, m, NO_EFFECTS);
    }
  }

  lemma ProposeHandled(en: Ensemble, h: History, i: NodeId, s: Node, id: string, payload: seq<byte>) returns (h': History)
    requires Good(en, h, i, s)
    ensures var o := HandlePropose(ConfigOf(en, i), s, id, payload, NO_EFFECTS);
            if o.Done? then Handled(en, h, h', i, o) else o.node == s && o.error in {NotLeader, BadCommandId, PayloadTooLarge}
  {
    hide HistoryInv, NodeInv, CommitTarget, Broadcast;
    h' := h;
    if HandlePropose(ConfigOf(en, i), s, id, payload, NO_EFFECTS).Done? ||
       (s.role == Leader && 0 < |id| <= MAX_COMMAND_ID && |payload| <= en.maxBytes) {
      var e := LocalEntry(s, Command, payload, Some(id));
      h' := Proposed(en, h, i, s, e);
      var a := AppendLocal(s, NO_EFFECTS, e);
      BroadcastHandled(en, h', i, a.node, a.fx);
    }
  }

  /** An event a node of the cluster can meet. */
  ghost predicate HonestEvent(en: Ensemble, h: History, i: NodeId, e: Event) {
    e.Deliver? ==> MessageInv(en, h, e.message) && e.message.to == i
  }

  predicate ClientError(e: Error) {
    e == NotLeader || e == BadCommandId || e == PayloadTooLarge
  }

  /** Every event keeps the invariants; the only throws are refusals of a proposal, which change nothing. */
  lemma EventHandled(en: Ensemble, h: History, i: NodeId, s: Node, e: Event) returns (h': History)
    requires Good(en, h, i, s) && HonestEvent(en, h, i, e)
    ensures var o := Handle(ConfigOf(en, i), s, e);
            if o.Done? then Handled(en, h, h', i, o)
            else h' == h && e.Propose? && o.node == s && ClientError(o.error)
  {
    h' := h;
    match e {
      case ElectionTimeout =>
        if s.role != Leader {
          h' := ElectionHandled(en, h, i, s);
        }
      case HeartbeatTimeout =>
        if s.role == Leader {
          AppendsSent(en, h, i, s, NO_EFFECTS);
        }
      case Deliver(m) => h' := MessageHandled(en, h, i, s, m);
      case Propose(id, payload) =>
        if Handle(ConfigOf(en, i), s, e).Done? {
          h' := ProposeHandled(en, h, i, s, id, payload);
        } else {
          var h1 := ProposeHandled(en, h, i, s, id, payload);
        }
    }
  }

  /** A restart forgets everything volatile and keeps the invariants. */
  lemma Restarted(en: Ensemble, h: History, i: NodeId, s: Node)
    requires Good(en, h, i, s)
    ensures NodeInv(en, h, i, Recovered(Hard(s), s.log))
  {
  }
}
