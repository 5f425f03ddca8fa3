/** What one honest delivery can do to its receiver, and the one message it may lead to. */
module Deliveries {
  import opened RaftTypes
  import opened Logs
  import opened Protocol
  import opened Histories
  import opened NodeSteps
  import opened Handlers

  function EndOf(m: Message): nat
    requires m.body.AppendRequest?
  {
    m.body.prevLogIndex + |m.body.entries|
  }

  /** A term, an election, or a commit index moved. */
  predicate Progressed(s: Node, s': Node) {
    s'.term > s.term || (s.role == Candidate && s'.role != Candidate) || s'.commit > s.commit
  }

  /** The leader's request that covers the rest of its log. */
  predicate IsWholeRequest(s: Node, r: Message) {
    r.body.AppendRequest? && r.term == s.term && EndOf(r) == |s.log|
  }

  /** How a reply relates to the message that caused it, when nothing progressed. */
  predicate FollowsFrom(s: Node, m: Message, r: Message) {
    && r.from == m.to && r.to == m.from
    && match m.body
       case VoteRequest(_, _) => r.body.VoteResponse?
       case VoteResponse(_) => false
       case AppendRequest(prev, _, _, _) =>
         r.body.AppendResponse? &&
         if m.term < r.term then !r.body.success && r.body.rejectHint <= |s.log| + 1
         else r.term == m.term && if r.body.success then r.body.matchIndex == EndOf(m) else r.body.rejectHint <= prev
       case AppendResponse(success, index, hint) =>
         && s.role == Leader && m.term == s.term && IsWholeRequest(s, r)
         && (if success then index < |s.log| && r.body.prevLogIndex < |s.log| else r.body.prevLogIndex + 1 <= hint)
  }

  /** Nothing progressed: roles stand, a leader's log stands, and at most one message answers. */
  ghost predicate Quiet(s: Node, m: Message, o: Outcome)
    requires o.Done?
  {
    && o.node.role == s.role && o.node.term == s.term && o.node.commit == s.commit
    && (s.role == Leader ==> o.node.log == s.log)
    && |o.fx.messages| <= 1
    && (forall r :: r in o.fx.messages ==> FollowsFrom(s, m, r))
  }

  ghost predicate DeliveryShape(s: Node, m: Message, o: Outcome) {
    && o.Done? && o.node.term == Max(s.term, m.term) && s.commit <= o.node.commit
    && (!Progressed(s, o.node) ==> Quiet(s, m, o))
    && (s.role == Leader && o.node.term == s.term ==> o.node.role == Leader && o.node.log == s.log)
    && (o.node.role == Candidate ==> s.role == Candidate && o.node.term == s.term)
  }

  lemma VoteRequestShape(en: Ensemble, h: History, i: NodeId, s: Node, m: Message, fx: Effects)
    requires Good(en, h, i, s) && MessageInv(en, h, m) && m.to == i && m.term <= s.term && m.body.VoteRequest?
    requires fx.messages == []
    ensures DeliveryShape(s, m, HandleVoteRequest(ConfigOf(en, i), s, m, fx))
  {
  }

  lemma VoteResponseShape(en: Ensemble, h: History, i: NodeId, s: Node, m: Message, fx: Effects)
    requires Good(en, h, i, s) && MessageInv(en, h, m) && m.to == i && m.term <= s.term && m.body.VoteResponse?
    requires fx.messages == []
    ensures DeliveryShape(s, m, HandleVoteResponse(ConfigOf(en, i), s, m, fx))
  {
    if s.role == Candidate && m.term == s.term && m.body.granted {
      var s1 := s.(votes := s.votes + {m.from});
      LeaderShape(ConfigOf(en, i), s1, fx);
    }
  }

  lemma LeaderShape(cfg: Config, s: Node, fx: Effects)
    ensures var o := BecomeLeader(cfg, s, fx);
            o.Done? && o.node.term == s.term && s.commit <= o.node.commit && o.node.role == Leader
            && o.node.log == s.log + [LocalEntry(s, Noop, [], None)]
  {
  }

  /** A leader meets no request of its own term. */
  lemma NoRivalRequest(en: Ensemble, h: History, i: NodeId, s: Node, m: Message)
    requires Good(en, h, i, s) && MessageInv(en, h, m) && m.to == i && m.body.AppendRequest? && m.term == s.term
    ensures s.role != Leader
  {
  }

  lemma AppendRequestShape(en: Ensemble, h: History, i: NodeId, s: Node, m: Message, fx: Effects)
    requires Good(en, h, i, s) && MessageInv(en, h, m) && m.to == i && m.term <= s.term && m.body.AppendRequest?
    requires fx.messages == []
    ensures DeliveryShape(s, m, HandleAppendRequest(ConfigOf(en, i), s, m, fx))
  {
    if m.term == s.term {
      NoRivalRequest(en, h, i, s, m);
      Demoted(en, h, i, s, m.term, Some(m.from), fx);
      var b := BecomeFollower(s, m.term, Some(m.from), fx);
      if TermAt(b.node.log, m.body.prevLogIndex) == Some(m.body.prevLogTerm) {
        MergeOutcome(en, h, i, b.node, m);
        AcceptShape(ConfigOf(en, i), s, b.node, m, MergeEntries(b.node.log, b.node.commit, None, [], m.body.entries), b.fx);
      }
    }
  }

  lemma AcceptShape(cfg: Config, s: Node, b: Node, m: Message, merge: Merge, fx: Effects)
    requires m.body.AppendRequest? && merge.Merged? && PayloadEnd(m.body) == EndOf(m) && s.role != Leader
    requires b.term == s.term == m.term && b.commit == s.commit <= |merge.log| && b.role == Follower && fx.messages == []
    requires m.to == cfg.self
    ensures DeliveryShape(s, m, FinishAppend(cfg, b, m, merge, fx))
  {
  }

  lemma AppendResponseShape(en: Ensemble, h: History, i: NodeId, s: Node, m: Message, fx: Effects)
    requires Good(en, h, i, s) && MessageInv(en, h, m) && m.to == i && m.term <= s.term && m.body.AppendResponse?
    requires fx.messages == []
    ensures DeliveryShape(s, m, HandleAppendResponse(ConfigOf(en, i), s, m, fx))
  {
    if m.term == s.term && s.role == Leader && m.from in s.progress {
      assert ProgressInv(h, m.from, s);
      if m.body.success {
        SuccessHandled(en, h, i, s, m, fx);
        assert AckInv(h, Key(m.from, m.term));
        SuccessShape(ConfigOf(en, i), s, m, fx);
      } else {
        RejectionShape(ConfigOf(en, i), s, m, fx);
      }
    }
  }

  lemma WholeSuffix(cfg: Config, s: Node, p: NodeId)
    requires p in s.progress && s.progress[p].next <= |s.log| + 1
    ensures IsWholeRequest(s, AppendFor(cfg, s, p)) && AppendFor(cfg, s, p).body.prevLogIndex == s.progress[p].next - 1
  {
  }

  lemma SuccessShape(cfg: Config, s: Node, m: Message, fx: Effects)
    requires m.body.AppendResponse? && m.body.success && m.term == s.term && s.role == Leader && m.from in s.progress
    requires m.to == cfg.self && fx.messages == []
    requires HandleAppendResponse(cfg, s, m, fx).Done?
    ensures DeliveryShape(s, m, HandleAppendResponse(cfg, s, m, fx))
  {
    var s1 := s.(progress := s.progress[m.from := Acknowledged(s.progress[m.from], m.body.matchIndex)]);
    var a := AdvanceLeaderCommit(cfg, s1, fx);
    FollowUpShape(cfg, a.node, a.node.commit > s.commit, m.from, a.fx);
    assert !Progressed(s, a.node) ==> a.fx == fx;
  }

  lemma FollowUpShape(cfg: Config, s: Node, advanced: bool, p: NodeId, fx: Effects)
    requires p in s.progress && FollowUp(cfg, s, advanced, p, fx).Done? && fx.messages == []
    ensures var o := FollowUp(cfg, s, advanced, p, fx);
            && o.node == s
            && (!advanced ==>
                  if s.progress[p].next <= |s.log|
                  then o.fx.messages == [AppendFor(cfg, s, p)] && IsWholeRequest(s, AppendFor(cfg, s, p))
                       && AppendFor(cfg, s, p).body.prevLogIndex == s.progress[p].next - 1
                  else o.fx.messages == [])
  {
    if s.progress[p].next <= |s.log| {
      WholeSuffix(cfg, s, p);
      assert fx.messages + [AppendFor(cfg, s, p)] == [AppendFor(cfg, s, p)];
    }
  }

  lemma RejectionShape(cfg: Config, s: Node, m: Message, fx: Effects)
    requires m.body.AppendResponse? && !m.body.success && m.term == s.term && s.role == Leader && m.from in s.progress
    requires s.progress[m.from].next <= |s.log| + 1 && m.body.rejectHint >= 1
    requires m.to == cfg.self && fx.messages == []
    ensures DeliveryShape(s, m, HandleAppendResponse(cfg, s, m, fx))
  {
    var s1 := s.(progress := s.progress[m.from := BackedOff(s.progress[m.from], m.body.rejectHint)]);
    WholeSuffix(cfg, s1, m.from);
    assert fx.messages + [AppendFor(cfg, s1, m.from)] == [AppendFor(cfg, s1, m.from)];
  }

  /** The shape of any honest delivery. */
  lemma DeliveryShaped(en: Ensemble, h: History, i: NodeId, s: Node, m: Message)
    requires Good(en, h, i, s) && MessageInv(en, h, m) && m.to == i
    ensures DeliveryShape(s, m, Handle(ConfigOf(en, i), s, Event.Deliver(m)))
  {
    var cfg := ConfigOf(en, i);
    var b := if m.term > s.term then BecomeFollower(s, m.term, None, NO_EFFECTS) else Done(s, NO_EFFECTS);
    Demoted(en, h, i, s, Max(s.term, m.term), None, NO_EFFECTS);
    match m.body {
      case VoteRequest(_, _) => VoteRequestShape(en, h, i, b.node, m, b.fx);
      case VoteResponse(_) => VoteResponseShape(en, h, i, b.node, m, b.fx);
      case AppendRequest(_, _, _, _) => AppendRequestShape(en, h, i, b.node, m, b.fx);
      case AppendResponse(_, _, _) => AppendResponseShape(en, h, i, b.node, m, b.fx);
    }
  }
}
