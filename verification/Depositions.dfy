/**
 What each kind of message is answered with and what it changes, and how a leader or candidate of an old
 term learns of a newer one, which ends its part for good.
 */
module Depositions {
  import opened RaftTypes
  import opened Logs
  import opened Protocol
  import opened NodeFacts
  import opened Networks
  import opened Histories
  import opened Clusters
  import opened SafetyTheorems
  import opened Fields
  import opened Deliveries

  // ----- The gate -----

  predicate Addressed(cfg: Config, m: Message) {
    m.version == 1 && m.cluster == cfg.cluster && m.to == cfg.self && m.from in cfg.members
  }

  /** A message of another version or cluster, for another node, or from a stranger throws, saying which, and changes nothing. */
  lemma StrangersRefused(cfg: Config, s: Node, m: Message)
    requires !Addressed(cfg, m)
    ensures Handle(cfg, s, Event.Deliver(m))
         == Threw(s, if m.version != 1 then UnsupportedVersion else if m.cluster != cfg.cluster then CrossCluster else WrongPeer)
  {
  }

  /** And no message that is addressed well is refused for that. */
  lemma MembersHeard(cfg: Config, s: Node, m: Message)
    requires Addressed(cfg, m)
    ensures var o := Handle(cfg, s, Event.Deliver(m)); o.Threw? ==> o.error !in {UnsupportedVersion, CrossCluster, WrongPeer}
  {
    hide CommitTarget, Suffix, TermOr0;
    if m.body.AppendRequest? {
      MergeErrors(s.log, s.commit, None, [], m.body.entries);
    }
  }

  // ----- One exchange -----

  /** What a node in a newer term answers to a request. */
  function Refusal(cfg: Config, s: Node, m: Message): Message {
    Message(1, cfg.cluster, cfg.self, m.from, s.term,
            if m.body.VoteRequest? then VoteResponse(false) else AppendResponse(false, 0, |s.log| + 1))
  }

  /** A request of an older term changes nothing and is answered with exactly one refusal, in the newer term. */
  lemma StaleRequestRefused(cfg: Config, s: Node, m: Message)
    requires Addressed(cfg, m) && m.term < s.term && (m.body.VoteRequest? || m.body.AppendRequest?)
    ensures Handle(cfg, s, Event.Deliver(m)) == Done(s, Effects(None, None, [], [Refusal(cfg, s, m)]))
  {
    assert [] + [Refusal(cfg, s, m)] == [Refusal(cfg, s, m)];
  }

  /** A reply of a newer term leaves its receiver a follower of that term without a vote, saved, whatever it was. */
  lemma NewerReplyDeposes(cfg: Config, s: Node, r: Message)
    requires Addressed(cfg, r) && r.term > s.term && (r.body.VoteResponse? || r.body.AppendResponse?)
    ensures Handle(cfg, s, Event.Deliver(r))
         == Done(Node(Follower, None, r.term, None, s.commit, s.log, {}, map[]),
                 Effects(Some(HardState(r.term, None, s.commit)), None, [], []))
  {
  }

  /**
   Every vote request is answered, in the later of the two terms: with the vote exactly when the request is
   not stale, the vote is free or the candidate's already, and its log is as new.
   */
  lemma VoteRequestAnswered(cfg: Config, s: Node, m: Message)
    requires Addressed(cfg, m) && m.body.VoteRequest?
    ensures var o := Handle(cfg, s, Event.Deliver(m)); var t := Max(s.term, m.term);
            var free := m.term > s.term || s.votedFor == None || s.votedFor == Some(m.from);
            var asNew := LastTerm(s.log) < m.body.lastLogTerm
                         || (LastTerm(s.log) == m.body.lastLogTerm && |s.log| <= m.body.lastLogIndex);
            var granted := m.term >= s.term && free && asNew;
            && o.Done? && o.fx.messages == [Message(1, cfg.cluster, cfg.self, m.from, t, VoteResponse(granted))]
            && o.node.term == t && o.node.log == s.log && o.node.commit == s.commit
            && o.node.votedFor == (if granted then Some(m.from) else if m.term > s.term then None else s.votedFor)
  {
    var b := if m.term > s.term then BecomeFollower(s, m.term, None, NO_EFFECTS) else Done(s, NO_EFFECTS);
    var r := Envelope(cfg, b.node, m.from, VoteResponse(WillGrant(b.node, m)));
    assert [] + [r] == [r];
  }

  /**
   Every AppendEntries request that does not throw is answered with one message, in the later of the two
   terms: it succeeds exactly when it is not stale and the receiver's log has the entry before it, and then
   acknowledges up to its last entry; a refusal says how far back to go.
   */
  lemma AppendRequestAnswered(cfg: Config, s: Node, m: Message)
    requires Addressed(cfg, m) && m.body.AppendRequest? && Handle(cfg, s, Event.Deliver(m)).Done?
    ensures var o := Handle(cfg, s, Event.Deliver(m)); var t, prev := Max(s.term, m.term), m.body.prevLogIndex;
            var es := m.body.entries;
            var matches := (prev == 0 && m.body.prevLogTerm == 0)
                           || (1 <= prev <= |s.log| && s.log[prev - 1].term == m.body.prevLogTerm);
            var end := if es == [] then prev else es[|es| - 1].index;
            && o.node.term == t
            && o.fx.messages == [Message(1, cfg.cluster, cfg.self, m.from, t,
                                         if m.term < s.term then AppendResponse(false, 0, |s.log| + 1)
                                         else if !matches then AppendResponse(false, 0, Min(prev, |s.log| + 1))
                                         else AppendResponse(true, end, end + 1))]
  {
    hide MergeEntries, FinishAppend;
    var b := if m.term > s.term then BecomeFollower(s, m.term, None, NO_EFFECTS) else Done(s, NO_EFFECTS);
    assert forall x: Message :: [] + [x] == [x];
    if m.term >= s.term {
      var t := BecomeFollower(b.node, m.term, Some(m.from), b.fx);
      FinishAnswers(cfg, t.node, m, MergeEntries(s.log, s.commit, None, [], m.body.entries), t.fx);
    }
  }

  lemma FinishAnswers(cfg: Config, s: Node, m: Message, merge: Merge, fx: Effects)
    requires m.body.AppendRequest? && fx.messages == []
    ensures var o := FinishAppend(cfg, s, m, merge, fx); var end := PayloadEnd(m.body);
            o.Done? ==> o.node.term == s.term && o.fx.messages == [AppendReply(cfg, s, m.from, true, end, end + 1)]
  {
    assert forall x: Message :: [] + [x] == [x];
  }

  /**
   What a leader does with an answer of its own term from a peer it tracks: a success moves that peer's
   book-keeping up to what it acknowledges and never back, a refusal moves the next probe back, and what is
   missing is sent.
   */
  lemma AnswerTaken(cfg: Config, s: Node, m: Message)
    requires WellFormed(cfg, s) && s.role == Leader && Addressed(cfg, m) && m.term == s.term && m.body.AppendResponse?
    requires m.from in s.progress
    ensures var o := Handle(cfg, s, Event.Deliver(m)); var g := s.progress[m.from]; var reached := Max(g.matched, m.body.matchIndex);
            && o.Done? && o.node == s.(commit := o.node.commit, progress := o.node.progress)
            && o.node.progress == s.progress[
                 m.from := if m.body.success then Progress(reached + 1, reached)
                           else Progress(Max(1, Min(g.next - 1, m.body.rejectHint)), g.matched)]
            && (!m.body.success ==> o.node.commit == s.commit && o.fx.messages == [AppendFor(cfg, o.node, m.from)])
            && (m.body.success && o.node.commit == s.commit ==>
                  o.fx.messages == if reached < |s.log| then [AppendFor(cfg, o.node, m.from)] else [])
            && (o.node.commit != s.commit ==>
                  o.fx.messages == AppendsFor(cfg, o.node, Peers(cfg))
                                   + if reached < |s.log| then [AppendFor(cfg, o.node, m.from)] else [])
  {
    hide CommitTarget, AppendFor, AppendsFor;
    assert forall x: Message :: [] + [x] == [x];
    var o := Handle(cfg, s, Event.Deliver(m));
    assert [] + AppendsFor(cfg, o.node, Peers(cfg)) == AppendsFor(cfg, o.node, Peers(cfg));
  }

  /** An answer of an older term changes nothing, and neither does one to a node that does not wait for it. */
  lemma StaleAnswerIgnored(cfg: Config, s: Node, m: Message)
    requires Addressed(cfg, m) && m.term <= s.term
    requires (m.body.AppendResponse? && (m.term < s.term || s.role != Leader || m.from !in s.progress))
             || (m.body.VoteResponse? && (m.term < s.term || s.role != Candidate || !m.body.granted))
    ensures Handle(cfg, s, Event.Deliver(m)) == Done(s, NO_EFFECTS)
  {
  }

  /**
   A request that is taken moves the commit index up to what the leader has announced, as far as the
   receiver's log reaches, and never back; one that is refused leaves it alone.
   */
  lemma CommitFollows(cfg: Config, s: Node, m: Message)
    requires WellFormed(cfg, s) && m.body.AppendRequest? && Handle(cfg, s, Event.Deliver(m)).Done?
    ensures var o := Handle(cfg, s, Event.Deliver(m));
            o.node.commit == if m.term >= s.term && TermAt(s.log, m.body.prevLogIndex) == Some(m.body.prevLogTerm)
                             then Max(s.commit, Min(m.body.leaderCommit, |o.node.log|)) else s.commit
  {
    hide MergeEntries;
    MergeKeepsCommitted(s.log, s.commit, None, [], m.body.entries);
  }

  // ----- Over a run -----

  /** Whoever takes a message of term t is in t or later from then on. */
  lemma TakenTermStays(en: Ensemble, run: seq<Cluster>, j: nat, k: nat, x: NodeId, r: Message)
    requires IsRun(en, run) && j < k < |run| && NodeStep(en, run[j], run[j + 1], x, Event.Deliver(r))
    ensures Member(en, run, k, x) && run[k].nodes[x].term >= r.term
  {
    hide Handle, NodeInv, HistoryInv;
    var hs := RunInv(en, run);
    assert Inv(en, run[j], hs[j]) && Inv(en, run[k], hs[k]);
    DeliveredTerm(en, run, hs, j, x, r);
    NothingGoesBack(en, run, j + 1, k, x);
  }

  lemma DeliveredTerm(en: Ensemble, run: seq<Cluster>, hs: seq<History>, j: nat, x: NodeId, r: Message)
    requires Explains(en, run, hs) && j + 1 < |run| && NodeStep(en, run[j], run[j + 1], x, Event.Deliver(r))
    ensures Member(en, run, j + 1, x) && run[j + 1].nodes[x].term >= r.term
  {
    hide Handle, HistoryInv;
    Facts(en, run, hs, j, j, x);
    MessageFacts(en, run, hs, j, r);
    DeliveryShaped(en, hs[j], x, run[j].nodes[x], r);
  }

  /**
   The exchange that ends a reign: a node in a newer term that meets a request of an older one answers it,
   and once the sender takes that answer it never again leads the request's term, nor any before the answer's.
   */
  lemma ReignEnds(en: Ensemble, run: seq<Cluster>, i: nat, p: NodeId, m: Message) returns (r: Message)
    requires IsRun(en, run) && i + 1 < |run| && NodeStep(en, run[i], run[i + 1], p, Event.Deliver(m))
    requires m.term < run[i].nodes[p].term && (m.body.VoteRequest? || m.body.AppendRequest?)
    ensures r in run[i + 1].net && r.from == p && r.to == m.from && r.term == run[i].nodes[p].term
    ensures forall j, k {:trigger NodeStep(en, run[j], run[j + 1], m.from, Event.Deliver(r)), Leads(run, k, m.from)} ::
              0 <= j < k < |run| && NodeStep(en, run[j], run[j + 1], m.from, Event.Deliver(r)) && Leads(run, k, m.from) ==>
                run[k].nodes[m.from].term >= r.term > m.term
  {
    hide Handle, HistoryInv, NodeInv;
    var hs := RunInv(en, run);
    MessageFacts(en, run, hs, i, m);
    var cfg, s := ConfigOf(en, p), run[i].nodes[p];
    StaleRequestRefused(cfg, s, m);
    r := Refusal(cfg, s, m);
    forall j, k | 0 <= j < k < |run| && NodeStep(en, run[j], run[j + 1], m.from, Event.Deliver(r)) && Leads(run, k, m.from)
      ensures run[k].nodes[m.from].term >= r.term
    {
      TakenTermStays(en, run, j, k, m.from, r);
    }
  }
}
