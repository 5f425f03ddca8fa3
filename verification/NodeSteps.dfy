/**
 Every primitive change a handler makes to one node keeps the invariants of history, of that node,
 and of the messages it sends. Nothing here mentions another node: what others did is in history.
 */
module NodeSteps {
  import opened RaftTypes
  import opened Logs
  import opened Protocol
  import opened Quorums
  import opened Histories
  import opened Decisions

  ghost predicate Good(en: Ensemble, h: History, i: NodeId, s: Node) {
    HistoryInv(en, h) && NodeInv(en, h, i, s)
  }

  ghost predicate AllMessages(en: Ensemble, h: History, i: NodeId, ms: seq<Message>) {
    forall m :: m in ms ==> m.from == i && MessageInv(en, h, m)
  }

  // ----- Stepping down -----

  lemma Demoted(en: Ensemble, h: History, i: NodeId, s: Node, term: nat, leader: Option<NodeId>, fx: Effects)
    requires Good(en, h, i, s) && term >= s.term
    ensures NodeInv(en, h, i, BecomeFollower(s, term, leader, fx).node)
  {
    hide HistoryInv, Committed, ValidLog, CandidateInv, LeaderInv;
    var s' := BecomeFollower(s, term, leader, fx).node;
    CommittedLater(en, h, h, s.log[..s.commit], s.term, term);
    assert s'.log == s.log && s'.commit == s.commit && s'.term == term && s'.role == Follower;
    assert TermsBounded(h, i, s');
    assert VoteRecorded(h, i, s');
  }

  // ----- Campaigning and voting -----

  ghost function WithCandidacy(h: History, i: NodeId, t: nat, v: Version): History {
    h.(candidacies := h.candidacies[Key(i, t) := v], ballots := h.ballots[Key(i, t) := Ballot(i, v)])
  }

  lemma Campaigned(en: Ensemble, h: History, i: NodeId, s: Node) returns (h': History)
    requires Good(en, h, i, s)
    ensures StepOf(i, h, h') && Good(en, h', i, Campaigning(ConfigOf(en, i), s))
    ensures Key(i, s.term + 1) in h'.candidacies && h'.candidacies[Key(i, s.term + 1)] == VersionOf(s.log)
  {
    hide HistoryInv, Committed, ValidLog;
    var t := s.term + 1;
    h' := WithCandidacy(h, i, t, VersionOf(s.log));
    HistoryKept(en, h, h', i, s);
    var s' := Campaigning(ConfigOf(en, i), s);
    ValidLogLater(h, h', s.log);
    CommittedLater(en, h, h', s.log[..s.commit], s.term, t);
    assert TermsBounded(h', i, s');
  }

  lemma HistoryKept(en: Ensemble, h: History, h': History, i: NodeId, s: Node)
    requires Good(en, h, i, s)
    requires h' == WithCandidacy(h, i, s.term + 1, VersionOf(s.log))
    ensures StepOf(i, h, h') && HistoryInv(en, h')
  {
    hide ReignInv, Elected, ValidLog;
    forall u | u in h'.reigns ensures ReignInv(en, h', u) {
      ReignLater(en, h, h', u);
    }
    forall v: NodeId, a: nat, b: nat ensures VoteAfterAck(h', v, a, b) {
      assert VoteAfterAck(h, v, a, b);
    }
    forall k | k in h'.ballots ensures BallotInv(en, h', k) {
      assert k in h.ballots ==> BallotInv(en, h, k);
    }
    forall k | k in h'.acked ensures AckInv(h', k) {
      assert AckInv(h, k);
    }
  }

  /** A reign nobody touched keeps its invariant. */
  lemma ReignLater(en: Ensemble, h: History, h': History, t: nat)
    requires t in h.reigns && ReignInv(en, h, t) && Later(h, h') && h'.reigns[t] == h.reigns[t]
    ensures ReignInv(en, h', t)
  {
    ValidLogLater(h, h', h.reigns[t].log);
    ElectedLater(en, h, h', t, h.reigns[t].leader);
  }

  ghost function WithBallot(h: History, v: NodeId, t: nat, b: Ballot): History {
    if Key(v, t) in h.ballots then h else h.(ballots := h.ballots[Key(v, t) := b])
  }

  lemma BallotCast(en: Ensemble, h: History, i: NodeId, s: Node, x: NodeId) returns (h': History)
    requires Good(en, h, i, s) && Key(x, s.term) in h.candidacies
    requires VersionLeq(VersionOf(s.log), h.candidacies[Key(x, s.term)])
    ensures h' == WithBallot(h, i, s.term, Ballot(x, VersionOf(s.log)))
    ensures StepOf(i, h, h') && HistoryInv(en, h')
  {
    hide ReignInv, Elected, ValidLog, Committed;
    h' := WithBallot(h, i, s.term, Ballot(x, VersionOf(s.log)));
    forall u | u in h'.reigns ensures ReignInv(en, h', u) {
      assert ReignInv(en, h, u);
      ReignLater(en, h, h', u);
    }
    forall k | k in h'.ballots ensures BallotInv(en, h', k) {
      assert k in h.ballots ==> BallotInv(en, h, k);
    }
    forall v: NodeId, a: nat, b: nat ensures VoteAfterAck(h', v, a, b) {
      assert VoteAfterAck(h, v, a, b);
    }
    forall k | k in h'.acked ensures AckInv(h', k) {
      assert AckInv(h, k);
    }
  }

  lemma Granted(en: Ensemble, h: History, i: NodeId, s: Node, m: Message) returns (h': History)
    requires Good(en, h, i, s) && m.body.VoteRequest? && WillGrant(s, m)
    requires MessageInv(en, h, m) && m.to == i
    ensures StepOf(i, h, h')
    ensures Good(en, h', i, s.(role := Follower, leaderId := None, votedFor := Some(m.from)))
    ensures Key(i, s.term) in h'.ballots && h'.ballots[Key(i, s.term)].candidate == m.from
  {
    hide HistoryInv, Committed, ValidLog;
    h' := BallotCast(en, h, i, s, m.from);
    ValidLogLater(h, h', s.log);
    CommittedLater(en, h, h', s.log[..s.commit], s.term, s.term);
    assert TermsBounded(h', i, s);
  }

  lemma VoteCounted(en: Ensemble, h: History, i: NodeId, s: Node, m: Message)
    requires Good(en, h, i, s) && s.role == Candidate
    requires MessageInv(en, h, m) && m.to == i && m.term == s.term && m.body == VoteResponse(true)
    ensures Good(en, h, i, s.(votes := s.votes + {m.from}))
  {
  }

  // ----- Leading -----

  ghost function WithReign(h: History, i: NodeId, t: nat, r: Reign): History {
    h.(reigns := h.reigns[t := r], acked := h.acked[Key(i, t) := |r.log|])
  }

  /** A leader's log may take one more entry of its own term. */
  lemma ReignExtended(en: Ensemble, h: History, i: NodeId, s: Node, r: Reign, e: Entry) returns (h': History)
    requires Good(en, h, i, s) && e.index == |s.log| + 1 && e.term == s.term && Named(e)
    requires r.leader == i && r.base <= |s.log| && r.log == s.log + [e]
    requires s.term in h.reigns ==> ReignGrows(h.reigns[s.term], r)
    requires forall k :: 0 <= k < r.base ==> s.log[k].term < s.term
    requires forall k :: r.base <= k < |s.log| ==> s.log[k].term == s.term
    requires Elected(en, h, s.term, i) && 1 <= s.term
    requires Key(i, s.term) in h.candidacies && h.candidacies[Key(i, s.term)] == VersionOf(s.log[..r.base])
    ensures h' == WithReign(h, i, s.term, r)
    ensures StepOf(i, h, h') && HistoryInv(en, h') && ValidLog(h', r.log)
  {
    hide ReignInv, ValidLog, Elected, Committed, VersionOf, Contiguous, TermsBounded, VoteRecorded, CandidateInv, LeaderInv;
    h' := WithReign(h, i, s.term, r);
    ReignLaterOn(en, h, i, s, r);
    ValidLogLater(h, h', s.log);
    OneLonger(h', s.log, e);
    EntriesNamed(en, h, s.log);
    ElectedLater(en, h, h', s.term, i);
    ReignAnew(en, h', i, s, r, e);
    forall u | u in h'.reigns ensures ReignInv(en, h', u) {
      if u != s.term {
        assert ReignInv(en, h, u);
        ReignLater(en, h, h', u);
      }
    }
    ReignedHistory(en, h, h', i, s, r);
  }

  lemma ReignAnew(en: Ensemble, h: History, i: NodeId, s: Node, r: Reign, e: Entry)
    requires s.term in h.reigns && h.reigns[s.term] == r && i in en.members && Contiguous(s.log)
    requires e.index == |s.log| + 1 && e.term == s.term && Named(e) && forall f :: f in s.log ==> Named(f)
    requires r.leader == i && r.base <= |s.log| && r.log == s.log + [e] && ValidLog(h, r.log)
    requires forall k :: 0 <= k < r.base ==> s.log[k].term < s.term
    requires forall k :: r.base <= k < |s.log| ==> s.log[k].term == s.term
    requires Elected(en, h, s.term, i) && 1 <= s.term
    requires Key(i, s.term) in h.candidacies && h.candidacies[Key(i, s.term)] == VersionOf(s.log[..r.base])
    ensures ReignInv(en, h, s.term)
  {
    hide ValidLog, Elected, VersionOf;
    assert r.log[..r.base] == s.log[..r.base];
  }

  /** Recording the longer log only adds to history, and only on this node's account. */
  lemma ReignLaterOn(en: Ensemble, h: History, i: NodeId, s: Node, r: Reign)
    requires Good(en, h, i, s) && r.leader == i && |r.log| == |s.log| + 1
    requires s.term in h.reigns ==> ReignGrows(h.reigns[s.term], r)
    ensures StepOf(i, h, WithReign(h, i, s.term, r))
  {
    var t := s.term;
    if Key(i, t) in h.acked {
      assert AckInv(h, Key(i, t));
      PrefixLength(h.reigns[t].log, r.log);
      assert VersionLeq(Version(t, h.acked[Key(i, t)]), VersionOf(s.log));
    }
  }

  /** A valid log stays valid when it takes an entry that completes its leader's log. */
  lemma OneLonger(h: History, log: seq<Entry>, e: Entry)
    requires ValidLog(h, log) && e.term in h.reigns && h.reigns[e.term].log == log + [e]
    ensures ValidLog(h, log + [e])
  {
    var longer := log + [e];
    forall k | 0 <= k < |longer| ensures SlotValid(h, longer, k) {
      if k < |log| {
        assert SlotValid(h, log, k);
        assert longer[..k + 1] == log[..k + 1];
      } else {
        assert longer[..k + 1] == longer;
      }
    }
  }

  lemma PrefixLength(a: seq<Entry>, b: seq<Entry>)
    requires a <= b
    ensures |a| <= |b|
  {
  }

  lemma ReignedHistory(en: Ensemble, h: History, h': History, i: NodeId, s: Node, r: Reign)
    requires Good(en, h, i, s) && Later(h, h') && h' == WithReign(h, i, s.term, r) && r.base < |r.log|
    requires forall u :: u in h'.reigns ==> ReignInv(en, h', u)
    ensures HistoryInv(en, h')
  {
    hide ReignInv, Elected, ValidLog, Committed;
    forall k | k in h'.ballots ensures BallotInv(en, h', k) {
      assert BallotInv(en, h, k);
    }
    forall v: NodeId, a: nat, b: nat ensures VoteAfterAck(h', v, a, b) {
      assert VoteAfterAck(h, v, a, b);
    }
    forall k | k in h'.acked ensures AckInv(h', k) {
      if k != Key(i, s.term) {
        assert AckInv(h, k);
      }
    }
  }

  /** Winning an election: nobody else reigned in this term, and the no-op opens the reign. */
  lemma Won(en: Ensemble, h: History, i: NodeId, s: Node) returns (h': History)
    requires Good(en, h, i, s) && s.role == Candidate
    requires HasQuorum(ConfigOf(en, i), |s.votes|)
    ensures StepOf(i, h, h')
    ensures var e := LocalEntry(s, Noop, [], None);
            Good(en, h', i, Crowned(ConfigOf(en, i), s).(log := s.log + [e]))
  {
    var t := s.term;
    var e := LocalEntry(s, Noop, [], None);
    LargerIsQuorum(en.members, s.votes, Voters(en, h, t, i));
    if t in h.reigns {
      assert ReignInv(en, h, t);
      OneLeaderPerTerm(en, h, t, i, h.reigns[t].leader);
    }
    forall k | 0 <= k < |s.log| ensures s.log[k].term < t {
      TermsSorted(en, h, s.log, k, k);
    }
    assert s.log[..|s.log|] == s.log;
    h' := ReignExtended(en, h, i, s, Reign(i, |s.log|, s.log + [e]), e);
    var s' := Crowned(ConfigOf(en, i), s).(log := s.log + [e]);
    LeaderKept(en, h, h', i, s, s');
  }

  lemma LeaderKept(en: Ensemble, h: History, h': History, i: NodeId, s: Node, s': Node)
    requires Good(en, h, i, s) && StepOf(i, h, h') && HistoryInv(en, h') && ValidLog(h', s'.log)
    requires |s'.log| == |s.log| + 1 && s'.log[..|s.log|] == s.log && LastTerm(s'.log) == s.term
    requires s'.log[|s.log|].index == |s.log| + 1
    requires s'.term == s.term && s'.votedFor == s.votedFor == Some(i) && s'.commit == s.commit
    requires h'.ballots == h.ballots && h'.candidacies == h.candidacies && h'.reigns.Keys == h.reigns.Keys + {s.term}
    requires s.term in h'.reigns && h'.reigns[s.term].leader == i && h'.reigns[s.term].log == s'.log
    requires h'.acked == h.acked[Key(i, s.term) := |s'.log|]
    requires s'.role == Leader && s'.progress.Keys == Elements(en.members) - {i}
    requires forall p :: p in s'.progress ==> ProgressInv(h', p, s')
    ensures NodeInv(en, h', i, s')
  {
    hide HistoryInv, ValidLog, Committed, ProgressInv;
    assert s'.log[..s'.commit] == s.log[..s.commit];
    CommittedLater(en, h, h', s.log[..s.commit], s.term, s.term);
    assert Contiguous(s'.log) by {
      forall k | 0 <= k < |s'.log| ensures s'.log[k].index == k + 1 {
        if k < |s.log| {
          assert s'.log[k] == s.log[k];
        }
      }
    }
    assert TermsBounded(h', i, s') by {
      forall t: nat | Key(i, t) in h'.acked
        ensures t <= s'.term && VersionLeq(Version(t, h'.acked[Key(i, t)]), VersionOf(s'.log))
      {
        assert t != s.term ==> t <= s.term;
      }
      forall t: nat | t in h'.reigns && h'.reigns[t].leader == i ensures t <= s'.term {
        assert t in h.reigns ==> h.reigns[t].leader == i;
      }
    }
  }

  lemma Proposed(en: Ensemble, h: History, i: NodeId, s: Node, e: Entry) returns (h': History)
    requires Good(en, h, i, s) && s.role == Leader && e.index == |s.log| + 1 && e.term == s.term && Named(e)
    ensures StepOf(i, h, h') && Good(en, h', i, s.(log := s.log + [e]))
  {
    var r := h.reigns[s.term];
    assert ReignInv(en, h, s.term);
    h' := ReignExtended(en, h, i, s, r.(log := s.log + [e]), e);
    var s' := s.(log := s.log + [e]);
    forall p | p in s'.progress ensures ProgressInv(h', p, s') {
      assert ProgressInv(h, p, s);
    }
    LeaderKept(en, h, h', i, s, s');
  }

  /** A leader's AppendEntries request for any peer is a slice of its reign. */
  lemma AppendSent(en: Ensemble, h: History, i: NodeId, s: Node, p: NodeId)
    requires Good(en, h, i, s) && s.role == Leader && p in s.progress
    ensures MessageInv(en, h, AppendFor(ConfigOf(en, i), s, p))
  {
    assert ProgressInv(h, p, s) && ReignInv(en, h, s.term);
    var m := AppendFor(ConfigOf(en, i), s, p);
    var log := h.reigns[s.term].log;
    assert m.body.entries == log[m.body.prevLogIndex..|log|];
    assert log[..m.body.leaderCommit] == s.log[..s.commit];
  }

  lemma AppendsSent(en: Ensemble, h: History, i: NodeId, s: Node, fx: Effects)
    requires Good(en, h, i, s) && s.role == Leader && AllMessages(en, h, i, fx.messages)
    ensures var b := Broadcast(ConfigOf(en, i), s, fx);
            b.Done? && b.node == s && AllMessages(en, h, i, b.fx.messages)
  {
    var cfg := ConfigOf(en, i);
    assert forall p :: p in Peers(cfg) ==> p in s.progress;
    var sent := AppendsFor(cfg, s, Peers(cfg));
    forall m | m in sent ensures m.from == i && MessageInv(en, h, m) {
      var k :| 0 <= k < |sent| && sent[k] == m;
      AppendSent(en, h, i, s, Peers(cfg)[k]);
    }
  }

  lemma CommitAdvanced(en: Ensemble, h: History, i: NodeId, s: Node)
    requires Good(en, h, i, s) && s.role == Leader
    ensures Good(en, h, i, AdvancedNode(ConfigOf(en, i), s))
  {
    hide HistoryInv, Committed, ValidLog;
    var c := CommitTarget(ConfigOf(en, i), s, |s.log|);
    if c > s.commit {
      CountedIsCommitted(en, h, i, s, c);
    }
    var s' := s.(commit := c);
    forall p | p in s'.progress ensures ProgressInv(h, p, s') {
      assert ProgressInv(h, p, s);
    }
    assert TermsBounded(h, i, s') && VoteRecorded(h, i, s') && LeaderInv(en, h, i, s');
  }

  /** An entry of the leader's own term that a majority is known to hold is committed, with all before it. */
  lemma CountedIsCommitted(en: Ensemble, h: History, i: NodeId, s: Node, c: nat)
    requires Good(en, h, i, s) && s.role == Leader
    requires TermAt(s.log, c) == Some(s.term) && Replicated(ConfigOf(en, i), s, c) && 1 <= c
    ensures Committed(en, h, s.log[..c], s.term)
  {
    assert ReignInv(en, h, s.term);
    var peers := MatchedPeers(s, c);
    forall p | p in peers ensures p in Holders(en, h, s.term, c) {
      assert ProgressInv(h, p, s);
    }
    assert |{i} + peers| == 1 + |peers|;
    LargerIsQuorum(en.members, {i} + peers, Holders(en, h, s.term, c));
    assert QuorumHeld(en, h, s.term, c);
    assert s.log[..c] <= h.reigns[s.term].log;
  }

  /** A leader's view of one peer, after a reply. */
  lemma ProgressKept(en: Ensemble, h: History, i: NodeId, s: Node, p: NodeId, g: Progress)
    requires Good(en, h, i, s) && s.role == Leader && p in s.progress
    requires ProgressInv(h, p, s.(progress := s.progress[p := g]))
    ensures Good(en, h, i, s.(progress := s.progress[p := g]))
  {
    var s' := s.(progress := s.progress[p := g]);
    assert s'.progress.Keys == s.progress.Keys;
    forall q | q in s'.progress ensures ProgressInv(h, q, s') {
      assert ProgressInv(h, q, s);
    }
  }

  // ----- Following -----

  ghost function WithAck(h: History, i: NodeId, t: nat, len: nat): History {
    h.(acked := h.acked[Key(i, t) := len])
  }

  /** After accepting, a follower's log lies between what was sent and the leader's whole log. */
  lemma MergeOutcome(en: Ensemble, h: History, i: NodeId, s: Node, m: Message)
    requires Good(en, h, i, s) && MessageInv(en, h, m) && m.body.AppendRequest? && m.term == s.term
    requires TermAt(s.log, m.body.prevLogIndex) == Some(m.body.prevLogTerm)
    ensures var log := h.reigns[m.term].log;
            var end := m.body.prevLogIndex + |m.body.entries|;
            var r := MergeEntries(s.log, s.commit, None, [], m.body.entries);
            && r.Merged? && PayloadEnd(m.body) == end
            && r.log == (if log[..end] <= s.log then s.log else log[..end])
            && log[..end] <= r.log <= log
            && s.log[..s.commit] <= r.log
            && VersionLeq(VersionOf(s.log), VersionOf(r.log)) && LastTerm(r.log) == m.term
  {
    hide HistoryInv, ReignInv, MessageInv, BodyInv, Committed, TermsBounded, VoteRecorded, CandidateInv, LeaderInv;
    hide MergeEntries, Matching, ValidLog, PayloadEnd, Contiguous;
    RequestSlices(en, h, m);
    var log := h.reigns[m.term].log;
    var end := m.body.prevLogIndex + |m.body.entries|;
    PrefixConfirmed(h, s.log, log, m.body.prevLogIndex);
    CommittedInLeader(en, h, s.log[..s.commit], s.term, m.term);
    MergeReproducesSender(s.log, s.commit, log, m.body.prevLogIndex, end);
    SliceEnds(m.body, log);
    if log[..end] <= s.log {
      SurplusIsLeaders(en, h, s, log, end);
    } else {
      CommittedShorter(en, h, s, log, end);
    }
  }

  /** An honest request is a slice of a valid log. */
  lemma RequestSlices(en: Ensemble, h: History, m: Message)
    requires HistoryInv(en, h) && MessageInv(en, h, m) && m.body.AppendRequest?
    ensures m.term in h.reigns && SliceOf(h, m) && Contiguous(h.reigns[m.term].log) && ValidLog(h, h.reigns[m.term].log)
  {
    hide Contiguous, ValidLog, SliceOf;
    assert ReignInv(en, h, m.term);
  }

  lemma SliceEnds(body: Body, log: seq<Entry>)
    requires body.AppendRequest? && Contiguous(log) && body.prevLogIndex + |body.entries| <= |log|
    requires body.entries == log[body.prevLogIndex..body.prevLogIndex + |body.entries|]
    ensures PayloadEnd(body) == body.prevLogIndex + |body.entries|
  {
    var end := body.prevLogIndex + |body.entries|;
    assert body.entries != [] ==> body.entries[|body.entries| - 1] == log[end - 1];
  }

  lemma PrefixConfirmed(h: History, a: seq<Entry>, log: seq<Entry>, prev: nat)
    requires ValidLog(h, a) && ValidLog(h, log) && prev <= |log|
    requires TermAt(a, prev) == Some(TermOr0(log, prev))
    ensures Matching(a, log) && prev <= |a| && a[..prev] == log[..prev]
  {
    ValidLogsMatch(h, a, log);
    if prev > 0 {
      MatchingStep(a, log, prev - 1);
    }
  }

  /** A log that already contains the payload has only this leader's entries beyond it. */
  lemma SurplusIsLeaders(en: Ensemble, h: History, s: Node, log: seq<Entry>, end: nat)
    requires HistoryInv(en, h) && ValidLog(h, s.log) && LastTerm(s.log) <= s.term
    requires s.term in h.reigns && h.reigns[s.term].log == log && h.reigns[s.term].base < end <= |log|
    requires log[..end] <= s.log && s.commit <= |s.log|
    ensures s.log <= log && LastTerm(s.log) == s.term && s.log[..s.commit] <= s.log
  {
    assert ReignInv(en, h, s.term);
    PrefixAt(log[..end], s.log, end - 1);
    TermsSorted(en, h, s.log, end - 1, |s.log| - 1);
    WholeLogIsPrefix(h, s.log);
  }

  /** A payload that changes the log does not cut into what is committed, nor make the log older. */
  lemma CommittedShorter(en: Ensemble, h: History, s: Node, log: seq<Entry>, end: nat)
    requires HistoryInv(en, h) && ValidLog(h, s.log) && LastTerm(s.log) <= s.term
    requires s.term in h.reigns && h.reigns[s.term].log == log && h.reigns[s.term].base < end <= |log|
    requires s.commit <= |s.log| && s.log[..s.commit] <= log && !(log[..end] <= s.log)
    ensures s.log[..s.commit] <= log[..end] <= log && LastTerm(log[..end]) == s.term
    ensures VersionLeq(VersionOf(s.log), VersionOf(log[..end]))
  {
    assert ReignInv(en, h, s.term);
    PrefixRestrict(s.log[..s.commit], s.log, log, end);
    assert s.log[..s.commit] == log[..end][..s.commit];
    assert log[..end][end - 1].term == s.term;
    if s.log != [] && LastTerm(s.log) == s.term {
      WholeLogIsPrefix(h, s.log);
      PrefixRestrict(s.log, s.log, log, end);
    }
  }

  lemma PrefixRestrict(a: seq<Entry>, b: seq<Entry>, c: seq<Entry>, end: nat)
    requires a <= b && a <= c && end <= |c|
    ensures end <= |a| ==> c[..end] <= b
  {
    if end <= |a| {
      assert c[..end] == a[..end] == b[..end];
    }
  }

  lemma Accepted(en: Ensemble, h: History, i: NodeId, s: Node, m: Message, fx: Effects) returns (h': History)
    requires Good(en, h, i, s) && s.role == Follower && MessageInv(en, h, m) && m.to == i
    requires m.body.AppendRequest? && m.term == s.term
    requires TermAt(s.log, m.body.prevLogIndex) == Some(m.body.prevLogTerm)
    requires AllMessages(en, h, i, fx.messages)
    ensures var o := AcceptEntries(ConfigOf(en, i), s, m, fx);
            o.Done? && StepOf(i, h, h') && Good(en, h', i, o.node) && AllMessages(en, h', i, o.fx.messages)
  {
    MergeOutcome(en, h, i, s, m);
    h' := AcceptedMerge(en, h, i, s, m, MergeEntries(s.log, s.commit, None, [], m.body.entries), fx);
  }

  lemma AcceptedMerge(en: Ensemble, h: History, i: NodeId, s: Node, m: Message, merge: Merge, fx: Effects)
    returns (h': History)
    requires Good(en, h, i, s) && s.role == Follower && MessageInv(en, h, m) && m.to == i
    requires m.body.AppendRequest? && m.term == s.term
    requires AllMessages(en, h, i, fx.messages)
    requires merge.Merged? && PayloadEnd(m.body) == m.body.prevLogIndex + |m.body.entries|
    requires h.reigns[m.term].log[..PayloadEnd(m.body)] <= merge.log <= h.reigns[m.term].log
    requires s.log[..s.commit] <= merge.log
    requires VersionLeq(VersionOf(s.log), VersionOf(merge.log)) && LastTerm(merge.log) == m.term
    ensures var o := FinishAppend(ConfigOf(en, i), s, m, merge, fx);
            o.Done? && StepOf(i, h, h') && Good(en, h', i, o.node) && AllMessages(en, h', i, o.fx.messages)
  {
    hide HistoryInv, NodeInv, Committed;
    var o := FinishAppend(ConfigOf(en, i), s, m, merge, fx);
    h' := WithAck(h, i, s.term, |o.node.log|);
    AcceptedHistory(en, h, h', i, s, o.node.log);
    AcceptedNode(en, h, h', i, s, m, o.node);
    SentLater(en, h, h', i, fx.messages);
    var reply := AppendReply(ConfigOf(en, i), o.node, m.from, true, PayloadEnd(m.body), PayloadEnd(m.body) + 1);
    assert MessageInv(en, h', reply);
    assert o.fx.messages == fx.messages + [reply];
  }

  lemma SentLater(en: Ensemble, h: History, h': History, i: NodeId, ms: seq<Message>)
    requires Later(h, h') && AllMessages(en, h, i, ms)
    ensures AllMessages(en, h', i, ms)
  {
    forall m | m in ms ensures m.from == i && MessageInv(en, h', m) {
      MessageLater(en, h, h', m);
    }
  }

  lemma AcceptedNode(en: Ensemble, h: History, h': History, i: NodeId, s: Node, m: Message, s': Node)
    requires Good(en, h, i, s) && s.role == Follower && MessageInv(en, h, m) && HistoryInv(en, h')
    requires m.body.AppendRequest? && m.term == s.term && h' == WithAck(h, i, s.term, |s'.log|) && Later(h, h')
    requires s'.log <= h.reigns[s.term].log && LastTerm(s'.log) == s.term
    requires h.reigns[m.term].log[..m.body.prevLogIndex + |m.body.entries|] <= s'.log
    requires s.log[..s.commit] <= s'.log
    requires s' == s.(log := s'.log, commit := s'.commit)
    requires s'.commit == if m.body.leaderCommit > s.commit then Min(m.body.leaderCommit, |s'.log|) else s.commit
    requires forall t: nat :: Key(i, t) in h'.acked ==>
               t <= s.term && VersionLeq(Version(t, h'.acked[Key(i, t)]), VersionOf(s'.log))
    ensures NodeInv(en, h', i, s')
  {
    assert ReignInv(en, h, s.term);
    ReignPrefix(en, h, h', s.term, s'.log);
    AcceptedCommit(en, h, h', s, m, s');
    assert TermsBounded(h', i, s') && VoteRecorded(h', i, s');
  }

  lemma ReignPrefix(en: Ensemble, h: History, h': History, t: nat, log: seq<Entry>)
    requires t in h.reigns && ReignInv(en, h, t) && log <= h.reigns[t].log && Later(h, h')
    ensures Contiguous(log) && ValidLog(h', log)
  {
    ValidPrefix(h, h.reigns[t].log, |log|);
    assert h.reigns[t].log[..|log|] == log;
    ValidLogLater(h, h', log);
  }

  lemma AcceptedHistory(en: Ensemble, h: History, h': History, i: NodeId, s: Node, log: seq<Entry>)
    requires Good(en, h, i, s) && s.term in h.reigns && h.reigns[s.term].base < |log| && log <= h.reigns[s.term].log
    requires VersionLeq(VersionOf(s.log), VersionOf(log)) && LastTerm(log) == s.term
    requires h' == WithAck(h, i, s.term, |log|)
    ensures StepOf(i, h, h') && HistoryInv(en, h')
    ensures forall t: nat :: Key(i, t) in h'.acked ==>
              t <= s.term && VersionLeq(Version(t, h'.acked[Key(i, t)]), VersionOf(log))
  {
    hide ReignInv, Elected, ValidLog, Committed;
    assert Later(h, h') by {
      if Key(i, s.term) in h.acked {
        assert VersionLeq(Version(s.term, h.acked[Key(i, s.term)]), VersionOf(s.log));
      }
    }
    forall u | u in h'.reigns ensures ReignInv(en, h', u) {
      assert ReignInv(en, h, u);
      ReignLater(en, h, h', u);
    }
    forall k | k in h'.ballots ensures BallotInv(en, h', k) {
      assert BallotInv(en, h, k);
    }
    forall v: NodeId, a: nat, b: nat ensures VoteAfterAck(h', v, a, b) {
      assert VoteAfterAck(h, v, a, b);
    }
    forall k | k in h'.acked ensures AckInv(h', k) {
      if k != Key(i, s.term) {
        assert AckInv(h, k);
      }
    }
  }

  lemma AcceptedCommit(en: Ensemble, h: History, h': History, s: Node, m: Message, s': Node)
    requires Later(h, h') && BodyInv(en, h, m) && m.body.AppendRequest? && m.term == s.term
    requires s.commit <= |s.log| && Committed(en, h, s.log[..s.commit], s.term)
    requires s'.term == s.term && s.log[..s.commit] <= s'.log
    requires h.reigns[m.term].log[..m.body.prevLogIndex + |m.body.entries|] <= s'.log
    requires s'.commit == if m.body.leaderCommit > s.commit then Min(m.body.leaderCommit, |s'.log|) else s.commit
    ensures s'.commit <= |s'.log| && Committed(en, h', s'.log[..s'.commit], s'.term)
  {
    if m.body.leaderCommit > s.commit {
      var end := m.body.prevLogIndex + |m.body.entries|;
      assert s'.log[..end] == h.reigns[m.term].log[..end];
      assert s'.log[..s'.commit] == h.reigns[m.term].log[..m.body.leaderCommit];
      CommittedLater(en, h, h', h.reigns[m.term].log[..m.body.leaderCommit], m.term, s'.term);
    } else {
      assert s'.log[..s'.commit] == s.log[..s.commit];
      CommittedLater(en, h, h', s.log[..s.commit], s.term, s'.term);
    }
  }
}
