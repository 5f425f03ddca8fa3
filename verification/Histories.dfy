/**
 What a run has done so far, kept beside the cluster for the proofs: every leader's log, every
 campaign, every vote, and how far each node's log reached in each term.
 */
module Histories {
  import opened RaftTypes
  import opened Logs
  import opened Protocol
  import opened Quorums

  datatype Ensemble = Ensemble(cluster: string, members: seq<NodeId>, maxBytes: nat)

  function ConfigOf(en: Ensemble, i: NodeId): Config {
    Config(i, en.cluster, en.members, en.maxBytes)
  }

  datatype Key = Key(node: NodeId, term: nat)

  /** A term's leader, the length of the log it was elected with, and its log so far. */
  datatype Reign = Reign(leader: NodeId, base: nat, log: seq<Entry>)

  datatype Ballot = Ballot(candidate: NodeId, version: Version)

  datatype History = History(reigns: map<nat, Reign>, candidacies: map<Key, Version>,
                             ballots: map<Key, Ballot>, acked: map<Key, nat>)

  const NO_HISTORY := History(map[], map[], map[], map[])

  ghost predicate ReignGrows(a: Reign, b: Reign) {
    a.leader == b.leader && a.base == b.base && a.log <= b.log
  }

  /** History only accumulates. */
  ghost predicate Later(h: History, h': History) {
    && (forall t :: t in h.reigns ==> t in h'.reigns && ReignGrows(h.reigns[t], h'.reigns[t]))
    && (forall k :: k in h.candidacies ==> k in h'.candidacies && h'.candidacies[k] == h.candidacies[k])
    && (forall k :: k in h.ballots ==> k in h'.ballots && h'.ballots[k] == h.ballots[k])
    && (forall k :: k in h.acked ==> k in h'.acked && h.acked[k] <= h'.acked[k])
  }

  /** Everything new was done by node i. */
  ghost predicate OnlyBy(i: NodeId, h: History, h': History) {
    && (forall t :: t in h'.reigns && (t !in h.reigns || h'.reigns[t] != h.reigns[t]) ==> h'.reigns[t].leader == i)
    && (forall k :: k in h'.candidacies && k !in h.candidacies ==> k.node == i)
    && (forall k :: k in h'.ballots && k !in h.ballots ==> k.node == i)
    && (forall k :: k in h'.acked && k.node != i ==> k in h.acked && h'.acked[k] == h.acked[k])
  }

  ghost predicate StepOf(i: NodeId, h: History, h': History) {
    Later(h, h') && OnlyBy(i, h, h')
  }

  lemma LaterTransitive(a: History, b: History, c: History)
    requires Later(a, b) && Later(b, c)
    ensures Later(a, c)
  {
    forall t | t in a.reigns ensures t in c.reigns && ReignGrows(a.reigns[t], c.reigns[t]) {
      PrefixTransitive(a.reigns[t].log, b.reigns[t].log, c.reigns[t].log);
    }
  }

  lemma PrefixTransitive(a: seq<Entry>, b: seq<Entry>, c: seq<Entry>)
    requires a <= b && b <= c
    ensures a <= c
  {
  }

  lemma StepTransitive(i: NodeId, a: History, b: History, c: History)
    requires StepOf(i, a, b) && StepOf(i, b, c)
    ensures StepOf(i, a, c)
  {
    LaterTransitive(a, b, c);
  }

  // ----- Logs made of leaders' prefixes -----

  ghost predicate SlotValid(h: History, log: seq<Entry>, k: nat)
    requires k < |log|
  {
    log[k].term in h.reigns && log[..k + 1] <= h.reigns[log[k].term].log
  }

  /** Up to each entry, the log is a prefix of the log of the leader that entry names. */
  ghost predicate ValidLog(h: History, log: seq<Entry>) {
    forall k {:trigger SlotValid(h, log, k)} :: 0 <= k < |log| ==> SlotValid(h, log, k)
  }

  // ----- Quorums recorded in history -----

  ghost function Voters(en: Ensemble, h: History, t: nat, x: NodeId): set<NodeId> {
    set v | v in en.members && Key(v, t) in h.ballots && h.ballots[Key(v, t)].candidate == x
  }

  ghost predicate Elected(en: Ensemble, h: History, t: nat, x: NodeId) {
    IsQuorum(en.members, Voters(en, h, t, x))
  }

  ghost function Holders(en: Ensemble, h: History, t: nat, m: nat): set<NodeId> {
    set v | v in en.members && Key(v, t) in h.acked && h.acked[Key(v, t)] >= m
  }

  /** A majority held the leader of term t's log up to index m, in term t, and slot m is of term t. */
  ghost predicate QuorumHeld(en: Ensemble, h: History, t: nat, m: nat) {
    && t in h.reigns && h.reigns[t].base < m <= |h.reigns[t].log|
    && IsQuorum(en.members, Holders(en, h, t, m))
  }

  /** The prefix is covered by a decision taken in some term up to `bound`. */
  ghost predicate Committed(en: Ensemble, h: History, prefix: seq<Entry>, bound: nat) {
    prefix == [] || exists t: nat, m: nat :: t <= bound && QuorumHeld(en, h, t, m) && |prefix| <= m && prefix <= h.reigns[t].log
  }

  // ----- Invariants of history -----

  ghost predicate ReignInv(en: Ensemble, h: History, t: nat)
    requires t in h.reigns
  {
    var r := h.reigns[t];
    && 1 <= t && r.leader in en.members
    && r.base < |r.log|
    && Contiguous(r.log) && ValidLog(h, r.log) && (forall e :: e in r.log ==> Named(e))
    && (forall k :: 0 <= k < r.base ==> r.log[k].term < t)
    && (forall k :: r.base <= k < |r.log| ==> r.log[k].term == t)
    && Key(r.leader, t) in h.candidacies && h.candidacies[Key(r.leader, t)] == VersionOf(r.log[..r.base])
    && Elected(en, h, t, r.leader)
  }

  ghost predicate BallotInv(en: Ensemble, h: History, k: Key)
    requires k in h.ballots
  {
    var b := h.ballots[k];
    && Key(b.candidate, k.term) in h.candidacies
    && VersionLeq(b.version, h.candidacies[Key(b.candidate, k.term)])
  }

  /** A vote in a later term was cast by a log at least as new as everything acknowledged before. */
  ghost predicate VoteAfterAck(h: History, v: NodeId, t: nat, u: nat) {
    (t < u && Key(v, t) in h.acked && Key(v, u) in h.ballots) ==>
      VersionLeq(Version(t, h.acked[Key(v, t)]), h.ballots[Key(v, u)].version)
  }

  ghost predicate AckInv(h: History, k: Key)
    requires k in h.acked
  {
    k.term in h.reigns && h.reigns[k.term].base < h.acked[k] <= |h.reigns[k.term].log|
  }

  ghost predicate HistoryInv(en: Ensemble, h: History) {
    && Distinct(en.members)
    && (forall t {:trigger ReignInv(en, h, t)} :: t in h.reigns ==> ReignInv(en, h, t))
    && (forall k {:trigger BallotInv(en, h, k)} :: k in h.ballots ==> BallotInv(en, h, k))
    && (forall v: NodeId, t: nat, u: nat :: VoteAfterAck(h, v, t, u))
    && (forall k {:trigger AckInv(h, k)} :: k in h.acked ==> AckInv(h, k))
  }

  // ----- Invariant of one node -----

  ghost predicate TermsBounded(h: History, i: NodeId, s: Node) {
    && (forall t: nat :: Key(i, t) in h.candidacies ==> t <= s.term)
    && (forall t: nat :: Key(i, t) in h.ballots ==> t <= s.term)
    && (forall t: nat :: Key(i, t) in h.acked ==> t <= s.term && VersionLeq(Version(t, h.acked[Key(i, t)]), VersionOf(s.log)))
    && (forall t :: t in h.reigns && h.reigns[t].leader == i ==> t <= s.term)
  }

  ghost predicate VoteRecorded(h: History, i: NodeId, s: Node) {
    && (Key(i, s.term) in h.ballots ==> s.votedFor == Some(h.ballots[Key(i, s.term)].candidate))
    && (s.votedFor.Some? ==> Key(i, s.term) in h.ballots)
  }

  ghost predicate CandidateInv(en: Ensemble, h: History, i: NodeId, s: Node) {
    && s.votedFor == Some(i)
    && s.votes <= Voters(en, h, s.term, i)
    && LastTerm(s.log) < s.term
    && Key(i, s.term) in h.candidacies && h.candidacies[Key(i, s.term)] == VersionOf(s.log)
    && (s.term in h.reigns ==> h.reigns[s.term].leader != i)
  }

  ghost predicate ProgressInv(h: History, p: NodeId, s: Node)
    requires p in s.progress
  {
    var g := s.progress[p];
    && g.next <= |s.log| + 1
    && (g.matched > 0 ==> Key(p, s.term) in h.acked && g.matched <= h.acked[Key(p, s.term)])
  }

  ghost predicate LeaderInv(en: Ensemble, h: History, i: NodeId, s: Node) {
    && s.votedFor == Some(i)
    && s.term in h.reigns && h.reigns[s.term].leader == i && h.reigns[s.term].log == s.log
    && Key(i, s.term) in h.acked && h.acked[Key(i, s.term)] == |s.log|
    && s.progress.Keys == Elements(en.members) - {i}
    && (forall p {:trigger ProgressInv(h, p, s)} :: p in s.progress ==> ProgressInv(h, p, s))
  }

  ghost predicate NodeInv(en: Ensemble, h: History, i: NodeId, s: Node) {
    && i in en.members
    && Contiguous(s.log) && ValidLog(h, s.log) && LastTerm(s.log) <= s.term
    && s.commit <= |s.log| && Committed(en, h, s.log[..s.commit], s.term)
    && TermsBounded(h, i, s) && VoteRecorded(h, i, s)
    && (s.role == Candidate ==> CandidateInv(en, h, i, s))
    && (s.role == Leader ==> LeaderInv(en, h, i, s))
  }

  // ----- Invariant of one message -----

  ghost predicate SliceOf(h: History, m: Message)
    requires m.body.AppendRequest? && m.term in h.reigns
  {
    var log := h.reigns[m.term].log;
    var prev := m.body.prevLogIndex;
    var end := prev + |m.body.entries|;
    && h.reigns[m.term].base < end <= |log|
    && m.body.entries == log[prev..end]
    && m.body.prevLogTerm == TermOr0(log, prev)
  }

  ghost predicate BodyInv(en: Ensemble, h: History, m: Message) {
    match m.body
    case VoteRequest(index, term) =>
      Key(m.from, m.term) in h.candidacies && h.candidacies[Key(m.from, m.term)] == Version(term, index)
    case VoteResponse(granted) =>
      granted ==> Key(m.from, m.term) in h.ballots && h.ballots[Key(m.from, m.term)].candidate == m.to
    case AppendRequest(prev, _, entries, commit) =>
      && m.term in h.reigns && h.reigns[m.term].leader == m.from && SliceOf(h, m)
      && commit <= prev + |entries|
      && Committed(en, h, h.reigns[m.term].log[..commit], m.term)
    case AppendResponse(success, index, hint) =>
      && (success ==> Key(m.from, m.term) in h.acked && index <= h.acked[Key(m.from, m.term)])
      && (!success ==> hint >= 1)
  }

  ghost predicate MessageInv(en: Ensemble, h: History, m: Message) {
    && m.version == PROTOCOL_VERSION && m.cluster == en.cluster
    && m.from in en.members && m.to in en.members && m.from != m.to
    && BodyInv(en, h, m)
  }

  // ----- Everything above is stable under later history -----

  lemma ValidLogLater(h: History, h': History, log: seq<Entry>)
    requires Later(h, h') && ValidLog(h, log)
    ensures ValidLog(h', log)
  {
    forall k | 0 <= k < |log| ensures SlotValid(h', log, k) {
      assert SlotValid(h, log, k);
      PrefixTransitive(log[..k + 1], h.reigns[log[k].term].log, h'.reigns[log[k].term].log);
    }
  }

  lemma QuorumHeldLater(en: Ensemble, h: History, h': History, t: nat, m: nat)
    requires Later(h, h') && QuorumHeld(en, h, t, m)
    ensures QuorumHeld(en, h', t, m)
  {
    LargerIsQuorum(en.members, Holders(en, h, t, m), Holders(en, h', t, m));
  }

  lemma ElectedLater(en: Ensemble, h: History, h': History, t: nat, x: NodeId)
    requires Later(h, h') && Elected(en, h, t, x)
    ensures Elected(en, h', t, x)
  {
    LargerIsQuorum(en.members, Voters(en, h, t, x), Voters(en, h', t, x));
  }

  lemma CommittedLater(en: Ensemble, h: History, h': History, prefix: seq<Entry>, bound: nat, bound': nat)
    requires Later(h, h') && Committed(en, h, prefix, bound) && bound <= bound'
    ensures Committed(en, h', prefix, bound')
  {
    if prefix != [] {
      var t: nat, m: nat :| t <= bound && QuorumHeld(en, h, t, m) && |prefix| <= m && prefix <= h.reigns[t].log;
      QuorumHeldLater(en, h, h', t, m);
      PrefixTransitive(prefix, h.reigns[t].log, h'.reigns[t].log);
    }
  }

  lemma MessageLater(en: Ensemble, h: History, h': History, m: Message)
    requires Later(h, h') && MessageInv(en, h, m)
    ensures MessageInv(en, h', m)
  {
    if m.body.AppendRequest? {
      var log, log' := h.reigns[m.term].log, h'.reigns[m.term].log;
      assert log'[..m.body.leaderCommit] == log[..m.body.leaderCommit];
      CommittedLater(en, h, h', log[..m.body.leaderCommit], m.term, m.term);
      var end := m.body.prevLogIndex + |m.body.entries|;
      assert log'[m.body.prevLogIndex..end] == log[m.body.prevLogIndex..end];
    }
  }

  lemma NodeLater(en: Ensemble, h: History, h': History, i: NodeId, j: NodeId, s: Node)
    requires StepOf(i, h, h') && i != j && NodeInv(en, h, j, s)
    ensures NodeInv(en, h', j, s)
  {
    ValidLogLater(h, h', s.log);
    CommittedLater(en, h, h', s.log[..s.commit], s.term, s.term);
    assert Voters(en, h, s.term, j) <= Voters(en, h', s.term, j);
    if s.role == Leader {
      forall p | p in s.progress ensures ProgressInv(h', p, s) {
        assert ProgressInv(h, p, s);
      }
    }
  }
}
