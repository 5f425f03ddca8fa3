/**
 What every run of a cluster keeps, whatever is lost, repeated, reordered, crashed or restarted. The
 statements speak of the states of the run alone; no history appears in them.
 */
module SafetyTheorems {
  import opened RaftTypes
  import opened Logs
  import opened Protocol
  import opened Quorums
  import opened Histories
  import opened Decisions
  import opened NodeSteps
  import opened NodeFacts
  import opened Handlers
  import opened Clusters

  ghost predicate Leads(run: seq<Cluster>, k: nat, x: NodeId) {
    k < |run| && x in run[k].nodes && run[k].nodes[x].role == Leader
  }

  ghost predicate Member(en: Ensemble, run: seq<Cluster>, k: nat, x: NodeId) {
    k < |run| && x in en.members && x in run[k].nodes
  }

  ghost predicate HasCommitted(run: seq<Cluster>, k: nat, x: NodeId, index: nat)
    requires k < |run| && x in run[k].nodes
  {
    1 <= index <= run[k].nodes[x].commit
  }

  /** The facts of one run the theorems draw on. */
  lemma Facts(en: Ensemble, run: seq<Cluster>, hs: seq<History>, j: nat, k: nat, x: NodeId)
    requires Explains(en, run, hs) && j <= k < |run| && Member(en, run, j, x)
    ensures HistoryInv(en, hs[k]) && Later(hs[j], hs[k]) && NodeInv(en, hs[j], x, run[j].nodes[x])
    ensures ValidLog(hs[k], run[j].nodes[x].log)
    ensures var s := run[j].nodes[x]; Committed(en, hs[k], s.log[..s.commit], s.term)
  {
    var s := run[j].nodes[x];
    assert Inv(en, run[j], hs[j]) && Inv(en, run[k], hs[k]);
    assert NodeInv(en, hs[j], x, s);
    ValidLogLater(hs[j], hs[k], s.log);
    CommittedLater(en, hs[j], hs[k], s.log[..s.commit], s.term, s.term);
  }

  /** Election Safety: over a whole run, crashes included, a term has at most one leader. */
  lemma ElectionSafety(en: Ensemble, run: seq<Cluster>, j: nat, k: nat, x: NodeId, y: NodeId)
    requires IsRun(en, run) && Member(en, run, j, x) && Member(en, run, k, y)
    requires Leads(run, j, x) && Leads(run, k, y) && run[j].nodes[x].term == run[k].nodes[y].term
    ensures x == y
  {
    var hs := RunInv(en, run);
    var n := Max(j, k);
    Facts(en, run, hs, j, n, x);
    Facts(en, run, hs, k, n, y);
    assert Later(hs[j], hs[n]) && Later(hs[k], hs[n]);
  }

  /** Leader Append-Only: while a node leads one term its log only grows. */
  lemma LeaderAppendOnly(en: Ensemble, run: seq<Cluster>, j: nat, k: nat, x: NodeId)
    requires IsRun(en, run) && j <= k && Member(en, run, j, x) && Member(en, run, k, x)
    requires Leads(run, j, x) && Leads(run, k, x) && run[j].nodes[x].term == run[k].nodes[x].term
    ensures run[j].nodes[x].log <= run[k].nodes[x].log
  {
    var hs := RunInv(en, run);
    Facts(en, run, hs, j, k, x);
    Facts(en, run, hs, k, k, x);
  }

  /** Log Matching: entries of equal index and term have equal logs behind them, at any two moments. */
  lemma LogMatching(en: Ensemble, run: seq<Cluster>, j: nat, k: nat, x: NodeId, y: NodeId, index: nat)
    requires IsRun(en, run) && Member(en, run, j, x) && Member(en, run, k, y)
    requires 1 <= index <= |run[j].nodes[x].log| && index <= |run[k].nodes[y].log|
    requires run[j].nodes[x].log[index - 1].term == run[k].nodes[y].log[index - 1].term
    ensures run[j].nodes[x].log[..index] == run[k].nodes[y].log[..index]
  {
    var hs := RunInv(en, run);
    var n := Max(j, k);
    Facts(en, run, hs, j, n, x);
    Facts(en, run, hs, k, n, y);
    ValidLogsAgree(hs[n], run[j].nodes[x].log, run[k].nodes[y].log, index);
  }

  lemma ValidLogsAgree(h: History, a: seq<Entry>, b: seq<Entry>, index: nat)
    requires ValidLog(h, a) && ValidLog(h, b) && 1 <= index <= |a| && index <= |b|
    requires a[index - 1].term == b[index - 1].term
    ensures a[..index] == b[..index]
  {
    ValidLogsMatch(h, a, b);
    MatchingStep(a, b, index - 1);
  }

  /** Leader Completeness: what a leader of term T ever commits is in every log of every leader of a later term. */
  lemma LeaderCompleteness(en: Ensemble, run: seq<Cluster>, j: nat, k: nat, x: NodeId, y: NodeId)
    requires IsRun(en, run) && Member(en, run, j, x) && Member(en, run, k, y)
    requires Leads(run, k, y) && run[j].nodes[x].term < run[k].nodes[y].term
    ensures var s := run[j].nodes[x]; s.commit <= |s.log| && s.log[..s.commit] <= run[k].nodes[y].log
  {
    var hs := RunInv(en, run);
    var n := Max(j, k);
    Facts(en, run, hs, j, n, x);
    Facts(en, run, hs, k, n, y);
    var s, l := run[j].nodes[x], run[k].nodes[y];
    assert Later(hs[k], hs[n]);
    CommittedInLeader(en, hs[n], s.log[..s.commit], s.term, l.term);
    ReignBase(en, hs[k], hs[n], l.term, s.log[..s.commit]);
  }

  /** What is within the base of a reign was there the moment the reign began. */
  lemma ReignBase(en: Ensemble, h: History, h': History, t: nat, prefix: seq<Entry>)
    requires HistoryInv(en, h) && Later(h, h') && t in h.reigns
    requires prefix <= h'.reigns[t].log && |prefix| <= h'.reigns[t].base
    ensures prefix <= h.reigns[t].log
  {
    assert ReignInv(en, h, t);
    assert h'.reigns[t].log[..|prefix|] == h.reigns[t].log[..|prefix|];
  }

  /** State Machine Safety: two nodes never commit different entries at one index, at any two moments. */
  lemma StateMachineSafety(en: Ensemble, run: seq<Cluster>, j: nat, k: nat, x: NodeId, y: NodeId, index: nat)
    requires IsRun(en, run) && Member(en, run, j, x) && Member(en, run, k, y)
    requires HasCommitted(run, j, x, index) && HasCommitted(run, k, y, index)
    ensures index <= |run[j].nodes[x].log| && index <= |run[k].nodes[y].log|
    ensures run[j].nodes[x].log[index - 1] == run[k].nodes[y].log[index - 1]
  {
    var hs := RunInv(en, run);
    var n := Max(j, k);
    Facts(en, run, hs, j, n, x);
    Facts(en, run, hs, k, n, y);
    var s, t := run[j].nodes[x], run[k].nodes[y];
    var a, b := s.log[..s.commit], t.log[..t.commit];
    CommittedAgree(en, hs[n], a, b, s.term, t.term);
    PrefixAt(a, b, index - 1);
    PrefixAt(b, a, index - 1);
    assert a[index - 1] == s.log[index - 1] && b[index - 1] == t.log[index - 1];
  }

  ghost function HeldBy(en: Ensemble, c: Cluster, prefix: seq<Entry>): set<NodeId> {
    set v | v in en.members && v in c.nodes && prefix <= c.nodes[v].log
  }

  /** Durability: what any node has ever committed is, from then on, in the logs of a majority at every moment. */
  lemma CommittedOnMajority(en: Ensemble, run: seq<Cluster>, j: nat, k: nat, x: NodeId)
    requires IsRun(en, run) && Member(en, run, j, x) && j <= k < |run|
    ensures var s := run[j].nodes[x]; s.commit <= |s.log| && IsQuorum(en.members, HeldBy(en, run[k], s.log[..s.commit]))
  {
    hide HistoryInv, NodeInv, ValidLog, QuorumHeld;
    var hs := RunInv(en, run);
    Facts(en, run, hs, j, k, x);
    Facts(en, run, hs, j, j, x);
    var s := run[j].nodes[x];
    CommitInLog(en, hs[j], x, s);
    assert Inv(en, run[k], hs[k]);
    MajorityHolds(en, run[k], hs[k], s.log[..s.commit], s.term, x);
  }

  lemma CommitInLog(en: Ensemble, h: History, x: NodeId, s: Node)
    requires NodeInv(en, h, x, s)
    ensures s.commit <= |s.log|
  {
  }

  lemma MajorityHolds(en: Ensemble, c: Cluster, h: History, prefix: seq<Entry>, bound: nat, x: NodeId)
    requires Inv(en, c, h) && Committed(en, h, prefix, bound) && x in en.members
    ensures IsQuorum(en.members, HeldBy(en, c, prefix))
  {
    if prefix == [] {
      DistinctCount(en.members);
      assert HeldBy(en, c, prefix) == Elements(en.members);
    } else {
      var t, m := CommittedWitness(en, h, prefix, bound);
      forall v | v in Holders(en, h, t, m) ensures v in HeldBy(en, c, prefix) {
        assert NodeInv(en, h, v, c.nodes[v]);
        HolderKeeps(en, h, c.nodes[v].log, prefix, t, m);
      }
      LargerIsQuorum(en.members, Holders(en, h, t, m), HeldBy(en, c, prefix));
    }
  }

  // ----- Where requests come from -----

  /** In state i the message's sender leads the message's term, and the message carries its log to the end. */
  ghost predicate SentFrom(en: Ensemble, run: seq<Cluster>, i: nat, m: Message)
    requires m.body.AppendRequest?
  {
    && Member(en, run, i, m.from) && Leads(run, i, m.from) && run[i].nodes[m.from].term == m.term
    && var log := run[i].nodes[m.from].log; var prev := m.body.prevLogIndex;
       && prev + |m.body.entries| == |log| && m.body.entries == log[prev..] && m.body.prevLogTerm == TermOr0(log, prev)
  }

  /** Every AppendEntries request ever sent was, at some moment before, the rest of the log of its term's leader. */
  lemma {:induction false} RequestOrigin(en: Ensemble, run: seq<Cluster>, j: nat, m: Message) returns (i: nat)
    requires IsRun(en, run) && j < |run| && m in run[j].net && m.body.AppendRequest?
    ensures i <= j && SentFrom(en, run, i, m)
    decreases j
  {
    hide Next, SentFrom;
    if j > 0 && m in run[j - 1].net {
      i := RequestOrigin(en, run, j - 1, m);
    } else {
      i := j;
      FreshRequest(en, run, j, m);
    }
  }

  lemma FreshRequest(en: Ensemble, run: seq<Cluster>, j: nat, m: Message)
    requires IsRun(en, run) && j < |run| && m in run[j].net && m.body.AppendRequest?
    requires j > 0 ==> m !in run[j - 1].net
    ensures SentFrom(en, run, j, m)
  {
    hide Next, Inv, Later, Ships;
    assert j > 0 && Next(en, run[j - 1], run[j]);
    var hs := RunInv(en, run);
    MessageFacts(en, run, hs, j, m);
    var x := JustSent(en, run[j - 1], run[j], m);
    Facts(en, run, hs, j, j, x);
    RestOfLog(en, hs[j], x, run[j].nodes[x], m);
  }

  lemma JustSent(en: Ensemble, c: Cluster, c': Cluster, m: Message) returns (x: NodeId)
    requires Next(en, c, c') && m in c'.net && m !in c.net && m.body.AppendRequest?
    ensures x == m.from && x in en.members && x in c'.nodes && c'.nodes[x].term == m.term && Ships(c'.nodes[x], m)
  {
    hide Handle, Ships;
    var e: Event;
    x, e :| NodeStep(en, c, c', x, e);
    EventStamped(ConfigOf(en, x), c.nodes[x], e);
    EventShips(ConfigOf(en, x), c.nodes[x], e);
  }

  lemma RestOfLog(en: Ensemble, h: History, x: NodeId, s: Node, m: Message)
    requires Good(en, h, x, s) && MessageInv(en, h, m) && m.body.AppendRequest? && m.from == x && s.term == m.term
    requires Ships(s, m)
    ensures s.role == Leader && m.body.prevLogIndex + |m.body.entries| == |s.log|
    ensures m.body.entries == s.log[m.body.prevLogIndex..] && m.body.prevLogTerm == TermOr0(s.log, m.body.prevLogIndex)
  {
    hide HistoryInv, ValidLog, Committed, TermsBounded, VoteRecorded, CandidateInv;
    SliceOfLeader(en, h, x, s, m);
  }

  /** And it stays a slice of that leader's log, wherever the leader is seen later. */
  lemma RequestsAreSlices(en: Ensemble, run: seq<Cluster>, j: nat, k: nat, m: Message, x: NodeId)
    requires IsRun(en, run) && j <= k && m.body.AppendRequest? && j < |run| && m in run[j].net
    requires Member(en, run, k, x) && Leads(run, k, x) && run[k].nodes[x].term == m.term
    ensures x == m.from
    ensures var log := run[k].nodes[x].log; var prev := m.body.prevLogIndex;
            && prev + |m.body.entries| <= |log|
            && m.body.entries == log[prev..prev + |m.body.entries|]
            && m.body.prevLogTerm == TermOr0(log, prev)
  {
    var i := RequestOrigin(en, run, j, m);
    ElectionSafety(en, run, i, k, m.from, x);
    LeaderAppendOnly(en, run, i, k, x);
  }

  /** So no request a node of the cluster meets cuts into what it appends itself. */
  lemma RequestsNeverCutThemselves(en: Ensemble, run: seq<Cluster>, k: nat, i: NodeId, m: Message)
    requires IsRun(en, run) && Member(en, run, k, i) && m in run[k].net && m.to == i
    ensures !CutsItself(run[k].nodes[i], Deliver(m))
  {
    hide Handle, CutsItself, Inv, WellFormed, Advances;
    var s := run[k].nodes[i];
    NodesStayWellFormed(en, run, k, i);
    GuardsNeverFire(en, run, k, i, Deliver(m));
    if m.body.AppendRequest? {
      var j := RequestOrigin(en, run, k, m);
      NodesStayWellFormed(en, run, j, m.from);
      RestIsConsecutive(ConfigOf(en, m.from), run[j].nodes[m.from], m);
    }
    EventSound(ConfigOf(en, i), s, Deliver(m));
    EffectsReplayExactly(ConfigOf(en, i), s, Deliver(m));
  }

  lemma RestIsConsecutive(cfg: Config, s: Node, m: Message)
    requires WellFormed(cfg, s) && m.body.AppendRequest? && m.body.prevLogIndex <= |s.log|
    requires m.body.entries == s.log[m.body.prevLogIndex..]
    ensures Consecutive(m.body.entries)
  {
  }

  // ----- What an acknowledgment stands for -----

  /** The request an acknowledgment answers, and the moment it was the rest of its leader's log. */
  ghost predicate Acknowledges(en: Ensemble, run: seq<Cluster>, i: nat, q: Message, m: Message) {
    && q.body.AppendRequest? && m.body.AppendResponse? && q.to == m.from && q.from == m.to && q.term == m.term
    && m.body.matchIndex == q.body.prevLogIndex + |q.body.entries| && SentFrom(en, run, i, q)
  }

  /** Every acknowledgment ever sent is of the whole log its term's leader had at some moment before. */
  lemma {:induction false} AckOrigin(en: Ensemble, run: seq<Cluster>, j: nat, m: Message) returns (i: nat, q: Message)
    requires IsRun(en, run) && j < |run| && m in run[j].net && m.body.AppendResponse? && m.body.success
    ensures i <= j && Acknowledges(en, run, i, q, m)
    decreases j
  {
    hide Next, Acknowledges;
    if j > 0 && m in run[j - 1].net {
      i, q := AckOrigin(en, run, j - 1, m);
    } else {
      i, q := FreshAck(en, run, j, m);
    }
  }

  lemma FreshAck(en: Ensemble, run: seq<Cluster>, j: nat, m: Message) returns (i: nat, q: Message)
    requires IsRun(en, run) && j < |run| && m in run[j].net && m.body.AppendResponse? && m.body.success
    requires j > 0 ==> m !in run[j - 1].net
    ensures i <= j && Acknowledges(en, run, i, q, m)
  {
    hide Next, Inv, SentFrom, MessageInv;
    assert j > 0 && Next(en, run[j - 1], run[j]);
    q := JustAcked(en, run[j - 1], run[j], m);
    i := RequestOrigin(en, run, j - 1, q);
    var hs := RunInv(en, run);
    MessageFacts(en, run, hs, j - 1, q);
    RequestEnds(en, hs[j - 1], q);
  }

  lemma JustAcked(en: Ensemble, c: Cluster, c': Cluster, m: Message) returns (q: Message)
    requires Next(en, c, c') && m in c'.net && m !in c.net && m.body.AppendResponse? && m.body.success
    ensures q in c.net && q.body.AppendRequest? && q.to == m.from && q.from == m.to && q.term == m.term
    ensures m.body.matchIndex == PayloadEnd(q.body)
  {
    hide Handle, PayloadEnd;
    var x: NodeId, e: Event :| NodeStep(en, c, c', x, e);
    EventAcks(ConfigOf(en, x), c.nodes[x], e, m);
    EventStamped(ConfigOf(en, x), c.nodes[x], e);
    q := e.message;
  }

  lemma RequestEnds(en: Ensemble, h: History, q: Message)
    requires HistoryInv(en, h) && MessageInv(en, h, q) && q.body.AppendRequest?
    ensures PayloadEnd(q.body) == q.body.prevLogIndex + |q.body.entries|
  {
    assert ReignInv(en, h, q.term);
    SliceEnds(q.body, h.reigns[q.term].log);
  }

  /** As long as the sender stays in the term it acknowledged in, it holds that log entry for entry. */
  lemma AckedIsHeld(en: Ensemble, run: seq<Cluster>, j: nat, k: nat, m: Message) returns (i: nat, q: Message)
    requires IsRun(en, run) && j <= k && j < |run| && m in run[j].net && m.body.AppendResponse? && m.body.success
    requires Member(en, run, k, m.from) && run[k].nodes[m.from].term == m.term
    ensures i <= j && Acknowledges(en, run, i, q, m)
    ensures var s := run[k].nodes[m.from];
            m.body.matchIndex <= |s.log| && s.log[..m.body.matchIndex] == run[i].nodes[q.from].log
  {
    i, q := AckOrigin(en, run, j, m);
    var hs := RunInv(en, run);
    MessageFacts(en, run, hs, j, m);
    assert Later(hs[j], hs[k]);
    MessageLater(en, hs[j], hs[k], m);
    Facts(en, run, hs, k, k, m.from);
    Facts(en, run, hs, i, k, q.from);
    WithinReign(hs[i], hs[k], m.term, run[i].nodes[q.from].log);
    SenderHolds(en, hs[k], m.from, run[k].nodes[m.from], m);
  }

  lemma SenderHolds(en: Ensemble, h: History, i: NodeId, s: Node, m: Message)
    requires Good(en, h, i, s) && MessageInv(en, h, m) && m.from == i && m.term == s.term
    requires m.body.AppendResponse? && m.body.success
    ensures m.term in h.reigns && m.body.matchIndex <= |s.log| && m.body.matchIndex <= |h.reigns[m.term].log|
    ensures s.log[..m.body.matchIndex] == h.reigns[m.term].log[..m.body.matchIndex]
  {
    hide Committed, CandidateInv, VoteRecorded, LeaderInv;
    assert AckInv(h, Key(i, m.term)) && ReignInv(en, h, m.term);
    assert VersionLeq(Version(m.term, h.acked[Key(i, m.term)]), VersionOf(s.log));
    WholeLogIsPrefix(h, s.log);
  }

  lemma MessageFacts(en: Ensemble, run: seq<Cluster>, hs: seq<History>, j: nat, m: Message)
    requires Explains(en, run, hs) && j < |run| && m in run[j].net
    ensures HistoryInv(en, hs[j]) && MessageInv(en, hs[j], m)
  {
    assert Inv(en, run[j], hs[j]);
  }

  lemma SliceOfLeader(en: Ensemble, h: History, x: NodeId, s: Node, m: Message)
    requires HistoryInv(en, h) && NodeInv(en, h, x, s) && s.role == Leader
    requires MessageInv(en, h, m) && m.body.AppendRequest? && m.term == s.term
    ensures x == m.from
    ensures var prev := m.body.prevLogIndex;
            && prev + |m.body.entries| <= |s.log|
            && m.body.entries == s.log[prev..prev + |m.body.entries|]
            && m.body.prevLogTerm == TermOr0(s.log, prev)
  {
  }

  /** Commit bound: no request ever sent announces a commit index beyond what it verifies. */
  lemma CommitBound(en: Ensemble, run: seq<Cluster>, k: nat, m: Message)
    requires IsRun(en, run) && k < |run| && m in run[k].net && m.body.AppendRequest?
    ensures m.body.leaderCommit <= m.body.prevLogIndex + |m.body.entries|
  {
    var hs := RunInv(en, run);
    MessageFacts(en, run, hs, k, m);
  }

  /** So, for a receiver that accepts, bounding by its own last index is the same as bounding by the last new entry. */
  lemma BoundsCoincide(en: Ensemble, run: seq<Cluster>, k: nat, m: Message, i: NodeId)
    requires IsRun(en, run) && k < |run| && m in run[k].net && m.body.AppendRequest?
    requires Member(en, run, k, i) && m.to == i && m.term >= run[k].nodes[i].term
    requires TermAt(run[k].nodes[i].log, m.body.prevLogIndex) == Some(m.body.prevLogTerm)
    ensures var s := run[k].nodes[i]; var end := m.body.prevLogIndex + |m.body.entries|;
            var r := MergeEntries(s.log, s.commit, None, [], m.body.entries);
            r.Merged? && end <= |r.log| && Min(m.body.leaderCommit, |r.log|) == Min(m.body.leaderCommit, end)
  {
    CommitBound(en, run, k, m);
    var hs := RunInv(en, run);
    MessageFacts(en, run, hs, k, m);
    Facts(en, run, hs, k, k, i);
    CaughtUp(en, hs[k], i, run[k].nodes[i], m);
    var end := m.body.prevLogIndex + |m.body.entries|;
    var r := MergeEntries(run[k].nodes[i].log, run[k].nodes[i].commit, None, [], m.body.entries);
    assert |hs[k].reigns[m.term].log[..end]| <= |r.log|;
  }

  /** The merge of an honest request, also when it brings the receiver a newer term. */
  lemma CaughtUp(en: Ensemble, h: History, i: NodeId, s: Node, m: Message)
    requires Good(en, h, i, s) && MessageInv(en, h, m) && m.to == i && m.term >= s.term && m.body.AppendRequest?
    requires TermAt(s.log, m.body.prevLogIndex) == Some(m.body.prevLogTerm)
    ensures var log := h.reigns[m.term].log;
            var end := m.body.prevLogIndex + |m.body.entries|;
            var r := MergeEntries(s.log, s.commit, None, [], m.body.entries);
            && r.Merged? && end <= |log| && log[..end] <= r.log <= log
  {
    Demoted(en, h, i, s, m.term, None, NO_EFFECTS);
    MergeOutcome(en, h, i, BecomeFollower(s, m.term, None, NO_EFFECTS).node, m);
  }

  /**
   An accepted request leaves the follower with the sender's log as a prefix; whatever it holds
   beyond that is of the same term and is in the log of that leader too.
   */
  lemma FollowerMirrorsLeader(en: Ensemble, run: seq<Cluster>, k: nat, m: Message, i: NodeId, n: nat) returns (j: nat)
    requires IsRun(en, run) && k <= n && m.body.AppendRequest?
    requires Member(en, run, k, i) && m in run[k].net && m.to == i && m.term >= run[k].nodes[i].term
    requires TermAt(run[k].nodes[i].log, m.body.prevLogIndex) == Some(m.body.prevLogTerm)
    ensures j <= k && SentFrom(en, run, j, m)
    ensures var sent := run[j].nodes[m.from].log;
            var o := Handle(ConfigOf(en, i), run[k].nodes[i], Deliver(m));
            && o.Done? && sent <= o.node.log
            && (forall p :: |sent| <= p < |o.node.log| ==> o.node.log[p].term == m.term)
            && (Leads(run, n, m.from) && run[n].nodes[m.from].term == m.term ==> o.node.log <= run[n].nodes[m.from].log)
  {
    j := RequestOrigin(en, run, k, m);
    var hs := RunInv(en, run);
    MessageFacts(en, run, hs, k, m);
    Facts(en, run, hs, k, k, i);
    Facts(en, run, hs, j, k, m.from);
    MirrorsReign(en, hs[k], i, run[k].nodes[i], m);
    WithinReign(hs[j], hs[k], m.term, run[j].nodes[m.from].log);
    if Leads(run, n, m.from) && run[n].nodes[m.from].term == m.term {
      Facts(en, run, hs, n, n, m.from);
      assert Later(hs[k], hs[n]);
      PrefixTransitive(Handle(ConfigOf(en, i), run[k].nodes[i], Deliver(m)).node.log, hs[k].reigns[m.term].log,
                       run[n].nodes[m.from].log);
    }
  }

  lemma WithinReign(h: History, h': History, t: nat, log: seq<Entry>)
    requires Later(h, h') && t in h.reigns && h.reigns[t].log == log
    ensures |log| <= |h'.reigns[t].log| && log == h'.reigns[t].log[..|log|]
  {
  }

  lemma MirrorsReign(en: Ensemble, h: History, i: NodeId, s: Node, m: Message)
    requires Good(en, h, i, s) && MessageInv(en, h, m) && m.to == i && m.term >= s.term && m.body.AppendRequest?
    requires TermAt(s.log, m.body.prevLogIndex) == Some(m.body.prevLogTerm)
    ensures var o := Handle(ConfigOf(en, i), s, Deliver(m));
            var log := h.reigns[m.term].log;
            var end := m.body.prevLogIndex + |m.body.entries|;
            && o.Done? && end <= |log| && log[..end] <= o.node.log <= log
            && (forall p :: end <= p < |o.node.log| ==> o.node.log[p].term == m.term)
  {
    CaughtUp(en, h, i, s, m);
    Accepting(ConfigOf(en, i), s, m);
    assert ReignInv(en, h, m.term);
  }

  /**
   The runtime guards never fire: from any state of a run, any event the cluster can produce is handled
   without a throw, except that a proposal may be refused, which changes nothing. The engine's own
   assertions hold afterwards.
   */
  lemma GuardsNeverFire(en: Ensemble, run: seq<Cluster>, k: nat, i: NodeId, e: Event)
    requires IsRun(en, run) && Member(en, run, k, i)
    requires e.Deliver? ==> e.message in run[k].net && e.message.to == i
    ensures var s := run[k].nodes[i]; var o := Handle(ConfigOf(en, i), s, e);
            && (o.Threw? ==> e.Propose? && o.node == s && ClientError(o.error))
            && WellFormed(ConfigOf(en, i), o.node)
  {
    var hs := RunInv(en, run);
    Facts(en, run, hs, k, k, i);
    assert Inv(en, run[k], hs[k]);
    var s := run[k].nodes[i];
    var h' := EventHandled(en, hs[k], i, s, e);
    InvIsWellFormed(en, hs[k], i, s);
    EventSound(ConfigOf(en, i), s, e);
  }

  lemma InvIsWellFormed(en: Ensemble, h: History, i: NodeId, s: Node)
    requires NodeInv(en, h, i, s)
    ensures WellFormed(ConfigOf(en, i), s)
  {
  }

  lemma NodesStayWellFormed(en: Ensemble, run: seq<Cluster>, k: nat, x: NodeId)
    requires IsRun(en, run) && Member(en, run, k, x)
    ensures WellFormed(ConfigOf(en, x), run[k].nodes[x])
  {
    hide NodeInv, WellFormed;
    var hs := RunInv(en, run);
    Facts(en, run, hs, k, k, x);
    InvIsWellFormed(en, hs[k], x, run[k].nodes[x]);
  }

  /** Terms, votes, commit indexes and committed entries of a node never go back over a run, restarts included. */
  lemma {:induction false} NothingGoesBack(en: Ensemble, run: seq<Cluster>, j: nat, k: nat, x: NodeId)
    requires IsRun(en, run) && j <= k && Member(en, run, j, x) && Member(en, run, k, x)
    ensures Advances(run[j].nodes[x], run[k].nodes[x])
    decreases k - j
  {
    var hs := RunInv(en, run);
    Facts(en, run, hs, j, j, x);
    if j < k {
      assert Inv(en, run[j], hs[j]);
      StepAdvances(en, run[j], hs[j], run[j + 1], x);
      NothingGoesBack(en, run, j + 1, k, x);
      AdvancesTransitive(run[j].nodes[x], run[j + 1].nodes[x], run[k].nodes[x]);
    }
  }

  lemma StepAdvances(en: Ensemble, c: Cluster, h: History, c': Cluster, x: NodeId)
    requires Inv(en, c, h) && Next(en, c, c') && x in en.members
    ensures x in c'.nodes && Advances(c.nodes[x], c'.nodes[x])
  {
    hide NodeInv, WellFormed, Handle, HistoryInv;
    assert NodeInv(en, h, x, c.nodes[x]);
    InvIsWellFormed(en, h, x, c.nodes[x]);
    if i: NodeId :| RestartStep(en, c, c', i) {
    } else if c' != c {
      var i: NodeId, e: Event :| NodeStep(en, c, c', i, e);
      if i == x {
        EventSound(ConfigOf(en, x), c.nodes[x], e);
      }
    }
  }

  // ----- What a node looks like in any run -----

  /** Terms never fall along a log, and never exceed the node's own. */
  lemma TermsNeverFall(en: Ensemble, run: seq<Cluster>, k: nat, x: NodeId, i: nat, j: nat)
    requires IsRun(en, run) && Member(en, run, k, x) && i <= j < |run[k].nodes[x].log|
    ensures var s := run[k].nodes[x]; 1 <= s.log[i].term <= s.log[j].term <= s.term
  {
    var hs := RunInv(en, run);
    Facts(en, run, hs, k, k, x);
    TermsSorted(en, hs[k], run[k].nodes[x].log, i, j);
  }

  /** A leader voted for itself, ends its log with its own term, and tracks every peer within that log. */
  lemma LeaderBookkeeping(en: Ensemble, run: seq<Cluster>, k: nat, x: NodeId, p: NodeId)
    requires IsRun(en, run) && Member(en, run, k, x) && Leads(run, k, x) && p in en.members && p != x
    ensures var s := run[k].nodes[x];
            && s.votedFor == Some(x) && s.log != [] && LastTerm(s.log) == s.term
            && p in s.progress && 1 <= s.progress[p].next <= |s.log| + 1 && s.progress[p].matched <= |s.log|
  {
    var hs := RunInv(en, run);
    Facts(en, run, hs, k, k, x);
    TrackedWithinLog(en, hs[k], x, run[k].nodes[x], p);
  }

  lemma TrackedWithinLog(en: Ensemble, h: History, x: NodeId, s: Node, p: NodeId)
    requires Good(en, h, x, s) && s.role == Leader && p in en.members && p != x
    ensures s.votedFor == Some(x) && s.log != [] && LastTerm(s.log) == s.term
    ensures p in s.progress && s.progress[p].next <= |s.log| + 1 && s.progress[p].matched <= |s.log|
  {
    assert ReignInv(en, h, s.term) && ProgressInv(h, p, s);
    if s.progress[p].matched > 0 {
      assert AckInv(h, Key(p, s.term));
    }
  }

  /** What a leader believes a peer holds, the peer's log does hold, as long as the peer is in that term. */
  lemma MatchIsHeld(en: Ensemble, run: seq<Cluster>, k: nat, x: NodeId, p: NodeId)
    requires IsRun(en, run) && Member(en, run, k, x) && Member(en, run, k, p) && Leads(run, k, x) && p != x
    requires run[k].nodes[p].term == run[k].nodes[x].term && p in run[k].nodes[x].progress
    ensures var s, t := run[k].nodes[x], run[k].nodes[p]; var index := s.progress[p].matched;
            index <= |s.log| && index <= |t.log| && t.log[..index] == s.log[..index]
  {
    var hs := RunInv(en, run);
    Facts(en, run, hs, k, k, x);
    Facts(en, run, hs, k, k, p);
    HeldByPeer(en, hs[k], x, run[k].nodes[x], p, run[k].nodes[p]);
  }

  lemma HeldByPeer(en: Ensemble, h: History, x: NodeId, s: Node, p: NodeId, t: Node)
    requires Good(en, h, x, s) && NodeInv(en, h, p, t) && s.role == Leader && t.term == s.term && p in s.progress
    ensures var index := s.progress[p].matched; index <= |s.log| && index <= |t.log| && t.log[..index] == s.log[..index]
  {
    hide Committed, CandidateInv, VoteRecorded;
    assert ProgressInv(h, p, s);
    if s.progress[p].matched > 0 {
      assert AckInv(h, Key(p, s.term)) && ReignInv(en, h, s.term);
      assert VersionLeq(Version(s.term, h.acked[Key(p, s.term)]), VersionOf(t.log));
      WholeLogIsPrefix(h, t.log);
    }
  }

  /** While a node is a candidate its log is the one it asked for votes with. */
  lemma CandidateLogStands(en: Ensemble, run: seq<Cluster>, j: nat, k: nat, m: Message, x: NodeId)
    requires IsRun(en, run) && j <= k && j < |run| && m in run[j].net && m.body.VoteRequest? && m.from == x
    requires Member(en, run, k, x) && run[k].nodes[x].role == Candidate && run[k].nodes[x].term == m.term
    ensures var s := run[k].nodes[x]; m.body.lastLogIndex == |s.log| && m.body.lastLogTerm == LastTerm(s.log)
  {
    var hs := RunInv(en, run);
    Facts(en, run, hs, k, k, x);
    assert Later(hs[j], hs[k]);
    MessageFacts(en, run, hs, j, m);
  }
}
