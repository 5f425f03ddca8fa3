/**
 A leader and one lagging peer left to themselves, one exchange at a time: how many rejections it
 takes before the peer accepts, and what it ends up with.
 */
module LogRepair {
  import opened RaftTypes
  import opened Logs
  import opened Protocol
  import opened Histories
  import opened NodeSteps
  import opened Handlers
  import opened Clusters

  /** Leader `a` and peer `b` of one cluster, at the moment the leader sends the peer a request. */
  ghost predicate Repairing(a: Config, b: Config, s: Node, t: Node) {
    && a.cluster == b.cluster && a.self != b.self && a.self in b.members && b.self in a.members
    && s.role == Leader && b.self in s.progress && s.progress[b.self].next <= |s.log| + 1
    && t.term <= s.term
  }

  /** `prevLogIndex` of the request in flight. */
  function Probe(b: Config, s: Node): nat
    requires b.self in s.progress
  {
    s.progress[b.self].next - 1
  }

  predicate Refuses(b: Config, s: Node, t: Node)
    requires b.self in s.progress
  {
    TermAt(t.log, Probe(b, s)) != Some(TermOr0(s.log, Probe(b, s)))
  }

  function Answer(a: Config, b: Config, s: Node, t: Node): Outcome
    requires b.self in s.progress
  {
    Handle(b, t, Event.Deliver(AppendFor(a, s, b.self)))
  }

  /** The peer answers with one rejection, keeps its log, and the leader probes a strictly smaller index. */
  lemma OneRejection(a: Config, b: Config, s: Node, t: Node)
    requires Repairing(a, b, s, t) && Refuses(b, s, t)
    ensures var o := Answer(a, b, s, t);
            && o.Done? && |o.fx.messages| == 1
            && var r := o.fx.messages[0];
            && r.body.AppendResponse? && !r.body.success
            && o.node == BecomeFollower(t, s.term, Some(a.self), NO_EFFECTS).node
            && var q := Handle(a, s, Event.Deliver(r));
               && q.Done? && Repairing(a, b, q.node, o.node) && q.fx.messages == [AppendFor(a, q.node, b.self)]
               && q.node == s.(progress := q.node.progress)
               && q.node.progress == s.progress[b.self := Progress(Probe(b, q.node) + 1, s.progress[b.self].matched)]
               && q.node == NextLeader(a, b, s, t)
               && Probe(b, q.node) == if Probe(b, s) > |t.log| then |t.log| else Probe(b, s) - 1
  {
    hide AppendFor, BecomeFollower, BackedOff, HandleAppendResponse;
    PeerRefuses(a, b, s, t);
    Demotion(t, s.term, Some(a.self));
    var r := Answer(a, b, s, t).fx.messages[0];
    LeaderBacksOff(a, b.self, s, r);
    assert Handle(a, s, Event.Deliver(r)) == HandleAppendResponse(a, s, r, NO_EFFECTS);
  }

  lemma Demotion(t: Node, term: nat, leader: Option<NodeId>)
    requires t.term <= term
    ensures var t' := BecomeFollower(t, term, leader, NO_EFFECTS).node; t'.term == term && t'.log == t.log
  {
  }

  lemma PeerRefuses(a: Config, b: Config, s: Node, t: Node)
    requires Repairing(a, b, s, t) && Refuses(b, s, t)
    ensures var t' := BecomeFollower(t, s.term, Some(a.self), NO_EFFECTS).node;
            var o := Answer(a, b, s, t);
            o.Done? && o.node == t'
            && o.fx.messages == [AppendReply(b, t', a.self, false, 0, RejectHint(t, Probe(b, s)))]
  {
    hide MergeEntries, FinishAppend, Suffix, TermOr0, TermAt;
  }

  lemma LeaderBacksOff(a: Config, p: NodeId, s: Node, r: Message)
    requires s.role == Leader && p in s.progress && s.progress[p].next <= |s.log| + 1 && r.from == p
    requires r.term == s.term && r.body.AppendResponse? && !r.body.success
    ensures var g := BackedOff(s.progress[p], r.body.rejectHint);
            var s' := s.(progress := s.progress[p := g]);
            HandleAppendResponse(a, s, r, NO_EFFECTS) == Done(s', NO_EFFECTS.(messages := [AppendFor(a, s', p)]))
            && g == Progress(Max(1, Min(s.progress[p].next - 1, r.body.rejectHint)), s.progress[p].matched)
  {
    hide AppendFor, FollowUp, CommitTarget;
  }

  /** The pair after the peer's rejection and the leader's new probe. */
  function NextLeader(a: Config, b: Config, s: Node, t: Node): Node
    requires b.self in s.progress
  {
    var o := Answer(a, b, s, t);
    if o.Done? && |o.fx.messages| == 1 then Handle(a, s, Event.Deliver(o.fx.messages[0])).node else s
  }

  /** The pair once the peer no longer refuses, and how many times it did. */
  datatype Repair = Repair(leader: Node, follower: Node, rejections: nat)

  ghost function Repaired(a: Config, b: Config, s: Node, t: Node): (r: Repair)
    requires Repairing(a, b, s, t)
    ensures Repairing(a, b, r.leader, r.follower) && !Refuses(b, r.leader, r.follower)
    ensures r.leader == s.(progress := s.progress[b.self := r.leader.progress[b.self]])
    ensures r.leader.progress[b.self].matched == s.progress[b.self].matched
    ensures r.follower == t || r.follower == BecomeFollower(t, s.term, Some(a.self), NO_EFFECTS).node
    decreases Probe(b, s)
  {
    if Refuses(b, s, t) then
      OneRejection(a, b, s, t);
      var r := Repaired(a, b, NextLeader(a, b, s, t), Answer(a, b, s, t).node);
      r.(rejections := r.rejections + 1)
    else Repair(s, t, 0)
  }

  /** The greatest index up to `from` at which the two logs hold the same term; 0 when there is none. */
  function Agreement(log: seq<Entry>, other: seq<Entry>, from: nat): (r: nat)
    requires from <= |log| && from <= |other|
    ensures r <= from && (r > 0 ==> log[r - 1].term == other[r - 1].term)
    ensures forall k :: r < k <= from ==> TermOr0(log, k) != TermOr0(other, k)
  {
    if from == 0 || log[from - 1].term == other[from - 1].term then from else Agreement(log, other, from - 1)
  }

  /** One rejection to come back to the end of a shorter log, then one for every index that disagrees. */
  lemma {:induction false} RejectionsExact(a: Config, b: Config, s: Node, t: Node)
    requires Repairing(a, b, s, t)
    ensures var first := Probe(b, s);
            var start := Min(first, |t.log|);
            Repaired(a, b, s, t).rejections == (if first > |t.log| then 1 else 0) + start - Agreement(s.log, t.log, start)
    decreases Probe(b, s)
  {
    hide Handle, Answer, NextLeader, AppendFor, BecomeFollower, Contiguous;
    if Refuses(b, s, t) {
      Demotion(t, s.term, Some(a.self));
      OneRejection(a, b, s, t);
      RejectionsExact(a, b, NextLeader(a, b, s, t), Answer(a, b, s, t).node);
    }
  }

  lemma RejectionsBounded(a: Config, b: Config, s: Node, t: Node)
    requires Repairing(a, b, s, t)
    ensures Repaired(a, b, s, t).rejections <= Min(Probe(b, s), |t.log| + 1)
  {
    RejectionsExact(a, b, s, t);
  }

  // ----- In a run of the cluster -----

  lemma RepairKeepsGood(en: Ensemble, h: History, x: NodeId, s: Node, p: NodeId, t: Node)
    requires Good(en, h, x, s) && NodeInv(en, h, p, t) && s.role == Leader && p in s.progress && t.term <= s.term
    ensures var a, b := ConfigOf(en, x), ConfigOf(en, p);
            Repairing(a, b, s, t)
            && var r := Repaired(a, b, s, t); Good(en, h, x, r.leader) && Good(en, h, p, r.follower)
  {
    var a, b := ConfigOf(en, x), ConfigOf(en, p);
    assert ProgressInv(h, p, s);
    var r := Repaired(a, b, s, t);
    ProgressKept(en, h, x, s, p, r.leader.progress[p]);
    Demoted(en, h, p, t, s.term, Some(x), NO_EFFECTS);
  }

  /**
   In any reachable state, a leader that alone exchanges messages with a peer no newer than itself is
   refused at most min(P, F + 1) times; the next answer accepts and leaves the leader's log at the peer.
   */
  lemma RepairEnds(en: Ensemble, run: seq<Cluster>, k: nat, x: NodeId, p: NodeId)
    requires IsRun(en, run) && k < |run| && x in en.members && p in en.members && x != p
    requires x in run[k].nodes && p in run[k].nodes
    requires run[k].nodes[x].role == Leader && run[k].nodes[p].term <= run[k].nodes[x].term
    ensures var a, b, s, t := ConfigOf(en, x), ConfigOf(en, p), run[k].nodes[x], run[k].nodes[p];
            && Repairing(a, b, s, t)
            && var r := Repaired(a, b, s, t);
               && r.rejections <= Min(Probe(b, s), |t.log| + 1)
               && var o := Answer(a, b, r.leader, r.follower);
                  o.Done? && o.node.log == s.log && o.node.commit == Max(s.commit, t.commit)
  {
    hide HistoryInv, ValidLog, Committed, TermsBounded, VoteRecorded, CandidateInv, Refuses, Answer, Contiguous, Probe;
    var hs := RunInv(en, run);
    var h, s, t := hs[k], run[k].nodes[x], run[k].nodes[p];
    assert Inv(en, run[k], h) && NodeInv(en, h, x, s) && NodeInv(en, h, p, t);
    RepairKeepsGood(en, h, x, s, p, t);
    var a, b := ConfigOf(en, x), ConfigOf(en, p);
    RejectionsBounded(a, b, s, t);
    var r := Repaired(a, b, s, t);
    LastAnswer(en, h, x, r.leader, p, r.follower);
  }

  lemma LastAnswer(en: Ensemble, h: History, x: NodeId, s: Node, p: NodeId, t: Node)
    requires Good(en, h, x, s) && Good(en, h, p, t) && s.role == Leader && p in s.progress && t.term <= s.term
    requires !Refuses(ConfigOf(en, p), s, t)
    ensures var o := Answer(ConfigOf(en, x), ConfigOf(en, p), s, t);
            o.Done? && o.node.log == s.log && o.node.commit == Max(s.commit, t.commit)
  {
    hide Committed, ValidLog, TermsBounded, VoteRecorded, CandidateInv, MergeEntries, HistoryInv;
    var m := AppendFor(ConfigOf(en, x), s, p);
    AppendSent(en, h, x, s, p);
    Demoted(en, h, p, t, s.term, Some(x), NO_EFFECTS);
    var b := BecomeFollower(t, s.term, Some(x), NO_EFFECTS).node;
    assert s.log[..|s.log|] == s.log;
    MergeOutcome(en, h, p, b, m);
    Accepting(ConfigOf(en, p), t, m);
  }
}
