/**
 One campaign on a quiet network. It makes the candidate leader exactly when its log is as new as a
 majority's, whatever the order of deliveries; and once it leads, every log becomes its own.
 */
module Elections {
  import opened RaftTypes
  import opened Logs
  import opened Protocol
  import opened Quorums
  import opened NodeFacts
  import opened Networks
  import opened Histories
  import opened Handlers
  import opened Fields
  import opened Deliveries
  import opened Convergence
  import opened Runtime
  import opened Settlements
  import opened Quiescence

  /** Nothing is in flight, everyone can be reached, x does not lead, and no term exceeds its own. */
  ghost predicate Quiet(en: Ensemble, f: Field, x: NodeId) {
    && x in en.members && (forall i :: i in en.members ==> i in f.nodes && x in f.nodes && f.nodes[i].term <= f.nodes[x].term)
    && x in f.nodes && f.nodes[x].role != Leader
    && f.net.queue == [] && Open(en, f.net)
  }

  /** The members whose logs are no newer than x's. */
  ghost function Backers(en: Ensemble, f: Field, x: NodeId): set<NodeId>
    requires x in f.nodes
  {
    set v | v in en.members && v in f.nodes && VersionLeq(VersionOf(f.nodes[v].log), VersionOf(f.nodes[x].log))
  }

  // ----- While votes are out -----

  /** A peer that has seen the request: in the new term, its vote given if it backs x. */
  function Asked(s: Node, term: nat, x: NodeId, backs: bool): Node {
    s.(role := Follower, leaderId := None, term := term, votedFor := if backs then Some(x) else None, votes := {},
       progress := map[])
  }

  predicate IsAsk(m: Message, x: NodeId, p: NodeId, s: Node) {
    m.from == x && m.to == p && m.term == s.term && m.body == VoteRequest(|s.log|, LastTerm(s.log))
  }

  predicate IsVote(m: Message, x: NodeId, p: NodeId, t: nat, granted: bool) {
    m.from == p && m.to == x && m.term == t && m.body == VoteResponse(granted)
  }

  /** Everything in flight is a request by x, or an answer to it. */
  ghost predicate PollMessage(s: Node, x: NodeId, backers: set<NodeId>, m: Message) {
    || (m.to != x && IsAsk(m, x, m.to, s))
    || (m.from != x && m.body.VoteResponse? && IsVote(m, x, m.from, s.term, m.body.granted)
        && (m.body.granted ==> m.from in backers))
  }

  /** A peer is still to be asked, or it has been and its vote is on its way or counted. */
  ghost predicate PollPeer(flight: set<Message>, s: Node, x: NodeId, backers: set<NodeId>, t0: Node, t: Node, p: NodeId) {
    || (t == t0 && t.term < s.term && exists m :: m in flight && IsAsk(m, x, p, s))
    || (t == Asked(t0, s.term, x, p in backers)
        && (p in backers ==> p in s.votes || exists m :: m in flight && IsVote(m, x, p, s.term, true)))
  }

  ghost predicate PeerPolled(f0: Field, f: Field, x: NodeId, backers: set<NodeId>, p: NodeId) {
    && x in f.nodes && p in f0.nodes && p in f.nodes
    && PollPeer(InFlight(f.net), f.nodes[x], x, backers, f0.nodes[p], f.nodes[p], p)
  }

  ghost predicate Polling(en: Ensemble, f0: Field, f: Field, x: NodeId) {
    && x in en.members && x in f0.nodes && x in f.nodes
    && var s, backers := f.nodes[x], Backers(en, f0, x);
       && s == Campaigning(ConfigOf(en, x), f0.nodes[x]).(votes := s.votes)
       && x in s.votes && s.votes <= backers && !HasQuorum(ConfigOf(en, x), |s.votes|)
       && Open(en, f.net)
       && (forall m {:trigger PollMessage(s, x, backers, m)} :: m in InFlight(f.net) ==> PollMessage(s, x, backers, m))
       && (forall p {:trigger PeerPolled(f0, f, x, backers, p)} :: p in en.members && p != x ==> PeerPolled(f0, f, x, backers, p))
  }

  // ----- One delivery -----

  /** A peer answers the request, the first time and again, by what its log was when the campaign began. */
  lemma AskAnswered(cfg: Config, t0: Node, t: Node, s: Node, m: Message, backs: bool)
    requires m.version == PROTOCOL_VERSION && m.cluster == cfg.cluster && m.from in cfg.members && m.to == cfg.self
    requires m.body == VoteRequest(|s.log|, LastTerm(s.log)) && m.term == s.term
    requires backs == VersionLeq(VersionOf(t0.log), VersionOf(s.log))
    requires (t == t0 && t.term < s.term) || t == Asked(t0, s.term, m.from, backs)
    ensures var o := Handle(cfg, t, Event.Deliver(m));
            && o.Done? && o.node == Asked(t0, s.term, m.from, backs)
            && |o.fx.messages| == 1 && IsVote(o.fx.messages[0], m.from, cfg.self, s.term, backs)
  {
  }

  /** The candidate counts a vote, and leads once it has a majority. */
  lemma VoteTaken(cfg: Config, s: Node, m: Message)
    requires m.version == PROTOCOL_VERSION && m.cluster == cfg.cluster && m.from in cfg.members && m.to == cfg.self
    requires m.body.VoteResponse? && m.term == s.term && s.role == Candidate
    ensures var o := Handle(cfg, s, Event.Deliver(m)); var s' := s.(votes := s.votes + {m.from});
            o == if !m.body.granted then Done(s, NO_EFFECTS)
                 else if HasQuorum(cfg, |s'.votes|) then BecomeLeader(cfg, s', NO_EFFECTS) else Done(s', NO_EFFECTS)
  {
    hide BecomeLeader;
  }

  lemma PeerCarried(s: Node, s': Node, x: NodeId, backers: set<NodeId>, t0: Node, t: Node, p: NodeId,
                    flight: set<Message>, flight': set<Message>, m: Message)
    requires PollPeer(flight, s, x, backers, t0, t, p) && s'.term == s.term && s'.log == s.log && s.votes <= s'.votes
    requires forall w :: w in flight && w != m ==> w in flight'
    requires !IsAsk(m, x, p, s) && (IsVote(m, x, p, s.term, true) ==> p in s'.votes)
    ensures PollPeer(flight', s', x, backers, t0, t, p)
  {
  }

  /** A peer takes a request. */
  lemma PeerPolledOn(en: Ensemble, f0: Field, f: Field, net: set<Message>, h: History, x: NodeId, index: nat)
    requires FieldInv(en, f, net, h) && Polling(en, f0, f, x) && index < |f.net.queue| && f.net.queue[index].message.to != x
    ensures Polling(en, f0, Delivered(en, f, index), x)
  {
    hide HistoryInv, BodyInv, NodeInv, Handle, PollPeer, Asked, Carries, NetworkInv, VersionLeq, VersionOf;
    var m := f.net.queue[index].message;
    var s, backers := f.nodes[x], Backers(en, f0, x);
    HandedMessage(en, f, net, h, index);
    assert PollMessage(s, x, backers, m);
    var p := m.to;
    assert PeerPolled(f0, f, x, backers, p);
    PeerIsEither(InFlight(f.net), s, x, backers, f0.nodes[p], f.nodes[p], p);
    AskAnswered(ConfigOf(en, p), f0.nodes[p], f.nodes[p], s, m, p in backers);
    var o := Handle(ConfigOf(en, p), f.nodes[p], Event.Deliver(m));
    FlightAfter(en, f.net, index, o.fx.messages);
    var f' := Delivered(en, f, index);
    assert f' == Field(f.nodes[p := o.node], EnqueuedAll(Dropped(f.net, index), o.fx.messages));
    assert o.fx.messages[0] in o.fx.messages;
    forall w | w in InFlight(f'.net) ensures PollMessage(s, x, backers, w) {
      assert w in InFlight(f.net) ==> PollMessage(s, x, backers, w);
    }
    forall q | q in en.members && q != x ensures PeerPolled(f0, f', x, backers, q) {
      assert PeerPolled(f0, f, x, backers, q);
      if q == p {
        PeerAsked(InFlight(f'.net), s, x, backers, f0.nodes[p], p, o.fx.messages[0]);
      } else {
        PeerCarried(s, s, x, backers, f0.nodes[q], f.nodes[q], q, InFlight(f.net), InFlight(f'.net), m);
      }
    }
  }

  lemma HandedMessage(en: Ensemble, f: Field, net: set<Message>, h: History, index: nat)
    requires FieldInv(en, f, net, h) && Open(en, f.net) && index < |f.net.queue|
    ensures var m := f.net.queue[index].message;
            && MessageInv(en, h, m) && m in InFlight(f.net) && Handed(f.net, index) == Some(m) && m.to in f.nodes
  {
  }

  lemma PeerIsEither(flight: set<Message>, s: Node, x: NodeId, backers: set<NodeId>, t0: Node, t: Node, p: NodeId)
    requires PollPeer(flight, s, x, backers, t0, t, p)
    ensures (t == t0 && t.term < s.term) || t == Asked(t0, s.term, x, p in backers)
  {
    hide Asked;
  }

  lemma PeerAsked(flight: set<Message>, s: Node, x: NodeId, backers: set<NodeId>, t0: Node, p: NodeId, r: Message)
    requires r in flight && IsVote(r, x, p, s.term, p in backers)
    ensures PollPeer(flight, s, x, backers, t0, Asked(t0, s.term, x, p in backers), p)
  {
    hide Asked;
  }

  /** The candidate takes an answer: the poll goes on, or it has won. */
  lemma CandidatePolledOn(en: Ensemble, f0: Field, f: Field, net: set<Message>, h: History, x: NodeId, index: nat)
    requires FieldInv(en, f, net, h) && Polling(en, f0, f, x) && index < |f.net.queue| && f.net.queue[index].message.to == x
    requires !HasQuorum(ConfigOf(en, x), |f.nodes[x].votes + {f.net.queue[index].message.from}|)
             || f.net.queue[index].message.body != VoteResponse(true)
    ensures Polling(en, f0, Delivered(en, f, index), x)
  {
    hide HistoryInv, BodyInv, NodeInv, Handle, PollPeer, Carries, NetworkInv, HasQuorum;
    var m := f.net.queue[index].message;
    var s, backers := f.nodes[x], Backers(en, f0, x);
    HandedMessage(en, f, net, h, index);
    assert PollMessage(s, x, backers, m);
    VoteTaken(ConfigOf(en, x), s, m);
    var o := Handle(ConfigOf(en, x), s, Event.Deliver(m));
    var s' := o.node;
    FlightAfter(en, f.net, index, o.fx.messages);
    var f' := Delivered(en, f, index);
    assert f' == Field(f.nodes[x := s'], EnqueuedAll(Dropped(f.net, index), o.fx.messages));
    forall w | w in InFlight(f'.net) ensures PollMessage(s', x, backers, w) {
      assert PollMessage(s, x, backers, w);
    }
    forall q | q in en.members && q != x ensures PeerPolled(f0, f', x, backers, q) {
      assert PeerPolled(f0, f, x, backers, q);
      PeerCarried(s, s', x, backers, f0.nodes[q], f.nodes[q], q, InFlight(f.net), InFlight(f'.net), m);
    }
  }

  // ----- The new leader -----

  /** With other members to wait for, a new leader commits nothing yet. */
  lemma NothingCountedYet(cfg: Config, s: Node, p: NodeId)
    requires ValidConfig(cfg) && p in cfg.members && p != cfg.self && s.commit <= |s.log|
    requires forall q :: q in s.progress ==> s.progress[q].matched == 0
    ensures AdvancedNode(cfg, s).commit == s.commit
  {
    var c := CommitTarget(cfg, s, |s.log|);
    if c > s.commit {
      assert MatchedPeers(s, c) == {};
      assert Elements(cfg.members) >= {p, cfg.self} && |{p, cfg.self}| == 2;
      Subset({p, cfg.self}, Elements(cfg.members));
      DistinctCount(cfg.members);
    }
  }

  /** Becoming leader sets it after every peer. */
  lemma LeaderPursues(cfg: Config, s: Node, p: NodeId, t: Node, flight: set<Message>)
    requires ValidConfig(cfg) && p in cfg.members && p != cfg.self && s.commit <= |s.log|
    requires var o := BecomeLeader(cfg, s, NO_EFFECTS); o.Done? && forall r :: r in o.fx.messages ==> r in flight
    ensures var s' := BecomeLeader(cfg, s, NO_EFFECTS).node;
            && p in s'.progress && Chased(flight, cfg.self, s', p) && Informed(flight, cfg.self, s', p, t)
  {
    hide CommitTarget, Suffix, TermOr0;
    var a := AppendLocal(Crowned(cfg, s), NO_EFFECTS, LocalEntry(s, Noop, [], None));
    NothingCountedYet(cfg, a.node, p);
    BroadcastReaches(cfg, a.node, p, a.fx);
    var r := AppendFor(cfg, a.node, p);
    var s' := BecomeLeader(cfg, s, NO_EFFECTS).node;
    assert Exchange(r, cfg.self, p, s'.term) && Bearing(r, cfg.self, p, s'.term, s'.commit);
  }

  /** x leads the campaign's term, over its log and the no-op. */
  ghost predicate Leads(f0: Field, f: Field, x: NodeId) {
    && x in f0.nodes && x in f.nodes
    && var s0, s := f0.nodes[x], f.nodes[x];
       s.role == Leader && s.term == s0.term + 1 && s.log == s0.log + [Entry(|s0.log| + 1, s0.term + 1, Noop, [], None)]
  }

  /** Nothing is newer than the candidate, everyone can be reached, and its requests are out: it is after every peer. */
  lemma VictorySettles(en: Ensemble, f: Field, f': Field, x: NodeId, s: Node)
    requires Distinct(en.members) && x in en.members && (forall i :: i in en.members ==> i in f.nodes && f.nodes[i].term <= s.term)
    requires s.role == Candidate && s.commit <= |s.log|
    requires var o := BecomeLeader(ConfigOf(en, x), s, NO_EFFECTS);
             && o.Done? && f'.nodes == f.nodes[x := o.node] && Open(en, f'.net)
             && (forall r :: r in o.fx.messages ==> r in InFlight(f'.net))
    requires forall m :: m in InFlight(f'.net) ==> m.term <= s.term
    ensures Settling(en, f', x)
  {
    hide Chased, Informed, BecomeLeader, InFlight;
    var o := BecomeLeader(ConfigOf(en, x), s, NO_EFFECTS);
    LeaderShape(ConfigOf(en, x), s, NO_EFFECTS);
    forall p | p in en.members && p != x ensures Followed(f', x, p) {
      LeaderPursues(ConfigOf(en, x), s, p, f'.nodes[p], InFlight(f'.net));
    }
  }

  lemma PollTerms(en: Ensemble, f0: Field, f: Field, x: NodeId)
    requires Polling(en, f0, f, x)
    ensures forall p :: p in en.members ==> p in f.nodes && f.nodes[p].term <= f.nodes[x].term
    ensures forall w :: w in InFlight(f.net) ==> w.term <= f.nodes[x].term
  {
    hide PollPeer, InFlight, Open, HasQuorum, Backers;
    var s, backers := f.nodes[x], Backers(en, f0, x);
    forall p | p in en.members ensures p in f.nodes && f.nodes[p].term <= s.term {
      if p != x {
        assert PeerPolled(f0, f, x, backers, p);
        PeerIsEither(InFlight(f.net), s, x, backers, f0.nodes[p], f.nodes[p], p);
      }
    }
    forall w | w in InFlight(f.net) ensures w.term <= s.term {
      assert PollMessage(s, x, backers, w);
    }
  }

  /** The deciding vote. */
  lemma CandidateWins(en: Ensemble, f0: Field, f: Field, net: set<Message>, h: History, x: NodeId, index: nat)
    requires FieldInv(en, f, net, h) && Polling(en, f0, f, x) && index < |f.net.queue| && f.net.queue[index].message.to == x
    requires HasQuorum(ConfigOf(en, x), |f.nodes[x].votes + {f.net.queue[index].message.from}|)
    requires f.net.queue[index].message.body == VoteResponse(true)
    ensures Settling(en, Delivered(en, f, index), x) && Leads(f0, Delivered(en, f, index), x)
    ensures IsQuorum(en.members, Backers(en, f0, x))
  {
    hide HistoryInv, BodyInv, Handle, PollPeer, Carries, NetworkInv, BecomeLeader, Settling, Delivered, InFlight, Backers;
    hide ValidLog, Committed, TermsBounded, VoteRecorded, CandidateInv, Maximal;
    var m := f.net.queue[index].message;
    var s, cfg := f.nodes[x], ConfigOf(en, x);
    HandedMessage(en, f, net, h, index);
    assert PollMessage(s, x, Backers(en, f0, x), m);
    VoteTaken(cfg, s, m);
    var s' := s.(votes := s.votes + {m.from});
    BackersAreMembers(en, f0, x);
    MajorityBacks(en, s'.votes, Backers(en, f0, x));
    assert NodeInv(en, h, x, s);
    NoThrowOnVictory(en, f, net, h, x, index);
    LeaderShape(cfg, s', NO_EFFECTS);
    PollTerms(en, f0, f, x);
    MembersDistinct(en, f, net, h);
    WinnerSettles(en, f, x, index, s');
  }

  lemma BackersAreMembers(en: Ensemble, f: Field, x: NodeId)
    requires x in f.nodes
    ensures Backers(en, f, x) <= Elements(en.members)
  {
  }

  lemma WinnerSettles(en: Ensemble, f: Field, x: NodeId, index: nat, s: Node)
    requires Distinct(en.members) && x in en.members && x in f.nodes && Open(en, f.net) && index < |f.net.queue|
    requires forall i :: i in en.members ==> i in f.nodes && f.nodes[i].term <= s.term
    requires forall w :: w in InFlight(f.net) ==> w.term <= s.term
    requires Handed(f.net, index) == Some(f.net.queue[index].message) && f.net.queue[index].message.to == x
    requires s.role == Candidate && s.commit <= |s.log|
    requires var o := Handle(ConfigOf(en, x), f.nodes[x], Event.Deliver(f.net.queue[index].message));
             o == BecomeLeader(ConfigOf(en, x), s, NO_EFFECTS) && o.Done?
    ensures Settling(en, Delivered(en, f, index), x)
    ensures Delivered(en, f, index).nodes == f.nodes[x := BecomeLeader(ConfigOf(en, x), s, NO_EFFECTS).node]
  {
    hide Handle, BecomeLeader, Settling, InFlight, Open;
    var m := f.net.queue[index].message;
    var o := Handle(ConfigOf(en, x), f.nodes[x], Event.Deliver(m));
    EventStamped(ConfigOf(en, x), f.nodes[x], Event.Deliver(m));
    LeaderShape(ConfigOf(en, x), s, NO_EFFECTS);
    FlightAfter(en, f.net, index, o.fx.messages);
    var f' := Delivered(en, f, index);
    assert f' == Field(f.nodes[x := o.node], EnqueuedAll(Dropped(f.net, index), o.fx.messages));
    VictorySettles(en, f, f', x, s);
  }

  lemma MajorityBacks(en: Ensemble, votes: set<NodeId>, backers: set<NodeId>)
    requires votes <= backers <= Elements(en.members) && |votes| >= Majority(en.members)
    ensures IsQuorum(en.members, backers)
  {
    Subset(votes, backers);
  }

  lemma NoThrowOnVictory(en: Ensemble, f: Field, net: set<Message>, h: History, x: NodeId, index: nat)
    requires FieldInv(en, f, net, h) && x in en.members && index < |f.net.queue| && f.net.queue[index].message.to == x
    ensures Handle(ConfigOf(en, x), f.nodes[x], Event.Deliver(f.net.queue[index].message)).Done?
  {
    hide HistoryInv, Handle, Handled, BodyInv;
    var m := f.net.queue[index].message;
    assert MessageInv(en, h, m) && NodeInv(en, h, x, f.nodes[x]);
    var h' := EventHandled(en, h, x, f.nodes[x], Event.Deliver(m));
  }

  lemma PollStep(en: Ensemble, f0: Field, f: Field, net: set<Message>, h: History, x: NodeId, pick: nat)
    requires FieldInv(en, f, net, h) && Polling(en, f0, f, x)
    ensures var g := DeliverNext(en, f, pick);
            || Polling(en, f0, g, x)
            || (Settling(en, g, x) && Leads(f0, g, x) && IsQuorum(en.members, Backers(en, f0, x)))
  {
    hide FieldInv, Polling, Settling, Leads, Delivered, HasQuorum, IsQuorum, Backers;
    if f.net.queue != [] {
      var index := pick % |f.net.queue|;
      var m := f.net.queue[index].message;
      if m.to != x {
        PeerPolledOn(en, f0, f, net, h, x, index);
      } else {
        CandidateThere(en, f0, f, x);
        if m.body == VoteResponse(true) && HasQuorum(ConfigOf(en, x), |f.nodes[x].votes + {m.from}|) {
          CandidateWins(en, f0, f, net, h, x, index);
        } else {
          CandidatePolledOn(en, f0, f, net, h, x, index);
        }
      }
    }
  }

  lemma CandidateThere(en: Ensemble, f0: Field, f: Field, x: NodeId)
    requires Polling(en, f0, f, x)
    ensures x in f.nodes && x in f0.nodes
  {
  }

  // ----- The outcome -----

  /** Everyone has answered, the backers' votes are counted, and nobody leads. */
  ghost predicate Undecided(en: Ensemble, f0: Field, f: Field, x: NodeId) {
    && x in f0.nodes && x in f.nodes
    && f.nodes[x] == Campaigning(ConfigOf(en, x), f0.nodes[x]).(votes := Backers(en, f0, x))
    && forall p {:trigger f.nodes[p]} :: p in en.members && p != x ==>
         p in f0.nodes && p in f.nodes && f.nodes[p] == Asked(f0.nodes[p], f0.nodes[x].term + 1, x, p in Backers(en, f0, x))
  }

  /** With a majority behind it x leads and all logs are its own, committed; without one nobody leads and no log has changed. */
  ghost predicate Decided(en: Ensemble, f0: Field, f: Field, x: NodeId)
    requires x in f0.nodes
  {
    if IsQuorum(en.members, Backers(en, f0, x)) then Leads(f0, f, x) && Converged(en, f, x) else Undecided(en, f0, f, x)
  }

  lemma PollEnds(en: Ensemble, f0: Field, f: Field, x: NodeId)
    requires Polling(en, f0, f, x) && f.net.queue == []
    ensures !IsQuorum(en.members, Backers(en, f0, x)) && Undecided(en, f0, f, x)
  {
    hide Asked;
    var s, backers := f.nodes[x], Backers(en, f0, x);
    assert InFlight(f.net) == {};
    forall p | p in en.members && p != x
      ensures p in f0.nodes && p in f.nodes && f.nodes[p] == Asked(f0.nodes[p], s.term, x, p in backers)
              && (p in backers ==> p in s.votes)
    {
      assert PeerPolled(f0, f, x, backers, p);
    }
    assert backers <= s.votes;
    assert s.votes == backers;
  }

  lemma LeadsOn(f0: Field, f: Field, g: Field, x: NodeId)
    requires Leads(f0, f, x) && SameReign(f, g, x)
    ensures Leads(f0, g, x)
  {
  }

  lemma {:induction false} PollDecides(en: Ensemble, f0: Field, f: Field, net: set<Message>, h: History, x: NodeId,
                                       pick: nat -> nat, k: nat, n: nat)
    requires FieldInv(en, f, net, h) && Polling(en, f0, f, x) && Drained(en, f, pick, k, n).net.queue == []
    ensures x in f0.nodes && Decided(en, f0, Drained(en, f, pick, k, n), x)
    decreases n
  {
    hide FieldInv, Polling, Settling, Leads, DeliverNext, Converged, IsQuorum, Undecided, Backers, SameReign;
    CandidateThere(en, f0, f, x);
    if n == 0 {
      PollEnds(en, f0, f, x);
    } else {
      var g := DeliverNext(en, f, pick(k));
      PollStep(en, f0, f, net, h, x, pick(k));
      var net', h' := NextKeeps(en, f, net, h, pick(k));
      if Polling(en, f0, g, x) {
        PollDecides(en, f0, g, net', h', x, pick, k + 1, n - 1);
      } else {
        DrainedIsConverged(en, g, net', h', x, pick, k + 1, n - 1);
        LeadsOn(f0, g, Drained(en, g, pick, k + 1, n - 1), x);
      }
    }
  }

  // ----- The first step -----

  lemma CampaignBegins(en: Ensemble, f: Field, net: set<Message>, h: History, x: NodeId)
    requires FieldInv(en, f, net, h) && Quiet(en, f, x)
    ensures var g := After(en, f, x, ElectionTimeout);
            if HasQuorum(ConfigOf(en, x), 1)
            then Settling(en, g, x) && Leads(f, g, x) && IsQuorum(en.members, Backers(en, f, x))
            else Polling(en, f, g, x)
  {
    hide HistoryInv, BodyInv, Carries, NetworkInv, StartElection, BecomeLeader, Settling, Polling, Leads, HasQuorum;
    var cfg, s := ConfigOf(en, x), f.nodes[x];
    assert NodeInv(en, h, x, s);
    CampaignDone(en, f, net, h, x);
    EventStamped(cfg, s, ElectionTimeout);
    var o := Handle(cfg, s, ElectionTimeout);
    var g := After(en, f, x, ElectionTimeout);
    EnqueuedInFlight(f.net, o.fx.messages);
    EnqueuedFrame(f.net, o.fx.messages);
    assert InFlight(f.net) == {};
    if HasQuorum(cfg, 1) {
      MembersDistinct(en, f, net, h);
      AloneWins(en, f, g, x);
    } else {
      PollOpens(en, f, g, x);
    }
  }

  lemma CampaignDone(en: Ensemble, f: Field, net: set<Message>, h: History, x: NodeId)
    requires FieldInv(en, f, net, h) && x in en.members
    ensures Handle(ConfigOf(en, x), f.nodes[x], ElectionTimeout).Done?
  {
    hide HistoryInv, Handle, Handled;
    assert NodeInv(en, h, x, f.nodes[x]);
    var h' := EventHandled(en, h, x, f.nodes[x], ElectionTimeout);
  }

  /** Alone, x has its majority at once. */
  lemma AloneWins(en: Ensemble, f: Field, g: Field, x: NodeId)
    requires Distinct(en.members) && Quiet(en, f, x) && HasQuorum(ConfigOf(en, x), 1) && f.nodes[x].commit <= |f.nodes[x].log|
    requires var o := Handle(ConfigOf(en, x), f.nodes[x], ElectionTimeout);
             && o.Done? && g.nodes == f.nodes[x := o.node] && Open(en, g.net)
             && (forall m :: m in InFlight(g.net) <==> m in o.fx.messages) && Stamped(ConfigOf(en, x), o.node, o.fx.messages)
    ensures Settling(en, g, x) && Leads(f, g, x) && IsQuorum(en.members, Backers(en, f, x))
  {
    hide BecomeLeader, InFlight, Chased, Informed;
    var cfg := ConfigOf(en, x);
    var s := Campaigning(cfg, f.nodes[x]);
    OnlyMember(en, x);
    var asked := SaveHard(NO_EFFECTS, s).(messages := NO_EFFECTS.messages + VoteRequestsFor(cfg, s, Peers(cfg)));
    LeaderShape(cfg, s, asked);
    assert {x} <= Backers(en, f, x);
    MajorityBacks(en, {x}, Backers(en, f, x));
  }

  lemma OnlyMember(en: Ensemble, x: NodeId)
    requires Distinct(en.members) && x in en.members && HasQuorum(ConfigOf(en, x), 1)
    ensures forall p :: p in en.members ==> p == x
  {
    assert |en.members| == 1;
  }

  lemma AsksAreOut(cfg: Config, s: Node)
    ensures forall m :: m in VoteRequestsFor(cfg, s, Peers(cfg)) ==> m.to != cfg.self && IsAsk(m, cfg.self, m.to, s)
    ensures forall p :: p in cfg.members && p != cfg.self ==>
              exists m :: m in VoteRequestsFor(cfg, s, Peers(cfg)) && IsAsk(m, cfg.self, p, s)
  {
    hide LastTerm;
    var peers := Peers(cfg);
    var requests := VoteRequestsFor(cfg, s, peers);
    forall m | m in requests ensures m.to != cfg.self && IsAsk(m, cfg.self, m.to, s) {
      var k :| 0 <= k < |requests| && requests[k] == m;
      assert peers[k] in peers;
    }
    forall p | p in cfg.members && p != cfg.self ensures exists m :: m in requests && IsAsk(m, cfg.self, p, s) {
      assert p in peers;
      var k :| 0 <= k < |peers| && peers[k] == p;
      assert requests[k] in requests && IsAsk(requests[k], cfg.self, p, s);
    }
  }

  /** Otherwise its requests are out, and nobody has been asked yet. */
  lemma PollOpens(en: Ensemble, f: Field, g: Field, x: NodeId)
    requires Quiet(en, f, x) && !HasQuorum(ConfigOf(en, x), 1)
    requires var o := Handle(ConfigOf(en, x), f.nodes[x], ElectionTimeout);
             && o.Done? && g.nodes == f.nodes[x := o.node] && Open(en, g.net)
             && forall m :: m in InFlight(g.net) <==> m in o.fx.messages
    ensures Polling(en, f, g, x)
  {
    hide BecomeLeader, InFlight, Asked, HasQuorum, VersionLeq, VersionOf, IsAsk, IsVote, VoteRequestsFor, Open;
    var cfg := ConfigOf(en, x);
    var s := Campaigning(cfg, f.nodes[x]);
    var backers := Backers(en, f, x);
    SelfBacks(en, f, x);
    assert |{x}| == 1 && g.nodes[x] == s;
    assert [] + VoteRequestsFor(cfg, s, Peers(cfg)) == VoteRequestsFor(cfg, s, Peers(cfg));
    AsksAreOut(cfg, s);
    forall p | p in en.members && p != x ensures PeerPolled(f, g, x, backers, p) {
      var m :| m in VoteRequestsFor(cfg, s, Peers(cfg)) && IsAsk(m, x, p, s);
      assert m in InFlight(g.net);
    }
  }

  lemma SelfBacks(en: Ensemble, f: Field, x: NodeId)
    requires x in en.members && x in f.nodes
    ensures x in Backers(en, f, x)
  {
  }

  /**
   Election progress: on a quiet network where all can be reached, the campaign of a node whose term is
   as high as any, followed by any order of deliveries that empties the queue, makes it leader, with all
   logs its own and committed, if and only if its log is as new as a majority's.
   */
  lemma CampaignDecides(en: Ensemble, f: Field, net: set<Message>, h: History, x: NodeId, pick: nat -> nat, n: nat)
    requires FieldInv(en, f, net, h) && Quiet(en, f, x)
    requires Drained(en, After(en, f, x, ElectionTimeout), pick, 0, n).net.queue == []
    ensures Decided(en, f, Drained(en, After(en, f, x, ElectionTimeout), pick, 0, n), x)
  {
    hide FieldInv, Polling, Settling, Leads, DeliverNext, Converged, IsQuorum, Undecided, Backers, SameReign, After, HasQuorum;
    CampaignBegins(en, f, net, h, x);
    var g := After(en, f, x, ElectionTimeout);
    var net', h' := AfterKeepsField(en, f, net, h, x, ElectionTimeout);
    if HasQuorum(ConfigOf(en, x), 1) {
      DrainedIsConverged(en, g, net', h', x, pick, 0, n);
      LeadsOn(f, g, Drained(en, g, pick, 0, n), x);
    } else {
      PollDecides(en, f, g, net', h', x, pick, 0, n);
    }
  }

  /** In any scenario, and whatever the order, the campaign is decided after finitely many deliveries. */
  lemma ScenarioCampaign(en: Ensemble, f: Field, x: NodeId, pick: nat -> nat) returns (n: nat)
    requires Reached(en, f) && Quiet(en, f, x)
    ensures var g := Drained(en, After(en, f, x, ElectionTimeout), pick, 0, n); g.net.queue == [] && Decided(en, f, g, x)
  {
    hide FieldInv, Drained, Decided, After;
    var net, h := ReachedInv(en, f);
    n := DrainsAfter(en, f, net, h, x, ElectionTimeout, pick);
    CampaignDecides(en, f, net, h, x, pick, n);
  }

  lemma FoldsNoop<M>(app: App<M>, machine: M, log: seq<Entry>, e: Entry)
    requires e.kind != Command
    ensures Fold(app, machine, log + [e]) == Fold(app, machine, log)
  {
    assert (log + [e])[..|log|] == log;
  }

  /**
   Election progress of the runtime: from any moment of any small-step run at which every member is up and
   idle and nothing is in flight, a node whose term is as high as any and whose log is as new as a
   majority's campaigns with success. In whatever order the deliveries come, the run goes on to a state
   in which every store holds its log and the no-op as committed, and every machine is the fold over it.
   */
  lemma RuntimeCampaign<M>(en: Ensemble, app: App<M>, srun: seq<System<M>>, x: NodeId, pick: nat -> nat)
    returns (n: nat, run: seq<System<M>>)
    requires IsSysRun(en, app, srun) && AllReady(en, Last(srun)) && Quiet(en, View(en, Last(srun)), x)
    requires IsQuorum(en.members, Backers(en, View(en, Last(srun)), x))
    requires Fold(app, app.init, View(en, Last(srun)).nodes[x].log).Some?
    ensures IsSysRun(en, app, run) && srun <= run && Last(run).net.queue == []
    ensures var s := View(en, Last(srun)).nodes[x];
            Replicas(en, app, Last(run), s.log + [Entry(|s.log| + 1, s.term + 1, Noop, [], None)])
  {
    hide FieldInv, SysNext, SysInit, Replicas, View, AllReady, Backers, IsQuorum, Settled, AllAccept, Fold;
    var net, h := ReadyIsSettled(en, app, srun);
    n, run := CampaignAndDrain(en, app, srun, View(en, Last(srun)), net, h, x, pick);
  }

  lemma CampaignAndDrain<M>(en: Ensemble, app: App<M>, run: seq<System<M>>, f: Field, net: set<Message>, h: History,
                            x: NodeId, pick: nat -> nat)
    returns (n: nat, run': seq<System<M>>)
    requires IsSysRun(en, app, run) && Settled(en, app, Last(run), f) && FieldInv(en, f, net, h)
    requires Quiet(en, f, x) && IsQuorum(en.members, Backers(en, f, x)) && Fold(app, app.init, f.nodes[x].log).Some?
    ensures IsSysRun(en, app, run') && run <= run' && Last(run').net.queue == []
    ensures var s := f.nodes[x]; Replicas(en, app, Last(run'), s.log + [Entry(|s.log| + 1, s.term + 1, Noop, [], None)])
  {
    hide FieldInv, Drained, AllAccept, After, Converged, SysNext, SysInit, Replicas, Backers, IsQuorum, Settled, Fold;
    QuietIsReachable(en, f, x);
    n := DrainsAfter(en, f, net, h, x, ElectionTimeout, pick);
    CampaignDecides(en, f, net, h, x, pick, n);
    var g := Drained(en, After(en, f, x, ElectionTimeout), pick, 0, n);
    var s := f.nodes[x];
    FoldsNoop(app, app.init, s.log, Entry(|s.log| + 1, s.term + 1, Noop, [], None));
    ConvergedAccepts(en, app, g, x);
    run' := EventDrainRealised(en, app, run, f, net, h, x, ElectionTimeout, pick, n);
    ConvergedReplicas(en, app, Last(run'), g, x);
    SettledNet(en, app, Last(run'), g);
  }

  lemma QuietIsReachable(en: Ensemble, f: Field, x: NodeId)
    requires Quiet(en, f, x)
    ensures forall i :: i in en.members ==> i in f.net.handlers
  {
    forall i | i in en.members ensures i in f.net.handlers {
      assert i in Elements(en.members);
    }
  }

  lemma SettledNet<M>(en: Ensemble, app: App<M>, sys: System<M>, f: Field)
    requires Settled(en, app, sys, f)
    ensures sys.net == f.net
  {
  }
}
