/**
 Draining in any order ends; after a heartbeat of the newest leader on a whole network it ends with all
 logs equal and committed.
 */
module Convergence {
  import opened RaftTypes
  import opened Logs
  import opened Protocol
  import opened Quorums
  import opened NodeFacts
  import opened Networks
  import opened Histories
  import opened Decisions
  import opened NodeSteps
  import opened Handlers
  import opened Fields
  import opened Deliveries
  import opened Draining

  /** Deliver one message, wherever the schedule points. */
  function DeliverNext(en: Ensemble, f: Field, pick: nat): Field {
    if f.net.queue == [] then f else Delivered(en, f, pick % |f.net.queue|)
  }

  /** The state after n deliveries of a schedule that starts at its k-th choice. */
  function Drained(en: Ensemble, f: Field, pick: nat -> nat, k: nat, n: nat): Field
    decreases n
  {
    if n == 0 then f else Drained(en, DeliverNext(en, f, pick(k)), pick, k + 1, n - 1)
  }

  lemma NextKeeps(en: Ensemble, f: Field, net: set<Message>, h: History, pick: nat) returns (net': set<Message>, h': History)
    requires FieldInv(en, f, net, h)
    ensures FieldInv(en, DeliverNext(en, f, pick), net', h')
  {
    net', h' := net, h;
    if f.net.queue != [] {
      net', h' := DeliveredKeepsField(en, f, net, h, pick % |f.net.queue|);
    }
  }

  lemma {:induction false} DrainsWithin(en: Ensemble, f: Field, net: set<Message>, h: History, top: nat, size: nat,
                                        pick: nat -> nat, k: nat) returns (n: nat)
    requires FieldInv(en, f, net, h) && Bounded(en, f, top, size)
    ensures Drained(en, f, pick, k, n).net.queue == []
    decreases MeasureOf(en, f, top, size).terms, MeasureOf(en, f, top, size).elections,
              MeasureOf(en, f, top, size).commits, MeasureOf(en, f, top, size).weight
  {
    n := 0;
    if f.net.queue != [] {
      var index := pick(k) % |f.net.queue|;
      DeliveryIsSmaller(en, f, net, h, top, size, index);
      var net', h' := DeliveredKeepsField(en, f, net, h, index);
      n := DrainsWithin(en, Delivered(en, f, index), net', h', top, size, pick, k + 1);
      n := n + 1;
    }
  }

  // ----- Bounds always exist -----

  function QueueTerms(queue: seq<Pending>): nat {
    if queue == [] then 0 else queue[0].message.term + QueueTerms(queue[1..])
  }

  function QueueEnds(queue: seq<Pending>): nat {
    if queue == [] then 0
    else (if queue[0].message.body.AppendRequest? then EndOf(queue[0].message) else 0) + QueueEnds(queue[1..])
  }

  lemma {:induction false} QueueCovered(queue: seq<Pending>, k: nat)
    requires k < |queue|
    ensures queue[k].message.term <= QueueTerms(queue)
    ensures queue[k].message.body.AppendRequest? ==> EndOf(queue[k].message) <= QueueEnds(queue)
    decreases |queue|
  {
    if k > 0 {
      QueueCovered(queue[1..], k - 1);
    }
  }

  lemma BoundsExist(en: Ensemble, f: Field) returns (top: nat, size: nat)
    requires forall i :: i in en.members ==> i in f.nodes
    ensures Bounded(en, f, top, size)
  {
    var terms: NodeId -> nat := i => if i in f.nodes then f.nodes[i].term else 0;
    var lengths: NodeId -> nat := i => if i in f.nodes then |f.nodes[i].log| else 0;
    var open := Total(en.members, Campaigns(f));
    top := Total(en.members, terms) + QueueTerms(f.net.queue);
    size := Total(en.members, lengths) + QueueEnds(f.net.queue) + open;
    forall i | i in en.members ensures NodeBounded(f, top, size, open, i) {
      TotalCovers(en.members, terms, i);
      TotalCovers(en.members, lengths, i);
    }
    forall k | 0 <= k < |f.net.queue| ensures MessageBounded(top, size, open, f.net.queue[k].message) {
      QueueCovered(f.net.queue, k);
    }
  }

  /**
   Delivery-only runs are finite: from any state of any test scenario, partitioned or not, whatever
   order the deliveries come in, finitely many of them empty the queue.
   */
  lemma EveryScheduleDrains(en: Ensemble, f: Field, pick: nat -> nat) returns (n: nat)
    requires Reached(en, f)
    ensures Drained(en, f, pick, 0, n).net.queue == []
  {
    var net, h := ReachedInv(en, f);
    var top, size := BoundsExist(en, f);
    n := DrainsWithin(en, f, net, h, top, size, pick, 0);
  }

  lemma {:induction false} DrainedOneMore(en: Ensemble, f: Field, pick: nat -> nat, k: nat, n: nat)
    ensures Drained(en, f, pick, k, n + 1) == DeliverNext(en, Drained(en, f, pick, k, n), pick(k + n))
    decreases n
  {
    hide DeliverNext;
    if n > 0 {
      DrainedOneMore(en, DeliverNext(en, f, pick(k)), pick, k + 1, n - 1);
    }
  }

  /** The drain loop: deliver until nothing is pending, and throw once the limit is spent. */
  method Drain(en: Ensemble, f: Field, pick: nat -> nat, limit: nat) returns (g: Field, delivered: nat, thrown: bool)
    ensures g == Drained(en, f, pick, 0, delivered) && delivered <= limit
    ensures thrown <==> g.net.queue != []
    ensures thrown ==> delivered == limit
  {
    g, delivered, thrown := f, 0, false;
    while g.net.queue != []
      invariant g == Drained(en, f, pick, 0, delivered) && delivered <= limit
      decreases limit - delivered
    {
      if delivered == limit {
        return g, delivered, true;
      }
      DrainedOneMore(en, f, pick, 0, delivered);
      g := DeliverNext(en, g, pick(delivered));
      delivered := delivered + 1;
    }
  }

  // ----- In flight -----

  ghost function InFlight(n: Network): set<Message> {
    set p | p in n.queue :: p.message
  }

  ghost predicate Open(en: Ensemble, n: Network) {
    n.blocked == {} && !n.dropAll && Elements(en.members) <= n.handlers
  }

  lemma DroppedInFlight(n: Network, index: nat)
    requires index < |n.queue|
    ensures InFlight(n) <= InFlight(Dropped(n, index)) + {n.queue[index].message}
    ensures InFlight(Dropped(n, index)) <= InFlight(n)
  {
    var q := Dropped(n, index).queue;
    forall m | m in InFlight(n) && m != n.queue[index].message ensures m in InFlight(Dropped(n, index)) {
      var p :| p in n.queue && p.message == m;
      var k :| 0 <= k < |n.queue| && n.queue[k] == p;
      assert if k < index then q[k] == p else q[k - 1] == p;
    }
    assert forall p :: p in q ==> p in n.queue;
  }

  lemma {:induction false} EnqueuedInFlight(n: Network, ms: seq<Message>)
    requires n.blocked == {} && !n.dropAll
    ensures InFlight(EnqueuedAll(n, ms)) == InFlight(n) + set m | m in ms
    decreases |ms|
  {
    if ms != [] {
      var n' := Enqueued(n, ms[0]);
      assert InFlight(n') == InFlight(n) + {ms[0]} by {
        assert Pending(n.nextId, ms[0]) in n'.queue;
        assert forall p :: p in n'.queue <==> p in n.queue || p == Pending(n.nextId, ms[0]);
      }
      EnqueuedInFlight(n', ms[1..]);
      assert ms == [ms[0]] + ms[1..];
    }
  }

  // ----- The leader is catching everyone up -----

  predicate Exchange(m: Message, x: NodeId, p: NodeId, t: nat) {
    m.term == t && (|| (m.body.AppendRequest? && m.from == x && m.to == p)
                    || (m.body.AppendResponse? && m.from == p && m.to == x))
  }

  /** A message that will bring p the commit index c, or make the leader send it. */
  predicate Bearing(m: Message, x: NodeId, p: NodeId, t: nat, c: nat) {
    m.term == t && (|| (m.body.AppendRequest? && m.from == x && m.to == p && m.body.leaderCommit >= c)
                    || (m.body.AppendResponse? && m.from == p && m.to == x && !m.body.success))
  }

  ghost predicate Chased(flight: set<Message>, x: NodeId, s: Node, p: NodeId)
    requires p in s.progress
  {
    s.progress[p].matched >= |s.log| || exists m :: m in flight && Exchange(m, x, p, s.term)
  }

  ghost predicate Informed(flight: set<Message>, x: NodeId, s: Node, p: NodeId, t: Node) {
    t.commit >= s.commit || exists m :: m in flight && Bearing(m, x, p, s.term, s.commit)
  }

  ghost predicate Followed(f: Field, x: NodeId, p: NodeId)
    requires x in f.nodes && p in f.nodes
  {
    var s := f.nodes[x];
    && p in s.progress && f.nodes[p].term <= s.term
    && Chased(InFlight(f.net), x, s, p) && Informed(InFlight(f.net), x, s, p, f.nodes[p])
  }

  ghost predicate Settling(en: Ensemble, f: Field, x: NodeId) {
    && x in en.members && (forall i :: i in en.members ==> i in f.nodes)
    && f.nodes[x].role == Leader && Open(en, f.net)
    && (forall m :: m in InFlight(f.net) ==> m.term <= f.nodes[x].term)
    && (forall p {:trigger Followed(f, x, p)} :: p in en.members && p != x ==> Followed(f, x, p))
  }

  /** The node plays the same part in the same term over the same log. */
  predicate SameReign(f: Field, g: Field, x: NodeId) {
    && x in f.nodes && x in g.nodes
    && g.nodes[x].log == f.nodes[x].log && g.nodes[x].term == f.nodes[x].term && g.nodes[x].role == f.nodes[x].role
  }

  /** A node answers any request that is not stale, and a success has brought it the announced commit index. */
  lemma RequestAnswered(en: Ensemble, h: History, i: NodeId, s: Node, m: Message) returns (r: Message)
    requires Good(en, h, i, s) && MessageInv(en, h, m) && m.to == i && m.body.AppendRequest? && m.term >= s.term
    ensures var o := Handle(ConfigOf(en, i), s, Event.Deliver(m));
            && o.Done? && r in o.fx.messages && r.from == i && r.to == m.from && r.term == m.term && r.body.AppendResponse?
            && (r.body.success ==> o.node.commit >= m.body.leaderCommit)
  {
    var b := BecomeFollower(s, m.term, Some(m.from), NO_EFFECTS).node;
    Demoted(en, h, i, s, m.term, Some(m.from), NO_EFFECTS);
    var o := Handle(ConfigOf(en, i), s, Event.Deliver(m));
    if TermAt(s.log, m.body.prevLogIndex) == Some(m.body.prevLogTerm) {
      MergeOutcome(en, h, i, b, m);
      var merged := MergeEntries(s.log, s.commit, None, [], m.body.entries);
      assert |h.reigns[m.term].log[..EndOf(m)]| <= |merged.log|;
      r := AppendReply(ConfigOf(en, i), b, m.from, true, PayloadEnd(m.body), PayloadEnd(m.body) + 1);
    } else {
      r := AppendReply(ConfigOf(en, i), b, m.from, false, 0, RejectHint(b, m.body.prevLogIndex));
    }
    Answered(ConfigOf(en, i), s, m, r);
  }

  lemma Answered(cfg: Config, s: Node, m: Message, r: Message)
    requires m.body.AppendRequest? && m.term >= s.term
    requires m.version == PROTOCOL_VERSION && m.cluster == cfg.cluster && m.to == cfg.self && m.from in cfg.members
    requires var b := BecomeFollower(s, m.term, Some(m.from), NO_EFFECTS).node;
             if TermAt(s.log, m.body.prevLogIndex) == Some(m.body.prevLogTerm)
             then MergeEntries(s.log, s.commit, None, [], m.body.entries).Merged?
                  && m.body.leaderCommit <= |MergeEntries(s.log, s.commit, None, [], m.body.entries).log|
                  && r == AppendReply(cfg, b, m.from, true, PayloadEnd(m.body), PayloadEnd(m.body) + 1)
             else r == AppendReply(cfg, b, m.from, false, 0, RejectHint(b, m.body.prevLogIndex))
    ensures var o := Handle(cfg, s, Event.Deliver(m));
            o.Done? && r in o.fx.messages && (r.body.success ==> o.node.commit >= m.body.leaderCommit)
  {
  }

  /** A leader is moved only by replies of its own term. */
  lemma LeaderUnmoved(en: Ensemble, h: History, x: NodeId, s: Node, m: Message)
    requires Good(en, h, x, s) && MessageInv(en, h, m) && m.to == x && s.role == Leader && m.term <= s.term
    requires !(m.body.AppendResponse? && m.term == s.term)
    ensures Handle(ConfigOf(en, x), s, Event.Deliver(m)).node == s
  {
    if m.body.AppendRequest? && m.term == s.term {
      NoRivalRequest(en, h, x, s, m);
    }
  }

  predicate IsRequestFor(r: Message, x: NodeId, p: NodeId, t: nat, c: nat) {
    r.body.AppendRequest? && r.from == x && r.to == p && r.term == t && r.body.leaderCommit == c
  }

  ghost predicate Asks(ms: seq<Message>, x: NodeId, p: NodeId, t: nat, c: nat) {
    exists r :: r in ms && IsRequestFor(r, x, p, t, c)
  }

  /** What a reply of its own term makes a leader do for the replying peer `from` and for any peer p. */
  ghost predicate Reaction(s: Node, o: Outcome, x: NodeId, from: NodeId, success: bool, p: NodeId) {
    && o.Done? && p in s.progress && p in o.node.progress
    && o.node.log == s.log && o.node.term == s.term && s.commit <= o.node.commit
    && (p != from ==> o.node.progress[p] == s.progress[p])
    && (o.node.commit > s.commit ==> success && Asks(o.fx.messages, x, p, s.term, o.node.commit))
    && (p == from ==> o.node.progress[p].matched >= |s.log| || Asks(o.fx.messages, x, p, s.term, o.node.commit))
    && (p == from && !success ==> Asks(o.fx.messages, x, p, s.term, o.node.commit))
  }

  lemma LeaderReacts(en: Ensemble, h: History, x: NodeId, s: Node, m: Message, p: NodeId)
    requires Good(en, h, x, s) && MessageInv(en, h, m) && m.to == x && s.role == Leader && m.term == s.term
    requires m.body.AppendResponse? && p in s.progress
    ensures Reaction(s, Handle(ConfigOf(en, x), s, Event.Deliver(m)), x, m.from, m.body.success, p)
  {
    hide FollowUp, AdvanceLeaderCommit, AppendFor, BackedOff, Acknowledged, HistoryInv, Committed, ValidLog;
    assert m.from in s.progress;
    assert ProgressInv(h, m.from, s);
    var cfg := ConfigOf(en, x);
    assert Handle(cfg, s, Event.Deliver(m)) == HandleAppendResponse(cfg, s, m, NO_EFFECTS);
    if m.body.success {
      SuccessHandled(en, h, x, s, m, NO_EFFECTS);
      SuccessReacts(cfg, s, m, p);
    } else {
      RejectionReacts(cfg, s, m, p);
    }
  }

  lemma RejectionReacts(cfg: Config, s: Node, m: Message, p: NodeId)
    requires s.role == Leader && m.term == s.term && m.body.AppendResponse? && !m.body.success
    requires p in s.progress && m.from in s.progress
    ensures Reaction(s, HandleAppendResponse(cfg, s, m, NO_EFFECTS), cfg.self, m.from, false, p)
  {
    hide CommitTarget, FollowUp, Broadcast, AdvanceLeaderCommit, Suffix, TermOr0;
    var s1 := s.(progress := s.progress[m.from := BackedOff(s.progress[m.from], m.body.rejectHint)]);
    var o := HandleAppendResponse(cfg, s, m, NO_EFFECTS);
    assert AppendFor(cfg, s1, m.from) in o.fx.messages;
    assert IsRequestFor(AppendFor(cfg, s1, m.from), cfg.self, m.from, s.term, s.commit);
  }

  lemma SuccessReacts(cfg: Config, s: Node, m: Message, p: NodeId)
    requires s.role == Leader && m.term == s.term && m.body.AppendResponse? && m.body.success
    requires p in s.progress && m.from in s.progress && p in cfg.members && p != cfg.self
    requires HandleAppendResponse(cfg, s, m, NO_EFFECTS).Done?
    ensures Reaction(s, HandleAppendResponse(cfg, s, m, NO_EFFECTS), cfg.self, m.from, true, p)
  {
    hide CommitTarget, Broadcast, Suffix, TermOr0;
    var s1 := s.(progress := s.progress[m.from := Acknowledged(s.progress[m.from], m.body.matchIndex)]);
    var a := AdvanceLeaderCommit(cfg, s1, NO_EFFECTS);
    FollowUpReacts(cfg, a.node, a.node.commit > s.commit, m.from, p, a.fx);
    var o := HandleAppendResponse(cfg, s, m, NO_EFFECTS);
    assert o == FollowUp(cfg, a.node, a.node.commit > s.commit, m.from, a.fx) && o.node == a.node;
    if o.node.commit > s.commit {
      assert IsRequestFor(AppendFor(cfg, a.node, p), cfg.self, p, s.term, o.node.commit);
    }
    if a.node.progress[m.from].next <= |s.log| {
      assert IsRequestFor(AppendFor(cfg, a.node, m.from), cfg.self, m.from, s.term, o.node.commit);
    }
  }

  lemma FollowUpReacts(cfg: Config, s: Node, advanced: bool, from: NodeId, p: NodeId, fx: Effects)
    requires from in s.progress && p in s.progress && FollowUp(cfg, s, advanced, from, fx).Done?
    requires p in cfg.members && p != cfg.self
    ensures var o := FollowUp(cfg, s, advanced, from, fx);
            && o.node == s
            && (advanced ==> AppendFor(cfg, s, p) in o.fx.messages)
            && (s.progress[from].next <= |s.log| ==> AppendFor(cfg, s, from) in o.fx.messages)
  {
    if advanced {
      var peers := Peers(cfg);
      assert p in peers;
      var k :| 0 <= k < |peers| && peers[k] == p;
      assert AppendsFor(cfg, s, peers)[k] == AppendFor(cfg, s, p);
    }
  }

  /** On a whole network a delivery removes the message it takes and adds the replies; nothing else moves. */
  lemma FlightAfter(en: Ensemble, n: Network, index: nat, ms: seq<Message>)
    requires Open(en, n) && index < |n.queue|
    ensures var n' := EnqueuedAll(Dropped(n, index), ms);
            && Open(en, n')
            && (forall w :: w in InFlight(n) && w != n.queue[index].message ==> w in InFlight(n'))
            && (forall r :: r in ms ==> r in InFlight(n'))
            && (forall w :: w in InFlight(n') ==> w in InFlight(n) || w in ms)
  {
    DroppedInFlight(n, index);
    EnqueuedInFlight(Dropped(n, index), ms);
    EnqueuedFrame(Dropped(n, index), ms);
  }

  lemma {:induction false} EnqueuedFrame(n: Network, ms: seq<Message>)
    ensures var n' := EnqueuedAll(n, ms); n'.blocked == n.blocked && n'.dropAll == n.dropAll && n'.handlers == n.handlers
    decreases |ms|
  {
    if ms != [] {
      EnqueuedFrame(Enqueued(n, ms[0]), ms[1..]);
    }
  }

  /** What is carried over for a peer the delivery did not involve. */
  lemma StillFollowed(x: NodeId, s: Node, s': Node, p: NodeId, t: Node, t': Node, flight: set<Message>, flight': set<Message>,
                      m: Message)
    requires p in s.progress && p in s'.progress && s'.progress[p] == s.progress[p]
    requires s'.log == s.log && s'.term == s.term && s'.commit == s.commit && t'.commit >= t.commit
    requires Chased(flight, x, s, p) && Informed(flight, x, s, p, t)
    requires forall w :: w in flight && w != m ==> w in flight'
    ensures !Exchange(m, x, p, s.term) ==> Chased(flight', x, s', p)
    ensures !Bearing(m, x, p, s.term, s.commit) ==> Informed(flight', x, s', p, t')
  {
  }

  /** A peer takes a message: the leader's pursuit of it goes on. */
  lemma PeerTook(en: Ensemble, f: Field, net: set<Message>, h: History, x: NodeId, index: nat)
    requires FieldInv(en, f, net, h) && Settling(en, f, x) && index < |f.net.queue| && f.net.queue[index].message.to != x
    ensures Settling(en, Delivered(en, f, index), x) && SameReign(f, Delivered(en, f, index), x)
  {
    hide HistoryInv, CommitTarget, BodyInv, NodeInv, NetworkInv;
    var m := f.net.queue[index].message;
    assert MessageInv(en, h, m) && m in InFlight(f.net);
    var i := m.to;
    var o := Handle(ConfigOf(en, i), f.nodes[i], Event.Deliver(m));
    DeliveryShaped(en, h, i, f.nodes[i], m);
    EventStamped(ConfigOf(en, i), f.nodes[i], Event.Deliver(m));
    FlightAfter(en, f.net, index, o.fx.messages);
    var f' := Delivered(en, f, index);
    assert f' == Field(f.nodes[i := o.node], EnqueuedAll(Dropped(f.net, index), o.fx.messages));
    var s := f.nodes[x];
    assert Followed(f, x, i);
    forall p | p in en.members && p != x ensures Followed(f', x, p) {
      assert Followed(f, x, p);
      StillFollowed(x, s, s, p, f.nodes[p], f'.nodes[p], InFlight(f.net), InFlight(f'.net), m);
      if Exchange(m, x, p, s.term) {
        var r := RequestAnswered(en, h, i, f.nodes[i], m);
        assert r in InFlight(f'.net);
        assert Exchange(r, x, p, s.term);
        if Bearing(m, x, p, s.term, s.commit) && r.body.success {
          assert f'.nodes[p].commit >= s.commit;
        } else {
          assert Bearing(m, x, p, s.term, s.commit) ==> Bearing(r, x, p, s.term, s.commit);
        }
      } else {
        assert !Bearing(m, x, p, s.term, s.commit);
      }
    }
  }

  /** The leader takes a message: it answers, announces, or has nothing left to do for that peer. */
  lemma LeaderTook(en: Ensemble, f: Field, net: set<Message>, h: History, x: NodeId, index: nat)
    requires FieldInv(en, f, net, h) && Settling(en, f, x) && index < |f.net.queue| && f.net.queue[index].message.to == x
    ensures Settling(en, Delivered(en, f, index), x) && SameReign(f, Delivered(en, f, index), x)
  {
    var m := f.net.queue[index].message;
    assert MessageInv(en, h, m) && m in InFlight(f.net);
    var s := f.nodes[x];
    var o := Handle(ConfigOf(en, x), s, Event.Deliver(m));
    DeliveryShaped(en, h, x, s, m);
    EventStamped(ConfigOf(en, x), s, Event.Deliver(m));
    FlightAfter(en, f.net, index, o.fx.messages);
    var f' := Delivered(en, f, index);
    assert f' == Field(f.nodes[x := o.node], EnqueuedAll(Dropped(f.net, index), o.fx.messages));
    forall p | p in en.members && p != x ensures Followed(f', x, p) {
      assert Followed(f, x, p);
      if m.body.AppendResponse? && m.term == s.term {
        LeaderReacts(en, h, x, s, m, p);
        LeaderGoesOn(x, s, o, p, f.nodes[p], InFlight(f.net), InFlight(f'.net), m);
      } else {
        LeaderUnmoved(en, h, x, s, m);
        StillFollowed(x, s, s, p, f.nodes[p], f.nodes[p], InFlight(f.net), InFlight(f'.net), m);
      }
    }
  }

  lemma LeaderGoesOn(x: NodeId, s: Node, o: Outcome, p: NodeId, t: Node, flight: set<Message>, flight': set<Message>, m: Message)
    requires m.body.AppendResponse? && m.to == x && m.from != x && p != x
    requires Reaction(s, o, x, m.from, m.body.success, p)
    requires Chased(flight, x, s, p) && Informed(flight, x, s, p, t)
    requires forall w :: w in flight && w != m ==> w in flight'
    requires forall r :: r in o.fx.messages ==> r in flight'
    ensures Chased(flight', x, o.node, p) && Informed(flight', x, o.node, p, t)
  {
    if Asks(o.fx.messages, x, p, s.term, o.node.commit) {
      var r :| r in o.fx.messages && IsRequestFor(r, x, p, s.term, o.node.commit);
      assert Exchange(r, x, p, s.term) && Bearing(r, x, p, s.term, o.node.commit);
      assert r in flight';
    } else {
      assert o.node.commit == s.commit;
      if p != m.from {
        StillFollowed(x, s, o.node, p, t, t, flight, flight', m);
      }
    }
  }

  lemma SettlingStep(en: Ensemble, f: Field, net: set<Message>, h: History, x: NodeId, pick: nat)
    requires FieldInv(en, f, net, h) && Settling(en, f, x)
    ensures Settling(en, DeliverNext(en, f, pick), x) && SameReign(f, DeliverNext(en, f, pick), x)
  {
    if f.net.queue != [] {
      var index := pick % |f.net.queue|;
      if f.net.queue[index].message.to == x {
        LeaderTook(en, f, net, h, x, index);
      } else {
        PeerTook(en, f, net, h, x, index);
      }
    }
  }

  // ----- At the end -----

  /** This log is the leader's, all of it is committed, and everyone else follows in the leader's term. */
  ghost predicate ConvergedTo(f: Field, x: NodeId, p: NodeId) {
    && x in f.nodes && p in f.nodes
    && f.nodes[p].log == f.nodes[x].log && f.nodes[p].commit == |f.nodes[x].log|
    && f.nodes[p].term == f.nodes[x].term && f.nodes[p].role == if p == x then Leader else Follower
  }

  ghost predicate Converged(en: Ensemble, f: Field, x: NodeId) {
    forall p {:trigger ConvergedTo(f, x, p)} :: p in en.members ==> ConvergedTo(f, x, p)
  }

  /** A peer the leader knows to be caught up, and no newer than the leader, holds exactly the leader's log. */
  lemma MatchedIsEqual(en: Ensemble, h: History, x: NodeId, s: Node, p: NodeId, t: Node)
    requires Good(en, h, x, s) && s.role == Leader && NodeInv(en, h, p, t) && p in s.progress && t.term <= s.term
    requires s.progress[p].matched >= |s.log|
    ensures t.log == s.log && s.progress[p].matched == |s.log| && t.term == s.term && t.role == Follower
  {
    assert ReignInv(en, h, s.term) && ProgressInv(h, p, s) && AckInv(h, Key(p, s.term));
    assert VersionLeq(Version(s.term, h.acked[Key(p, s.term)]), VersionOf(t.log));
    WholeLogIsPrefix(h, t.log);
  }

  /** When every peer matches, the whole log is committed. */
  lemma AllMatchedCommits(en: Ensemble, h: History, x: NodeId, s: Node)
    requires Good(en, h, x, s) && s.role == Leader && Maximal(ConfigOf(en, x), s)
    requires forall p :: p in en.members && p != x ==> p in s.progress && s.progress[p].matched >= |s.log|
    ensures s.commit == |s.log|
  {
    hide ValidLog, TermsBounded, Elected, Committed, VoteRecorded, CommitTarget, Replicated, ProgressInv, Contiguous;
    assert ReignInv(en, h, s.term);
    assert TermAt(s.log, |s.log|) == Some(s.term);
    AllMatchedReplicated(ConfigOf(en, x), s);
  }

  lemma AllMatchedReplicated(cfg: Config, s: Node)
    requires Distinct(cfg.members) && cfg.self in Elements(cfg.members) && s.progress.Keys == Elements(cfg.members) - {cfg.self}
    requires forall p :: p in s.progress ==> s.progress[p].matched >= |s.log|
    ensures Replicated(cfg, s, |s.log|)
  {
    hide Distinct, Elements;
    DistinctCount(cfg.members);
    AllMatch(s, Elements(cfg.members) - {cfg.self});
    AllButOne(Elements(cfg.members), cfg.self);
  }

  lemma AllMatch(s: Node, peers: set<NodeId>)
    requires s.progress.Keys == peers && forall p :: p in peers ==> s.progress[p].matched >= |s.log|
    ensures MatchedPeers(s, |s.log|) == peers
  {
  }

  lemma AllButOne(all: set<NodeId>, x: NodeId)
    requires x in all
    ensures 1 + |all - {x}| == |all|
  {
  }

  lemma EmptyIsConverged(en: Ensemble, f: Field, net: set<Message>, h: History, x: NodeId)
    requires FieldInv(en, f, net, h) && Settling(en, f, x) && f.net.queue == []
    ensures Converged(en, f, x) && SameReign(f, f, x)
  {
    var s := f.nodes[x];
    assert InFlight(f.net) == {};
    assert Maximal(ConfigOf(en, x), s);
    forall p | p in en.members && p != x ensures p in s.progress && s.progress[p].matched >= |s.log| {
      assert Followed(f, x, p);
    }
    AllMatchedCommits(en, h, x, s);
    forall p | p in en.members ensures ConvergedTo(f, x, p) {
      if p != x {
        assert Followed(f, x, p);
        MatchedIsEqual(en, h, x, s, p, f.nodes[p]);
      }
    }
  }

  lemma {:induction false} DrainedIsConverged(en: Ensemble, f: Field, net: set<Message>, h: History, x: NodeId,
                                              pick: nat -> nat, k: nat, n: nat)
    requires FieldInv(en, f, net, h) && Settling(en, f, x) && Drained(en, f, pick, k, n).net.queue == []
    ensures Converged(en, Drained(en, f, pick, k, n), x) && SameReign(f, Drained(en, f, pick, k, n), x)
    decreases n
  {
    hide FieldInv, Settling, Converged;
    if n == 0 {
      EmptyIsConverged(en, f, net, h, x);
    } else {
      var g, net', h' := SettlingNext(en, f, net, h, x, pick(k));
      DrainedIsConverged(en, g, net', h', x, pick, k + 1, n - 1);
    }
  }

  lemma SettlingNext(en: Ensemble, f: Field, net: set<Message>, h: History, x: NodeId, pick: nat)
    returns (g: Field, net': set<Message>, h': History)
    requires FieldInv(en, f, net, h) && Settling(en, f, x)
    ensures g == DeliverNext(en, f, pick) && FieldInv(en, g, net', h') && Settling(en, g, x) && SameReign(f, g, x)
  {
    g := DeliverNext(en, f, pick);
    SettlingStep(en, f, net, h, x, pick);
    net', h' := NextKeeps(en, f, net, h, pick);
  }

  /** A state in which x leads, nothing is newer than its term, and everyone can be reached. */
  ghost predicate Calm(en: Ensemble, f: Field, x: NodeId) {
    && x in en.members && (forall i :: i in en.members ==> i in f.nodes && x in f.nodes && f.nodes[i].term <= f.nodes[x].term)
    && x in f.nodes && f.nodes[x].role == Leader
    && (forall k :: 0 <= k < |f.net.queue| ==> f.net.queue[k].message.term <= f.nodes[x].term)
    && f.net.blocked == {} && !f.net.dropAll && (forall i :: i in en.members ==> i in f.net.handlers)
  }

  /** A heartbeat sets the leader after every peer. */
  lemma HeartbeatSettles(en: Ensemble, f: Field, net: set<Message>, h: History, x: NodeId)
    requires FieldInv(en, f, net, h) && Calm(en, f, x)
    ensures Settling(en, After(en, f, x, HeartbeatTimeout), x)
  {
    hide HistoryInv, CommitTarget, BodyInv, NodeInv, NetworkInv, Carries, Chased, Informed;
    var s := f.nodes[x];
    var cfg := ConfigOf(en, x);
    assert NodeInv(en, h, x, s);
    AppendsSent(en, h, x, s, NO_EFFECTS);
    var o := Broadcast(cfg, s, NO_EFFECTS);
    EventStamped(cfg, s, HeartbeatTimeout);
    EnqueuedInFlight(f.net, o.fx.messages);
    EnqueuedFrame(f.net, o.fx.messages);
    var f' := After(en, f, x, HeartbeatTimeout);
    assert f'.nodes == f.nodes && f'.net == EnqueuedAll(f.net, o.fx.messages);
    forall p | p in en.members && p != x ensures Followed(f', x, p) {
      BroadcastReaches(cfg, s, p, NO_EFFECTS);
      RequestPursues(cfg, s, p, f.nodes[p], InFlight(f'.net));
    }
  }

  lemma RequestPursues(cfg: Config, s: Node, p: NodeId, t: Node, flight: set<Message>)
    requires p in s.progress && AppendFor(cfg, s, p) in flight
    ensures Chased(flight, cfg.self, s, p) && Informed(flight, cfg.self, s, p, t)
  {
    var r := AppendFor(cfg, s, p);
    assert Exchange(r, cfg.self, p, s.term) && Bearing(r, cfg.self, p, s.term, s.commit);
  }

  lemma BroadcastReaches(cfg: Config, s: Node, p: NodeId, fx: Effects)
    requires p in cfg.members && p != cfg.self && Broadcast(cfg, s, fx).Done?
    ensures p in s.progress && AppendFor(cfg, s, p) in Broadcast(cfg, s, fx).fx.messages
  {
    var peers := Peers(cfg);
    assert p in peers;
    var k :| 0 <= k < |peers| && peers[k] == p;
    assert AppendsFor(cfg, s, peers)[k] == AppendFor(cfg, s, p);
  }

  /** The same from any state that keeps the invariant, however it was reached. */
  lemma HeartbeatConvergesFrom(en: Ensemble, f: Field, net: set<Message>, h: History, x: NodeId, pick: nat -> nat, n: nat)
    requires FieldInv(en, f, net, h) && Calm(en, f, x)
    requires Drained(en, After(en, f, x, HeartbeatTimeout), pick, 0, n).net.queue == []
    ensures var g := Drained(en, After(en, f, x, HeartbeatTimeout), pick, 0, n); Converged(en, g, x) && SameReign(f, g, x)
  {
    HeartbeatSettles(en, f, net, h, x);
    var net', h' := AfterKeepsField(en, f, net, h, x, HeartbeatTimeout);
    DrainedIsConverged(en, After(en, f, x, HeartbeatTimeout), net', h', x, pick, 0, n);
  }

  /** From any state that keeps the invariant, an event's consequences drain whatever the order. */
  lemma DrainsAfter(en: Ensemble, f: Field, net: set<Message>, h: History, i: NodeId, e: Event, pick: nat -> nat) returns (n: nat)
    requires FieldInv(en, f, net, h) && i in en.members && HonestEvent(en, h, i, e)
    ensures i in f.nodes && Drained(en, After(en, f, i, e), pick, 0, n).net.queue == []
  {
    hide After, Drained, FieldInv;
    NodesThere(en, f, net, h);
    var net', h' := AfterKeepsField(en, f, net, h, i, e);
    var f' := After(en, f, i, e);
    NodesThere(en, f', net', h');
    var top, size := BoundsExist(en, f');
    n := DrainsWithin(en, f', net', h', top, size, pick, 0);
  }

  lemma NodesThere(en: Ensemble, f: Field, net: set<Message>, h: History)
    requires FieldInv(en, f, net, h)
    ensures forall i :: i in en.members ==> i in f.nodes
  {
  }

  /**
   Quiescent convergence: from any test scenario, once one leader is as new as everything else and
   all can be reached, its heartbeat and any order of deliveries that empties the queue leave every
   log equal to the leader's and every commit index at its end.
   */
  lemma HeartbeatConverges(en: Ensemble, f: Field, x: NodeId, pick: nat -> nat, n: nat)
    requires Reached(en, f) && Calm(en, f, x)
    requires Drained(en, After(en, f, x, HeartbeatTimeout), pick, 0, n).net.queue == []
    ensures var g := Drained(en, After(en, f, x, HeartbeatTimeout), pick, 0, n); Converged(en, g, x) && SameReign(f, g, x)
  {
    hide FieldInv, Drained, After, Converged, SameReign, Calm;
    var net, h := ReachedInv(en, f);
    HeartbeatConvergesFrom(en, f, net, h, x, pick, n);
  }

  /** And every order of deliveries does empty it. */
  lemma HeartbeatConvergesAlways(en: Ensemble, f: Field, x: NodeId, pick: nat -> nat) returns (n: nat)
    requires Reached(en, f) && Calm(en, f, x)
    ensures var g := Drained(en, After(en, f, x, HeartbeatTimeout), pick, 0, n);
            g.net.queue == [] && Converged(en, g, x) && SameReign(f, g, x)
  {
    hide FieldInv, Drained, After, Converged, SameReign;
    var net, h := ReachedInv(en, f);
    n := DrainsAfter(en, f, net, h, x, HeartbeatTimeout, pick);
    HeartbeatConverges(en, f, x, pick, n);
  }
}
