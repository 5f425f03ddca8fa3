/**
 Deliveries alone always empty the queue. Each one lowers, in this order: the terms nodes have yet to
 reach, the open elections, the commit indexes yet to be learned, and the weight of what is in flight.
 */
module Draining {
  import opened RaftTypes
  import opened Logs
  import opened Protocol
  import opened NodeFacts
  import opened Networks
  import opened Histories
  import opened NodeSteps
  import opened Handlers
  import opened Fields
  import opened Deliveries

  // ----- Sums over members -----

  function Total(members: seq<NodeId>, g: NodeId -> nat): nat {
    if members == [] then 0 else g(members[0]) + Total(members[1..], g)
  }

  lemma {:induction false} TotalMonotone(members: seq<NodeId>, g: NodeId -> nat, g': NodeId -> nat)
    requires forall i :: i in members ==> g'(i) <= g(i)
    ensures Total(members, g') <= Total(members, g)
    ensures (exists i :: i in members && g'(i) < g(i)) ==> Total(members, g') < Total(members, g)
    decreases |members|
  {
    if members != [] {
      TotalMonotone(members[1..], g, g');
      if i :| i in members && g'(i) < g(i) {
        assert i == members[0] || i in members[1..];
      }
    }
  }

  lemma {:induction false} TotalCovers(members: seq<NodeId>, g: NodeId -> nat, i: NodeId)
    requires i in members
    ensures g(i) <= Total(members, g)
    decreases |members|
  {
    if i != members[0] {
      TotalCovers(members[1..], g, i);
    }
  }

  // ----- The four components -----

  function TermGap(f: Field, top: nat): NodeId -> nat {
    i => if i in f.nodes && f.nodes[i].term <= top then top - f.nodes[i].term else 0
  }

  function Campaigns(f: Field): NodeId -> nat {
    i => if i in f.nodes && f.nodes[i].role == Candidate then 1 else 0
  }

  function CommitGap(f: Field, size: nat): NodeId -> nat {
    i => if i in f.nodes && f.nodes[i].commit <= size then size - f.nodes[i].commit else 0
  }

  /** The length of node x's log if it leads term t. */
  function LeaderEnd(f: Field, x: NodeId, t: nat): nat {
    if x in f.nodes && f.nodes[x].role == Leader && f.nodes[x].term == t then |f.nodes[x].log| else 0
  }

  function BodyWeight(f: Field, size: nat, m: Message): nat {
    match m.body
    case VoteRequest(_, _) => 2
    case VoteResponse(_) => 1
    case AppendRequest(prev, _, _, _) => 2 * prev + 2 + if EndOf(m) < LeaderEnd(f, m.from, m.term) then 2 * size + 4 else 0
    case AppendResponse(success, index, hint) =>
      if !success then 2 * hint + 1 else if index < LeaderEnd(f, m.to, m.term) then 2 * size + 3 else 1
  }

  function TermWeight(size: nat, gap: nat): nat {
    gap * (2 * size + 4)
  }

  function Weight(f: Field, top: nat, size: nat, m: Message): nat {
    (if m.term <= top then TermWeight(size, top - m.term) else 0) + BodyWeight(f, size, m)
  }

  function QueueWeight(f: Field, top: nat, size: nat, queue: seq<Pending>): nat {
    if queue == [] then 0 else Weight(f, top, size, queue[0].message) + QueueWeight(f, top, size, queue[1..])
  }

  /** No term exceeds `top`; no log, even after every open election is won, exceeds `size`. */
  ghost predicate NodeBounded(f: Field, top: nat, size: nat, open: nat, i: NodeId) {
    i in f.nodes && f.nodes[i].term <= top && |f.nodes[i].log| + open <= size
  }

  ghost predicate MessageBounded(top: nat, size: nat, open: nat, m: Message) {
    m.term <= top && (m.body.AppendRequest? ==> EndOf(m) + open <= size)
  }

  ghost predicate Bounded(en: Ensemble, f: Field, top: nat, size: nat) {
    var open := Total(en.members, Campaigns(f));
    && (forall i {:trigger NodeBounded(f, top, size, open, i)} :: i in en.members ==> NodeBounded(f, top, size, open, i))
    && (forall k :: 0 <= k < |f.net.queue| ==> MessageBounded(top, size, open, f.net.queue[k].message))
  }

  // ----- One delivery -----

  /** Messages a leader sends cover its log; nobody else sends requests on a delivery. */
  lemma OutputsBounded(en: Ensemble, h: History, i: NodeId, s: Node, m: Message)
    requires Good(en, h, i, s) && MessageInv(en, h, m) && m.to == i
    ensures var o := Handle(ConfigOf(en, i), s, Event.Deliver(m));
            o.Done? && forall r :: r in o.fx.messages ==>
              r.term == o.node.term && (r.body.AppendRequest? ==> EndOf(r) == |o.node.log|)
  {
    var h' := EventHandled(en, h, i, s, Event.Deliver(m));
    EventStamped(ConfigOf(en, i), s, Event.Deliver(m));
    EventShips(ConfigOf(en, i), s, Event.Deliver(m));
    var o := Handle(ConfigOf(en, i), s, Event.Deliver(m));
    forall r | r in o.fx.messages && r.body.AppendRequest? ensures EndOf(r) == |o.node.log| {
      assert Ships(o.node, r);
      assert MessageInv(en, h', r);
    }
  }

  /** A delivery lengthens a log only to the end of a request, or by the no-op of a won election. */
  lemma LogGrowth(en: Ensemble, h: History, i: NodeId, s: Node, m: Message)
    requires Good(en, h, i, s) && MessageInv(en, h, m) && m.to == i
    ensures var s' := Handle(ConfigOf(en, i), s, Event.Deliver(m)).node;
            || |s'.log| <= |s.log|
            || (m.body.AppendRequest? && |s'.log| <= EndOf(m))
            || (s.role == Candidate && s'.role == Leader && |s'.log| == |s.log| + 1)
  {
    hide HistoryInv, NodeInv, BodyInv, MergeEntries, BecomeLeader, CommitTarget;
    Demoted(en, h, i, s, Max(s.term, m.term), None, NO_EFFECTS);
    var b := if m.term > s.term then BecomeFollower(s, m.term, None, NO_EFFECTS) else Done(s, NO_EFFECTS);
    match m.body {
      case VoteRequest(_, _) =>
      case VoteResponse(_) => LeaderShape(ConfigOf(en, i), b.node.(votes := b.node.votes + {m.from}), b.fx);
      case AppendRequest(prev, prevTerm, _, _) =>
        if m.term >= s.term && TermAt(s.log, prev) == Some(prevTerm) {
          MergeOutcome(en, h, i, BecomeFollower(s, m.term, None, NO_EFFECTS).node, m);
          Accepting(ConfigOf(en, i), s, m);
        }
      case AppendResponse(_, _, _) => DeliveryShaped(en, h, i, s, m);
    }
  }

  /** The state after node i took a message that was handed to it. */
  function Taken(en: Ensemble, f: Field, index: nat, m: Message): Field
    requires m.to in f.nodes
  {
    After(en, f.(net := Dropped(f.net, index)), m.to, Event.Deliver(m))
  }

  /** Everything in the queue afterwards was there before or was just sent. */
  lemma {:induction false} EnqueuedFrom(n: Network, ms: seq<Message>)
    ensures forall k :: 0 <= k < |EnqueuedAll(n, ms).queue| ==>
              (k < |n.queue| && EnqueuedAll(n, ms).queue[k] == n.queue[k]) || EnqueuedAll(n, ms).queue[k].message in ms
    decreases |ms|
  {
    if ms != [] {
      EnqueuedFrom(Enqueued(n, ms[0]), ms[1..]);
    }
  }

  lemma OpenElections(en: Ensemble, f: Field, f': Field, i: NodeId)
    requires i in en.members && i in f.nodes && i in f'.nodes && f'.nodes == f.nodes[i := f'.nodes[i]]
    requires f'.nodes[i].role == Candidate ==> f.nodes[i].role == Candidate
    ensures Total(en.members, Campaigns(f')) <= Total(en.members, Campaigns(f))
    ensures f.nodes[i].role == Candidate && f'.nodes[i].role != Candidate ==>
              Total(en.members, Campaigns(f')) < Total(en.members, Campaigns(f))
  {
    assert Campaigns(f')(i) <= Campaigns(f)(i);
    TotalMonotone(en.members, Campaigns(f), Campaigns(f'));
  }

  /** Taking a message stays within the bounds. */
  lemma TakenBounded(en: Ensemble, f: Field, net: set<Message>, h: History, top: nat, size: nat, index: nat, m: Message)
    requires FieldInv(en, f, net, h) && Bounded(en, f, top, size) && Handed(f.net, index) == Some(m)
    ensures m.to in f.nodes && Bounded(en, Taken(en, f, index, m), top, size)
  {
    var i := m.to;
    assert MessageInv(en, h, m);
    var s := f.nodes[i];
    var open := Total(en.members, Campaigns(f));
    assert NodeBounded(f, top, size, open, i) && MessageBounded(top, size, open, f.net.queue[index].message);
    DeliveryShaped(en, h, i, s, m);
    LogGrowth(en, h, i, s, m);
    OutputsBounded(en, h, i, s, m);
    var o := Handle(ConfigOf(en, i), s, Event.Deliver(m));
    var f' := Taken(en, f, index, m);
    OpenElections(en, f, f', i);
    var open' := Total(en.members, Campaigns(f'));
    BoundsCarry(en, f, f', top, size, open, open', i, o, index);
  }

  lemma BoundsCarry(en: Ensemble, f: Field, f': Field, top: nat, size: nat, open: nat, open': nat, i: NodeId,
                    o: Outcome, index: nat)
    requires forall j {:trigger NodeBounded(f, top, size, open, j)} :: j in en.members ==> NodeBounded(f, top, size, open, j)
    requires forall k :: 0 <= k < |f.net.queue| ==> MessageBounded(top, size, open, f.net.queue[k].message)
    requires open' <= open && i in f.nodes && o.Done?
    requires f' == Field(f.nodes[i := o.node], EnqueuedAll(Dropped(f.net, index), o.fx.messages))
    requires o.node.term <= top && |o.node.log| + open' <= size
    requires forall r :: r in o.fx.messages ==> r.term == o.node.term && (r.body.AppendRequest? ==> EndOf(r) == |o.node.log|)
    requires open' == Total(en.members, Campaigns(f'))
    ensures Bounded(en, f', top, size)
  {
    forall j | j in en.members ensures NodeBounded(f', top, size, open', j) {
      assert NodeBounded(f, top, size, open, j);
    }
    EnqueuedFrom(Dropped(f.net, index), o.fx.messages);
    var q := Dropped(f.net, index).queue;
    forall k | 0 <= k < |q| ensures MessageBounded(top, size, open', q[k].message) {
      assert q[k] == f.net.queue[k] || (k + 1 < |f.net.queue| && q[k] == f.net.queue[k + 1]);
    }
  }

  // ----- The measure drops -----

  lemma {:induction false} QueueWeightAppend(f: Field, top: nat, size: nat, a: seq<Pending>, b: seq<Pending>)
    ensures QueueWeight(f, top, size, a + b) == QueueWeight(f, top, size, a) + QueueWeight(f, top, size, b)
    decreases |a|
  {
    if a == [] {
      assert a + b == b;
    } else {
      assert (a + b)[1..] == a[1..] + b;
      QueueWeightAppend(f, top, size, a[1..], b);
    }
  }

  lemma QueueWeightRemove(f: Field, top: nat, size: nat, queue: seq<Pending>, index: nat)
    requires index < |queue|
    ensures QueueWeight(f, top, size, queue)
         == QueueWeight(f, top, size, Removed(queue, index)) + Weight(f, top, size, queue[index].message)
  {
    var a, b, c := queue[..index], [queue[index]], queue[index + 1..];
    assert queue == a + (b + c);
    QueueWeightAppend(f, top, size, a, b + c);
    QueueWeightAppend(f, top, size, b, c);
    QueueWeightAppend(f, top, size, a, c);
    assert b[1..] == [];
  }

  lemma {:induction false} QueueWeightSame(f: Field, f': Field, top: nat, size: nat, queue: seq<Pending>)
    requires forall x, t :: LeaderEnd(f, x, t) == LeaderEnd(f', x, t)
    ensures QueueWeight(f, top, size, queue) == QueueWeight(f', top, size, queue)
    decreases |queue|
  {
    if queue != [] {
      QueueWeightSame(f, f', top, size, queue[1..]);
    }
  }

  lemma {:induction false} TermWeightMonotone(size: nat, a: nat, b: nat)
    requires a < b
    ensures TermWeight(size, a) + 2 * size + 4 <= TermWeight(size, b)
    decreases b
  {
    var c := 2 * size + 4;
    assert b * c == (b - 1) * c + c;
    if a < b - 1 {
      TermWeightMonotone(size, a, b - 1);
    }
  }

  /** The one message a quiet delivery leads to weighs less than the one it took. */
  lemma ReplyIsLighter(f: Field, top: nat, size: nat, i: NodeId, m: Message, r: Message)
    requires i in f.nodes && m.to == i && FollowsFrom(f.nodes[i], m, r) && m.term <= r.term <= top
    requires |f.nodes[i].log| + 1 <= size + 1
    requires m.body.AppendResponse? && !m.body.success ==> m.body.rejectHint >= 1
    ensures Weight(f, top, size, r) < Weight(f, top, size, m)
  {
    if m.term < r.term {
      TermWeightMonotone(size, top - r.term, top - m.term);
    }
  }

  /** When nothing progressed, the queue got lighter. */
  lemma QuietIsLighter(en: Ensemble, f: Field, net: set<Message>, h: History, top: nat, size: nat, index: nat, m: Message)
    requires FieldInv(en, f, net, h) && Bounded(en, f, top, size) && Handed(f.net, index) == Some(m) && m.to in f.nodes
    requires !Progressed(f.nodes[m.to], Handle(ConfigOf(en, m.to), f.nodes[m.to], Event.Deliver(m)).node)
    ensures var f' := Taken(en, f, index, m);
            QueueWeight(f', top, size, f'.net.queue) < QueueWeight(f, top, size, f.net.queue)
  {
    var i := m.to;
    assert MessageInv(en, h, m);
    var s := f.nodes[i];
    DeliveryShaped(en, h, i, s, m);
    OutputsBounded(en, h, i, s, m);
    var o := Handle(ConfigOf(en, i), s, Event.Deliver(m));
    assert NodeBounded(f, top, size, Total(en.members, Campaigns(f)), i);
    assert |o.fx.messages| == 1 ==> o.fx.messages[0] in o.fx.messages;
    assert o.fx.messages == [] || o.fx.messages == [o.fx.messages[0]];
    QuietWeights(f, Taken(en, f, index, m), top, size, index, m, o.fx.messages);
  }

  lemma QuietWeights(f: Field, f': Field, top: nat, size: nat, index: nat, m: Message, ms: seq<Message>)
    requires index < |f.net.queue| && f.net.queue[index].message == m && m.to in f.nodes && m.to in f'.nodes
    requires f'.nodes == f.nodes[m.to := f'.nodes[m.to]] && f'.net == EnqueuedAll(Dropped(f.net, index), ms)
    requires var s, s' := f.nodes[m.to], f'.nodes[m.to];
             s.role == s'.role && s.term == s'.term && (s.role == Leader ==> s.log == s'.log) && |s.log| <= size
    requires ms == [] || (|ms| == 1 && FollowsFrom(f.nodes[m.to], m, ms[0]) && m.term <= ms[0].term <= top)
    requires m.body.AppendResponse? && !m.body.success ==> m.body.rejectHint >= 1
    ensures QueueWeight(f', top, size, f'.net.queue) < QueueWeight(f, top, size, f.net.queue)
  {
    var rest := Dropped(f.net, index);
    QueueWeightRemove(f, top, size, f.net.queue, index);
    QueueWeightSame(f, f', top, size, rest.queue);
    if ms != [] {
      var r := ms[0];
      var one := [Pending(rest.nextId, r)];
      assert ms == [r] && one[1..] == [];
      ReplyIsLighter(f, top, size, m.to, m, r);
      QueueWeightSame(f, f', top, size, one);
      QueueWeightAppend(f', top, size, rest.queue, one);
      OneEnqueued(rest, r);
    }
  }

  lemma OneEnqueued(n: Network, r: Message)
    ensures EnqueuedAll(n, [r]).queue == n.queue || EnqueuedAll(n, [r]).queue == n.queue + [Pending(n.nextId, r)]
  {
    var ms := [r];
    assert ms[1..] == [];
    assert EnqueuedAll(Enqueued(n, r), []) == Enqueued(n, r);
  }

  /** The components of the measure, most significant first. */
  datatype Measure = Measure(terms: nat, elections: nat, commits: nat, weight: nat)

  function MeasureOf(en: Ensemble, f: Field, top: nat, size: nat): Measure {
    Measure(Total(en.members, TermGap(f, top)), Total(en.members, Campaigns(f)), Total(en.members, CommitGap(f, size)),
            QueueWeight(f, top, size, f.net.queue))
  }

  predicate Smaller(a: Measure, b: Measure) {
    || a.terms < b.terms
    || (a.terms == b.terms && (|| a.elections < b.elections
                               || (a.elections == b.elections && (|| a.commits < b.commits
                                                                  || (a.commits == b.commits && a.weight < b.weight)))))
  }

  lemma NodeProgress(en: Ensemble, f: Field, f': Field, top: nat, size: nat, i: NodeId)
    requires i in en.members && i in f.nodes && i in f'.nodes && f'.nodes == f.nodes[i := f'.nodes[i]]
    requires var s, s' := f.nodes[i], f'.nodes[i];
             && s.term <= s'.term <= top && s.commit <= s'.commit <= size
             && (s'.role == Candidate ==> s.role == Candidate && s'.term == s.term)
    ensures var a, b := MeasureOf(en, f', top, size), MeasureOf(en, f, top, size);
            && a.terms <= b.terms && a.elections <= b.elections && a.commits <= b.commits
            && (Progressed(f.nodes[i], f'.nodes[i]) ==>
                  a.terms < b.terms || a.elections < b.elections || a.commits < b.commits)
  {
    assert TermGap(f', top)(i) <= TermGap(f, top)(i);
    assert Campaigns(f')(i) <= Campaigns(f)(i);
    assert CommitGap(f', size)(i) <= CommitGap(f, size)(i);
    TotalMonotone(en.members, TermGap(f, top), TermGap(f', top));
    TotalMonotone(en.members, Campaigns(f), Campaigns(f'));
    TotalMonotone(en.members, CommitGap(f, size), CommitGap(f', size));
  }

  /** Every delivery, whichever message it takes, makes the measure smaller and stays within bounds. */
  lemma DeliveryIsSmaller(en: Ensemble, f: Field, net: set<Message>, h: History, top: nat, size: nat, index: nat)
    requires FieldInv(en, f, net, h) && Bounded(en, f, top, size) && index < |f.net.queue|
    ensures Smaller(MeasureOf(en, Delivered(en, f, index), top, size), MeasureOf(en, f, top, size))
    ensures Bounded(en, Delivered(en, f, index), top, size)
  {
    var m := Handed(f.net, index);
    if m.Some? {
      TakenBounded(en, f, net, h, top, size, index, m.value);
      TakenIsSmaller(en, f, net, h, top, size, index, m.value);
    } else {
      LostIsSmaller(en, f, top, size, index);
    }
  }

  lemma LostIsSmaller(en: Ensemble, f: Field, top: nat, size: nat, index: nat)
    requires Bounded(en, f, top, size) && index < |f.net.queue|
    ensures var f' := f.(net := Dropped(f.net, index));
            Smaller(MeasureOf(en, f', top, size), MeasureOf(en, f, top, size)) && Bounded(en, f', top, size)
  {
    hide MessageBounded, Weight, QueueWeight, TermGap, Campaigns, CommitGap, Total;
    var f' := f.(net := Dropped(f.net, index));
    QueueWeightRemove(f, top, size, f.net.queue, index);
    WeightPositive(f, top, size, f.net.queue[index].message);
    QueueWeightSame(f, f', top, size, f'.net.queue);
    SameNodes(en, f, f', top, size);
    var open := Total(en.members, Campaigns(f));
    forall i | i in en.members ensures NodeBounded(f', top, size, open, i) {
      assert NodeBounded(f, top, size, open, i);
    }
    var q := f'.net.queue;
    forall k | 0 <= k < |q| ensures MessageBounded(top, size, open, q[k].message) {
      assert q[k] == f.net.queue[k] || (k + 1 < |f.net.queue| && q[k] == f.net.queue[k + 1]);
    }
  }

  lemma WeightPositive(f: Field, top: nat, size: nat, m: Message)
    ensures Weight(f, top, size, m) >= 1
  {
  }

  lemma SameNodes(en: Ensemble, f: Field, f': Field, top: nat, size: nat)
    requires f'.nodes == f.nodes
    ensures Total(en.members, TermGap(f', top)) == Total(en.members, TermGap(f, top))
    ensures Total(en.members, Campaigns(f')) == Total(en.members, Campaigns(f))
    ensures Total(en.members, CommitGap(f', size)) == Total(en.members, CommitGap(f, size))
  {
    SameTotal(en.members, TermGap(f, top), TermGap(f', top));
    SameTotal(en.members, Campaigns(f), Campaigns(f'));
    SameTotal(en.members, CommitGap(f, size), CommitGap(f', size));
  }

  lemma {:induction false} SameTotal(members: seq<NodeId>, g: NodeId -> nat, g': NodeId -> nat)
    requires forall i :: g'(i) == g(i)
    ensures Total(members, g') == Total(members, g)
    decreases |members|
  {
    if members != [] {
      SameTotal(members[1..], g, g');
    }
  }

  lemma TakenIsSmaller(en: Ensemble, f: Field, net: set<Message>, h: History, top: nat, size: nat, index: nat, m: Message)
    requires FieldInv(en, f, net, h) && Bounded(en, f, top, size) && Handed(f.net, index) == Some(m) && m.to in f.nodes
    requires Bounded(en, Taken(en, f, index, m), top, size)
    ensures Smaller(MeasureOf(en, Taken(en, f, index, m), top, size), MeasureOf(en, f, top, size))
  {
    TakenMoves(en, f, net, h, top, size, index, m);
    if !Progressed(f.nodes[m.to], Taken(en, f, index, m).nodes[m.to]) {
      QuietIsLighter(en, f, net, h, top, size, index, m);
    }
    NodeProgress(en, f, Taken(en, f, index, m), top, size, m.to);
  }

  lemma TakenMoves(en: Ensemble, f: Field, net: set<Message>, h: History, top: nat, size: nat, index: nat, m: Message)
    requires FieldInv(en, f, net, h) && Handed(f.net, index) == Some(m) && m.to in f.nodes
    requires Bounded(en, Taken(en, f, index, m), top, size)
    ensures m.to in en.members
    ensures var s, s' := f.nodes[m.to], Taken(en, f, index, m).nodes[m.to];
            && s.term <= s'.term <= top && s.commit <= s'.commit <= size
            && (s'.role == Candidate ==> s.role == Candidate && s'.term == s.term)
  {
    var i := m.to;
    assert MessageInv(en, h, m) && NodeInv(en, h, i, f.nodes[i]);
    DeliveryShaped(en, h, i, f.nodes[i], m);
    EventSound(ConfigOf(en, i), f.nodes[i], Event.Deliver(m));
    var f' := Taken(en, f, index, m);
    assert NodeBounded(f', top, size, Total(en.members, Campaigns(f')), i);
  }
}
