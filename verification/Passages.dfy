/** What each way of shaping the network does to what passes: by what is sent and delivered, not by its fields. */
module Passages {
  import opened RaftTypes
  import opened Networks

  /** A message sent now is queued, last, under a new ID. */
  predicate Accepted(n: Network, m: Message) {
    Enqueued(n, m) == n.(queue := n.queue + [Pending(n.nextId, m)], nextId := n.nextId + 1)
  }

  /** A message sent now is lost. */
  predicate Lost(n: Network, m: Message) {
    Enqueued(n, m) == n
  }

  predicate Waiting(n: Network, index: nat, m: Message) {
    index < |n.queue| && n.queue[index].message == m
  }

  /** The two are on different sides of a cut. */
  predicate Across(left: set<NodeId>, right: set<NodeId>, m: Message) {
    (m.from in left && m.to in right) || (m.from in right && m.to in left)
  }

  /** Whatever was done to a network, once it is healed every message is accepted and reaches a registered receiver. */
  lemma HealOpens(n: Network, m: Message, index: nat)
    ensures var healed := ApplyNet(n, NetOp.Heal);
            && healed.queue == n.queue && healed.handlers == n.handlers && healed.nextId == n.nextId
            && Accepted(healed, m)
            && (Waiting(healed, index, m) ==> Handed(healed, index) == if m.to in n.handlers then Some(m) else None)
  {
  }

  /** A partition stops exactly the messages between its sides, in both directions, when sent and when delivered. */
  lemma PartitionCuts(n: Network, left: set<NodeId>, right: set<NodeId>, m: Message, index: nat)
    ensures var cut := ApplyNet(n, NetOp.Partition(left, right));
            && cut.queue == n.queue && cut.handlers == n.handlers && cut.nextId == n.nextId
            && (Across(left, right, m) ==> Lost(cut, m))
            && (!Across(left, right, m) ==> (Accepted(cut, m) <==> Accepted(n, m)))
            && (Waiting(cut, index, m) ==> Handed(cut, index) == if Across(left, right, m) then None else Handed(n, index))
  {
    var cut := ApplyNet(n, NetOp.Partition(left, right));
    CutExactly(left, right, m);
    assert |(n.queue + [Pending(n.nextId, m)])| == |n.queue| + 1;
  }

  lemma CutExactly(left: set<NodeId>, right: set<NodeId>, m: Message)
    ensures Route(m) in Cut(left, right) <==> Across(left, right, m)
  {
  }

  /** Partition and heal: as if nothing had been cut, for anything sent before or after. */
  lemma HealUndoes(n: Network, left: set<NodeId>, right: set<NodeId>)
    requires n.blocked == {} && !n.dropAll
    ensures ApplyNet(ApplyNet(n, NetOp.Partition(left, right)), NetOp.Heal) == n
  {
  }

  /** With everything dropped nothing is accepted; what is in the queue still arrives; taking it back restores the network. */
  lemma DropAllStops(n: Network, m: Message, index: nat)
    ensures var off := ApplyNet(n, NetOp.SetDropAll(true));
            && off.queue == n.queue && Lost(off, m) && Handed(off, index) == Handed(n, index)
            && (!n.dropAll ==> ApplyNet(off, NetOp.SetDropAll(false)) == n)
  {
  }

  /** Only a registered receiver is handed anything; the queue does not depend on who is registered. */
  lemma OnlyRegistered(n: Network, i: NodeId, index: nat)
    requires index < |n.queue|
    ensures var m := n.queue[index].message;
            var there, gone := ApplyNet(n, NetOp.Register(i)), ApplyNet(n, NetOp.Unregister(i));
            && there.queue == n.queue == gone.queue
            && (m.to == i ==> Handed(gone, index) == None && (Handed(there, index) == Some(m) <==> Route(m) !in n.blocked))
            && (m.to != i ==> Handed(gone, index) == Handed(n, index) == Handed(there, index))
  {
  }

  /** Duplicating adds one copy right before the original, under an ID nothing pending has; nothing else moves. */
  lemma DuplicateAddsOne(n: Network, index: nat)
    requires NetworkInv(n) && index < |n.queue|
    ensures var twice := ApplyNet(n, NetOp.Duplicate(index)); var copy := Pending(n.nextId, n.queue[index].message);
            && (forall p :: p in n.queue ==> p.id != copy.id)
            && |twice.queue| == |n.queue| + 1 && twice.queue[index] == copy && twice.queue[index + 1] == n.queue[index]
            && ApplyNet(twice, NetOp.Drop(index)).queue == n.queue
            && ApplyNet(twice, NetOp.Drop(index + 1)).queue == n.queue[index := copy]
  {
    hide Removed;
    InsertedGoes(n.queue, index, Pending(n.nextId, n.queue[index].message));
    InsertedStays(n.queue, index, Pending(n.nextId, n.queue[index].message));
  }

  lemma InsertedGoes(queue: seq<Pending>, index: nat, copy: Pending)
    requires index < |queue|
    ensures Removed(queue[..index] + [copy] + queue[index..], index) == queue
  {
    var twice := queue[..index] + [copy] + queue[index..];
    assert twice[..index] == queue[..index] && twice[index + 1..] == queue[index..];
  }

  lemma InsertedStays(queue: seq<Pending>, index: nat, copy: Pending)
    requires index < |queue|
    ensures Removed(queue[..index] + [copy] + queue[index..], index + 1) == queue[index := copy]
  {
    var twice := queue[..index] + [copy] + queue[index..];
    assert twice[..index + 1] == queue[..index] + [copy] && twice[index + 2..] == queue[index + 1..];
  }

  /** Reordering delivers last what came first, and twice is as before. */
  lemma ReorderTurns(n: Network, index: nat)
    requires index < |n.queue|
    ensures var turned := ApplyNet(n, NetOp.Reorder);
            && |turned.queue| == |n.queue| && Handed(turned, |n.queue| - 1 - index) == Handed(n, index)
            && ApplyNet(turned, NetOp.Reorder) == n
  {
    var turned := ApplyNet(n, NetOp.Reorder);
    assert Reversed(turned.queue) == n.queue;
  }

  /** Dropping or taking a message leaves the others in their order. */
  lemma OnlyOneLeaves(n: Network, index: nat)
    requires index < |n.queue|
    ensures var rest := Dropped(n, index).queue;
            && |rest| == |n.queue| - 1
            && forall k :: 0 <= k < |rest| ==> rest[k] == n.queue[if k < index then k else k + 1]
  {
  }

  /** A delivery by ID takes exactly the pending message with that ID, wherever it is. */
  lemma ByIdIsExact(n: Network, id: nat)
    requires NetworkInv(n)
    ensures var p := Position(n.queue, id);
            && (p < |n.queue| <==> exists q :: q in n.queue && q.id == id)
            && (forall q :: q in Dropped(n, p).queue <==> q in n.queue && q.id != id)
  {
    hide Dropped, Position, NetworkInv;
    PositionFinds(n.queue, id);
    var p := Position(n.queue, id);
    if p < |n.queue| {
      assert n.queue[p] in n.queue;
      OthersStay(n, p);
    } else {
      NoneLeaves(n, p);
    }
  }

  lemma NoneLeaves(n: Network, index: nat)
    requires index >= |n.queue|
    ensures Dropped(n, index) == n
  {
  }

  lemma OthersStay(n: Network, index: nat)
    requires NetworkInv(n) && index < |n.queue|
    ensures forall q :: q in Dropped(n, index).queue <==> q in n.queue && q.id != n.queue[index].id
  {
    hide Dropped;
    OnlyOneLeaves(n, index);
    var rest := Dropped(n, index).queue;
    forall q | q in n.queue && q.id != n.queue[index].id ensures q in rest {
      var k :| 0 <= k < |n.queue| && n.queue[k] == q;
      assert if k < index then rest[k] == q else rest[k - 1] == q;
    }
    forall q | q in rest ensures q in n.queue && q.id != n.queue[index].id {
      var k :| 0 <= k < |rest| && rest[k] == q;
      assert q == n.queue[if k < index then k else k + 1];
    }
  }
}
