/** The in-memory network: a queue that tests may block, drop, duplicate, reorder and deliver from. */
module Networks {
  import opened RaftTypes

  datatype Pending = Pending(id: nat, message: Message)

  datatype Edge = Edge(from: NodeId, to: NodeId)

  datatype Network = Network(queue: seq<Pending>, blocked: set<Edge>, dropAll: bool, nextId: nat, handlers: set<NodeId>)

  const IDLE := Network([], {}, false, 1, {})

  function Route(m: Message): Edge {
    Edge(m.from, m.to)
  }

  function Enqueued(n: Network, m: Message): Network {
    if n.dropAll || Route(m) in n.blocked then n
    else n.(queue := n.queue + [Pending(n.nextId, m)], nextId := n.nextId + 1)
  }

  function EnqueuedAll(n: Network, ms: seq<Message>): Network
    decreases |ms|
  {
    if ms == [] then n else EnqueuedAll(Enqueued(n, ms[0]), ms[1..])
  }

  function Removed(queue: seq<Pending>, index: nat): seq<Pending>
    requires index < |queue|
  {
    queue[..index] + queue[index + 1..]
  }

  function Dropped(n: Network, index: nat): Network {
    if index < |n.queue| then n.(queue := Removed(n.queue, index)) else n
  }

  function Duplicated(n: Network, index: nat): Network {
    if index < |n.queue|
    then n.(queue := n.queue[..index] + [Pending(n.nextId, n.queue[index].message)] + n.queue[index..], nextId := n.nextId + 1)
    else n
  }

  function Reversed(queue: seq<Pending>): (r: seq<Pending>)
    ensures |r| == |queue| && forall k :: 0 <= k < |queue| ==> r[k] == queue[|queue| - 1 - k]
  {
    if queue == [] then [] else [queue[|queue| - 1]] + Reversed(queue[..|queue| - 1])
  }

  function Cut(left: set<NodeId>, right: set<NodeId>): set<Edge> {
    (set a, b | a in left && b in right :: Edge(a, b)) + (set a, b | a in left && b in right :: Edge(b, a))
  }

  /** The message a delivery hands to its handler, if there is one and the edge is open. */
  function Handed(n: Network, index: nat): Option<Message> {
    if index < |n.queue| then
      var m := n.queue[index].message;
      if m.to in n.handlers && Route(m) !in n.blocked then Some(m) else None
    else None
  }

  /** The position of the first pending message with this id, or the queue's length. */
  function Position(queue: seq<Pending>, id: nat): nat {
    if queue == [] || queue[0].id == id then 0 else 1 + Position(queue[1..], id)
  }

  ghost predicate NetworkInv(n: Network) {
    && (forall k :: 0 <= k < |n.queue| ==> n.queue[k].id < n.nextId)
    && (forall j, k :: 0 <= j < k < |n.queue| ==> n.queue[j].id != n.queue[k].id)
  }

  /** Everything pending was sent at some time. */
  ghost predicate Carries(n: Network, sent: set<Message>) {
    forall k :: 0 <= k < |n.queue| ==> n.queue[k].message in sent
  }

  datatype NetOp =
    | Send(message: Message)
    | Deliver(index: nat)
    | Duplicate(index: nat)
    | Drop(index: nat)
    | Reorder
    | Partition(left: set<NodeId>, right: set<NodeId>)
    | Heal
    | SetDropAll(drop: bool)
    | Register(node: NodeId)
    | Unregister(node: NodeId)

  function ApplyNet(n: Network, op: NetOp): Network {
    match op
    case Send(m) => Enqueued(n, m)
    case Deliver(index) => Dropped(n, index)
    case Duplicate(index) => Duplicated(n, index)
    case Drop(index) => Dropped(n, index)
    case Reorder => n.(queue := Reversed(n.queue))
    case Partition(left, right) => n.(blocked := n.blocked + Cut(left, right))
    case Heal => n.(blocked := {}, dropAll := false)
    case SetDropAll(drop) => n.(dropAll := drop)
    case Register(node) => n.(handlers := n.handlers + {node})
    case Unregister(node) => n.(handlers := n.handlers - {node})
  }

  function NewlySent(op: NetOp): set<Message> {
    if op.Send? then {op.message} else {}
  }

  /** Every operation keeps ids distinct and below the next one, and the queue within what was ever sent. */
  lemma NetStep(n: Network, op: NetOp, sent: set<Message>)
    requires NetworkInv(n) && Carries(n, sent)
    ensures NetworkInv(ApplyNet(n, op)) && Carries(ApplyNet(n, op), sent + NewlySent(op))
    ensures forall index :: Handed(n, index).Some? ==> Handed(n, index).value in sent
    ensures n.nextId <= ApplyNet(n, op).nextId
  {
    match op {
      case Deliver(index) => DroppedKept(n, index, sent);
      case Drop(index) => DroppedKept(n, index, sent);
      case Duplicate(index) => DuplicatedKept(n, index, sent);
      case _ =>
    }
  }

  lemma DroppedKept(n: Network, index: nat, sent: set<Message>)
    requires NetworkInv(n) && Carries(n, sent)
    ensures NetworkInv(Dropped(n, index)) && Carries(Dropped(n, index), sent)
  {
    var q := Dropped(n, index).queue;
    assert index < |n.queue| ==>
        forall k :: 0 <= k < |q| ==> q[k] == if k < index then n.queue[k] else n.queue[k + 1];
  }

  lemma DuplicatedKept(n: Network, index: nat, sent: set<Message>)
    requires NetworkInv(n) && Carries(n, sent)
    ensures NetworkInv(Duplicated(n, index)) && Carries(Duplicated(n, index), sent)
  {
    var q := Duplicated(n, index).queue;
    assert index < |n.queue| ==>
        forall k :: 0 <= k < |q| ==>
          q[k] == if k < index then n.queue[k]
                  else if k == index then Pending(n.nextId, n.queue[index].message) else n.queue[k - 1];
  }

  function RunNet(n: Network, ops: seq<NetOp>): Network
    decreases |ops|
  {
    if ops == [] then n else ApplyNet(RunNet(n, ops[..|ops| - 1]), ops[|ops| - 1])
  }

  function EverSent(ops: seq<NetOp>): set<Message>
    decreases |ops|
  {
    if ops == [] then {} else EverSent(ops[..|ops| - 1]) + NewlySent(ops[|ops| - 1])
  }

  /**
   Over any operations, whatever the network hands to a node was sent before, and ids never repeat: the
   queue is an instance of the network that may deliver anything ever sent.
   */
  lemma {:induction false} QueueSimulatesSet(ops: seq<NetOp>)
    ensures var n := RunNet(IDLE, ops);
            && NetworkInv(n) && Carries(n, EverSent(ops))
            && (forall index :: Handed(n, index).Some? ==> Handed(n, index).value in EverSent(ops))
    decreases |ops|
  {
    if ops != [] {
      var before := ops[..|ops| - 1];
      QueueSimulatesSet(before);
      NetStep(RunNet(IDLE, before), ops[|ops| - 1], EverSent(before));
    }
  }

  lemma {:induction false} EnqueuedAllKept(n: Network, ms: seq<Message>, sent: set<Message>)
    requires NetworkInv(n) && Carries(n, sent) && forall m :: m in ms ==> m in sent
    ensures NetworkInv(EnqueuedAll(n, ms)) && Carries(EnqueuedAll(n, ms), sent)
    ensures EnqueuedAll(n, ms) == n.(queue := EnqueuedAll(n, ms).queue, nextId := EnqueuedAll(n, ms).nextId)
    decreases |ms|
  {
    if ms != [] {
      EnqueuedAllKept(Enqueued(n, ms[0]), ms[1..], sent);
    }
  }

  lemma {:induction false} PositionFinds(queue: seq<Pending>, id: nat)
    ensures var p := Position(queue, id);
            && p <= |queue|
            && (p < |queue| ==> queue[p].id == id)
            && forall k :: 0 <= k < p ==> queue[k].id != id
    decreases |queue|
  {
    if queue != [] && queue[0].id != id {
      PositionFinds(queue[1..], id);
      var p := Position(queue[1..], id);
      forall k | 0 <= k < p + 1 ensures queue[k].id != id {
        assert k > 0 ==> queue[k] == queue[1..][k - 1];
      }
    }
  }
}

/** The network as it runs. A delivery returns the message for the caller to hand to its handler. */
module NetworkClass {
  import opened RaftTypes
  import opened Networks

  // ----- Cutting edge by edge -----

  lemma NothingCut(right: set<NodeId>)
    ensures Cut(Elements([]), right) == {}
  {
  }

  lemma NoneCutFrom(x: NodeId)
    ensures Cut({x}, Elements([])) == {}
  {
  }

  lemma CutGrows(x: NodeId, right: seq<NodeId>, k: nat)
    requires k < |right|
    ensures Cut({x}, Elements(right[..k + 1])) == Cut({x}, Elements(right[..k])) + {Edge(x, right[k]), Edge(right[k], x)}
  {
    assert Elements(right[..k + 1]) == Elements(right[..k]) + {right[k]};
  }

  lemma CutsJoin(left: seq<NodeId>, j: nat, right: set<NodeId>)
    requires j < |left|
    ensures Cut(Elements(left[..j + 1]), right) == Cut(Elements(left[..j]), right) + Cut({left[j]}, right)
  {
    assert Elements(left[..j + 1]) == Elements(left[..j]) + {left[j]};
  }

  // ----- Reversing by swaps -----

  /** The outermost k pairs have been swapped. */
  ghost predicate Swapped(was: seq<Pending>, now: seq<Pending>, k: nat) {
    && |now| == |was| && 2 * k <= |was|
    && (forall j :: 0 <= j < |was| ==> SwappedAt(was, now, k, j))
  }

  predicate SwappedAt(was: seq<Pending>, now: seq<Pending>, k: nat, j: nat)
    requires |now| == |was| && j < |was|
  {
    now[j] == if k <= j < |was| - k then was[j] else was[|was| - 1 - j]
  }

  lemma NoneSwapped(queue: seq<Pending>)
    ensures Swapped(queue, queue, 0)
  {
  }

  lemma OneMoreSwapped(was: seq<Pending>, now: seq<Pending>, k: nat)
    requires Swapped(was, now, k) && 2 * k + 1 < |was|
    ensures var n := |was|; Swapped(was, now[k := now[n - 1 - k]][n - 1 - k := now[k]], k + 1)
  {
    var n := |was|;
    var next := now[k := now[n - 1 - k]][n - 1 - k := now[k]];
    assert SwappedAt(was, now, k, k) && SwappedAt(was, now, k, n - 1 - k);
    var k' := k + 1;
    forall j | 0 <= j < n ensures SwappedAt(was, next, k', j) {
      assert SwappedAt(was, now, k, j);
    }
  }

  lemma AllSwapped(was: seq<Pending>, now: seq<Pending>, k: nat)
    requires Swapped(was, now, k) && |was| <= 2 * k + 1
    ensures now == Reversed(was)
  {
    var r := Reversed(was);
    forall j | 0 <= j < |was| ensures now[j] == r[j] {
      assert SwappedAt(was, now, k, j);
    }
  }

  class MemoryNetwork {
    var queue: seq<Pending>
    var blocked: set<Edge>
    var dropAll: bool
    var nextMessageId: nat
    var handlers: set<NodeId>

    ghost function Value(): Network
      reads this
    {
      Network(queue, blocked, dropAll, nextMessageId, handlers)
    }

    constructor ()
      ensures Value() == IDLE
    {
      queue, blocked, dropAll, nextMessageId, handlers := [], {}, false, 1, {};
    }

    /** False when the node is already registered, where the source throws. */
    method Register(node: NodeId) returns (isNew: bool)
      modifies this
      ensures isNew == (node !in old(handlers))
      ensures Value() == if isNew then ApplyNet(old(Value()), NetOp.Register(node)) else old(Value())
    {
      isNew := node !in handlers;
      if isNew {
        handlers := handlers + {node};
      }
    }

    method Unregister(node: NodeId)
      modifies this
      ensures Value() == ApplyNet(old(Value()), NetOp.Unregister(node))
    {
      handlers := handlers - {node};
    }

    method Enqueue(m: Message)
      modifies this
      ensures Value() == Enqueued(old(Value()), m)
    {
      if !dropAll && Edge(m.from, m.to) !in blocked {
        queue := queue + [Pending(nextMessageId, m)];
        nextMessageId := nextMessageId + 1;
      }
    }

    method Partition(left: seq<NodeId>, right: seq<NodeId>)
      modifies this
      ensures Value() == ApplyNet(old(Value()), NetOp.Partition(Elements(left), Elements(right)))
    {
      hide Cut, Elements;
      NothingCut(Elements(right));
      var j := 0;
      while j < |left|
        invariant 0 <= j <= |left|
        invariant Value() == old(Value()).(blocked := old(blocked) + Cut(Elements(left[..j]), Elements(right)))
      {
        ghost var row := blocked;
        NoneCutFrom(left[j]);
        var k := 0;
        while k < |right|
          invariant 0 <= k <= |right|
          invariant Value() == old(Value()).(blocked := row + Cut({left[j]}, Elements(right[..k])))
        {
          CutGrows(left[j], right, k);
          blocked := blocked + {Edge(left[j], right[k]), Edge(right[k], left[j])};
          k := k + 1;
        }
        assert right[..k] == right;
        CutsJoin(left, j, Elements(right));
        j := j + 1;
      }
      assert left[..j] == left;
    }

    method Heal()
      modifies this
      ensures Value() == ApplyNet(old(Value()), NetOp.Heal)
    {
      blocked := {};
      dropAll := false;
    }

    method SetDropAll(drop: bool)
      modifies this
      ensures Value() == ApplyNet(old(Value()), NetOp.SetDropAll(drop))
    {
      dropAll := drop;
    }

    method Duplicate(index: nat)
      modifies this
      ensures Value() == Duplicated(old(Value()), index)
    {
      if index < |queue| {
        queue := queue[..index] + [Pending(nextMessageId, queue[index].message)] + queue[index..];
        nextMessageId := nextMessageId + 1;
      }
    }

    /** Swap from both ends towards the middle. */
    method Reorder()
      modifies this
      ensures Value() == ApplyNet(old(Value()), NetOp.Reorder)
    {
      hide Swapped, Reversed;
      ghost var was := queue;
      var n, k := |queue|, 0;
      NoneSwapped(queue);
      while k < n / 2
        invariant 0 <= k <= n / 2 && |queue| == n == |was|
        invariant Value() == old(Value()).(queue := queue)
        invariant Swapped(was, queue, k)
      {
        OneMoreSwapped(was, queue, k);
        queue := queue[k := queue[n - 1 - k]][n - 1 - k := queue[k]];
        k := k + 1;
      }
      AllSwapped(was, queue, k);
    }

    method Drop(index: nat) returns (dropped: bool)
      modifies this
      ensures Value() == Dropped(old(Value()), index) && dropped == (index < |old(queue)|)
    {
      dropped := index < |queue|;
      if dropped {
        queue := queue[..index] + queue[index + 1..];
      }
    }

    method FindIndex(id: nat) returns (index: nat)
      ensures index == Position(queue, id)
    {
      index := 0;
      assert queue[0..] == queue;
      while index < |queue| && queue[index].id != id
        invariant 0 <= index <= |queue|
        invariant Position(queue, id) == index + Position(queue[index..], id)
      {
        assert queue[index..][1..] == queue[index + 1..];
        index := index + 1;
      }
    }

    method DropById(id: nat) returns (dropped: bool)
      modifies this
      ensures Value() == Dropped(old(Value()), Position(old(queue), id))
      ensures dropped <==> exists p :: p in old(queue) && p.id == id
    {
      PositionFinds(queue, id);
      var index := FindIndex(id);
      assert index < |queue| ==> queue[index] in queue;
      dropped := Drop(index);
    }

    method DuplicateById(id: nat) returns (found: bool)
      modifies this
      ensures Value() == Duplicated(old(Value()), Position(old(queue), id))
      ensures found <==> exists p :: p in old(queue) && p.id == id
    {
      PositionFinds(queue, id);
      var index := FindIndex(id);
      assert index < |queue| ==> queue[index] in queue;
      found := index < |queue|;
      Duplicate(index);
    }

    method DeliverById(id: nat) returns (handed: Option<Message>)
      modifies this
      ensures Value() == Dropped(old(Value()), Position(old(queue), id))
      ensures handed == Handed(old(Value()), Position(old(queue), id))
    {
      var index := FindIndex(id);
      handed := Deliver(index);
    }

    /** Take a message off the queue; it reaches its node unless the edge is cut or nobody listens. */
    method Deliver(index: nat) returns (handed: Option<Message>)
      modifies this
      ensures Value() == Dropped(old(Value()), index) && handed == Handed(old(Value()), index)
    {
      handed := None;
      if index < |queue| {
        var m := queue[index].message;
        queue := queue[..index] + queue[index + 1..];
        if m.to in handlers && Edge(m.from, m.to) !in blocked {
          handed := Some(m);
        }
      }
    }
  }

  /** One node's way into the network. */
  class MemoryRaftTransport {
    const nodeId: NodeId
    const network: MemoryNetwork
    var started: bool

    constructor (nodeId: NodeId, network: MemoryNetwork)
      ensures this.nodeId == nodeId && this.network == network && !started
    {
      this.nodeId, this.network, started := nodeId, network, false;
    }

    /** False when the node is already registered, where the source throws. */
    method Start() returns (isNew: bool)
      modifies this, network
      ensures isNew == (nodeId !in old(network.handlers)) && started == (old(started) || isNew)
      ensures network.Value() == if isNew then ApplyNet(old(network.Value()), NetOp.Register(nodeId)) else old(network.Value())
    {
      isNew := network.Register(nodeId);
      started := started || isNew;
    }

    /** Takes the message exactly when it is started and the envelope names this node and that peer. */
    method Send(peer: NodeId, message: Message) returns (taken: bool)
      modifies network
      ensures taken == (started && message.from == nodeId && message.to == peer)
      ensures network.Value() == if taken then Enqueued(old(network.Value()), message) else old(network.Value())
    {
      taken := started && message.from == nodeId && message.to == peer;
      if taken {
        network.Enqueue(message);
      }
    }

    method Stop()
      modifies this, network
      ensures !started && network.Value() == ApplyNet(old(network.Value()), NetOp.Unregister(nodeId))
    {
      network.Unregister(nodeId);
      started := false;
    }
  }
}
