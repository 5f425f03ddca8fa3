/**
 A cluster of any size as a step relation. The network is the set of every message ever sent, so a
 delivery may be late, repeated, out of order, or never happen; a restart keeps only what is durable.
 */
module Clusters {
  import opened RaftTypes
  import opened Protocol
  import opened Histories
  import opened Handlers

  datatype Cluster = Cluster(nodes: map<NodeId, Node>, net: set<Message>)

  const FRESH := Recovered(HardState(0, None, 0), [])

  ghost predicate Init(en: Ensemble, c: Cluster) {
    Distinct(en.members) && c == Cluster(map i | i in en.members :: FRESH, {})
  }

  function Sent(o: Outcome): set<Message> {
    if o.Done? then set m | m in o.fx.messages else {}
  }

  /** Node i meets an event; a message must have been sent to it at some time. */
  ghost predicate NodeStep(en: Ensemble, c: Cluster, c': Cluster, i: NodeId, e: Event) {
    && i in en.members && i in c.nodes
    && (e.Deliver? ==> e.message in c.net && e.message.to == i)
    && var o := Handle(ConfigOf(en, i), c.nodes[i], e);
       c' == Cluster(c.nodes[i := o.node], c.net + Sent(o))
  }

  ghost predicate RestartStep(en: Ensemble, c: Cluster, c': Cluster, i: NodeId) {
    && i in en.members && i in c.nodes
    && c' == c.(nodes := c.nodes[i := Recovered(Hard(c.nodes[i]), c.nodes[i].log)])
  }

  ghost predicate Next(en: Ensemble, c: Cluster, c': Cluster) {
    || (exists i: NodeId, e: Event :: NodeStep(en, c, c', i, e))
    || (exists i: NodeId :: RestartStep(en, c, c', i))
    || c' == c
  }

  ghost predicate IsRun(en: Ensemble, run: seq<Cluster>) {
    && 0 < |run| && Init(en, run[0])
    && forall k :: 0 < k < |run| ==> Next(en, run[k - 1], run[k])
  }

  ghost predicate Inv(en: Ensemble, c: Cluster, h: History) {
    && HistoryInv(en, h)
    && (forall i :: i in en.members ==> i in c.nodes)
    && (forall i {:trigger NodeInv(en, h, i, c.nodes[i])} :: i in en.members ==> NodeInv(en, h, i, c.nodes[i]))
    && (forall m :: m in c.net ==> MessageInv(en, h, m))
  }

  lemma InitInv(en: Ensemble, c: Cluster)
    requires Init(en, c)
    ensures Inv(en, c, NO_HISTORY)
  {
    forall i | i in en.members ensures NodeInv(en, NO_HISTORY, i, FRESH) {
      assert FRESH.log[..FRESH.commit] == [];
    }
  }

  /** A step of node i leaves everyone else's invariants standing. */
  lemma OthersKept(en: Ensemble, c: Cluster, h: History, h': History, i: NodeId, s': Node, sent: set<Message>)
    requires Inv(en, c, h) && i in en.members && StepOf(i, h, h') && HistoryInv(en, h') && NodeInv(en, h', i, s')
    requires forall m :: m in sent ==> MessageInv(en, h', m)
    ensures Inv(en, Cluster(c.nodes[i := s'], c.net + sent), h')
  {
    forall j | j in en.members && j != i ensures NodeInv(en, h', j, c.nodes[j]) {
      NodeLater(en, h, h', i, j, c.nodes[j]);
    }
    forall m | m in c.net ensures MessageInv(en, h', m) {
      MessageLater(en, h, h', m);
    }
  }

  lemma NodeStepInv(en: Ensemble, c: Cluster, h: History, c': Cluster, i: NodeId, e: Event) returns (h': History)
    requires Inv(en, c, h) && NodeStep(en, c, c', i, e)
    ensures Inv(en, c', h') && StepOf(i, h, h')
  {
    var o := Handle(ConfigOf(en, i), c.nodes[i], e);
    h' := EventHandled(en, h, i, c.nodes[i], e);
    OthersKept(en, c, h, h', i, o.node, Sent(o));
  }

  lemma RestartInv(en: Ensemble, c: Cluster, h: History, c': Cluster, i: NodeId)
    requires Inv(en, c, h) && RestartStep(en, c, c', i)
    ensures Inv(en, c', h)
  {
    Restarted(en, h, i, c.nodes[i]);
    OthersKept(en, c, h, h, i, c'.nodes[i], {});
    assert c.net + {} == c.net;
  }

  /** Every step keeps the invariant under a later history. */
  lemma StepInv(en: Ensemble, c: Cluster, h: History, c': Cluster) returns (h': History)
    requires Inv(en, c, h) && Next(en, c, c')
    ensures Inv(en, c', h') && Later(h, h')
  {
    h' := h;
    if i: NodeId :| RestartStep(en, c, c', i) {
      RestartInv(en, c, h, c', i);
    } else if c' != c {
      var i: NodeId, e: Event :| NodeStep(en, c, c', i, e);
      h' := NodeStepInv(en, c, h, c', i, e);
    }
  }

  /** One history per state of a run, each continuing the one before. */
  ghost predicate Explains(en: Ensemble, run: seq<Cluster>, hs: seq<History>) {
    && |hs| == |run|
    && (forall k {:trigger hs[k]} :: 0 <= k < |run| ==> Inv(en, run[k], hs[k]))
    && (forall j, k {:trigger hs[j], hs[k]} :: 0 <= j <= k < |run| ==> Later(hs[j], hs[k]))
  }

  lemma {:induction false} RunInv(en: Ensemble, run: seq<Cluster>) returns (hs: seq<History>)
    requires IsRun(en, run)
    ensures Explains(en, run, hs)
    decreases |run|
  {
    if |run| == 1 {
      InitInv(en, run[0]);
      hs := [NO_HISTORY];
    } else {
      var n := |run| - 1;
      var before := RunInv(en, run[..n]);
      var last := before[n - 1];
      assert run[..n][n - 1] == run[n - 1];
      var h := StepInv(en, run[n - 1], last, run[n]);
      hs := Extended(en, run, before, h);
    }
  }

  lemma Extended(en: Ensemble, run: seq<Cluster>, before: seq<History>, h: History) returns (hs: seq<History>)
    requires |run| > 1 && Explains(en, run[..|run| - 1], before)
    requires Inv(en, run[|run| - 1], h) && Later(before[|run| - 2], h)
    ensures Explains(en, run, hs)
  {
    var n := |run| - 1;
    hs := before + [h];
    forall k | 0 <= k < |run| ensures Inv(en, run[k], hs[k]) {
      assert k < n ==> run[..n][k] == run[k] && hs[k] == before[k];
    }
    forall j, k | 0 <= j <= k < |run| ensures Later(hs[j], hs[k]) {
      if j < n {
        var a, b := before[j], before[n - 1];
        if k == n {
          LaterTransitive(a, b, h);
        }
      }
    }
  }
}
