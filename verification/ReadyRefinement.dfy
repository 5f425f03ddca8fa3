/** Saving a Ready batch makes the store hold exactly what the engine holds, and is never refused on its merits. */
module ReadyRefinement {
  import opened RaftTypes
  import opened Logs
  import opened Protocol
  import opened NodeFacts
  import opened CoreSpec
  import opened Stores
  import opened Runtime

  /** The store holds this node's durable fields, and no snapshot. */
  ghost predicate Holds(store: Store, s: Node) {
    store.hard == Hard(s) && store.entries == s.log && store.snapshot == None && store.applied <= s.commit
  }

  /**
   Persisting the batch of any step whose payload indexes rise by one is accepted unless a failure was
   injected, and then the durable term, vote, commit index and log are the engine's own. A step that
   makes no batch changes none of them.
   */
  lemma ReadyMatchesStore(c: Core, e: Event, store: Store)
    requires CoreInv(c) && c.outstanding == None && Holds(store, c.node) && store.applied == c.applied
    requires WellFormedEvent(e)
    ensures var o := StepCore(c, e);
            o.Stepped? ==>
              match o.ready
              case None => Holds(store, o.core.node)
              case Some(r) =>
                var p := PersistDurable(store, ReadyBatch(r));
                if store.failing then p == Rejected(store.(failing := false), InjectedFailure)
                else p.Stored? && Holds(p.store, o.core.node) && p.store.applied == store.applied && !p.store.failing
  {
    EventSound(c.cfg, c.node, e);
    var o := Handle(c.cfg, c.node, e);
    if StepCore(c, e).Stepped? {
      if StepCore(c, e).ready.Some? {
        BatchAccepted(store, c.node, o.node, o.fx, StepCore(c, e).ready.value);
      } else {
        assert c.node.log + [] == c.node.log;
      }
    }
  }

  lemma BatchAccepted(store: Store, s: Node, s': Node, fx: Effects, r: Ready)
    requires Holds(store, s) && Contiguous(s.log) && Contiguous(s'.log) && s.commit <= |s.log| && s'.commit <= |s'.log|
    requires Advances(s, s') && Tracks(s, s', fx) && r == ReadyFrom(r.id, fx, r.committed)
    ensures var p := PersistDurable(store, ReadyBatch(r));
            if store.failing then p == Rejected(store.(failing := false), InjectedFailure)
            else p.Stored? && Holds(p.store, s') && p.store.applied == store.applied && !p.store.failing
  {
    EntriesAccepted(store, s, s', fx, ReadyBatch(r));
  }

  lemma EntriesAccepted(store: Store, s: Node, s': Node, fx: Effects, b: Batch)
    requires Holds(store, s) && Contiguous(s.log) && Contiguous(s'.log) && s.commit <= |s.log|
    requires Tracks(s, s', fx) && b == Batch(fx.hardState, fx.truncateFrom, fx.entries, None, None)
    ensures !CutsCommitted(store, b) && NextEntries(store, b) == Some(s'.log)
    ensures LastStored(s'.log, 0) == |s'.log|
  {
    var kept := if fx.truncateFrom.Some? then fx.truncateFrom.value - 1 else |s.log|;
    assert s.log[..|s.log|] == s.log;
    assert s'.log == s.log[..kept] + fx.entries;
    assert RunsFrom(fx.entries, kept + 1) by {
      forall k | 0 <= k < |fx.entries| ensures fx.entries[k].index == kept + 1 + k {
        assert s'.log[kept + k] == fx.entries[k];
      }
    }
    PersistShape(store, b);
    LastOfRun(s'.log, 0);
  }

  /** Recording an applied index is accepted unless a failure was injected, and changes nothing else. */
  lemma AppliedAccepted(store: Store, s: Node, index: nat)
    requires Holds(store, s) && Contiguous(s.log) && s.commit <= |s.log| && store.applied <= index <= s.commit
    ensures var p := PersistDurable(store, AppliedBatch(index));
            if store.failing then p == Rejected(store.(failing := false), InjectedFailure)
            else p == Stored(store.(applied := index))
  {
    PersistShape(store, AppliedBatch(index));
    assert store.entries[..|store.entries|] + [] == store.entries;
    LastOfRun(store.entries, 0);
  }
}
