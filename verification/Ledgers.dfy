/**
 The life of Ready batches over any calls on one engine: each gets the next number, waits alone, and is
 retired once. A batch is made exactly when there is something to save, send or apply.
 */
module Ledgers {
  import opened RaftTypes
  import opened Protocol
  import opened NodeFacts
  import opened CoreSpec

  /** The number of the batch in hand, if there is one. */
  function InHand(c: Core): seq<nat> {
    if c.outstanding.Some? then [c.outstanding.value.id] else []
  }

  /** The number of the batch a call makes. */
  function Made(c: Core, call: Call): seq<nat> {
    match call
    case StepCall(e) =>
      var o := StepCore(c, e);
      if o.Stepped? && o.ready.Some? then [o.ready.value.id] else []
    case AdvanceCall(_) => []
  }

  /** The number a call retires. */
  function RetiredBy(c: Core, call: Call): seq<nat> {
    match call
    case StepCall(_) => []
    case AdvanceCall(id) => if AdvanceCore(c, id).Stepped? then [id] else []
  }

  datatype Ledger = Ledger(core: Core, made: seq<nat>, retired: seq<nat>)

  function LedgerOf(c: Core, calls: seq<Call>): Ledger
    decreases |calls|
  {
    if calls == [] then Ledger(c, [], [])
    else
      var before, call := LedgerOf(c, calls[..|calls| - 1]), calls[|calls| - 1];
      Ledger(AfterCall(before.core, call), before.made + Made(before.core, call), before.retired + RetiredBy(before.core, call))
  }

  /** The engine is valid, and its counter has reached the batch in hand. */
  ghost predicate Numbered(c: Core) {
    CoreInv(c) && (c.outstanding.Some? ==> c.outstanding.value.id <= c.sequence)
  }

  predicate Rising(ids: seq<nat>) {
    forall j, k :: 0 <= j < k < |ids| ==> ids[j] < ids[k]
  }

  /**
   Over any calls, throwing ones included: the batches made are numbered on from the engine's counter
   without a gap, and they are retired in the order they were made, each at most once; what is made and
   not yet retired is in hand.
   */
  lemma {:induction false} EveryBatchOnce(c: Core, calls: seq<Call>)
    requires Numbered(c)
    ensures var r := LedgerOf(c, calls);
            && Numbered(r.core) && r.core == AfterCalls(c, calls).core
            && r.core.sequence == c.sequence + |r.made| && (forall k :: 0 <= k < |r.made| ==> r.made[k] == c.sequence + 1 + k)
            && InHand(c) + r.made == r.retired + InHand(r.core) && Rising(r.retired + InHand(r.core))
            && (forall id :: id in r.retired + InHand(r.core) ==> id <= r.core.sequence)
    decreases |calls|
  {
    hide AfterCall, Made, RetiredBy, InHand, Rising, CoreInv;
    if calls == [] {
      AtMostOne(c);
      assert InHand(c) + [] == [] + InHand(c);
    } else {
      var before, call := calls[..|calls| - 1], calls[|calls| - 1];
      EveryBatchOnce(c, before);
      var b, r := LedgerOf(c, before), LedgerOf(c, calls);
      CallCounts(b.core, call);
      Regrouped(InHand(c), b.made, b.retired, InHand(b.core), Made(b.core, call), RetiredBy(b.core, call), InHand(r.core));
      StillRising(b.retired + InHand(b.core), Made(b.core, call), b.core);
    }
  }

  lemma AtMostOne(c: Core)
    requires Numbered(c)
    ensures Rising([] + InHand(c)) && forall id :: id in InHand(c) ==> id <= c.sequence
  {
  }

  lemma Regrouped(first: seq<nat>, made: seq<nat>, retired: seq<nat>, held: seq<nat>, more: seq<nat>, gone: seq<nat>,
                  left: seq<nat>)
    requires first + made == retired + held && held + more == gone + left
    ensures first + (made + more) == (retired + gone) + left && (retired + gone) + left == (retired + held) + more
  {
    assert first + (made + more) == (first + made) + more;
    assert (retired + held) + more == retired + (held + more);
    assert retired + (gone + left) == (retired + gone) + left;
  }

  lemma StillRising(ids: seq<nat>, more: seq<nat>, c: Core)
    requires Rising(ids) && (more == [] || more == [c.sequence + 1]) && forall id :: id in ids ==> id <= c.sequence
    ensures Rising(ids + more)
  {
    forall j | 0 <= j < |ids| ensures ids[j] < c.sequence + 1 {
      assert ids[j] in ids;
    }
  }

  /** One call makes the next batch, retires the one in hand, or leaves both as they were. */
  lemma CallCounts(c: Core, call: Call)
    requires Numbered(c)
    ensures var c' := AfterCall(c, call);
            && Numbered(c') && c'.sequence == c.sequence + |Made(c, call)|
            && (Made(c, call) != [] ==> Made(c, call) == [c.sequence + 1])
            && InHand(c) + Made(c, call) == RetiredBy(c, call) + InHand(c')
  {
    hide Handle, WellFormed, Unapplied;
    match call {
      case StepCall(e) => StepKeepsCore(c, e);
      case AdvanceCall(id) => AdvanceKeepsCore(c, id);
    }
  }

  /** So a batch that has been retired is unknown for good: advancing it again throws and changes nothing. */
  lemma RetiredForGood(c: Core, calls: seq<Call>, id: nat)
    requires Numbered(c) && id in LedgerOf(c, calls).retired
    ensures var now := LedgerOf(c, calls).core; AdvanceCore(now, id) == Failed(now, UnknownReady)
  {
    EveryBatchOnce(c, calls);
    var r := LedgerOf(c, calls);
    var j :| 0 <= j < |r.retired| && r.retired[j] == id;
    if r.core.outstanding.Some? {
      var all := r.retired + InHand(r.core);
      assert all[j] == id && all[|r.retired|] == r.core.outstanding.value.id;
    }
  }

  /**
   A step on an engine with a batch in hand is refused. Any other step makes a batch exactly when it has
   something to save, send or apply, and the batch carries all of that.
   */
  lemma BatchesExact(c: Core, e: Event)
    requires CoreInv(c)
    ensures var r := StepCore(c, e); var o := Handle(c.cfg, c.node, e);
            && (c.outstanding.Some? ==> r == Failed(c, OutstandingReady))
            && (r.Stepped? ==>
                  && (r.ready == None <==>
                        && o.fx.hardState == None && o.fx.truncateFrom == None && o.fx.entries == [] && o.fx.messages == []
                        && o.node.commit == c.applied)
                  && (r.ready.Some? ==>
                        var b := r.ready.value;
                        && b.hardState == o.fx.hardState && b.truncateFrom == o.fx.truncateFrom
                        && b.unstable == o.fx.entries && b.messages == o.fx.messages
                        && c.applied <= o.node.commit <= |o.node.log| && b.committed == o.node.log[c.applied..o.node.commit]))
  {
    hide Handle, WellFormed, Advances;
    StepKeepsCore(c, e);
    StaysInLog(StepCore(c, e).core);
  }

  lemma StaysInLog(c: Core)
    requires CoreInv(c)
    ensures c.applied <= c.node.commit <= |c.node.log|
  {
  }
}
