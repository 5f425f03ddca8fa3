/** The two in-memory stores as functions on values, and how far they agree. */
module Stores {
  import opened RaftTypes

  datatype Snapshot = Snapshot(lastIndex: nat, lastTerm: nat, data: seq<byte>)

  datatype Store = Store(hard: HardState, entries: seq<Entry>, snapshot: Option<Snapshot>, applied: nat, failing: bool)

  datatype Batch = Batch(hardState: Option<HardState>, truncateFrom: Option<nat>, entries: seq<Entry>,
                         snapshot: Option<Snapshot>, applied: Option<nat>)

  datatype StoreOutcome =
    | Stored(store: Store)
    | Rejected(store: Store, error: Error)

  const EMPTY := Store(HardState(0, None, 0), [], None, 0, false)

  function Boundary(s: Option<Snapshot>): nat {
    if s.Some? then s.value.lastIndex else 0
  }

  function LastStored(entries: seq<Entry>, boundary: nat): nat {
    if entries == [] then boundary else entries[|entries| - 1].index
  }

  /** Pop from the end while the last index is at least `from`. */
  function Popped(entries: seq<Entry>, from: nat): seq<Entry>
    decreases |entries|
  {
    if entries != [] && entries[|entries| - 1].index >= from then Popped(entries[..|entries| - 1], from) else entries
  }

  /** Push one by one, each at the next index; None when one is out of place. */
  function Pushed(entries: seq<Entry>, boundary: nat, more: seq<Entry>): Option<seq<Entry>>
    decreases |more|
  {
    if more == [] then Some(entries)
    else if more[0].index != LastStored(entries, boundary) + 1 then None
    else Pushed(entries + [more[0]], boundary, more[1..])
  }

  function CutFor(s: Store, b: Batch): seq<Entry> {
    if b.truncateFrom.Some? then Popped(s.entries, b.truncateFrom.value) else s.entries
  }

  function NextEntries(s: Store, b: Batch): Option<seq<Entry>> {
    Pushed(CutFor(s, b), Boundary(s.snapshot), b.entries)
  }

  predicate CutsCommitted(s: Store, b: Batch) {
    b.truncateFrom.Some? && b.truncateFrom.value <= s.hard.commit
  }

  function NextHard(s: Store, b: Batch): HardState {
    if b.hardState.Some? then b.hardState.value else s.hard
  }

  function NextSnapshot(s: Store, b: Batch): Option<Snapshot> {
    if b.snapshot.Some? then b.snapshot else s.snapshot
  }

  function NextApplied(s: Store, b: Batch): nat {
    if b.applied.Some? then b.applied.value else s.applied
  }

  predicate VotesTwice(s: Store, hard: HardState) {
    hard.term == s.hard.term && s.hard.votedFor.Some? && hard.votedFor != s.hard.votedFor
  }

  // ----- The restartable store: checks everything, then assigns -----

  function PersistDurable(s: Store, b: Batch): StoreOutcome {
    var hard, next := NextHard(s, b), NextEntries(s, b);
    if s.failing then Rejected(s.(failing := false), InjectedFailure)
    else if CutsCommitted(s, b) then Rejected(s, TruncateCommitted)
    else if next == None then Rejected(s, NonContiguousPersist)
    else if hard.term < s.hard.term then Rejected(s, TermDecreased)
    else if VotesTwice(s, hard) then Rejected(s, VotedTwice)
    else if hard.commit < s.hard.commit then Rejected(s, CommitDecreased)
    else if hard.commit > LastStored(next.value, Boundary(NextSnapshot(s, b))) then Rejected(s, CommitBeyondLog)
    else if NextApplied(s, b) < s.applied then Rejected(s, AppliedDecreased)
    else if NextApplied(s, b) > hard.commit then Rejected(s, AppliedBeyondCommit)
    else Stored(Store(hard, next.value, NextSnapshot(s, b), NextApplied(s, b), false))
  }

  function Above(entries: seq<Entry>, index: nat): seq<Entry> {
    if entries == [] then []
    else (if entries[0].index > index then [entries[0]] else []) + Above(entries[1..], index)
  }

  function Trimmed(s: Store, snapshot: Snapshot): Store {
    Store(s.hard.(commit := Max(s.hard.commit, snapshot.lastIndex)), Above(s.entries, snapshot.lastIndex),
          Some(snapshot), Max(s.applied, snapshot.lastIndex), s.failing)
  }

  function InstallDurable(s: Store, snapshot: Snapshot): StoreOutcome {
    if snapshot.lastIndex < Boundary(s.snapshot) then Rejected(s, SnapshotBackward) else Stored(Trimmed(s, snapshot))
  }

  function CompactStore(s: Store, through: nat): StoreOutcome {
    if s.snapshot == None || through > s.snapshot.value.lastIndex then Rejected(s, CompactBeyondSnapshot)
    else Stored(s.(entries := Above(s.entries, through)))
  }

  // ----- The plain memory store: assigns the hard state before its last check -----

  function PersistMemory(s: Store, b: Batch): StoreOutcome {
    var next := NextEntries(s, b);
    if s.failing then Rejected(s.(failing := false), InjectedFailure)
    else if CutsCommitted(s, b) then Rejected(s, TruncateCommitted)
    else if next == None then Rejected(s, NonContiguousPersist)
    else if b.hardState.Some? && b.hardState.value.term < s.hard.term then Rejected(s, TermDecreased)
    else if b.hardState.Some? && b.hardState.value.commit < s.hard.commit then Rejected(s, CommitDecreased)
    else
      var s1 := s.(hard := NextHard(s, b));
      if b.applied.Some? && (b.applied.value < s1.applied || b.applied.value > s1.hard.commit)
      then Rejected(s1, if b.applied.value < s1.applied then AppliedDecreased else AppliedBeyondCommit)
      else Stored(s1.(entries := next.value, snapshot := NextSnapshot(s, b), applied := NextApplied(s, b)))
  }

  function InstallMemory(s: Store, snapshot: Snapshot): StoreOutcome {
    var p := PersistMemory(s, Batch(None, None, [], Some(snapshot), None));
    if p.Rejected? then p else Stored(Trimmed(p.store, snapshot))
  }

  // ----- Invariant -----

  predicate RunsFrom(entries: seq<Entry>, first: nat) {
    forall k :: 0 <= k < |entries| ==> entries[k].index == first + k
  }

  ghost predicate StoreInv(s: Store) {
    var boundary := Boundary(s.snapshot);
    && RunsFrom(s.entries, boundary + 1)
    && boundary <= s.applied <= s.hard.commit <= boundary + |s.entries|
  }

  lemma LastOfRun(entries: seq<Entry>, boundary: nat)
    requires RunsFrom(entries, boundary + 1)
    ensures LastStored(entries, boundary) == boundary + |entries|
  {
  }

  lemma {:induction false} PoppedIsPrefix(entries: seq<Entry>, boundary: nat, from: nat)
    requires RunsFrom(entries, boundary + 1)
    ensures Popped(entries, from) == entries[..Max(0, Min(from - boundary - 1, |entries|))]
    decreases |entries|
  {
    if entries != [] {
      var shorter := entries[..|entries| - 1];
      if entries[|entries| - 1].index >= from {
        PoppedIsPrefix(shorter, boundary, from);
      }
    }
  }

  lemma {:induction false} PushedAppends(entries: seq<Entry>, boundary: nat, more: seq<Entry>)
    requires RunsFrom(entries, boundary + 1)
    ensures var r := Pushed(entries, boundary, more);
            && (r.Some? <==> RunsFrom(more, boundary + |entries| + 1))
            && (r.Some? ==> r.value == entries + more && RunsFrom(r.value, boundary + 1))
    decreases |more|
  {
    if more != [] {
      if more[0].index == boundary + |entries| + 1 {
        PushedAppends(entries + [more[0]], boundary, more[1..]);
        assert entries + [more[0]] + more[1..] == entries + more;
        if RunsFrom(more[1..], boundary + |entries| + 2) {
          forall k | 0 <= k < |more| ensures more[k].index == boundary + |entries| + 1 + k {
            assert k > 0 ==> more[k] == more[1..][k - 1];
          }
        }
      }
    } else {
      assert entries + more == entries;
    }
  }

  lemma {:induction false} AboveIsSuffix(entries: seq<Entry>, boundary: nat, index: nat)
    requires RunsFrom(entries, boundary + 1)
    ensures Above(entries, index) == entries[Max(0, Min(index - boundary, |entries|))..]
    decreases |entries|
  {
    if entries != [] {
      var rest := entries[1..];
      AboveIsSuffix(rest, boundary + 1, index);
      if index <= boundary {
        assert entries[0..] == [entries[0]] + rest[0..];
      }
    }
  }

  /** What an accepted batch does to the log, in closed form. */
  lemma PersistShape(s: Store, b: Batch)
    requires StoreInv(s) && !CutsCommitted(s, b)
    ensures var boundary := Boundary(s.snapshot);
            var kept := if b.truncateFrom.Some? then Min(b.truncateFrom.value - boundary - 1, |s.entries|) else |s.entries|;
            && 0 <= kept <= |s.entries| && s.hard.commit <= boundary + kept
            && (NextEntries(s, b).Some? <==> RunsFrom(b.entries, boundary + kept + 1))
            && (NextEntries(s, b).Some? ==> NextEntries(s, b).value == s.entries[..kept] + b.entries
                                            && RunsFrom(NextEntries(s, b).value, boundary + 1))
  {
    var boundary := Boundary(s.snapshot);
    if b.truncateFrom.Some? {
      PoppedIsPrefix(s.entries, boundary, b.truncateFrom.value);
    }
    assert s.entries[..|s.entries|] == s.entries;
    PushedAppends(CutFor(s, b), boundary, b.entries);
  }

  datatype Op = Persist(batch: Batch) | Install(snapshot: Snapshot) | Compact(through: nat) | FailNext

  function ApplyDurable(s: Store, op: Op): StoreOutcome {
    match op
    case Persist(b) => PersistDurable(s, b)
    case Install(snapshot) => InstallDurable(s, snapshot)
    case Compact(through) => CompactStore(s, through)
    case FailNext => Stored(s.(failing := true))
  }

  function ApplyMemory(s: Store, op: Op): StoreOutcome {
    match op
    case Persist(b) => PersistMemory(s, b)
    case Install(snapshot) => InstallMemory(s, snapshot)
    case Compact(through) => CompactStore(s, through)
    case FailNext => Stored(s.(failing := true))
  }

  /**
   A batch may carry a snapshot, which moves the boundary without trimming the log. It fits when the
   boundary does not move under a log that is left, and meets the applied index when none is left.
   */
  predicate Fits(s: Store, op: Op) {
    op.Persist? && op.batch.snapshot.Some? ==>
      var boundary := op.batch.snapshot.value.lastIndex;
      if NextEntries(s, op.batch) == Some([]) then boundary == NextApplied(s, op.batch) else boundary == Boundary(s.snapshot)
  }

  /**
   One operation on the restartable store: a throw leaves it as it was but for the armed failure, term,
   commit and applied index never fall, and what is accepted keeps the invariant exactly when it fits.
   */
  lemma DurableStep(s: Store, op: Op)
    requires StoreInv(s)
    ensures var o := ApplyDurable(s, op);
            && (StoreInv(o.store) <==> o.Rejected? || Fits(s, op))
            && (o.Rejected? ==> o.store == s || (s.failing && o.store == s.(failing := false)))
            && s.hard.term <= o.store.hard.term && s.hard.commit <= o.store.hard.commit && s.applied <= o.store.applied
  {
    match op {
      case Persist(b) => PersistStep(s, b);
      case Install(snapshot) => InstallStep(s, snapshot);
      case Compact(through) => AboveIsSuffix(s.entries, Boundary(s.snapshot), through);
      case FailNext =>
    }
  }

  lemma PersistStep(s: Store, b: Batch)
    requires StoreInv(s)
    ensures var o := PersistDurable(s, b);
            && (StoreInv(o.store) <==> o.Rejected? || Fits(s, Persist(b)))
            && (o.Rejected? ==> o.store == s || (s.failing && o.store == s.(failing := false)))
            && s.hard.term <= o.store.hard.term && s.hard.commit <= o.store.hard.commit && s.applied <= o.store.applied
  {
    hide NextEntries, CutsCommitted;
    if !CutsCommitted(s, b) {
      PersistShape(s, b);
      if NextEntries(s, b).Some? {
        LastOfRun(NextEntries(s, b).value, Boundary(s.snapshot));
      }
    }
  }

  lemma InstallStep(s: Store, snapshot: Snapshot)
    requires StoreInv(s)
    ensures var o := InstallDurable(s, snapshot);
            && StoreInv(o.store) && (o.Rejected? ==> o.store == s)
            && s.hard.term <= o.store.hard.term && s.hard.commit <= o.store.hard.commit && s.applied <= o.store.applied
  {
    AboveIsSuffix(s.entries, Boundary(s.snapshot), snapshot.lastIndex);
  }

  function RunDurable(s: Store, ops: seq<Op>): Store
    decreases |ops|
  {
    if ops == [] then s else ApplyDurable(RunDurable(s, ops[..|ops| - 1]), ops[|ops| - 1]).store
  }

  function RunMemory(s: Store, ops: seq<Op>): Store
    decreases |ops|
  {
    if ops == [] then s else ApplyMemory(RunMemory(s, ops[..|ops| - 1]), ops[|ops| - 1]).store
  }

  /** Every accepted operation of the sequence fits the state it meets. */
  ghost predicate AllFit(ops: seq<Op>)
    decreases |ops|
  {
    ops == [] ||
    var s, op := RunDurable(EMPTY, ops[..|ops| - 1]), ops[|ops| - 1];
    AllFit(ops[..|ops| - 1]) && (ApplyDurable(s, op).Stored? ==> Fits(s, op))
  }

  /** The store is valid after every one of the operations. */
  ghost predicate ValidThroughout(ops: seq<Op>)
    decreases |ops|
  {
    StoreInv(RunDurable(EMPTY, ops)) && (ops != [] ==> ValidThroughout(ops[..|ops| - 1]))
  }

  /**
   From the empty store, boundary <= applied <= commit <= last and a contiguous log hold throughout any
   operations exactly when every accepted snapshot fits.
   */
  lemma {:induction false} DurableValidExactly(ops: seq<Op>)
    ensures ValidThroughout(ops) <==> AllFit(ops)
    decreases |ops|
  {
    hide StoreInv, Fits, ApplyDurable;
    EmptyIsValid();
    if ops != [] {
      var before := ops[..|ops| - 1];
      DurableValidExactly(before);
      if ValidThroughout(before) {
        DurableStep(RunDurable(EMPTY, before), ops[|ops| - 1]);
      }
    }
  }

  lemma EmptyIsValid()
    ensures StoreInv(EMPTY)
  {
  }

  /** An accepted batch whose snapshot lies beyond what was applied, and the invalid store it leaves. */
  lemma MisfitWitness(snapshot: Snapshot)
    requires snapshot.lastIndex > 0
    ensures var b := Batch(None, None, [], Some(snapshot), None);
            PersistDurable(EMPTY, b).Stored? && !StoreInv(PersistDurable(EMPTY, b).store) && !Fits(EMPTY, Persist(b))
  {
  }

  /** Batches without a snapshot always fit. */
  lemma {:induction false} DurableAlwaysValid(ops: seq<Op>)
    requires forall op :: op in ops ==> (op.Persist? ==> op.batch.snapshot == None)
    ensures StoreInv(RunDurable(EMPTY, ops))
    decreases |ops|
  {
    if ops != [] {
      var before := ops[..|ops| - 1];
      DurableAlwaysValid(before);
      DurableStep(RunDurable(EMPTY, before), ops[|ops| - 1]);
    }
  }

  // ----- Agreement -----

  ghost predicate SameOutcome(a: StoreOutcome, b: StoreOutcome) {
    a.Stored? == b.Stored? && a.store == b.store
  }

  /** The applied index of a batch is in range for the commit index that comes with it. */
  predicate AppliedInRange(s: Store, b: Batch) {
    s.applied <= NextApplied(s, b) <= NextHard(s, b).commit
  }

  /** Neither store has refused the batch by the time the plain one assigns the hard state. */
  predicate ReachesHardState(s: Store, b: Batch) {
    && !s.failing && !CutsCommitted(s, b) && NextEntries(s, b).Some?
    && NextHard(s, b).term >= s.hard.term && NextHard(s, b).commit >= s.hard.commit
  }

  /** The guards of the restartable store that the plain one lacks, or reaches only after assigning the hard state. */
  predicate StoresPart(s: Store, op: Op) {
    match op
    case Persist(b) =>
      && ReachesHardState(s, b)
      && (|| VotesTwice(s, NextHard(s, b))
          || NextHard(s, b).commit > LastStored(NextEntries(s, b).value, Boundary(NextSnapshot(s, b)))
          || !AppliedInRange(s, b))
      && (NextHard(s, b) != s.hard || b.applied == None || AppliedInRange(s, b))
    case Install(snapshot) => s.failing || snapshot.lastIndex < Boundary(s.snapshot)
    case Compact(_) => false
    case FailNext => false
  }

  /** From any state, the two stores accept alike and end alike exactly when none of those guards decides. */
  lemma StoresAgreeExactly(s: Store, op: Op)
    ensures SameOutcome(ApplyDurable(s, op), ApplyMemory(s, op)) <==> !StoresPart(s, op)
  {
    match op {
      case Persist(b) =>
        hide Pushed, CutFor, LastStored, Boundary;
      case Install(snapshot) =>
        assert Pushed(s.entries, Boundary(s.snapshot), []) == Some(s.entries);
      case Compact(_) =>
      case FailNext =>
    }
  }

  /** On a valid store a batch without hard state and snapshot never parts them. */
  lemma PlainBatchesAgree(s: Store, b: Batch)
    requires StoreInv(s) && b.hardState == None && b.snapshot == None
    ensures !StoresPart(s, Persist(b))
  {
    if !CutsCommitted(s, b) {
      PersistShape(s, b);
      if NextEntries(s, b).Some? {
        LastOfRun(NextEntries(s, b).value, Boundary(s.snapshot));
      }
    }
  }

  /** The batch brings a new hard state with an applied index that does not suit it. */
  predicate BadApplied(s: Store, b: Batch) {
    && ReachesHardState(s, b) && NextHard(s, b) != s.hard
    && b.applied.Some? && !AppliedInRange(s, b)
  }

  /** A batch the plain store refuses leaves it as it was, but for the armed failure, unless the batch is of that kind. */
  lemma MemoryAtomicExactly(s: Store, b: Batch)
    ensures var o := PersistMemory(s, b);
            o.Rejected? ==> (o.store.(failing := s.failing) == s <==> !BadApplied(s, b))
  {
  }

  /** Refused, and yet the term is there: the state after a batch that announces an index nobody committed. */
  lemma HalfSavedWitness()
    ensures var b := Batch(Some(HardState(1, None, 0)), None, [], None, Some(1));
            && PersistMemory(EMPTY, b) == Rejected(EMPTY.(hard := HardState(1, None, 0)), AppliedBeyondCommit)
            && PersistDurable(EMPTY, b) == Rejected(EMPTY, AppliedBeyondCommit) && BadApplied(EMPTY, b)
  {
  }

  /** The plain store takes a second vote in a term that the restartable store refuses. */
  lemma SecondVoteWitness(a: NodeId, b: NodeId)
    requires a != b
    ensures var s := EMPTY.(hard := HardState(1, Some(a), 0));
            var batch := Batch(Some(HardState(1, Some(b), 0)), None, [], None, None);
            StoreInv(s) && PersistDurable(s, batch) == Rejected(s, VotedTwice) && PersistMemory(s, batch).Stored?
  {
  }

  /** The plain store takes a commit index beyond its log that the restartable store refuses, and is invalid from then on. */
  lemma CommitBeyondLogWitness()
    ensures var b := Batch(Some(HardState(0, None, 1)), None, [], None, None);
            && StoreInv(EMPTY) && PersistDurable(EMPTY, b) == Rejected(EMPTY, CommitBeyondLog)
            && PersistMemory(EMPTY, b).Stored? && !StoreInv(PersistMemory(EMPTY, b).store)
  {
  }

  ghost predicate Together(ops: seq<Op>)
    decreases |ops|
  {
    ops == [] || (Together(ops[..|ops| - 1]) && !StoresPart(RunDurable(EMPTY, ops[..|ops| - 1]), ops[|ops| - 1]))
  }

  /** Started empty and kept away from those guards, the two stores go through the same states. */
  lemma {:induction false} StoresStayTogether(ops: seq<Op>)
    requires Together(ops)
    ensures RunMemory(EMPTY, ops) == RunDurable(EMPTY, ops)
    decreases |ops|
  {
    if ops != [] {
      var before := ops[..|ops| - 1];
      StoresStayTogether(before);
      StoresAgreeExactly(RunDurable(EMPTY, before), ops[|ops| - 1]);
    }
  }

  /**
   Whatever the restartable store accepts, the plain one accepts into the same state, except a snapshot
   installed while a failure is armed.
   */
  lemma AcceptedByBoth(s: Store, op: Op)
    requires ApplyDurable(s, op).Stored?
    ensures ApplyMemory(s, op) == ApplyDurable(s, op) <==> !(op.Install? && s.failing)
  {
    StoresAgreeExactly(s, op);
  }
}
