/** The two in-memory stores as they run, each proved against its function on values. */
module StoreClasses {
  import opened RaftTypes
  import opened Stores

  datatype Saved = Accepted | Refused(error: Error)

  ghost predicate Tells(o: StoreOutcome, store: Store, saved: Saved) {
    store == o.store && (if o.Stored? then saved == Accepted else saved == Refused(o.error))
  }

  /** `while (last index >= from) pop()` on a working copy. */
  method PopTail(entries: seq<Entry>, from: nat) returns (r: seq<Entry>)
    ensures r == Popped(entries, from)
  {
    r := entries;
    while r != [] && r[|r| - 1].index >= from
      invariant Popped(r, from) == Popped(entries, from)
      decreases |r|
    {
      r := r[..|r| - 1];
    }
  }

  /** Push each entry at the next index, or stop at the first that is out of place. */
  method PushAll(entries: seq<Entry>, boundary: nat, more: seq<Entry>) returns (r: Option<seq<Entry>>)
    ensures r == Pushed(entries, boundary, more)
  {
    var work, k := entries, 0;
    assert more[0..] == more;
    while k < |more|
      invariant 0 <= k <= |more|
      invariant Pushed(work, boundary, more[k..]) == Pushed(entries, boundary, more)
    {
      assert more[k..][0] == more[k] && more[k..][1..] == more[k + 1..];
      if more[k].index != LastStored(work, boundary) + 1 {
        return None;
      }
      work := work + [more[k]];
      k := k + 1;
    }
    assert more[k..] == [];
    r := Some(work);
  }

  /** `entries.filter((entry) => entry.index > index)` */
  method FilterAbove(entries: seq<Entry>, index: nat) returns (r: seq<Entry>)
    ensures r == Above(entries, index)
  {
    r := [];
    var k := 0;
    while k < |entries|
      invariant 0 <= k <= |entries|
      invariant r == Above(entries[..k], index)
    {
      AboveGrows(entries, k, index);
      if entries[k].index > index {
        r := r + [entries[k]];
      }
      k := k + 1;
    }
    assert entries[..k] == entries;
  }

  lemma {:induction false} AboveGrows(entries: seq<Entry>, k: nat, index: nat)
    requires k < |entries|
    ensures Above(entries[..k + 1], index) == Above(entries[..k], index) + if entries[k].index > index then [entries[k]] else []
    decreases k
  {
    if k > 0 {
      AboveGrows(entries[1..], k - 1, index);
      assert entries[..k + 1][1..] == entries[1..][..k] && entries[..k][1..] == entries[1..][..k - 1];
    }
  }

  class DurableMemoryStorageState {
    var hardState: HardState
    var entries: seq<Entry>
    var snapshot: Option<Snapshot>
    var appliedIndex: nat
    var failure: bool

    ghost function Value(): Store
      reads this
    {
      Store(hardState, entries, snapshot, appliedIndex, failure)
    }

    constructor ()
      ensures Value() == EMPTY
    {
      hardState, entries, snapshot, appliedIndex, failure := HardState(0, None, 0), [], None, 0, false;
    }

    method FailNext()
      modifies this
      ensures Tells(ApplyDurable(old(Value()), Op.FailNext), Value(), Accepted)
    {
      failure := true;
    }

    method Inspect() returns (hard: HardState, log: seq<Entry>, snap: Option<Snapshot>, applied: nat)
      ensures Value() == Store(hard, log, snap, applied, failure)
    {
      hard, log, snap, applied := hardState, entries, snapshot, appliedIndex;
    }

    method Persist(batch: Batch) returns (saved: Saved)
      modifies this
      ensures Tells(PersistDurable(old(Value()), batch), Value(), saved)
    {
      if failure {
        failure := false;
        return Refused(InjectedFailure);
      }
      var next := entries;
      if batch.truncateFrom.Some? {
        if batch.truncateFrom.value <= hardState.commit {
          return Refused(TruncateCommitted);
        }
        next := PopTail(next, batch.truncateFrom.value);
      }
      var pushed := PushAll(next, Boundary(snapshot), batch.entries);
      if pushed == None {
        return Refused(NonContiguousPersist);
      }
      next := pushed.value;
      var nextHard := if batch.hardState.Some? then batch.hardState.value else hardState;
      if nextHard.term < hardState.term {
        return Refused(TermDecreased);
      }
      if nextHard.term == hardState.term && hardState.votedFor.Some? && nextHard.votedFor != hardState.votedFor {
        return Refused(VotedTwice);
      }
      if nextHard.commit < hardState.commit {
        return Refused(CommitDecreased);
      }
      var active := if batch.snapshot.Some? then batch.snapshot else snapshot;
      if nextHard.commit > LastStored(next, Boundary(active)) {
        return Refused(CommitBeyondLog);
      }
      var nextApplied := if batch.applied.Some? then batch.applied.value else appliedIndex;
      if nextApplied < appliedIndex {
        return Refused(AppliedDecreased);
      }
      if nextApplied > nextHard.commit {
        return Refused(AppliedBeyondCommit);
      }
      entries := next;
      hardState := nextHard;
      appliedIndex := nextApplied;
      if batch.snapshot.Some? {
        snapshot := batch.snapshot;
      }
      saved := Accepted;
    }

    method InstallSnapshot(snap: Snapshot) returns (saved: Saved)
      modifies this
      ensures Tells(InstallDurable(old(Value()), snap), Value(), saved)
    {
      if snap.lastIndex < Boundary(snapshot) {
        return Refused(SnapshotBackward);
      }
      snapshot := Some(snap);
      entries := FilterAbove(entries, snap.lastIndex);
      hardState := hardState.(commit := Max(hardState.commit, snap.lastIndex));
      appliedIndex := Max(appliedIndex, snap.lastIndex);
      saved := Accepted;
    }

    method Compact(throughIndex: nat) returns (saved: Saved)
      modifies this
      ensures Tells(CompactStore(old(Value()), throughIndex), Value(), saved)
    {
      if snapshot == None || throughIndex > snapshot.value.lastIndex {
        return Refused(CompactBeyondSnapshot);
      }
      entries := FilterAbove(entries, throughIndex);
      saved := Accepted;
    }
  }

  class MemoryRaftStorage {
    var hardState: HardState
    var entries: seq<Entry>
    var snapshot: Option<Snapshot>
    var appliedIndex: nat
    var failure: bool

    ghost function Value(): Store
      reads this
    {
      Store(hardState, entries, snapshot, appliedIndex, failure)
    }

    constructor ()
      ensures Value() == EMPTY
    {
      hardState, entries, snapshot, appliedIndex, failure := HardState(0, None, 0), [], None, 0, false;
    }

    method FailNext()
      modifies this
      ensures Tells(ApplyMemory(old(Value()), Op.FailNext), Value(), Accepted)
    {
      failure := true;
    }

    method Persist(batch: Batch) returns (saved: Saved)
      modifies this
      ensures Tells(PersistMemory(old(Value()), batch), Value(), saved)
    {
      if failure {
        failure := false;
        return Refused(InjectedFailure);
      }
      var next := entries;
      if batch.truncateFrom.Some? {
        if batch.truncateFrom.value <= hardState.commit {
          return Refused(TruncateCommitted);
        }
        next := PopTail(next, batch.truncateFrom.value);
      }
      var pushed := PushAll(next, Boundary(snapshot), batch.entries);
      if pushed == None {
        return Refused(NonContiguousPersist);
      }
      next := pushed.value;
      if batch.hardState.Some? {
        if batch.hardState.value.term < hardState.term {
          return Refused(TermDecreased);
        }
        if batch.hardState.value.commit < hardState.commit {
          return Refused(CommitDecreased);
        }
        hardState := batch.hardState.value;
      }
      if batch.applied.Some? {
        if batch.applied.value < appliedIndex {
          return Refused(AppliedDecreased);
        }
        if batch.applied.value > hardState.commit {
          return Refused(AppliedBeyondCommit);
        }
        appliedIndex := batch.applied.value;
      }
      entries := next;
      if batch.snapshot.Some? {
        snapshot := batch.snapshot;
      }
      saved := Accepted;
    }

    method InstallSnapshot(snap: Snapshot) returns (saved: Saved)
      modifies this
      ensures Tells(InstallMemory(old(Value()), snap), Value(), saved)
    {
      saved := Persist(Batch(None, None, [], Some(snap), None));
      if saved.Refused? {
        return;
      }
      entries := FilterAbove(entries, snap.lastIndex);
      hardState := hardState.(commit := Max(hardState.commit, snap.lastIndex));
      appliedIndex := Max(appliedIndex, snap.lastIndex);
    }

    method Compact(throughIndex: nat) returns (saved: Saved)
      modifies this
      ensures Tells(CompactStore(old(Value()), throughIndex), Value(), saved)
    {
      if snapshot == None || throughIndex > snapshot.value.lastIndex {
        return Refused(CompactBeyondSnapshot);
      }
      entries := FilterAbove(entries, throughIndex);
      saved := Accepted;
    }
  }
}
