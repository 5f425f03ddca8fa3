/** Each operation of the restartable store in closed form: what it refuses, and all that the store holds afterwards. */
module Snapshots {
  import opened RaftTypes
  import opened Stores

  /** What is left of the log when `from` and everything after it goes. */
  function Kept(s: Store, from: Option<nat>): seq<Entry> {
    var boundary := Boundary(s.snapshot);
    if from.Some? && boundary < from.value <= boundary + |s.entries| then s.entries[..from.value - boundary - 1] else s.entries
  }

  /** The batch asks for nothing that would go back, be out of place, or reach beyond what is there. */
  predicate InOrder(s: Store, b: Batch) {
    var kept, hard := Kept(s, b.truncateFrom), if b.hardState.Some? then b.hardState.value else s.hard;
    var first := Boundary(s.snapshot) + |kept| + 1;
    var last := if |kept| + |b.entries| > 0 then first + |b.entries| - 1
                else if b.snapshot.Some? then b.snapshot.value.lastIndex else Boundary(s.snapshot);
    var applied := if b.applied.Some? then b.applied.value else s.applied;
    && (b.truncateFrom.Some? ==> b.truncateFrom.value > s.hard.commit)
    && (forall k :: 0 <= k < |b.entries| ==> b.entries[k].index == first + k)
    && s.hard.term <= hard.term && (hard.term == s.hard.term && s.hard.votedFor.Some? ==> hard.votedFor == s.hard.votedFor)
    && s.hard.commit <= hard.commit <= last && s.applied <= applied <= hard.commit
  }

  /**
   A batch on a valid store: an armed failure refuses it and is spent; else it is taken exactly when it is in
   order, and then everything it brings is in the store, everything it does not mention is as before.
   */
  lemma PersistExactly(s: Store, b: Batch)
    requires StoreInv(s)
    ensures var o := PersistDurable(s, b);
            && (s.failing ==> o == Rejected(s.(failing := false), InjectedFailure))
            && (!s.failing ==> (o.Stored? <==> InOrder(s, b)) && (o.Rejected? ==> o.store == s && o.error != InjectedFailure))
            && (o.Stored? ==>
                  o.store == Store(if b.hardState.Some? then b.hardState.value else s.hard,
                                   Kept(s, b.truncateFrom) + b.entries,
                                   if b.snapshot.Some? then b.snapshot else s.snapshot,
                                   if b.applied.Some? then b.applied.value else s.applied, false))
  {
    hide NextEntries, RunsFrom, Kept;
    if !CutsCommitted(s, b) {
      BatchShape(s, b);
    }
    InvBounds(s);
  }

  /** What the plain store asks of a batch: nothing of a vote in the same term, nothing of a commit index within the log. */
  predicate InPlainOrder(s: Store, b: Batch) {
    var kept := Kept(s, b.truncateFrom);
    && (b.truncateFrom.Some? ==> b.truncateFrom.value > s.hard.commit)
    && (forall k :: 0 <= k < |b.entries| ==> b.entries[k].index == Boundary(s.snapshot) + |kept| + 1 + k)
    && (b.hardState.Some? ==> b.hardState.value.term >= s.hard.term && b.hardState.value.commit >= s.hard.commit)
    && (b.applied.Some? ==>
          s.applied <= b.applied.value <= if b.hardState.Some? then b.hardState.value.commit else s.hard.commit)
  }

  /** The same of the plain store, and what a batch it refuses leaves behind. */
  lemma PlainPersistExactly(s: Store, b: Batch)
    requires StoreInv(s)
    ensures var o := PersistMemory(s, b); var hard := if b.hardState.Some? then b.hardState.value else s.hard;
            && (s.failing ==> o == Rejected(s.(failing := false), InjectedFailure))
            && (!s.failing ==> (o.Stored? <==> InPlainOrder(s, b)) && (o.Rejected? ==> o.store in {s, s.(hard := hard)}))
            && (o.Stored? ==>
                  o.store == Store(hard, Kept(s, b.truncateFrom) + b.entries,
                                   if b.snapshot.Some? then b.snapshot else s.snapshot,
                                   if b.applied.Some? then b.applied.value else s.applied, false))
  {
    hide NextEntries, RunsFrom, Kept;
    if !CutsCommitted(s, b) {
      BatchShape(s, b);
    }
  }

  /** The plain store installs any snapshot unless it is armed, one that moves backward included. */
  lemma PlainInstallExactly(s: Store, snapshot: Snapshot)
    requires StoreInv(s)
    ensures var o := InstallMemory(s, snapshot);
            && (s.failing ==> o == Rejected(s.(failing := false), InjectedFailure))
            && (!s.failing ==>
                  o == Stored(Store(HardState(s.hard.term, s.hard.votedFor, Max(s.hard.commit, snapshot.lastIndex)),
                                    s.entries[Max(0, Min(snapshot.lastIndex - Boundary(s.snapshot), |s.entries|))..],
                                    Some(snapshot), Max(s.applied, snapshot.lastIndex), false)))
  {
    AboveIsSuffix(s.entries, Boundary(s.snapshot), snapshot.lastIndex);
    assert Pushed(s.entries, Boundary(s.snapshot), []) == Some(s.entries);
  }

  lemma InvBounds(s: Store)
    requires StoreInv(s)
    ensures Boundary(s.snapshot) <= s.applied <= s.hard.commit
  {
  }

  /** What a batch that cuts nothing committed makes of the log. */
  lemma BatchShape(s: Store, b: Batch)
    requires StoreInv(s) && !CutsCommitted(s, b)
    ensures var boundary, kept := Boundary(s.snapshot), Kept(s, b.truncateFrom); var next := NextEntries(s, b);
            && (next.Some? <==> forall k :: 0 <= k < |b.entries| ==> b.entries[k].index == boundary + |kept| + 1 + k)
            && (next.Some? ==> next.value == kept + b.entries)
            && (next.Some? && next.value != [] ==>
                  forall other :: LastStored(next.value, other) == boundary + |kept| + |b.entries|)
  {
    hide RunsFrom;
    assert RunsFrom(s.entries, Boundary(s.snapshot) + 1);
    PersistShape(s, b);
    KeptIsCut(s, b);
    RunsMeans(b.entries, Boundary(s.snapshot) + |Kept(s, b.truncateFrom)| + 1);
    if NextEntries(s, b).Some? {
      LastOfRun(NextEntries(s, b).value, Boundary(s.snapshot));
    }
  }

  /** What an error of a store says is so. */
  predicate Faulty(s: Store, b: Batch, e: Error) {
    var boundary, kept := Boundary(s.snapshot), Kept(s, b.truncateFrom);
    match e
    case InjectedFailure => s.failing
    case TruncateCommitted => b.truncateFrom.Some? && b.truncateFrom.value <= s.hard.commit
    case NonContiguousPersist => exists k :: 0 <= k < |b.entries| && b.entries[k].index != boundary + |kept| + 1 + k
    case TermDecreased => b.hardState.Some? && b.hardState.value.term < s.hard.term
    case VotedTwice => b.hardState.Some? && b.hardState.value.term == s.hard.term && s.hard.votedFor.Some?
                       && b.hardState.value.votedFor != s.hard.votedFor
    case CommitDecreased => b.hardState.Some? && b.hardState.value.commit < s.hard.commit
    case CommitBeyondLog => NextHard(s, b).commit > Max(boundary + |kept| + |b.entries|, boundary)
                            || (kept + b.entries == [] && b.snapshot.Some? && NextHard(s, b).commit > b.snapshot.value.lastIndex)
    case AppliedDecreased => b.applied.Some? && b.applied.value < s.applied
    case AppliedBeyondCommit => (if b.applied.Some? then b.applied.value else s.applied) > NextHard(s, b).commit
    case _ => false
  }

  /** Whichever store refuses a batch, the reason it gives is so. */
  lemma RefusalsGenuine(s: Store, b: Batch)
    requires StoreInv(s)
    ensures var o := PersistDurable(s, b); o.Rejected? ==> Faulty(s, b, o.error)
    ensures var o := PersistMemory(s, b); o.Rejected? ==> Faulty(s, b, o.error)
  {
    hide NextEntries, RunsFrom, Kept;
    if !CutsCommitted(s, b) {
      BatchShape(s, b);
    }
  }

  lemma RunsMeans(entries: seq<Entry>, first: nat)
    ensures RunsFrom(entries, first) <==> forall k :: 0 <= k < |entries| ==> entries[k].index == first + k
  {
  }

  lemma KeptIsCut(s: Store, b: Batch)
    requires StoreInv(s) && !CutsCommitted(s, b)
    ensures var boundary := Boundary(s.snapshot);
            var kept := if b.truncateFrom.Some? then Min(b.truncateFrom.value - boundary - 1, |s.entries|) else |s.entries|;
            0 <= kept <= |s.entries| && Kept(s, b.truncateFrom) == s.entries[..kept]
  {
    assert s.entries[..|s.entries|] == s.entries;
  }

  /**
   Installing a snapshot: refused exactly when it moves backward. Otherwise the store holds that very
   snapshot, the entries above it as they were, and indexes lifted to it; term and vote stay.
   */
  lemma InstallExactly(s: Store, snapshot: Snapshot)
    requires StoreInv(s)
    ensures var o, before := InstallDurable(s, snapshot), Boundary(s.snapshot);
            && (o.Rejected? <==> snapshot.lastIndex < before)
            && (o.Rejected? ==> o == Rejected(s, SnapshotBackward))
            && (o.Stored? ==>
                  o.store == Store(HardState(s.hard.term, s.hard.votedFor, Max(s.hard.commit, snapshot.lastIndex)),
                                   s.entries[Min(snapshot.lastIndex - before, |s.entries|)..],
                                   Some(snapshot), Max(s.applied, snapshot.lastIndex), s.failing))
  {
    AboveIsSuffix(s.entries, Boundary(s.snapshot), snapshot.lastIndex);
  }

  /** Filtering by index keeps exactly the entries above it, whatever the log is. */
  lemma {:induction false} AboveExactly(entries: seq<Entry>, index: nat, e: Entry)
    ensures e in Above(entries, index) <==> e in entries && e.index > index
    decreases |entries|
  {
    if entries != [] {
      AboveExactly(entries[1..], index, e);
    }
  }

  /** Compacting: refused exactly without a snapshot that reaches so far. Otherwise only the entries up to the index go. */
  lemma CompactExactly(s: Store, through: nat, e: Entry)
    ensures var o := CompactStore(s, through);
            && (o.Rejected? <==> s.snapshot == None || s.snapshot.value.lastIndex < through)
            && (o.Rejected? ==> o == Rejected(s, CompactBeyondSnapshot))
            && (o.Stored? ==>
                  o.store == s.(entries := o.store.entries) && (e in o.store.entries <==> e in s.entries && e.index > through))
  {
    AboveExactly(s.entries, through, e);
  }

  /**
   A batch that carries a snapshot leaves the log untrimmed; compacting through that snapshot then makes the
   store valid again, whatever snapshot it was, as long as it is within what was applied.
   */
  lemma CompactionRestores(s: Store, b: Batch)
    requires StoreInv(s) && b.snapshot.Some? && PersistDurable(s, b).Stored?
    requires Boundary(s.snapshot) <= b.snapshot.value.lastIndex <= NextApplied(s, b)
    ensures var taken := PersistDurable(s, b).store; var o := CompactStore(taken, b.snapshot.value.lastIndex);
            o.Stored? && StoreInv(o.store) && o.store.snapshot == b.snapshot
  {
    hide StoreInv, NextEntries, RunsFrom, CutsCommitted;
    TakenShape(s, b);
    TrimmedIsValid(PersistDurable(s, b).store, Boundary(s.snapshot), b.snapshot.value.lastIndex);
  }

  lemma TakenShape(s: Store, b: Batch)
    requires StoreInv(s) && b.snapshot.Some? && PersistDurable(s, b).Stored?
    ensures var t := PersistDurable(s, b).store;
            && RunsFrom(t.entries, Boundary(s.snapshot) + 1) && t.snapshot == b.snapshot && t.applied == NextApplied(s, b)
            && t.applied <= t.hard.commit
            && t.hard.commit <= if t.entries == [] then b.snapshot.value.lastIndex else Boundary(s.snapshot) + |t.entries|
  {
    hide NextEntries;
    PersistShape(s, b);
    LastOfRun(NextEntries(s, b).value, Boundary(s.snapshot));
  }

  lemma TrimmedIsValid(t: Store, before: nat, boundary: nat)
    requires RunsFrom(t.entries, before + 1) && t.snapshot.Some? && t.snapshot.value.lastIndex == boundary
    requires before <= boundary <= t.applied <= t.hard.commit
    requires t.hard.commit <= if t.entries == [] then boundary else before + |t.entries|
    ensures StoreInv(t.(entries := Above(t.entries, boundary)))
  {
    AboveIsSuffix(t.entries, before, boundary);
  }
}
