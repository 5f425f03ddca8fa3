/** Replicated logs that start at index 1, and the merge a follower performs on them. */
module Logs {
  import opened RaftTypes

  predicate Contiguous(log: seq<Entry>) {
    forall k :: 0 <= k < |log| ==> log[k].index == k + 1
  }

  /** Indexes rise by one, from wherever the batch starts. */
  predicate Consecutive(entries: seq<Entry>) {
    forall k :: 0 < k < |entries| ==> entries[k].index == entries[0].index + k
  }

  /** A command carries the ID its client gave it. */
  predicate Named(e: Entry) {
    e.kind == Command ==> e.commandId.Some?
  }

  function EntryAt(log: seq<Entry>, index: nat): Option<Entry> {
    if 1 <= index <= |log| then Some(log[index - 1]) else None
  }

  function TermAt(log: seq<Entry>, index: nat): Option<nat> {
    if index == 0 then Some(0) else if index <= |log| then Some(log[index - 1].term) else None
  }

  function TermOr0(log: seq<Entry>, index: nat): nat {
    if 1 <= index <= |log| then log[index - 1].term else 0
  }

  function LastTerm(log: seq<Entry>): nat {
    if log == [] then 0 else log[|log| - 1].term
  }

  /** The entries whose index is at least `from`. */
  function Suffix(log: seq<Entry>, from: pos): seq<Entry> {
    if from <= |log| then log[from - 1..] else []
  }

  /** The identity of a log for the election check: last term first, then length. */
  datatype Version = Version(term: nat, len: nat)

  function VersionOf(log: seq<Entry>): Version {
    Version(LastTerm(log), |log|)
  }

  predicate VersionLeq(a: Version, b: Version) {
    a.term < b.term || (a.term == b.term && a.len <= b.len)
  }

  /** Newness orders all logs: any two compare, both ways only if last term and length are equal, and it carries over. */
  lemma NewnessIsTotal(a: seq<Entry>, b: seq<Entry>, c: seq<Entry>)
    ensures VersionLeq(VersionOf(a), VersionOf(b)) || VersionLeq(VersionOf(b), VersionOf(a))
    ensures VersionLeq(VersionOf(a), VersionOf(b)) && VersionLeq(VersionOf(b), VersionOf(a)) <==>
              LastTerm(a) == LastTerm(b) && |a| == |b|
    ensures VersionLeq(VersionOf(a), VersionOf(b)) && VersionLeq(VersionOf(b), VersionOf(c)) ==>
              VersionLeq(VersionOf(a), VersionOf(c))
    ensures LastTerm(a) < LastTerm(b) ==> VersionLeq(VersionOf(a), VersionOf(b))
  {
  }

  /** The state of the follower's loop over an AppendEntries payload. */
  datatype Merge =
    | Merged(log: seq<Entry>, truncateFrom: Option<nat>, appended: seq<Entry>)
    | Refused(log: seq<Entry>, error: Error)

  function MergeEntries(log: seq<Entry>, commit: nat, truncateFrom: Option<nat>,
                        appended: seq<Entry>, incoming: seq<Entry>): Merge
    decreases |incoming|
  {
    if incoming == [] then Merged(log, truncateFrom, appended)
    else
      var e := incoming[0];
      var existing := EntryAt(log, e.index);
      var conflict := existing.Some? && existing.value.term != e.term;
      if conflict && e.index <= commit then Refused(log, OverwriteCommitted)
      else
        var kept := if conflict then log[..e.index - 1] else log;
        var from := if conflict then Some(e.index) else truncateFrom;
        if existing.Some? && !conflict then MergeEntries(kept, commit, from, appended, incoming[1..])
        else if e.index != |kept| + 1 then Refused(kept, NonContiguousAppend)
        else MergeEntries(kept + [e], commit, from, appended + [e], incoming[1..])
  }

  /** Terms decide prefixes: wherever the two logs share a term they agree from the start. */
  predicate Matching(a: seq<Entry>, b: seq<Entry>) {
    forall k :: 0 <= k < |a| && k < |b| && a[k].term == b[k].term ==> a[..k + 1] == b[..k + 1]
  }

  /** A log that already is a prefix of the sender's simply grows. */
  lemma {:induction false} MergeExtends(commit: nat, truncateFrom: Option<nat>, appended: seq<Entry>,
                                        leader: seq<Entry>, q: nat, k: nat)
    requires Contiguous(leader) && q <= k <= |leader|
    ensures MergeEntries(leader[..q], commit, truncateFrom, appended, leader[q..k])
         == Merged(leader[..k], truncateFrom, appended + leader[q..k])
    decreases k - q
  {
    var rest := leader[q..k];
    if q < k {
      assert rest[0] == leader[q] && rest[1..] == leader[q + 1..k];
      assert leader[..q] + [leader[q]] == leader[..q + 1];
      MergeExtends(commit, truncateFrom, appended + [leader[q]], leader, q + 1, k);
      assert appended + [leader[q]] + leader[q + 1..k] == appended + rest;
    } else {
      assert rest == [] && appended + rest == appended;
    }
  }

  /** Two logs that agree up to `q` and again at slot `q` agree up to `q + 1`. */
  lemma MatchingStep(log: seq<Entry>, leader: seq<Entry>, q: nat)
    requires Matching(log, leader) && q < |log| && q < |leader|
    requires log[q].term == leader[q].term
    ensures log[..q + 1] == leader[..q + 1]
  {
  }

  /** On an honest payload the loop never throws, and it ends with the sender's log as a prefix. */
  lemma {:induction false} MergeReproducesSender(log: seq<Entry>, commit: nat,
                                                 leader: seq<Entry>, q: nat, k: nat)
    requires Contiguous(leader) && Matching(log, leader)
    requires q <= k <= |leader| && q <= |log| && log[..q] == leader[..q]
    requires commit <= |log| && log[..commit] <= leader
    ensures var r := MergeEntries(log, commit, None, [], leader[q..k]);
            r.Merged? && r.log == if leader[..k] <= log then log else leader[..k]
    decreases k - q
  {
    var rest := leader[q..k];
    if q == k {
      assert rest == [];
    } else {
      assert rest[0] == leader[q] && rest[1..] == leader[q + 1..k];
      assert leader[q].index == q + 1;
      if q == |log| {
        assert log == leader[..q];
        MergeExtends(commit, None, [], leader, q, k);
        assert |log| < |leader[..k]|;
      } else if log[q].term == leader[q].term {
        MatchingStep(log, leader, q);
        MergeReproducesSender(log, commit, leader, q + 1, k);
      } else {
        MergeConflict(log, commit, leader, q, k);
      }
    }
  }

  lemma PrefixAt(a: seq<Entry>, b: seq<Entry>, q: nat)
    ensures a <= b && q < |a| ==> q < |b| && a[q] == b[q]
  {
  }

  /** At the first conflicting slot the follower's tail is replaced by the sender's. */
  lemma MergeConflict(log: seq<Entry>, commit: nat, leader: seq<Entry>, q: nat, k: nat)
    requires Contiguous(leader) && q < k <= |leader| && q < |log|
    requires log[..q] == leader[..q] && log[q].term != leader[q].term
    requires commit <= |log| && log[..commit] <= leader
    ensures MergeEntries(log, commit, None, [], leader[q..k])
         == Merged(leader[..k], Some(q + 1), leader[q..k])
    ensures !(leader[..k] <= log)
  {
    var rest := leader[q..k];
    assert rest[0] == leader[q] && rest[1..] == leader[q + 1..k];
    PrefixAt(log[..commit], leader, q);
    PrefixAt(leader[..k], log, q);
    assert leader[..q] + [leader[q]] == leader[..q + 1];
    var none: seq<Entry> := [];
    assert none + [leader[q]] == [leader[q]];
    MergeExtends(commit, Some(q + 1), [leader[q]], leader, q + 1, k);
    assert [leader[q]] + leader[q + 1..k] == rest;
  }

  /** Whatever the payload, entries up to the commit index survive and the log stays contiguous. */
  lemma {:induction false} MergeKeepsCommitted(log: seq<Entry>, commit: nat, truncateFrom: Option<nat>,
                                               appended: seq<Entry>, incoming: seq<Entry>)
    requires Contiguous(log) && commit <= |log|
    ensures var r := MergeEntries(log, commit, truncateFrom, appended, incoming);
            Contiguous(r.log) && commit <= |r.log| && r.log[..commit] == log[..commit]
    decreases |incoming|
  {
    if incoming != [] {
      var e := incoming[0];
      var existing := EntryAt(log, e.index);
      var conflict := existing.Some? && existing.value.term != e.term;
      if !(conflict && e.index <= commit) {
        var kept := if conflict then log[..e.index - 1] else log;
        var from := if conflict then Some(e.index) else truncateFrom;
        if existing.Some? && !conflict {
          MergeKeepsCommitted(kept, commit, from, appended, incoming[1..]);
        } else if e.index == |kept| + 1 {
          MergeKeepsCommitted(kept + [e], commit, from, appended + [e], incoming[1..]);
          assert (kept + [e])[..commit] == log[..commit];
        } else {
          assert kept[..commit] == log[..commit];
        }
      }
    }
  }
}
