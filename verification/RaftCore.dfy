/** The engine as it runs: fields updated in place, lists scanned and filtered, one Ready at a time. */
module RaftCoreClass {
  import opened RaftTypes
  import opened Logs
  import opened Protocol
  import opened CoreSpec

  datatype Thrown = Returned | Raised(error: Error)

  // ----- Searching and filtering a list of entries -----

  /** `entries.find(entry => entry.index === index)` */
  function Find(entries: seq<Entry>, index: nat): Option<Entry> {
    if entries == [] then None
    else if entries[0].index == index then Some(entries[0])
    else Find(entries[1..], index)
  }

  function Below(entries: seq<Entry>, index: nat): seq<Entry> {
    if entries == [] then []
    else (if entries[0].index < index then [entries[0]] else []) + Below(entries[1..], index)
  }

  function From(entries: seq<Entry>, index: nat): seq<Entry> {
    if entries == [] then []
    else (if entries[0].index >= index then [entries[0]] else []) + From(entries[1..], index)
  }

  function Between(entries: seq<Entry>, above: nat, upTo: nat): seq<Entry> {
    if entries == [] then []
    else (if above < entries[0].index <= upTo then [entries[0]] else []) + Between(entries[1..], above, upTo)
  }

  function LastIndex(entries: seq<Entry>): nat {
    if entries == [] then 0 else entries[|entries| - 1].index
  }

  /** Indexes rise by one from `first`. */
  predicate Runs(entries: seq<Entry>, first: nat) {
    forall k :: 0 <= k < |entries| ==> entries[k].index == first + k
  }

  lemma {:induction false} FindIsPositional(entries: seq<Entry>, first: nat, index: nat)
    requires Runs(entries, first)
    ensures Find(entries, index) == if first <= index < first + |entries| then Some(entries[index - first]) else None
    decreases |entries|
  {
    if entries != [] {
      FindIsPositional(entries[1..], first + 1, index);
    }
  }

  lemma {:induction false} BelowIsPrefix(entries: seq<Entry>, first: nat, index: nat)
    requires Runs(entries, first)
    ensures Below(entries, index) == entries[..Max(0, Min(index - first, |entries|))]
    decreases |entries|
  {
    if entries != [] {
      BelowIsPrefix(entries[1..], first + 1, index);
    }
  }

  lemma {:induction false} FromIsSuffix(entries: seq<Entry>, first: nat, index: nat)
    requires Runs(entries, first)
    ensures From(entries, index) == entries[Max(0, Min(index - first, |entries|))..]
    decreases |entries|
  {
    if entries != [] {
      FromIsSuffix(entries[1..], first + 1, index);
    }
  }

  /** How many entries of a list that starts at index `first` have an index up to `index`. */
  function Offset(index: nat, first: nat): nat {
    if index < first then 0 else index + 1 - first
  }

  lemma {:induction false} BetweenIsSlice(entries: seq<Entry>, first: nat, above: nat, upTo: nat)
    requires Runs(entries, first) && above <= upTo < first + |entries|
    ensures Between(entries, above, upTo) == entries[Offset(above, first)..Offset(upTo, first)]
    decreases |entries|
  {
    if entries != [] {
      var rest := entries[1..];
      var lo, hi := Offset(above, first), Offset(upTo, first);
      BetweenIsSlice(rest, first + 1, above, upTo);
      if first <= above {
        assert entries[lo..hi] == rest[lo - 1..hi - 1];
      } else if first <= upTo {
        assert entries[0..hi] == [entries[0]] + rest[0..hi - 1];
      }
    }
  }

  // ----- The same on a log that starts at index 1 -----

  lemma FindInLog(log: seq<Entry>, index: nat)
    requires Contiguous(log)
    ensures Find(log, index) == EntryAt(log, index)
  {
    FindIsPositional(log, 1, index);
  }

  lemma BelowInLog(log: seq<Entry>, index: nat)
    requires Contiguous(log) && 1 <= index <= |log|
    ensures Below(log, index) == log[..index - 1]
  {
    BelowIsPrefix(log, 1, index);
  }

  lemma LastInLog(log: seq<Entry>)
    requires Contiguous(log)
    ensures LastIndex(log) == |log|
  {
  }

  /** What one pass of the loop over the payload does to the log, and what is left for the others. */
  lemma MergeUnfolds(log: seq<Entry>, commit: nat, from: Option<nat>, appended: seq<Entry>, incoming: seq<Entry>, k: nat)
    requires Contiguous(log) && commit <= |log| && k < |incoming|
    ensures var e := incoming[k];
            var existing := EntryAt(log, e.index);
            var conflict := existing.Some? && existing.value.term != e.term;
            var kept := if conflict then log[..e.index - 1] else log;
            var from' := if conflict then Some(e.index) else from;
            var all := MergeEntries(log, commit, from, appended, incoming[k..]);
            if conflict && e.index <= commit then all == Refused(log, OverwriteCommitted)
            else
              && Contiguous(kept) && commit <= |kept|
              && if existing.Some? && !conflict then all == MergeEntries(kept, commit, from', appended, incoming[k + 1..])
                 else if e.index != |kept| + 1 then all == Refused(kept, NonContiguousAppend)
                 else Contiguous(kept + [e])
                      && all == MergeEntries(kept + [e], commit, from', appended + [e], incoming[k + 1..])
  {
    assert incoming[k..][0] == incoming[k] && incoming[k..][1..] == incoming[k + 1..];
  }

  lemma MergeEnds(log: seq<Entry>, commit: nat, from: Option<nat>, appended: seq<Entry>, incoming: seq<Entry>)
    requires incoming == []
    ensures MergeEntries(log, commit, from, appended, incoming) == Merged(log, from, appended)
  {
  }

  lemma FromInLog(log: seq<Entry>, index: pos)
    requires Contiguous(log)
    ensures From(log, index) == Suffix(log, index)
  {
    FromIsSuffix(log, 1, index);
  }

  lemma BetweenInLog(log: seq<Entry>, applied: nat, commit: nat)
    requires Contiguous(log) && applied <= commit <= |log|
    ensures Between(log, applied, commit) == Unapplied(log, applied, commit)
  {
    BetweenIsSlice(log, 1, applied, commit);
  }

  class RaftCore {
    const cfg: Config
    var role: Role
    var leaderId: Option<NodeId>
    var currentTerm: nat
    var votedFor: Option<NodeId>
    var commitIndex: nat
    var appliedIndex: nat
    var entries: seq<Entry>
    var votes: set<NodeId>
    var progress: map<NodeId, Progress>
    var readySequence: nat
    var outstanding: Option<Ready>

    /** The protocol fields as a value. */
    ghost function State(): Node
      reads this
    {
      Node(role, leaderId, currentTerm, votedFor, commitIndex, entries, votes, progress)
    }

    ghost function Value(): Core
      reads this
    {
      Core(cfg, State(), appliedIndex, readySequence, outstanding)
    }

    /** The fields no handler touches. */
    ghost function Frame(): (nat, nat, Option<Ready>)
      reads this
    {
      (appliedIndex, readySequence, outstanding)
    }

    ghost predicate Valid()
      reads this
    {
      CoreInv(Value())
    }

    constructor (cfg: Config, persisted: Persisted)
      ensures Value() == Opened(cfg, persisted)
    {
      this.cfg := cfg;
      role, leaderId, votes, progress, readySequence, outstanding := Follower, None, {}, map[], 0, None;
      currentTerm := persisted.hard.term;
      votedFor := persisted.hard.votedFor;
      commitIndex := persisted.hard.commit;
      appliedIndex := persisted.applied;
      entries := persisted.entries;
    }

    /** Checked construction: the options first, then the assertions on what was loaded. */
    static method Create(cfg: Config, electionTimeout: int, heartbeatInterval: int, persisted: Persisted)
      returns (core: RaftCore?, thrown: Thrown)
      ensures thrown == Returned <==> core != null
      ensures core != null ==> fresh(core) && core.Value() == Opened(cfg, persisted)
      ensures core != null <==> OptionError(cfg, electionTimeout, heartbeatInterval) == None
                                && Broken(Opened(cfg, persisted)) == None
      ensures core != null ==> core.Valid()
    {
      var wrong := OptionError(cfg, electionTimeout, heartbeatInterval);
      if wrong.Some? {
        return null, Raised(wrong.value);
      }
      var c := new RaftCore(cfg, persisted);
      thrown := c.AssertInvariants();
      core := if thrown == Returned then c else null;
    }

    method AssertInvariants() returns (thrown: Thrown)
      ensures thrown == if Broken(Value()).Some? then Raised(Broken(Value()).value) else Returned
    {
      var expected, k := 1, 0;
      while k < |entries|
        invariant 0 <= k <= |entries| && expected == k + 1
        invariant Contiguous(entries[..k])
      {
        if entries[k].index != expected {
          return Raised(BrokenLog);
        }
        expected := expected + 1;
        k := k + 1;
      }
      assert entries[..k] == entries;
      if commitIndex > LastIndex(entries) {
        return Raised(BrokenCommit);
      }
      if appliedIndex > commitIndex {
        return Raised(BrokenApplied);
      }
      return Returned;
    }

    method Step(event: Event) returns (ready: Option<Ready>, thrown: Thrown)
      requires Valid()
      modifies this
      ensures Valid() && Value() == StepCore(old(Value()), event).core
      ensures match StepCore(old(Value()), event)
              case Stepped(_, r) => thrown == Returned && ready == r
              case Failed(_, e) => thrown == Raised(e) && ready == None
    {
      StepKeepsCore(Value(), event);
      ready := None;
      if outstanding.Some? {
        return None, Raised(OutstandingReady);
      }
      var fx;
      fx, thrown := HandleEvent(event);
      if thrown.Raised? {
        return;
      }
      thrown := AssertInvariants();
      if thrown.Raised? {
        return;
      }
      ready := AssembleReady(fx);
    }

    method HandleEvent(event: Event) returns (fx: Effects, thrown: Thrown)
      requires Contiguous(entries) && commitIndex <= |entries|
      modifies this
      ensures Frame() == old(Frame())
      ensures Reports(Handle(cfg, old(State()), event), fx, thrown)
    {
      fx, thrown := NO_EFFECTS, Returned;
      match event {
        case ElectionTimeout =>
          if role != Leader {
            fx, thrown := StartElection(fx);
          }
        case HeartbeatTimeout =>
          if role == Leader {
            fx, thrown := BroadcastAppend(fx);
          }
        case Deliver(m) =>
          fx, thrown := HandleMessage(m, fx);
        case Propose(id, payload) =>
          fx, thrown := HandlePropose(id, payload, fx);
      }
    }

    method Advance(readyId: nat) returns (thrown: Thrown)
      requires Valid()
      modifies this
      ensures Valid() && Value() == AdvanceCore(old(Value()), readyId).core
      ensures thrown == match AdvanceCore(old(Value()), readyId) case Stepped(_, _) => Returned case Failed(_, e) => Raised(e)
    {
      AdvanceKeepsCore(Value(), readyId);
      if outstanding == None || outstanding.value.id != readyId {
        return Raised(UnknownReady);
      }
      var committed := outstanding.value.committed;
      if committed != [] {
        appliedIndex := committed[|committed| - 1].index;
      }
      outstanding := None;
      thrown := AssertInvariants();
    }

    method HandlePropose(commandId: string, payload: seq<byte>, fx: Effects) returns (fx': Effects, thrown: Thrown)
      requires Contiguous(entries)
      modifies this
      ensures Frame() == old(Frame())
      ensures Reports(Protocol.HandlePropose(cfg, old(State()), commandId, payload, fx), fx', thrown)
    {
      fx' := fx;
      if role != Leader {
        return fx, Raised(NotLeader);
      }
      if |commandId| == 0 || |commandId| > MAX_COMMAND_ID {
        return fx, Raised(BadCommandId);
      }
      if |payload| > cfg.maxBytes {
        return fx, Raised(PayloadTooLarge);
      }
      fx' := AppendLocal(Command, payload, Some(commandId), fx);
      fx', thrown := BroadcastAppend(fx');
      if thrown == Returned {
        var advanced;
        fx', advanced := AdvanceLeaderCommit(fx');
      }
    }

    /** The method behaved as the outcome says: same fields, same effects, same throw. */
    ghost predicate Reports(o: Outcome, fx: Effects, thrown: Thrown)
      reads this
    {
      State() == o.node && (if o.Done? then thrown == Returned && fx == o.fx else thrown == Raised(o.error))
    }

    method StartElection(fx: Effects) returns (fx': Effects, thrown: Thrown)
      requires Contiguous(entries)
      modifies this
      ensures Frame() == old(Frame())
      ensures Reports(Protocol.StartElection(cfg, old(State()), fx), fx', thrown)
    {
      role := Candidate;
      leaderId := None;
      currentTerm := currentTerm + 1;
      votedFor := Some(cfg.self);
      votes := {cfg.self};
      fx' := fx.(hardState := Some(HardState(currentTerm, votedFor, commitIndex)));
      fx' := RequestVotes(fx');
      thrown := Returned;
      if HasQuorum(cfg, |votes|) {
        fx', thrown := BecomeLeader(fx');
      }
    }

    method RequestVotes(fx: Effects) returns (fx': Effects)
      requires Contiguous(entries)
      ensures fx' == fx.(messages := fx.messages + VoteRequestsFor(cfg, State(), Peers(cfg)))
    {
      hide VoteRequestsFor, Contiguous, Without;
      fx' := fx;
      NoVoteRequests(cfg, State());
      var lastLogIndex := LastIndex(entries);
      var lastLogTerm := TermOr0(entries, lastLogIndex);
      assert lastLogTerm == LastTerm(entries) && lastLogIndex == |entries| by { LastInLog(entries); }
      var peers := Peers(cfg);
      var k := 0;
      while k < |peers|
        invariant 0 <= k <= |peers|
        invariant fx' == fx.(messages := fx.messages + VoteRequestsFor(cfg, State(), peers[..k]))
      {
        VoteRequestsGrow(cfg, State(), peers, k);
        var request := Message(PROTOCOL_VERSION, cfg.cluster, cfg.self, peers[k], currentTerm,
                               VoteRequest(lastLogIndex, lastLogTerm));
        fx' := fx'.(messages := fx'.messages + [request]);
        k := k + 1;
      }
      assert peers[..k] == peers;
    }

    method BecomeLeader(fx: Effects) returns (fx': Effects, thrown: Thrown)
      requires Contiguous(entries)
      modifies this
      ensures Frame() == old(Frame())
      ensures Reports(Protocol.BecomeLeader(cfg, old(State()), fx), fx', thrown)
    {
      hide CommitTarget, Contiguous, Broadcast, Without, LastIndex;
      LastInLog(entries);
      role := Leader;
      leaderId := Some(cfg.self);
      progress := map[];
      var next := LastIndex(entries) + 1;
      var peers := Peers(cfg);
      var k := 0;
      while k < |peers|
        invariant 0 <= k <= |peers| && Frame() == old(Frame())
        invariant State() == old(State()).(role := Leader, leaderId := Some(cfg.self), progress := progress)
        invariant progress == map p | p in peers[..k] :: Progress(next, 0)
      {
        assert peers[..k + 1] == peers[..k] + [peers[k]];
        progress := progress[peers[k] := Progress(next, 0)];
        k := k + 1;
      }
      assert peers[..k] == peers;
      assert State() == Crowned(cfg, old(State()));
      fx' := AppendLocal(Noop, [], None, fx);
      fx', thrown := BroadcastAppend(fx');
      if thrown == Returned {
        var advanced;
        fx', advanced := AdvanceLeaderCommit(fx');
      }
    }

    method BecomeFollower(term: nat, leader: Option<NodeId>, fx: Effects) returns (fx': Effects)
      modifies this
      ensures Frame() == old(Frame())
      ensures Done(State(), fx') == Protocol.BecomeFollower(old(State()), term, leader, fx)
    {
      fx' := fx;
      if term > currentTerm {
        currentTerm := term;
        votedFor := None;
        fx' := fx.(hardState := Some(HardState(currentTerm, votedFor, commitIndex)));
      }
      role := Follower;
      leaderId := leader;
      votes := {};
      progress := map[];
    }

    method HandleMessage(m: Message, fx: Effects) returns (fx': Effects, thrown: Thrown)
      requires Contiguous(entries) && commitIndex <= |entries|
      modifies this
      ensures Frame() == old(Frame())
      ensures Reports(Protocol.HandleMessage(cfg, old(State()), m, fx), fx', thrown)
    {
      fx' := fx;
      if m.version != PROTOCOL_VERSION {
        return fx, Raised(UnsupportedVersion);
      }
      if m.cluster != cfg.cluster {
        return fx, Raised(CrossCluster);
      }
      if m.to != cfg.self || m.from !in cfg.members {
        return fx, Raised(WrongPeer);
      }
      if m.term > currentTerm {
        fx' := BecomeFollower(m.term, None, fx);
      }
      match m.body {
        case VoteRequest(_, _) =>
          fx' := HandleVoteRequest(m, fx');
          thrown := Returned;
        case VoteResponse(_) => fx', thrown := HandleVoteResponse(m, fx');
        case AppendRequest(_, _, _, _) => fx', thrown := HandleAppendRequest(m, fx');
        case AppendResponse(_, _, _) => fx', thrown := HandleAppendResponse(m, fx');
      }
    }

    method HandleVoteRequest(m: Message, fx: Effects) returns (fx': Effects)
      requires Contiguous(entries) && m.body.VoteRequest?
      modifies this
      ensures Frame() == old(Frame())
      ensures Done(State(), fx') == Protocol.HandleVoteRequest(cfg, old(State()), m, fx)
    {
      fx' := fx;
      var granted := false;
      if m.term == currentTerm {
        var localLastIndex := LastIndex(entries);
        var localLastTerm := TermOr0(entries, localLastIndex);
        var upToDate := m.body.lastLogTerm > localLastTerm
          || (m.body.lastLogTerm == localLastTerm && m.body.lastLogIndex >= localLastIndex);
        if (votedFor == None || votedFor == Some(m.from)) && upToDate {
          role := Follower;
          leaderId := None;
          votedFor := Some(m.from);
          fx' := fx'.(hardState := Some(HardState(currentTerm, votedFor, commitIndex)));
          granted := true;
        }
      }
      var reply := Message(PROTOCOL_VERSION, cfg.cluster, cfg.self, m.from, currentTerm, VoteResponse(granted));
      fx' := fx'.(messages := fx'.messages + [reply]);
    }

    method HandleVoteResponse(m: Message, fx: Effects) returns (fx': Effects, thrown: Thrown)
      requires Contiguous(entries) && m.body.VoteResponse?
      modifies this
      ensures Frame() == old(Frame())
      ensures Reports(Protocol.HandleVoteResponse(cfg, old(State()), m, fx), fx', thrown)
    {
      fx', thrown := fx, Returned;
      if m.term < currentTerm || role != Candidate {
        return;
      }
      if m.term == currentTerm && m.body.granted {
        votes := votes + {m.from};
        if HasQuorum(cfg, |votes|) {
          fx', thrown := BecomeLeader(fx);
        }
      }
    }

    method HandleAppendRequest(m: Message, fx: Effects) returns (fx': Effects, thrown: Thrown)
      requires Contiguous(entries) && commitIndex <= |entries| && m.body.AppendRequest?
      modifies this
      ensures Frame() == old(Frame())
      ensures Reports(Protocol.HandleAppendRequest(cfg, old(State()), m, fx), fx', thrown)
    {
      fx', thrown := fx, Returned;
      if m.term < currentTerm {
        fx' := Reply(m.from, false, 0, LastIndex(entries) + 1, fx);
        return;
      }
      fx' := BecomeFollower(m.term, Some(m.from), fx);
      FindInLog(entries, m.body.prevLogIndex);
      var prevTerm := if m.body.prevLogIndex == 0 then Some(0)
                      else match Find(entries, m.body.prevLogIndex) case None => None case Some(e) => Some(e.term);
      if prevTerm != Some(m.body.prevLogTerm) {
        var hint := if m.body.prevLogIndex > LastIndex(entries) then LastIndex(entries) + 1 else m.body.prevLogIndex;
        fx' := Reply(m.from, false, 0, hint, fx');
        return;
      }
      fx', thrown := AcceptEntries(m, fx');
    }

    method AcceptEntries(m: Message, fx: Effects) returns (fx': Effects, thrown: Thrown)
      requires Contiguous(entries) && commitIndex <= |entries| && m.body.AppendRequest?
      modifies this
      ensures Frame() == old(Frame())
      ensures Reports(Protocol.AcceptEntries(cfg, old(State()), m, fx), fx', thrown)
    {
      fx' := fx;
      var truncateFrom, appended;
      truncateFrom, appended, thrown := MergePayload(m.body.entries);
      if thrown.Raised? {
        return;
      }
      if truncateFrom.Some? {
        fx' := fx'.(truncateFrom := truncateFrom);
      }
      fx' := fx'.(entries := fx'.entries + appended);
      var oldCommit := commitIndex;
      if m.body.leaderCommit > commitIndex {
        commitIndex := Min(m.body.leaderCommit, LastIndex(entries));
      }
      if commitIndex != oldCommit {
        fx' := fx'.(hardState := Some(HardState(currentTerm, votedFor, commitIndex)));
      }
      var matchIndex := PayloadEnd(m.body);
      fx' := Reply(m.from, true, matchIndex, matchIndex + 1, fx');
    }

    /** The loop over the payload: skip what is there, cut at a conflict, append what is missing. */
    method MergePayload(incoming: seq<Entry>)
      returns (truncateFrom: Option<nat>, appended: seq<Entry>, thrown: Thrown)
      requires Contiguous(entries) && commitIndex <= |entries|
      modifies this`entries
      ensures Contiguous(entries) && commitIndex <= |entries|
      ensures var goal := MergeEntries(old(entries), commitIndex, None, [], incoming);
              entries == goal.log
              && (if goal.Merged? then thrown == Returned && truncateFrom == goal.truncateFrom && appended == goal.appended
                  else thrown == Raised(goal.error))
    {
      hide MergeEntries, Contiguous, Find, Below, LastIndex;
      truncateFrom, appended, thrown := None, [], Returned;
      var k := 0;
      ghost var goal := MergeEntries(entries, commitIndex, None, [], incoming);
      assert incoming[0..] == incoming;
      while k < |incoming|
        invariant 0 <= k <= |incoming|
        invariant Contiguous(entries) && commitIndex <= |entries|
        invariant MergeEntries(entries, commitIndex, truncateFrom, appended, incoming[k..]) == goal
      {
        var e := incoming[k];
        MergeUnfolds(entries, commitIndex, truncateFrom, appended, incoming, k);
        FindInLog(entries, e.index);
        var existing := Find(entries, e.index);
        if existing.Some? && existing.value.term != e.term {
          if e.index <= commitIndex {
            thrown := Raised(OverwriteCommitted);
            return;
          }
          truncateFrom := Some(e.index);
          BelowInLog(entries, e.index);
          entries := Below(entries, e.index);
        }
        FindInLog(entries, e.index);
        if Find(entries, e.index) == None {
          LastInLog(entries);
          var expected := LastIndex(entries) + 1;
          if e.index != expected {
            thrown := Raised(NonContiguousAppend);
            return;
          }
          entries := entries + [e];
          appended := appended + [e];
        }
        k := k + 1;
      }
      MergeEnds(entries, commitIndex, truncateFrom, appended, incoming[k..]);
    }

    method Reply(to: NodeId, success: bool, matchIndex: nat, rejectHint: nat, fx: Effects) returns (fx': Effects)
      ensures fx' == SendOne(fx, AppendReply(cfg, State(), to, success, matchIndex, rejectHint))
    {
      var reply := Message(PROTOCOL_VERSION, cfg.cluster, cfg.self, to, currentTerm,
                           AppendResponse(success, matchIndex, rejectHint));
      fx' := fx.(messages := fx.messages + [reply]);
    }

    method HandleAppendResponse(m: Message, fx: Effects) returns (fx': Effects, thrown: Thrown)
      requires Contiguous(entries) && m.body.AppendResponse?
      modifies this
      ensures Frame() == old(Frame())
      ensures Reports(Protocol.HandleAppendResponse(cfg, old(State()), m, fx), fx', thrown)
    {
      hide AppendFor, CommitTarget, Contiguous, Broadcast, LastIndex;
      LastInLog(entries);
      fx', thrown := fx, Returned;
      if m.term < currentTerm || role != Leader || m.from !in progress {
        return;
      }
      var g := progress[m.from];
      if m.body.success {
        var reached := if m.body.matchIndex > g.matched then m.body.matchIndex else g.matched;
        progress := progress[m.from := Progress(reached + 1, reached)];
        var advanced;
        fx', advanced := AdvanceLeaderCommit(fx);
        if advanced {
          fx', thrown := BroadcastAppend(fx');
          if thrown.Raised? {
            return;
          }
        }
        if progress[m.from].next <= LastIndex(entries) {
          var request := AppendRequestFor(m.from);
          fx' := fx'.(messages := fx'.messages + [request]);
        }
      } else {
        progress := progress[m.from := Progress(Max(1, Min(g.next - 1, m.body.rejectHint)), g.matched)];
        var request := AppendRequestFor(m.from);
        fx' := fx'.(messages := fx'.messages + [request]);
      }
    }

    method AppendLocal(kind: EntryKind, payload: seq<byte>, commandId: Option<string>, fx: Effects) returns (fx': Effects)
      requires Contiguous(entries)
      modifies this
      ensures Frame() == old(Frame()) && Contiguous(entries)
      ensures Done(State(), fx') == Protocol.AppendLocal(old(State()), fx, LocalEntry(old(State()), kind, payload, commandId))
    {
      var full := Entry(LastIndex(entries) + 1, currentTerm, kind, payload, commandId);
      entries := entries + [full];
      fx' := fx.(entries := fx.entries + [full]);
    }

    method BroadcastAppend(fx: Effects) returns (fx': Effects, thrown: Thrown)
      requires Contiguous(entries)
      ensures Reports(Broadcast(cfg, State(), fx), fx', thrown)
    {
      hide AppendsFor, AppendFor, Contiguous, Without;
      fx' := fx;
      var peers := Peers(cfg);
      NoAppends(cfg, State());
      var k := 0;
      while k < |peers|
        invariant 0 <= k <= |peers|
        invariant forall p :: p in peers[..k] ==> p in progress
        invariant fx' == fx.(messages := fx.messages + AppendsFor(cfg, State(), peers[..k]))
      {
        assert peers[k] in peers;
        if peers[k] !in progress {
          return fx, Raised(MissingProgress);
        }
        AppendsGrow(cfg, State(), peers, k);
        var request := AppendRequestFor(peers[k]);
        fx' := fx'.(messages := fx'.messages + [request]);
        k := k + 1;
      }
      assert peers[..k] == peers;
      thrown := Returned;
    }

    method AppendRequestFor(peer: NodeId) returns (m: Message)
      requires Contiguous(entries) && peer in progress
      ensures m == AppendFor(cfg, State(), peer)
    {
      var prev := progress[peer].next - 1;
      FindInLog(entries, prev);
      FromInLog(entries, progress[peer].next);
      var found := Find(entries, prev);
      var prevTerm := if found.Some? then found.value.term else 0;
      m := Message(PROTOCOL_VERSION, cfg.cluster, cfg.self, peer, currentTerm,
                   AppendRequest(prev, prevTerm, From(entries, progress[peer].next), commitIndex));
    }

    /** Count down from the last entry to the newest one of this term that a majority holds. */
    method AdvanceLeaderCommit(fx: Effects) returns (fx': Effects, advanced: bool)
      requires Contiguous(entries)
      modifies this
      ensures Frame() == old(Frame()) && entries == old(entries) && progress == old(progress) && role == old(role)
      ensures Done(State(), fx') == Protocol.AdvanceLeaderCommit(cfg, old(State()), fx)
      ensures advanced <==> State().commit > old(State()).commit
    {
      fx', advanced := fx, false;
      if role != Leader {
        return;
      }
      var index := LastIndex(entries);
      while index > commitIndex
        invariant 0 <= index <= |entries| && State() == old(State()) && Frame() == old(Frame())
        invariant CommitTarget(cfg, State(), |entries|) == CommitTarget(cfg, State(), index)
        decreases index
      {
        if TermOr0(entries, index) != currentTerm {
          index := index - 1;
          continue;
        }
        var replicated := CountReplicas(index);
        if HasQuorum(cfg, replicated) {
          commitIndex := index;
          fx' := fx.(hardState := Some(HardState(currentTerm, votedFor, commitIndex)));
          return fx', true;
        }
        index := index - 1;
      }
    }

    method CountReplicas(index: nat) returns (replicated: nat)
      ensures replicated == 1 + |MatchedPeers(State(), index)|
    {
      replicated := 1;
      var rest := progress.Keys;
      ghost var seen: set<NodeId> := {};
      while rest != {}
        invariant seen + rest == progress.Keys && seen !! rest
        invariant replicated == 1 + |set p | p in seen && progress[p].matched >= index|
        decreases rest
      {
        var p :| p in rest;
        ghost var before := set q | q in seen && progress[q].matched >= index;
        ghost var after := set q | q in seen + {p} && progress[q].matched >= index;
        if progress[p].matched >= index {
          assert after == before + {p};
          replicated := replicated + 1;
        } else {
          assert after == before;
        }
        seen, rest := seen + {p}, rest - {p};
      }
      assert (set p | p in seen && progress[p].matched >= index) == MatchedPeers(State(), index);
    }

    method AssembleReady(fx: Effects) returns (ready: Option<Ready>)
      requires Contiguous(entries) && appliedIndex <= commitIndex <= |entries|
      modifies this`readySequence, this`outstanding
      ensures Stepped(Value(), ready) == MakeReady(old(Value()), fx)
    {
      BetweenInLog(entries, appliedIndex, commitIndex);
      var committed := Between(entries, appliedIndex, commitIndex);
      if fx.hardState == None && fx.truncateFrom == None && fx.entries == [] && fx.messages == [] && committed == [] {
        return None;
      }
      readySequence := readySequence + 1;
      ready := Some(Ready(readySequence, fx.hardState, fx.truncateFrom, fx.entries, fx.messages, committed));
      outstanding := ready;
    }
  }

  lemma NoAppends(cfg: Config, s: Node)
    ensures AppendsFor(cfg, s, []) == []
  {
  }

  lemma {:induction false} AppendsGrow(cfg: Config, s: Node, peers: seq<NodeId>, k: nat)
    requires k < |peers| && forall p :: p in peers[..k + 1] ==> p in s.progress
    ensures forall p :: p in peers[..k] ==> p in s.progress
    ensures AppendsFor(cfg, s, peers[..k + 1]) == AppendsFor(cfg, s, peers[..k]) + [AppendFor(cfg, s, peers[k])]
  {
    assert peers[..k + 1] == peers[..k] + [peers[k]];
  }

  lemma NoVoteRequests(cfg: Config, s: Node)
    ensures VoteRequestsFor(cfg, s, []) == []
  {
  }

  lemma VoteRequestsGrow(cfg: Config, s: Node, peers: seq<NodeId>, k: nat)
    requires k < |peers|
    ensures VoteRequestsFor(cfg, s, peers[..k + 1]) == VoteRequestsFor(cfg, s, peers[..k]) + [VoteRequestFor(cfg, s, peers[k])]
  {
    assert peers[..k + 1] == peers[..k] + [peers[k]];
  }
}
