/**
 What one engine guarantees on its own, for every event, honest or forged: its durable facts only
 move forward, and the effects it emits describe exactly how its durable fields changed.
 */
module NodeFacts {
  import opened RaftTypes
  import opened Logs
  import opened Protocol

  /** What the engine asserts after every step, together with what it never checks: a leader tracks its peers. */
  ghost predicate WellFormed(cfg: Config, s: Node) {
    && Contiguous(s.log) && s.commit <= |s.log|
    && (s.role == Leader ==> forall p :: p in Peers(cfg) ==> p in s.progress)
  }

  /** Term, vote within a term, commit index and the committed entries only move forward. */
  ghost predicate Advances(s: Node, s': Node) {
    && s.term <= s'.term
    && (s.term == s'.term && s.votedFor.Some? ==> s'.votedFor == s.votedFor)
    && s.commit <= s'.commit
    && s.commit <= |s.log| && s.commit <= |s'.log| && s.log[..s.commit] == s'.log[..s.commit]
  }

  lemma AdvancesTransitive(a: Node, b: Node, c: Node)
    requires Advances(a, b) && Advances(b, c)
    ensures Advances(a, c)
  {
    assert c.log[..a.commit] == c.log[..b.commit][..a.commit] == b.log[..b.commit][..a.commit] == b.log[..a.commit];
  }

  /** The durable log after a batch: cut at `truncateFrom`, then extended. */
  function Replay(log: seq<Entry>, truncateFrom: Option<nat>, entries: seq<Entry>): seq<Entry> {
    (if truncateFrom.Some? && 1 <= truncateFrom.value <= |log| then log[..truncateFrom.value - 1] else log) + entries
  }

  /** The effects account for every durable difference between s0 and s. */
  ghost predicate Tracks(s0: Node, s: Node, fx: Effects) {
    && (if fx.hardState.Some? then fx.hardState.value == Hard(s) else Hard(s) == Hard(s0))
    && s.log == Replay(s0.log, fx.truncateFrom, fx.entries)
    && (fx.truncateFrom.Some? ==> s0.commit < fx.truncateFrom.value <= |s0.log|)
  }

  /** The facts a handler must keep about where it started; `exact` asks for the effects as well. */
  ghost predicate Sound(cfg: Config, s0: Node, o: Outcome, exact: bool) {
    && WellFormed(cfg, o.node) && Advances(s0, o.node)
    && (o.Done? && exact ==> Tracks(s0, o.node, o.fx))
  }

  lemma BroadcastSound(cfg: Config, s0: Node, s: Node, fx: Effects, exact: bool)
    requires Sound(cfg, s0, Done(s, fx), exact) && s.role == Leader
    ensures Broadcast(cfg, s, fx).Done? && Sound(cfg, s0, Broadcast(cfg, s, fx), exact)
  {
  }

  lemma CommitSound(cfg: Config, s0: Node, s: Node, fx: Effects, exact: bool)
    requires Sound(cfg, s0, Done(s, fx), exact)
    ensures Sound(cfg, s0, AdvanceLeaderCommit(cfg, s, fx), exact)
  {
  }

  lemma AppendSound(cfg: Config, s0: Node, s: Node, fx: Effects, e: Entry, exact: bool)
    requires Sound(cfg, s0, Done(s, fx), exact) && e.index == |s.log| + 1
    ensures Sound(cfg, s0, AppendLocal(s, fx, e), exact)
  {
    assert exact ==> s.log + [e] == Replay(s0.log, fx.truncateFrom, fx.entries + [e]);
    assert (s.log + [e])[..s0.commit] == s.log[..s0.commit];
  }

  lemma BroadcastAndCommitSound(cfg: Config, s0: Node, s: Node, fx: Effects, exact: bool)
    requires Sound(cfg, s0, Done(s, fx), exact) && s.role == Leader
    ensures BroadcastAndCommit(cfg, s, fx).Done? && Sound(cfg, s0, BroadcastAndCommit(cfg, s, fx), exact)
  {
    BroadcastSound(cfg, s0, s, fx, exact);
    var b := Broadcast(cfg, s, fx);
    CommitSound(cfg, s0, b.node, b.fx, exact);
  }

  lemma LeadershipSound(cfg: Config, s0: Node, s: Node, fx: Effects, exact: bool)
    requires Sound(cfg, s0, Done(s, fx), exact)
    ensures BecomeLeader(cfg, s, fx).Done? && Sound(cfg, s0, BecomeLeader(cfg, s, fx), exact)
  {
    var s1 := Crowned(cfg, s);
    assert Sound(cfg, s0, Done(s1, fx), exact);
    var e := LocalEntry(s, Noop, [], None);
    AppendSound(cfg, s0, s1, fx, e, exact);
    var a := AppendLocal(s1, fx, e);
    BroadcastAndCommitSound(cfg, s0, a.node, a.fx, exact);
  }

  lemma ElectionSound(cfg: Config, s: Node, exact: bool)
    requires WellFormed(cfg, s)
    ensures StartElection(cfg, s, NO_EFFECTS).Done? && Sound(cfg, s, StartElection(cfg, s, NO_EFFECTS), exact)
  {
    var s1 := Campaigning(cfg, s);
    var asked := SaveHard(NO_EFFECTS, s1).(messages := NO_EFFECTS.messages + VoteRequestsFor(cfg, s1, Peers(cfg)));
    assert Sound(cfg, s, Done(s1, asked), exact);
    LeadershipSound(cfg, s, s1, asked, exact);
  }

  lemma FollowerSound(cfg: Config, s0: Node, s: Node, term: nat, leader: Option<NodeId>, fx: Effects, exact: bool)
    requires Sound(cfg, s0, Done(s, fx), exact)
    ensures Sound(cfg, s0, BecomeFollower(s, term, leader, fx), exact)
  {
  }

  lemma VoteRequestSound(cfg: Config, s0: Node, s: Node, m: Message, fx: Effects, exact: bool)
    requires Sound(cfg, s0, Done(s, fx), exact) && m.body.VoteRequest?
    ensures HandleVoteRequest(cfg, s, m, fx).Done? && Sound(cfg, s0, HandleVoteRequest(cfg, s, m, fx), exact)
  {
  }

  lemma VoteResponseSound(cfg: Config, s0: Node, s: Node, m: Message, fx: Effects, exact: bool)
    requires Sound(cfg, s0, Done(s, fx), exact) && m.body.VoteResponse?
    ensures HandleVoteResponse(cfg, s, m, fx).Done? && Sound(cfg, s0, HandleVoteResponse(cfg, s, m, fx), exact)
  {
    if s.role == Candidate && m.term == s.term && m.body.granted {
      var s1 := s.(votes := s.votes + {m.from});
      assert Sound(cfg, s0, Done(s1, fx), exact);
      if HasQuorum(cfg, |s1.votes|) {
        LeadershipSound(cfg, s0, s1, fx, exact);
      }
    }
  }

  /** The loop's book-keeping replays to the loop's log when the payload's indexes rise by one. */
  lemma {:induction false} MergeTracks(log0: seq<Entry>, log: seq<Entry>, commit: nat, truncateFrom: Option<nat>,
                                       appended: seq<Entry>, incoming: seq<Entry>)
    requires Contiguous(log) && Consecutive(incoming) && commit <= |log0|
    requires log == Replay(log0, truncateFrom, appended)
    requires truncateFrom.Some? ==> commit < truncateFrom.value <= |log0|
    requires appended == [] ==> truncateFrom == None && log == log0
    requires appended != [] && incoming != [] ==> incoming[0].index == |log| + 1
    ensures var r := MergeEntries(log, commit, truncateFrom, appended, incoming);
            r.Merged? ==>
              && r.log == Replay(log0, r.truncateFrom, r.appended)
              && (r.truncateFrom.Some? ==> commit < r.truncateFrom.value <= |log0|)
    decreases |incoming|
  {
    if incoming != [] {
      var e := incoming[0];
      var existing := EntryAt(log, e.index);
      var conflict := existing.Some? && existing.value.term != e.term;
      if !(conflict && e.index <= commit) {
        var kept := if conflict then log[..e.index - 1] else log;
        var from := if conflict then Some(e.index) else truncateFrom;
        if existing.Some? && !conflict {
          MergeTracks(log0, kept, commit, from, appended, incoming[1..]);
        } else if e.index == |kept| + 1 {
          assert kept + [e] == Replay(log0, from, appended + [e]);
          MergeTracks(log0, kept + [e], commit, from, appended + [e], incoming[1..]);
        }
      }
    }
  }

  ghost predicate WellFormedPayload(m: Message) {
    m.body.AppendRequest? ==> Consecutive(m.body.entries)
  }

  ghost predicate WellFormedEvent(e: Event) {
    e.Deliver? ==> WellFormedPayload(e.message)
  }

  lemma FinishAppendSound(cfg: Config, s0: Node, s: Node, m: Message, merge: Merge, fx: Effects, exact: bool)
    requires Sound(cfg, s0, Done(s, fx), exact) && m.body.AppendRequest? && s.role == Follower
    requires fx.entries == [] && fx.truncateFrom == None
    requires Contiguous(merge.log) && s.commit <= |merge.log| && merge.log[..s.commit] == s.log[..s.commit]
    requires merge.Merged? && exact ==> merge.log == Replay(s.log, merge.truncateFrom, merge.appended)
    requires merge.Merged? && exact && merge.truncateFrom.Some? ==> s.commit < merge.truncateFrom.value <= |s.log|
    ensures Sound(cfg, s0, FinishAppend(cfg, s, m, merge, fx), exact)
  {
    assert exact ==> s.log == s0.log + [] && s0.log + [] == s0.log;
    assert merge.log[..s0.commit] == merge.log[..s.commit][..s0.commit] == s.log[..s0.commit];
    if merge.Merged? {
      assert [] + merge.appended == merge.appended;
    }
  }

  lemma AppendRequestSound(cfg: Config, s0: Node, s: Node, m: Message, fx: Effects, exact: bool)
    requires Sound(cfg, s0, Done(s, fx), exact) && m.body.AppendRequest? && (exact ==> WellFormedPayload(m))
    requires fx.entries == [] && fx.truncateFrom == None
    ensures Sound(cfg, s0, HandleAppendRequest(cfg, s, m, fx), exact)
  {
    if m.term >= s.term {
      FollowerSound(cfg, s0, s, m.term, Some(m.from), fx, exact);
      var b := BecomeFollower(s, m.term, Some(m.from), fx);
      if TermAt(b.node.log, m.body.prevLogIndex) == Some(m.body.prevLogTerm) {
        var log := b.node.log;
        MergeKeepsCommitted(log, b.node.commit, None, [], m.body.entries);
        if exact {
          MergeTracks(log, log, b.node.commit, None, [], m.body.entries);
        }
        FinishAppendSound(cfg, s0, b.node, m, MergeEntries(log, b.node.commit, None, [], m.body.entries), b.fx, exact);
      }
    }
  }

  lemma AppendResponseSound(cfg: Config, s0: Node, s: Node, m: Message, fx: Effects, exact: bool)
    requires Sound(cfg, s0, Done(s, fx), exact) && m.body.AppendResponse?
    ensures HandleAppendResponse(cfg, s, m, fx).Done? && Sound(cfg, s0, HandleAppendResponse(cfg, s, m, fx), exact)
  {
    if m.term >= s.term && s.role == Leader && m.from in s.progress && m.body.success {
      var s1 := s.(progress := s.progress[m.from := Acknowledged(s.progress[m.from], m.body.matchIndex)]);
      assert Sound(cfg, s0, Done(s1, fx), exact);
      CommitSound(cfg, s0, s1, fx, exact);
      var a := AdvanceLeaderCommit(cfg, s1, fx);
      BroadcastSound(cfg, s0, a.node, a.fx, exact);
    }
  }

  lemma MessageSound(cfg: Config, s: Node, m: Message, exact: bool)
    requires WellFormed(cfg, s) && (exact ==> WellFormedPayload(m))
    ensures Sound(cfg, s, HandleMessage(cfg, s, m, NO_EFFECTS), exact)
    ensures HandleMessage(cfg, s, m, NO_EFFECTS).Threw? ==>
              HandleMessage(cfg, s, m, NO_EFFECTS).error
              in {UnsupportedVersion, CrossCluster, WrongPeer, OverwriteCommitted, NonContiguousAppend}
  {
    hide Dispatch, Sound;
    Unchanged(cfg, s, exact);
    FollowerSound(cfg, s, s, m.term, None, NO_EFFECTS, exact);
    var b := if m.term > s.term then BecomeFollower(s, m.term, None, NO_EFFECTS) else Done(s, NO_EFFECTS);
    DispatchSound(cfg, s, b.node, m, b.fx, exact);
  }

  /** Refusing at the gate changes nothing. */
  lemma Unchanged(cfg: Config, s: Node, exact: bool)
    requires WellFormed(cfg, s)
    ensures Sound(cfg, s, Done(s, NO_EFFECTS), exact)
    ensures forall e :: Sound(cfg, s, Threw(s, e), exact)
  {
  }

  lemma DispatchSound(cfg: Config, s0: Node, s: Node, m: Message, fx: Effects, exact: bool)
    requires Sound(cfg, s0, Done(s, fx), exact) && (exact ==> WellFormedPayload(m))
    requires fx.entries == [] && fx.truncateFrom == None
    ensures Sound(cfg, s0, Dispatch(cfg, s, m, fx), exact)
    ensures Dispatch(cfg, s, m, fx).Threw? ==> Dispatch(cfg, s, m, fx).error in {OverwriteCommitted, NonContiguousAppend}
  {
    hide Sound, HandleVoteRequest, HandleVoteResponse, HandleAppendRequest, HandleAppendResponse;
    match m.body {
      case VoteRequest(_, _) => VoteRequestSound(cfg, s0, s, m, fx, exact);
      case VoteResponse(_) => VoteResponseSound(cfg, s0, s, m, fx, exact);
      case AppendRequest(_, _, _, _) =>
        AppendRequestSound(cfg, s0, s, m, fx, exact);
        AppendRequestErrors(cfg, s, m, fx);
      case AppendResponse(_, _, _) => AppendResponseSound(cfg, s0, s, m, fx, exact);
    }
  }

  lemma AppendRequestErrors(cfg: Config, s: Node, m: Message, fx: Effects)
    requires m.body.AppendRequest?
    ensures var o := HandleAppendRequest(cfg, s, m, fx); o.Threw? ==> o.error in {OverwriteCommitted, NonContiguousAppend}
  {
    MergeErrors(s.log, s.commit, None, [], m.body.entries);
  }

  lemma MergeErrors(log: seq<Entry>, commit: nat, truncateFrom: Option<nat>, appended: seq<Entry>, incoming: seq<Entry>)
    ensures var r := MergeEntries(log, commit, truncateFrom, appended, incoming);
            r.Refused? ==> r.error in {OverwriteCommitted, NonContiguousAppend}
    decreases |incoming|
  {
  }

  /**
   One step, any event, honest or forged: the engine's own assertions hold afterwards even if a
   handler threw, and durable facts only advance. The emitted effects replay to the new durable
   fields unless an AppendEntries payload skipped or repeated indexes.
   */
  lemma EventSound(cfg: Config, s: Node, e: Event)
    requires WellFormed(cfg, s)
    ensures Sound(cfg, s, Handle(cfg, s, e), WellFormedEvent(e))
    ensures Handle(cfg, s, e).Threw? ==> Handle(cfg, s, e).error != MissingProgress
  {
    var exact := WellFormedEvent(e);
    assert Sound(cfg, s, Done(s, NO_EFFECTS), exact);
    match e {
      case ElectionTimeout => ElectionSound(cfg, s, exact);
      case HeartbeatTimeout =>
        if s.role == Leader {
          BroadcastSound(cfg, s, s, NO_EFFECTS, exact);
        }
      case Deliver(m) => MessageSound(cfg, s, m, exact);
      case Propose(id, payload) =>
        if s.role == Leader {
          var entry := LocalEntry(s, Command, payload, Some(id));
          AppendSound(cfg, s, s, NO_EFFECTS, entry, exact);
          var a := AppendLocal(s, NO_EFFECTS, entry);
          BroadcastAndCommitSound(cfg, s, a.node, a.fx, exact);
        }
    }
  }

  // ----- When the effects replay -----

  /** Along the payload the log is cut at most once, before anything has been appended. */
  predicate CutsOnce(log: seq<Entry>, appended: bool, incoming: seq<Entry>)
    decreases |incoming|
  {
    incoming == [] ||
    var e := incoming[0];
    var existing := EntryAt(log, e.index);
    var conflict := existing.Some? && existing.value.term != e.term;
    if conflict && appended then false
    else if existing.Some? && !conflict then CutsOnce(log, appended, incoming[1..])
    else CutsOnce((if conflict then log[..e.index - 1] else log) + [e], true, incoming[1..])
  }

  lemma {:induction false} ReplayHolds(log0: seq<Entry>, log: seq<Entry>, commit: nat, from: Option<nat>,
                                       appended: seq<Entry>, incoming: seq<Entry>)
    requires Contiguous(log) && log == Replay(log0, from, appended)
    requires appended == [] ==> from == None && log == log0
    requires CutsOnce(log, appended != [], incoming)
    ensures var r := MergeEntries(log, commit, from, appended, incoming);
            r.Merged? ==> r.log == Replay(log0, r.truncateFrom, r.appended)
    decreases |incoming|
  {
    if incoming != [] {
      var e := incoming[0];
      var existing := EntryAt(log, e.index);
      var conflict := existing.Some? && existing.value.term != e.term;
      if existing.Some? && !conflict {
        ReplayHolds(log0, log, commit, from, appended, incoming[1..]);
      } else {
        var kept := if conflict then log[..e.index - 1] else log;
        var from' := if conflict then Some(e.index) else from;
        if e.index == |kept| + 1 {
          assert kept + [e] == Replay(log0, from', appended + [e]);
          ReplayHolds(log0, kept + [e], commit, from', appended + [e], incoming[1..]);
        }
      }
    }
  }

  /** A cut into what the same payload appended is lost on the store: the replayed log is longer for good. */
  lemma {:induction false} ReplayBreaks(log0: seq<Entry>, log: seq<Entry>, commit: nat, from: Option<nat>,
                                        appended: seq<Entry>, incoming: seq<Entry>)
    requires Contiguous(log) && |log| <= |log0| + |appended|
    requires |Replay(log0, from, appended)| >= |log|
    requires appended == [] ==> log == log0 && from == None
    requires (|Replay(log0, from, appended)| > |log| && appended != []) || !CutsOnce(log, appended != [], incoming)
    ensures var r := MergeEntries(log, commit, from, appended, incoming);
            r.Merged? ==> |Replay(log0, r.truncateFrom, r.appended)| > |r.log|
    decreases |incoming|
  {
    if incoming != [] {
      var e := incoming[0];
      var existing := EntryAt(log, e.index);
      var conflict := existing.Some? && existing.value.term != e.term;
      if existing.Some? && !conflict {
        ReplayBreaks(log0, log, commit, from, appended, incoming[1..]);
      } else {
        var kept := if conflict then log[..e.index - 1] else log;
        var from' := if conflict then Some(e.index) else from;
        if e.index == |kept| + 1 {
          ReplayBreaks(log0, kept + [e], commit, from', appended + [e], incoming[1..]);
        }
      }
    }
  }

  /** An accepted request whose payload cuts into what it appended itself. */
  predicate CutsItself(s: Node, e: Event) {
    && e.Deliver? && e.message.body.AppendRequest? && e.message.term >= s.term
    && TermAt(s.log, e.message.body.prevLogIndex) == Some(e.message.body.prevLogTerm)
    && !CutsOnce(s.log, false, e.message.body.entries)
  }

  /** The cut and the entries a step reports replay to its log exactly when the event is not of that kind. */
  lemma EffectsReplayExactly(cfg: Config, s: Node, e: Event)
    requires WellFormed(cfg, s)
    ensures var o := Handle(cfg, s, e);
            o.Done? ==> (o.node.log == Replay(s.log, o.fx.truncateFrom, o.fx.entries) <==> !CutsItself(s, e))
  {
    hide CutsOnce, Handle;
    EventSound(cfg, s, e);
    if e.Deliver? && e.message.body.AppendRequest? {
      RequestReports(cfg, s, e.message);
      PayloadReplays(s, e.message.body.entries);
    }
  }

  lemma PayloadReplays(s: Node, incoming: seq<Entry>)
    requires Contiguous(s.log)
    ensures var r := MergeEntries(s.log, s.commit, None, [], incoming);
            r.Merged? ==> (r.log == Replay(s.log, r.truncateFrom, r.appended) <==> CutsOnce(s.log, false, incoming))
  {
    hide CutsOnce, MergeEntries;
    assert s.log == s.log + [];
    if CutsOnce(s.log, false, incoming) {
      ReplayHolds(s.log, s.log, s.commit, None, [], incoming);
    } else {
      ReplayBreaks(s.log, s.log, s.commit, None, [], incoming);
    }
  }

  /** An AppendEntries request that is taken reports what the loop over its payload did, or nothing. */
  lemma RequestReports(cfg: Config, s: Node, m: Message)
    requires m.body.AppendRequest?
    ensures var o := Handle(cfg, s, Event.Deliver(m)); var r := MergeEntries(s.log, s.commit, None, [], m.body.entries);
            o.Done? ==>
              if m.term >= s.term && TermAt(s.log, m.body.prevLogIndex) == Some(m.body.prevLogTerm)
              then r.Merged? && o.node.log == r.log && o.fx.truncateFrom == r.truncateFrom && o.fx.entries == r.appended
              else o.node.log == s.log && o.fx.truncateFrom == None && o.fx.entries == []
  {
    hide MergeEntries;
  }

  /** A log with one entry and a payload with two entries for its index: two appended, one kept. */
  lemma PayloadCutsItself(held: Entry, a: Entry, b: Entry)
    requires held.index == a.index == b.index == 1 && held.term != a.term && a.term != b.term
    ensures !CutsOnce([held], false, [a, b])
    ensures MergeEntries([held], 0, None, [], [a, b]) == Merged([b], Some(1), [a, b])
    ensures Replay([held], Some(1), [a, b]) == [a, b]
  {
    var none: seq<Entry> := [];
    assert [held][..0] == none && none + [a] == [a] && [a][..0] == none && none + [b] == [b] && [a] + [b] == [a, b];
    assert [a, b][1..] == [b] && [b][1..] == none;
    assert MergeEntries([a], 0, Some(1), [a], [b]) == MergeEntries([b], 0, Some(1), [a, b], none);
    assert none + [a, b] == [a, b];
  }

  /** The engine takes a request with that payload: its log ends at the second entry, the store would get both. */
  lemma CutsItselfWitness(cfg: Config, s: Node, m: Message, held: Entry, a: Entry, b: Entry)
    requires held.index == a.index == b.index == 1 && held.term != a.term && a.term != b.term
    requires WellFormed(cfg, s) && s.log == [held] && s.commit == 0
    requires m.version == PROTOCOL_VERSION && m.cluster == cfg.cluster && m.to == cfg.self && m.from in cfg.members
    requires m.term >= s.term && m.body == AppendRequest(0, 0, [a, b], 0)
    ensures var o := Handle(cfg, s, Event.Deliver(m));
            && o.Done? && CutsItself(s, Event.Deliver(m))
            && o.node.log == [b] && Replay(s.log, o.fx.truncateFrom, o.fx.entries) == [a, b]
  {
    hide MergeEntries;
    PayloadCutsItself(held, a, b);
  }

  // ----- What a step sends -----

  /** Every message is stamped with its sender and the sender's term. */
  ghost predicate Stamped(cfg: Config, s: Node, ms: seq<Message>) {
    forall m :: m in ms ==> m.from == cfg.self && m.term == s.term
  }

  lemma BroadcastStamped(cfg: Config, s: Node, fx: Effects)
    requires Stamped(cfg, s, fx.messages)
    ensures var o := Broadcast(cfg, s, fx); o.Done? ==> Stamped(cfg, s, o.fx.messages) && o.node == s
  {
  }

  lemma LeadershipStamped(cfg: Config, s: Node, fx: Effects)
    requires Stamped(cfg, s, fx.messages)
    ensures var o := BecomeLeader(cfg, s, fx); o.Done? ==> Stamped(cfg, o.node, o.fx.messages)
  {
    var a := AppendLocal(Crowned(cfg, s), fx, LocalEntry(s, Noop, [], None));
    BroadcastStamped(cfg, a.node, a.fx);
  }

  lemma EventStamped(cfg: Config, s: Node, e: Event)
    ensures var o := Handle(cfg, s, e); o.Done? ==> Stamped(cfg, o.node, o.fx.messages)
  {
    match e {
      case ElectionTimeout =>
        var s1 := Campaigning(cfg, s);
        var requests := VoteRequestsFor(cfg, s1, Peers(cfg));
        LeadershipStamped(cfg, s1, SaveHard(NO_EFFECTS, s1).(messages := NO_EFFECTS.messages + requests));
      case HeartbeatTimeout => BroadcastStamped(cfg, s, NO_EFFECTS);
      case Deliver(m) =>
        var b := if m.term > s.term then BecomeFollower(s, m.term, None, NO_EFFECTS) else Done(s, NO_EFFECTS);
        MessageStamped(cfg, b.node, m, b.fx);
      case Propose(id, payload) =>
        var a := AppendLocal(s, NO_EFFECTS, LocalEntry(s, Command, payload, Some(id)));
        BroadcastStamped(cfg, a.node, a.fx);
    }
  }

  lemma MessageStamped(cfg: Config, s: Node, m: Message, fx: Effects)
    requires fx.messages == [] && m.term <= s.term
    ensures var o := Dispatch(cfg, s, m, fx); o.Done? ==> Stamped(cfg, o.node, o.fx.messages)
  {
    match m.body {
      case VoteRequest(_, _) =>
      case VoteResponse(_) => LeadershipStamped(cfg, s.(votes := s.votes + {m.from}), fx);
      case AppendRequest(_, _, _, _) =>
      case AppendResponse(_, index, _) =>
        if m.term >= s.term && s.role == Leader && m.from in s.progress {
          var s1 := s.(progress := s.progress[m.from := Acknowledged(s.progress[m.from], index)]);
          var a := AdvanceLeaderCommit(cfg, s1, fx);
          BroadcastStamped(cfg, a.node, a.fx);
        }
    }
  }

  /** An AppendEntries request carries everything the sending leader holds from some index on. */
  predicate Ships(s: Node, r: Message) {
    r.body.AppendRequest? ==>
      && s.role == Leader && r.to in s.progress
      && r.body.entries == Suffix(s.log, r.body.prevLogIndex + 1) && r.body.prevLogTerm == TermOr0(s.log, r.body.prevLogIndex)
  }

  ghost predicate AllShip(s: Node, ms: seq<Message>) {
    forall r :: r in ms ==> Ships(s, r)
  }

  lemma BroadcastShips(cfg: Config, s: Node, fx: Effects)
    requires s.role == Leader && AllShip(s, fx.messages)
    ensures var o := Broadcast(cfg, s, fx); o.Done? ==> o.node == s && AllShip(s, o.fx.messages)
  {
    hide Suffix, TermOr0;
  }

  lemma LeadershipShips(cfg: Config, s: Node, fx: Effects)
    requires forall r :: r in fx.messages ==> !r.body.AppendRequest?
    ensures var o := BecomeLeader(cfg, s, fx); o.Done? ==> AllShip(o.node, o.fx.messages)
  {
    hide Suffix, TermOr0, CommitTarget;
    var a := AppendLocal(Crowned(cfg, s), fx, LocalEntry(s, Noop, [], None));
    BroadcastShips(cfg, a.node, a.fx);
  }

  lemma ResponseShips(cfg: Config, s: Node, m: Message, fx: Effects)
    requires m.body.AppendResponse? && fx.messages == []
    ensures var o := HandleAppendResponse(cfg, s, m, fx); o.Done? ==> AllShip(o.node, o.fx.messages)
  {
    hide Broadcast, CommitTarget, Suffix, TermOr0;
    if m.term >= s.term && s.role == Leader && m.from in s.progress && m.body.success {
      var s1 := s.(progress := s.progress[m.from := Acknowledged(s.progress[m.from], m.body.matchIndex)]);
      var a := AdvanceLeaderCommit(cfg, s1, fx);
      BroadcastShips(cfg, a.node, a.fx);
    }
  }

  lemma MessageShips(cfg: Config, s: Node, m: Message)
    ensures var o := HandleMessage(cfg, s, m, NO_EFFECTS); o.Done? ==> AllShip(o.node, o.fx.messages)
  {
    hide BecomeLeader, HandleAppendResponse, MergeEntries, Suffix, TermOr0;
    var b := if m.term > s.term then BecomeFollower(s, m.term, None, NO_EFFECTS) else Done(s, NO_EFFECTS);
    match m.body {
      case VoteRequest(_, _) =>
      case VoteResponse(_) => LeadershipShips(cfg, b.node.(votes := b.node.votes + {m.from}), b.fx);
      case AppendRequest(_, _, _, _) =>
      case AppendResponse(_, _, _) => ResponseShips(cfg, b.node, m, b.fx);
    }
  }

  /** Whatever the event, requests ship the sender's log as it is after the step. */
  lemma EventShips(cfg: Config, s: Node, e: Event)
    ensures var o := Handle(cfg, s, e); o.Done? ==> AllShip(o.node, o.fx.messages)
  {
    hide BecomeLeader, CommitTarget, HandleMessage, Broadcast, Suffix, TermOr0;
    match e {
      case ElectionTimeout =>
        var s1 := Campaigning(cfg, s);
        var requests := VoteRequestsFor(cfg, s1, Peers(cfg));
        LeadershipShips(cfg, s1, SaveHard(NO_EFFECTS, s1).(messages := NO_EFFECTS.messages + requests));
      case HeartbeatTimeout =>
        if s.role == Leader {
          BroadcastShips(cfg, s, NO_EFFECTS);
        }
      case Deliver(m) => MessageShips(cfg, s, m);
      case Propose(id, payload) =>
        if s.role == Leader {
          var a := AppendLocal(s, NO_EFFECTS, LocalEntry(s, Command, payload, Some(id)));
          BroadcastShips(cfg, a.node, a.fx);
        }
    }
  }

  /** A success reply acknowledges the request just taken, to the end of its payload. */
  lemma EventAcks(cfg: Config, s: Node, e: Event, r: Message)
    requires Handle(cfg, s, e).Done? && r in Handle(cfg, s, e).fx.messages && r.body.AppendResponse? && r.body.success
    ensures e.Deliver? && e.message.body.AppendRequest? && e.message.term == r.term && e.message.from == r.to
    ensures r.body.matchIndex == PayloadEnd(e.message.body)
  {
    hide BecomeLeader, CommitTarget, HandleAppendResponse, MergeEntries;
    match e {
      case ElectionTimeout =>
        var s1 := Campaigning(cfg, s);
        var requests := VoteRequestsFor(cfg, s1, Peers(cfg));
        LeadershipReplies(cfg, s1, SaveHard(NO_EFFECTS, s1).(messages := NO_EFFECTS.messages + requests));
      case HeartbeatTimeout =>
      case Propose(id, payload) =>
      case Deliver(m) =>
        var b := if m.term > s.term then BecomeFollower(s, m.term, None, NO_EFFECTS) else Done(s, NO_EFFECTS);
        match m.body {
          case VoteRequest(_, _) =>
          case VoteResponse(_) => LeadershipReplies(cfg, b.node.(votes := b.node.votes + {m.from}), b.fx);
          case AppendRequest(_, _, _, _) =>
          case AppendResponse(_, _, _) => ResponseReplies(cfg, b.node, m, b.fx);
        }
    }
  }

  ghost predicate NoReplies(ms: seq<Message>) {
    forall r :: r in ms ==> !r.body.AppendResponse?
  }

  lemma LeadershipReplies(cfg: Config, s: Node, fx: Effects)
    requires NoReplies(fx.messages)
    ensures var o := BecomeLeader(cfg, s, fx); o.Done? ==> NoReplies(o.fx.messages)
  {
    hide CommitTarget;
  }

  lemma ResponseReplies(cfg: Config, s: Node, m: Message, fx: Effects)
    requires m.body.AppendResponse? && NoReplies(fx.messages)
    ensures var o := HandleAppendResponse(cfg, s, m, fx); o.Done? ==> NoReplies(o.fx.messages)
  {
    hide CommitTarget;
  }
}
