/** The engine with its Ready batches: one outstanding batch freezes it until it is advanced. */
module CoreSpec {
  import opened RaftTypes
  import opened Logs
  import opened Protocol
  import opened Quorums
  import opened NodeFacts

  datatype Core = Core(cfg: Config, node: Node, applied: nat, sequence: nat, outstanding: Option<Ready>)

  datatype Persisted = Persisted(hard: HardState, entries: seq<Entry>, applied: nat)

  datatype CoreOutcome =
    | Stepped(core: Core, ready: Option<Ready>)
    | Failed(core: Core, error: Error)

  /** The committed entries not yet applied. */
  function Unapplied(log: seq<Entry>, applied: nat, commit: nat): seq<Entry> {
    if applied < commit <= |log| then log[applied..commit] else []
  }

  /** The assertions run after every step and advance. */
  function Broken(c: Core): Option<Error> {
    if !Contiguous(c.node.log) then Some(BrokenLog)
    else if c.node.commit > |c.node.log| then Some(BrokenCommit)
    else if c.applied > c.node.commit then Some(BrokenApplied)
    else None
  }

  function ReadyFrom(id: nat, fx: Effects, committed: seq<Entry>): Ready {
    Ready(id, fx.hardState, fx.truncateFrom, fx.entries, fx.messages, committed)
  }

  function MakeReady(c: Core, fx: Effects): CoreOutcome {
    var committed := Unapplied(c.node.log, c.applied, c.node.commit);
    if fx == NO_EFFECTS && committed == [] then Stepped(c, None)
    else
      var ready := ReadyFrom(c.sequence + 1, fx, committed);
      Stepped(c.(sequence := c.sequence + 1, outstanding := Some(ready)), Some(ready))
  }

  function StepCore(c: Core, e: Event): CoreOutcome {
    if c.outstanding.Some? then Failed(c, OutstandingReady)
    else
      var o := Handle(c.cfg, c.node, e);
      var c' := c.(node := o.node);
      if o.Threw? then Failed(c', o.error)
      else if Broken(c').Some? then Failed(c', Broken(c').value)
      else MakeReady(c', o.fx)
  }

  function AppliedAfter(applied: nat, ready: Ready): nat {
    if ready.committed == [] then applied else ready.committed[|ready.committed| - 1].index
  }

  function AdvanceCore(c: Core, id: nat): CoreOutcome {
    if c.outstanding == None || c.outstanding.value.id != id then Failed(c, UnknownReady)
    else
      var c' := c.(applied := AppliedAfter(c.applied, c.outstanding.value), outstanding := None);
      if Broken(c').Some? then Failed(c', Broken(c').value) else Stepped(c', None)
  }

  /** Construction over what a store holds, once the options have been checked. */
  function Opened(cfg: Config, p: Persisted): Core {
    Core(cfg, Recovered(p.hard, p.entries), p.applied, 0, None)
  }

  function OptionError(cfg: Config, electionTimeout: int, heartbeatInterval: int): Option<Error> {
    if |cfg.members| !in {1, 3, 5} then Some(BadClusterSize)
    else if cfg.self !in cfg.members then Some(NotAMember)
    else if !Distinct(cfg.members) then Some(DuplicateMember)
    else if electionTimeout <= heartbeatInterval then Some(BadTimeouts)
    else None
  }

  /** The options are accepted exactly when they are sound, and the first fault found is the one reported. */
  lemma OptionsExactly(cfg: Config, electionTimeout: int, heartbeatInterval: int)
    ensures var n := |cfg.members|; var odd := n == 1 || n == 3 || n == 5;
            var distinct := forall j, k :: 0 <= j < k < n ==> cfg.members[j] != cfg.members[k];
            OptionError(cfg, electionTimeout, heartbeatInterval)
            == if !odd then Some(BadClusterSize)
               else if cfg.self !in cfg.members then Some(NotAMember)
               else if !distinct then Some(DuplicateMember)
               else if heartbeatInterval >= electionTimeout then Some(BadTimeouts) else None
  {
  }

  /** An accepted cluster of n works with any (n - 1) / 2 members lost, and not with one more. */
  lemma AcceptedTolerates(cfg: Config, electionTimeout: int, heartbeatInterval: int, lost: set<NodeId>)
    requires OptionError(cfg, electionTimeout, heartbeatInterval) == None && lost <= Elements(cfg.members)
    ensures IsQuorum(cfg.members, Elements(cfg.members) - lost) <==> |lost| <= (|cfg.members| - 1) / 2
    ensures cfg.self !in Peers(cfg) && forall p :: p in Peers(cfg) <==> p in cfg.members && p != cfg.self
  {
    SurvivesExactly(cfg.members, lost);
  }

  /** The peers are the other members, in the order of the options. */
  lemma PeersInOrder(cfg: Config, k: nat)
    requires Distinct(cfg.members) && k < |cfg.members| && cfg.members[k] == cfg.self
    ensures Peers(cfg) == cfg.members[..k] + cfg.members[k + 1..]
  {
    WithoutOne(cfg.members, k);
  }

  lemma {:induction false} WithoutOne(s: seq<NodeId>, k: nat)
    requires Distinct(s) && k < |s|
    ensures Without(s, s[k]) == s[..k] + s[k + 1..]
    decreases |s|
  {
    if k == 0 {
      WithoutNone(s[1..], s[0]);
    } else {
      WithoutOne(s[1..], k - 1);
      assert s[..k] == [s[0]] + s[1..][..k - 1] && s[1..][k..] == s[k + 1..];
    }
  }

  lemma {:induction false} WithoutNone(s: seq<NodeId>, x: NodeId)
    requires x !in s
    ensures Without(s, x) == s
    decreases |s|
  {
    if s != [] {
      WithoutNone(s[1..], x);
    }
  }

  // ----- What holds between any two calls -----

  ghost predicate CoreInv(c: Core) {
    && WellFormed(c.cfg, c.node) && c.applied <= c.node.commit
    && (c.outstanding.Some? ==> c.outstanding.value.committed == Unapplied(c.node.log, c.applied, c.node.commit))
  }

  /** The engine's assertions can never fail, whatever event or advance it is given. */
  lemma StepKeepsCore(c: Core, e: Event)
    requires CoreInv(c)
    ensures var o := StepCore(c, e);
            && CoreInv(o.core) && o.core.applied == c.applied && o.core.cfg == c.cfg
            && Advances(c.node, o.core.node)
            && (o.Failed? ==> o.error !in {BrokenLog, BrokenCommit, BrokenApplied, MissingProgress})
  {
    if c.outstanding == None {
      EventSound(c.cfg, c.node, e);
      HandlerErrors(c.cfg, c.node, e);
    }
  }

  lemma HandlerErrors(cfg: Config, s: Node, e: Event)
    ensures var o := Handle(cfg, s, e); o.Threw? ==> o.error !in {BrokenLog, BrokenCommit, BrokenApplied}
  {
    if e.Deliver? && e.message.body.AppendRequest? {
      var m := e.message;
      var b := BecomeFollower(s, m.term, None, NO_EFFECTS).node;
      MergeErrors(s.log, s.commit, None, [], m.body.entries);
    }
  }

  /** A step that emits a batch leaves it outstanding, with the configuration untouched. */
  lemma BatchIsOutstanding(c: Core, e: Event)
    ensures var o := StepCore(c, e);
            && o.core.cfg == c.cfg
            && (o.Stepped? && o.ready.Some? ==> o.core.outstanding == o.ready)
  {
    hide Handle;
  }

  lemma AdvanceKeepsCore(c: Core, id: nat)
    requires CoreInv(c)
    ensures var o := AdvanceCore(c, id);
            && CoreInv(o.core) && o.core.node == c.node && o.core.cfg == c.cfg && c.applied <= o.core.applied
            && (o.Stepped? ==> o.core.applied == c.node.commit)
            && (o.Failed? ==> o.core == c && o.error == UnknownReady)
  {
    var log := c.node.log;
    if c.applied < c.node.commit {
      assert log[c.applied..c.node.commit][c.node.commit - c.applied - 1] == log[c.node.commit - 1];
    }
  }

  // ----- The stream of committed entries -----

  datatype Call = StepCall(event: Event) | AdvanceCall(id: nat)

  datatype Stream = Stream(core: Core, applied: seq<Entry>)

  /** The committed entries of the batch an advance retires. */
  function Retired(c: Core, call: Call): seq<Entry> {
    if call.AdvanceCall? && AdvanceCore(c, call.id).Stepped? && c.outstanding.Some?
    then c.outstanding.value.committed else []
  }

  function AfterCall(c: Core, call: Call): Core {
    match call
    case StepCall(e) => StepCore(c, e).core
    case AdvanceCall(id) => AdvanceCore(c, id).core
  }

  function AfterCalls(c: Core, calls: seq<Call>): Stream
    decreases |calls|
  {
    if calls == [] then Stream(c, [])
    else
      var before := AfterCalls(c, calls[..|calls| - 1]);
      var call := calls[|calls| - 1];
      Stream(AfterCall(before.core, call), before.applied + Retired(before.core, call))
  }

  /**
   Over any calls at all, throwing ones and forged messages included, the retired batches concatenate
   to exactly the log between the first and the last applied index, and no truncation reaches what was
   committed at the start.
   */
  lemma {:induction false} CommittedStream(c: Core, calls: seq<Call>)
    requires CoreInv(c)
    ensures var r := AfterCalls(c, calls);
            && CoreInv(r.core) && c.applied <= r.core.applied <= |r.core.node.log|
            && r.applied == r.core.node.log[c.applied..r.core.applied]
            && Advances(c.node, r.core.node)
    decreases |calls|
  {
    if calls != [] {
      var last := |calls| - 1;
      CommittedStream(c, calls[..last]);
      var b := AfterCalls(c, calls[..last]);
      StreamStep(c, b, calls[last]);
    }
  }

  lemma StreamStep(c: Core, b: Stream, call: Call)
    requires CoreInv(c) && CoreInv(b.core) && c.applied <= b.core.applied <= |b.core.node.log|
    requires b.applied == b.core.node.log[c.applied..b.core.applied]
    requires Advances(c.node, b.core.node)
    ensures var c' := AfterCall(b.core, call);
            && CoreInv(c') && b.core.applied <= c'.applied <= |c'.node.log|
            && b.applied + Retired(b.core, call) == c'.node.log[c.applied..c'.applied]
            && Advances(c.node, c'.node)
  {
    match call {
      case StepCall(e) =>
        StepKeepsCore(b.core, e);
        AdvancesTransitive(c.node, b.core.node, StepCore(b.core, e).core.node);
        var log, log' := b.core.node.log, StepCore(b.core, e).core.node.log;
        assert log'[c.applied..b.core.applied] == log'[..b.core.node.commit][c.applied..b.core.applied];
        assert log[c.applied..b.core.applied] == log[..b.core.node.commit][c.applied..b.core.applied];
      case AdvanceCall(id) =>
        AdvanceKeepsCore(b.core, id);
        var log := b.core.node.log;
        if AdvanceCore(b.core, id).Stepped? {
          assert log[c.applied..b.core.node.commit] == log[c.applied..b.core.applied] + log[b.core.applied..b.core.node.commit];
        }
    }
  }
}
