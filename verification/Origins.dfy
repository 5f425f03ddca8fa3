/** What a leader makes of a proposal, and that every command anywhere in a run was proposed, byte for byte. */
module Origins {
  import opened RaftTypes
  import opened Logs
  import opened Protocol
  import opened NodeFacts
  import opened CoreSpec
  import opened Stores
  import opened Networks
  import opened Histories
  import opened Clusters
  import opened SafetyTheorems
  import opened ReadyRefinement
  import opened Runtime
  import opened RuntimeRefinement

  // ----- One proposal -----

  /** What the engine asks of a proposal besides leading. */
  predicate WithinLimits(cfg: Config, id: string, payload: seq<byte>) {
    1 <= |id| <= 256 && |payload| <= cfg.maxBytes
  }

  /** The entry that stands for a proposal at the end of this node's log. */
  function ProposedEntry(s: Node, id: string, payload: seq<byte>): Entry {
    Entry(|s.log| + 1, s.term, Command, payload, Some(id))
  }

  /**
   A proposal is taken exactly by a leader and within the limits, and then its ID and bytes are the new
   last entry, to be saved, and every peer is sent a request for the rest of the new log. Otherwise it
   throws, saying why, and nothing changes.
   */
  lemma ProposalExactly(cfg: Config, s: Node, id: string, payload: seq<byte>)
    requires WellFormed(cfg, s)
    ensures var o := Handle(cfg, s, Propose(id, payload)); var e := ProposedEntry(s, id, payload);
            && (o.Done? <==> s.role == Leader && WithinLimits(cfg, id, payload))
            && (o.Done? ==>
                  && o.node == s.(log := s.log + [e], commit := o.node.commit)
                  && o.fx.entries == [e] && o.fx.truncateFrom == None
                  && |o.fx.messages| == |Peers(cfg)|
                  && forall k :: 0 <= k < |Peers(cfg)| ==>
                                   o.fx.messages[k].to == Peers(cfg)[k] && o.fx.messages[k].body.AppendRequest?)
            && (o.Threw? ==> o.node == s)
            && (o.Threw? ==> o.error == (if s.role != Leader then NotLeader
                                         else if !(1 <= |id| <= 256) then BadCommandId else PayloadTooLarge))
  {
    hide CommitTarget, Suffix, TermOr0;
    var e := ProposedEntry(s, id, payload);
    var a := AppendLocal(s, NO_EFFECTS, e);
    assert [] + [e] == [e];
    if s.role == Leader && WithinLimits(cfg, id, payload) {
      assert Broadcast(cfg, a.node, a.fx).Done?;
      assert [] + AppendsFor(cfg, a.node, Peers(cfg)) == AppendsFor(cfg, a.node, Peers(cfg));
    }
  }

  // ----- Where entries come from -----

  /** The entry a new leader opens its term with. */
  predicate IsNoop(x: Entry) {
    x.kind == Noop && x.payload == [] && x.commandId == None
  }

  /** Entry x enters with this event: a no-op, or what was proposed to a leader. */
  predicate Enters(cfg: Config, s: Node, e: Event, x: Entry) {
    || IsNoop(x)
    || (e.Propose? && s.role == Leader && WithinLimits(cfg, e.commandId, e.payload)
        && x == ProposedEntry(s, e.commandId, e.payload))
  }

  predicate Bears(m: Message, x: Entry) {
    m.body.AppendRequest? && x in m.body.entries
  }

  lemma {:induction false} MergedFrom(log: seq<Entry>, commit: nat, from: Option<nat>, appended: seq<Entry>,
                                      incoming: seq<Entry>, x: Entry)
    ensures x in MergeEntries(log, commit, from, appended, incoming).log ==> x in log || x in incoming
    decreases |incoming|
  {
    if incoming != [] {
      var e := incoming[0];
      var existing := EntryAt(log, e.index);
      var conflict := existing.Some? && existing.value.term != e.term;
      if !(conflict && e.index <= commit) {
        var kept := if conflict then log[..e.index - 1] else log;
        var from' := if conflict then Some(e.index) else from;
        if existing.Some? && !conflict {
          MergedFrom(kept, commit, from', appended, incoming[1..], x);
        } else if e.index == |kept| + 1 {
          MergedFrom(kept + [e], commit, from', appended + [e], incoming[1..], x);
        }
      }
    }
  }

  /** Whatever the event, forged ones included, an entry of the log was there, came with a request, or enters now. */
  lemma EntryFrom(cfg: Config, s: Node, e: Event, x: Entry)
    requires x in Handle(cfg, s, e).node.log
    ensures x in s.log || (e.Deliver? && Bears(e.message, x)) || Enters(cfg, s, e, x)
  {
    hide HandleMessage, CommitTarget, Suffix, TermOr0, AppendsFor;
    if e.Deliver? {
      MessageBrings(cfg, s, e.message, x);
    }
  }

  lemma MessageBrings(cfg: Config, s: Node, m: Message, x: Entry)
    ensures var o := HandleMessage(cfg, s, m, NO_EFFECTS);
            && (x in o.node.log ==> x in s.log || Bears(m, x) || IsNoop(x))
            && (o.Done? && x in o.fx.entries ==> Bears(m, x) || IsNoop(x))
  {
    hide MergeEntries, BecomeLeader, HandleAppendResponse;
    var b := if m.term > s.term then BecomeFollower(s, m.term, None, NO_EFFECTS) else Done(s, NO_EFFECTS);
    match m.body {
      case VoteResponse(_) => VictoryBrings(cfg, b.node.(votes := b.node.votes + {m.from}), b.fx);
      case AppendResponse(_, _, _) => ResponseBrings(cfg, b.node, m, b.fx);
      case AppendRequest(_, _, _, _) =>
        MergedFrom(s.log, s.commit, None, [], m.body.entries, x);
        AppendedFrom(s.log, s.commit, None, [], m.body.entries, x);
      case VoteRequest(_, _) =>
    }
  }

  lemma VictoryBrings(cfg: Config, s: Node, fx: Effects)
    ensures var o := BecomeLeader(cfg, s, fx); var noop := LocalEntry(s, Noop, [], None);
            && o.node.log == s.log + [noop] && IsNoop(noop) && (o.Done? ==> o.fx.entries == fx.entries + [noop])
  {
    hide CommitTarget, AppendsFor;
  }

  lemma ResponseBrings(cfg: Config, s: Node, m: Message, fx: Effects)
    requires m.body.AppendResponse?
    ensures var o := HandleAppendResponse(cfg, s, m, fx); o.node.log == s.log && (o.Done? ==> o.fx.entries == fx.entries)
  {
    hide CommitTarget, AppendsFor, AppendFor;
  }

  lemma SentFromLog(cfg: Config, s: Node, e: Event, m: Message, x: Entry)
    requires var o := Handle(cfg, s, e); o.Done? && m in o.fx.messages && Bears(m, x)
    ensures x in Handle(cfg, s, e).node.log
  {
    hide Handle;
    EventShips(cfg, s, e);
    assert Ships(Handle(cfg, s, e).node, m);
  }

  /** Entry x is in a log of the run's state, or on its way in a request. */
  ghost predicate Held(en: Ensemble, c: Cluster, x: Entry) {
    || (exists i :: i in en.members && i in c.nodes && x in c.nodes[i].log)
    || (exists m :: m in c.net && Bears(m, x))
  }

  /** Step j of the run is node y, leading, taking the proposal that x stands for. */
  ghost predicate ProposedAt(en: Ensemble, run: seq<Cluster>, j: nat, y: NodeId, id: string, x: Entry) {
    && j + 1 < |run| && Member(en, run, j, y) && Leads(run, j, y)
    && NodeStep(en, run[j], run[j + 1], y, Propose(id, x.payload)) && WithinLimits(ConfigOf(en, y), id, x.payload)
    && x == ProposedEntry(run[j].nodes[y], id, x.payload)
  }

  /**
   Every entry ever in a log or in a request, other than a leader's no-op, is a proposal, with its ID and
   bytes, taken at an earlier step by the node leading the entry's term, at the end of its log.
   */
  lemma {:induction false} EntryWasProposed(en: Ensemble, run: seq<Cluster>, k: nat, x: Entry)
    returns (j: nat, y: NodeId, id: string)
    requires IsRun(en, run) && k < |run| && Held(en, run[k], x) && !IsNoop(x)
    ensures j < k && ProposedAt(en, run, j, y, id, x)
    decreases k
  {
    hide Handle, Bears, ProposedEntry;
    if k == 0 {
      NothingHeld(en, run[0], x);
    } else {
      assert Next(en, run[k - 1], run[k]);
      if Held(en, run[k - 1], x) {
        j, y, id := EntryWasProposed(en, run, k - 1, x);
      } else {
        j := k - 1;
        y, id := JustProposed(en, run[k - 1], run[k], x);
      }
    }
  }

  lemma NothingHeld(en: Ensemble, c: Cluster, x: Entry)
    requires Init(en, c)
    ensures !Held(en, c, x)
  {
  }

  lemma JustProposed(en: Ensemble, c: Cluster, c': Cluster, x: Entry) returns (y: NodeId, id: string)
    requires Next(en, c, c') && Held(en, c', x) && !Held(en, c, x) && !IsNoop(x)
    ensures y in en.members && y in c.nodes && c.nodes[y].role == Leader
    ensures NodeStep(en, c, c', y, Propose(id, x.payload)) && WithinLimits(ConfigOf(en, y), id, x.payload)
    ensures x == ProposedEntry(c.nodes[y], id, x.payload)
  {
    hide Handle, Bears;
    RestartsHoldSame(en, c, c', x);
    var e: Event;
    y, e :| NodeStep(en, c, c', y, e);
    var cfg, s := ConfigOf(en, y), c.nodes[y];
    var o := Handle(cfg, s, e);
    if m :| m in c'.net && Bears(m, x) {
      SentFromLog(cfg, s, e, m, x);
    }
    assert x in o.node.log;
    EntryFrom(cfg, s, e, x);
    id := e.commandId;
  }

  lemma RestartsHoldSame(en: Ensemble, c: Cluster, c': Cluster, x: Entry)
    requires Held(en, c', x) && !Held(en, c, x)
    ensures !(exists i: NodeId :: RestartStep(en, c, c', i))
  {
  }

  // ----- The same over the whole runtime -----

  /** What a live node has in memory: its log, and the batch in hand. */
  ghost predicate InMemory<M>(l: Live<M>, x: Entry) {
    || x in l.core.node.log
    || (l.core.outstanding.Some? && var r := l.core.outstanding.value;
                                     x in r.unstable || exists m :: m in r.messages && Bears(m, x))
  }

  ghost predicate AtNode<M>(sys: System<M>, i: NodeId, x: Entry) {
    || (i in sys.stores && x in sys.stores[i].entries)
    || (i in sys.procs && sys.procs[i].Up? && InMemory(sys.procs[i].live, x))
  }

  ghost predicate InQueue(n: Network, x: Entry) {
    exists p :: p in n.queue && Bears(p.message, x)
  }

  /** Entry x is anywhere in the system: in a store, in memory, or in the queue. */
  ghost predicate Anywhere<M>(sys: System<M>, x: Entry) {
    (exists i :: AtNode(sys, i, x)) || InQueue(sys.net, x)
  }

  /** What a step reports as appended came with the request, or enters now. */
  lemma EffectFrom(cfg: Config, s: Node, e: Event, x: Entry)
    requires var o := Handle(cfg, s, e); o.Done? && x in o.fx.entries
    ensures (e.Deliver? && Bears(e.message, x)) || Enters(cfg, s, e, x)
  {
    hide HandleMessage, CommitTarget, Suffix, TermOr0, AppendsFor;
    if e.Deliver? {
      MessageBrings(cfg, s, e.message, x);
    }
  }

  lemma {:induction false} AppendedFrom(log: seq<Entry>, commit: nat, from: Option<nat>, appended: seq<Entry>,
                                        incoming: seq<Entry>, x: Entry)
    ensures var r := MergeEntries(log, commit, from, appended, incoming);
            r.Merged? && x in r.appended ==> x in appended || x in incoming
    decreases |incoming|
  {
    if incoming != [] {
      var e := incoming[0];
      var existing := EntryAt(log, e.index);
      var conflict := existing.Some? && existing.value.term != e.term;
      if !(conflict && e.index <= commit) {
        var kept := if conflict then log[..e.index - 1] else log;
        var from' := if conflict then Some(e.index) else from;
        if existing.Some? && !conflict {
          AppendedFrom(kept, commit, from', appended, incoming[1..], x);
        } else if e.index == |kept| + 1 {
          AppendedFrom(kept + [e], commit, from', appended + [e], incoming[1..], x);
        }
      }
    }
  }

  lemma BegunFrom<M>(l: Live<M>, e: Event, x: Entry)
    requires InMemory(Begun(l, e), x)
    ensures InMemory(l, x) || (e.Deliver? && Bears(e.message, x)) || Enters(l.core.cfg, l.core.node, e, x)
  {
    hide Handle, Bears, Enters;
    var cfg, s := l.core.cfg, l.core.node;
    var o := Handle(cfg, s, e);
    if l.core.outstanding == None {
      if o.Done? && x in o.fx.entries {
        EffectFrom(cfg, s, e, x);
      } else {
        if o.Done? && exists m :: m in o.fx.messages && Bears(m, x) {
          var m :| m in o.fx.messages && Bears(m, x);
          SentFromLog(cfg, s, e, m, x);
        }
        EntryFrom(cfg, s, e, x);
      }
    }
  }

  lemma {:induction false} PushedFrom(entries: seq<Entry>, boundary: nat, more: seq<Entry>, x: Entry)
    requires Pushed(entries, boundary, more).Some? && x in Pushed(entries, boundary, more).value
    ensures x in entries || x in more
    decreases |more|
  {
    if more != [] {
      PushedFrom(entries + [more[0]], boundary, more[1..], x);
    }
  }

  lemma {:induction false} PoppedFrom(entries: seq<Entry>, from: nat, x: Entry)
    requires x in Popped(entries, from)
    ensures x in entries
    decreases |entries|
  {
    if entries != [] && entries[|entries| - 1].index >= from {
      PoppedFrom(entries[..|entries| - 1], from, x);
    }
  }

  lemma PersistFrom(s: Store, b: Batch, x: Entry)
    requires x in PersistDurable(s, b).store.entries
    ensures x in s.entries || x in b.entries
  {
    hide LastStored, VotesTwice;
    if PersistDurable(s, b).Stored? {
      PushedFrom(CutFor(s, b), Boundary(s.snapshot), b.entries, x);
      if b.truncateFrom.Some? && x in CutFor(s, b) {
        PoppedFrom(s.entries, b.truncateFrom.value, x);
      }
    }
  }

  lemma WorkFrom<M>(app: App<M>, s: Scene<M>, d: bool, x: Entry)
    requires Busy(s.live)
    requires var t := Continued(app, s, d); InMemory(t.live, x) || x in t.store.entries || InQueue(t.net, x)
    ensures InMemory(s.live, x) || x in s.store.entries || InQueue(s.net, x)
  {
    hide PersistDurable, Bears;
    var t := Continued(app, s, d);
    var r := s.live.core.outstanding.value;
    if x in t.store.entries && t.store != s.store {
      match s.live.phase {
        case Saving(_) => PersistFrom(s.store, ReadyBatch(r), x);
        case Applying(k) => PersistFrom(s.store, AppliedBatch(r.committed[k].index), x);
        case _ =>
      }
    }
  }

  lemma RecoverFrom<M>(app: App<M>, cfg: Config, store: Store, x: Entry)
    requires var r := Recover(app, cfg, store); x in r.store.entries || (r.Reopened? && InMemory(r.live, x))
    ensures x in store.entries
  {
    hide Fold, PersistDurable;
    if x in PersistDurable(store, AppliedBatch(store.hard.commit)).store.entries {
      PersistFrom(store, AppliedBatch(store.hard.commit), x);
    }
  }

  lemma ShapedFrom(n: Network, op: NetOp, x: Entry)
    requires !op.Send? && InQueue(ApplyNet(n, op), x)
    ensures InQueue(n, x)
  {
    hide Bears;
    var n' := ApplyNet(n, op);
    var p :| p in n'.queue && Bears(p.message, x);
    match op {
      case Deliver(index) =>
      case Drop(index) =>
      case Duplicate(index) =>
        if index < |n.queue| {
          assert n.queue[index] in n.queue;
        }
      case Reorder =>
        var k :| 0 <= k < |n'.queue| && n'.queue[k] == p;
        assert n.queue[|n.queue| - 1 - k] in n.queue;
      case _ =>
    }
  }

  /** The call that proposes x to the leading node y. */
  ghost predicate Calls<M>(en: Ensemble, sys: System<M>, sys': System<M>, y: NodeId, id: string, x: Entry) {
    && IsUp(en, sys, y) && CallStep(en, sys, sys', y, Propose(id, x.payload))
    && var s := sys.procs[y].live.core.node;
       s.role == Leader && WithinLimits(ConfigOf(en, y), id, x.payload) && x == ProposedEntry(s, id, x.payload)
  }

  ghost predicate Configured<M>(en: Ensemble, sys: System<M>) {
    forall i :: IsUp(en, sys, i) ==> sys.procs[i].live.core.cfg == ConfigOf(en, i)
  }

  lemma CallFrom<M>(en: Ensemble, sys: System<M>, sys': System<M>, i: NodeId, e: Event, x: Entry)
    requires CallStep(en, sys, sys', i, e) && Configured(en, sys)
    requires Anywhere(sys', x) && !Anywhere(sys, x) && !IsNoop(x)
    ensures e.Propose? && Calls(en, sys, sys', i, e.commandId, x)
  {
    hide Begun, InMemory, InQueue;
    var l := sys.procs[i].live;
    var j :| AtNode(sys', j, x);
    assert !AtNode(sys, j, x) && !AtNode(sys, i, x);
    BegunFrom(l, e, x);
  }

  lemma DeliverFrom<M>(en: Ensemble, sys: System<M>, sys': System<M>, index: nat, x: Entry)
    requires DeliverStep(en, sys, sys', index) && Anywhere(sys', x) && !IsNoop(x)
    ensures Anywhere(sys, x)
  {
    hide Begun, InMemory, Bears;
    var m := sys.net.queue[index].message;
    assert sys.net.queue[index] in sys.net.queue;
    if InQueue(sys'.net, x) {
      ShapedFrom(sys.net, NetOp.Drop(index), x);
    } else {
      var j :| AtNode(sys', j, x);
      if !AtNode(sys, j, x) {
        BegunFrom(sys.procs[m.to].live, Event.Deliver(m), x);
      }
    }
  }

  lemma WorkBringsNothing<M>(en: Ensemble, app: App<M>, sys: System<M>, sys': System<M>, i: NodeId, d: bool, x: Entry)
    requires WorkStep(en, app, sys, sys', i, d) && Anywhere(sys', x)
    ensures Anywhere(sys, x)
  {
    hide Continued, InMemory, InQueue;
    assert AtNode(sys, i, x) <==> InMemory(sys.procs[i].live, x) || x in sys.stores[i].entries;
    if !InQueue(sys'.net, x) {
      var j :| AtNode(sys', j, x);
      if j == i {
        WorkFrom(app, Scene(sys.procs[i].live, sys.stores[i], sys.net), d, x);
      } else {
        assert AtNode(sys, j, x);
      }
    } else {
      WorkFrom(app, Scene(sys.procs[i].live, sys.stores[i], sys.net), d, x);
    }
  }

  lemma TestsBringNothing<M>(en: Ensemble, app: App<M>, sys: System<M>, sys': System<M>, i: NodeId, x: Entry)
    requires CrashStep(en, sys, sys', i) || StartStep(en, app, sys, sys', i) || ArmStep(en, sys, sys', i)
    requires Anywhere(sys', x)
    ensures Anywhere(sys, x)
  {
    hide Recover, InMemory, Bears;
    if !InQueue(sys'.net, x) {
      var j :| AtNode(sys', j, x);
      if !AtNode(sys, j, x) && StartStep(en, app, sys, sys', i) {
        RecoverFrom(app, ConfigOf(en, i), sys.stores[i], x);
      }
      assert AtNode(sys, j, x);
    }
  }

  lemma ShapeBringsNothing<M>(sys: System<M>, sys': System<M>, op: NetOp, x: Entry)
    requires NetworkStep(sys, sys', op) && Anywhere(sys', x)
    ensures Anywhere(sys, x)
  {
    hide InMemory, ApplyNet, InQueue;
    if InQueue(sys'.net, x) {
      ShapedFrom(sys.net, op, x);
    } else {
      var j :| AtNode(sys', j, x);
      assert AtNode(sys, j, x);
    }
  }

  /** One step of the runtime: an entry that is new to the system is being proposed by this very step. */
  lemma StepFrom<M>(en: Ensemble, app: App<M>, sys: System<M>, sys': System<M>, x: Entry) returns (y: NodeId, id: string)
    requires SysNext(en, app, sys, sys') && Configured(en, sys)
    requires Anywhere(sys', x) && !Anywhere(sys, x) && !IsNoop(x)
    ensures Calls(en, sys, sys', y, id, x)
  {
    hide Anywhere, CallStep, DeliverStep, WorkStep, CrashStep, StartStep, ArmStep, NetworkStep, Configured, Calls;
    if index: nat :| DeliverStep(en, sys, sys', index) {
      DeliverFrom(en, sys, sys', index, x);
    } else if i: NodeId, d: bool :| WorkStep(en, app, sys, sys', i, d) {
      WorkBringsNothing(en, app, sys, sys', i, d, x);
    } else if op: NetOp :| NetworkStep(sys, sys', op) {
      ShapeBringsNothing(sys, sys', op, x);
    } else if i: NodeId :| CrashStep(en, sys, sys', i) || StartStep(en, app, sys, sys', i) || ArmStep(en, sys, sys', i) {
      TestsBringNothing(en, app, sys, sys', i, x);
    } else {
      var e: Event;
      y, e :| CallStep(en, sys, sys', y, e);
      CallFrom(en, sys, sys', y, e, x);
      id := e.commandId;
    }
  }

  lemma RunIsConfigured<M>(en: Ensemble, app: App<M>, srun: seq<System<M>>, run: seq<Cluster>, k: nat)
    requires Mirrors(en, app, srun, run) && k < |srun|
    ensures Configured(en, srun[k])
  {
    hide CoreInv, PhaseRel, Holds;
    forall i | IsUp(en, srun[k], i) ensures srun[k].procs[i].live.core.cfg == ConfigOf(en, i) {
      assert Related(en, app, srun[k], run[k], i);
    }
  }

  /**
   Every entry anywhere in the runtime, in a store, in memory, in a batch or in the queue, other than a
   leader's no-op, was proposed: an earlier call brought its ID and bytes to the node whose engine led the
   entry's term, and put it at the end of that engine's log.
   */
  lemma {:induction false} EveryCommandWasProposed<M>(en: Ensemble, app: App<M>, srun: seq<System<M>>, k: nat, x: Entry)
    returns (j: nat, y: NodeId, id: string)
    requires IsSysRun(en, app, srun) && k < |srun| && Anywhere(srun[k], x) && !IsNoop(x)
    ensures j < k && Calls(en, srun[j], srun[j + 1], y, id, x)
    decreases k
  {
    hide SysNext, Calls, Configured, AtNode, InQueue;
    if k == 0 {
      NothingAnywhere(en, srun[0], x);
    } else {
      assert SysNext(en, app, srun[k - 1], srun[k]);
      if Anywhere(srun[k - 1], x) {
        j, y, id := EveryCommandWasProposed(en, app, srun, k - 1, x);
      } else {
        var run := RuntimeIsCluster(en, app, srun);
        RunIsConfigured(en, app, srun, run, k - 1);
        j := k - 1;
        y, id := StepFrom(en, app, srun[k - 1], srun[k], x);
      }
    }
  }

  lemma NothingAnywhere<M>(en: Ensemble, sys: System<M>, x: Entry)
    requires SysInit(en, sys)
    ensures !Anywhere(sys, x)
  {
  }
}
