/**
 The checks the test cluster runs after every operation, as predicates on what it can see, and when
 they can fail: never on a run whose live nodes have finished their work.
 */
module Audits {
  import opened RaftTypes
  import opened Logs
  import opened Protocol
  import opened NodeFacts
  import opened CoreSpec
  import opened RaftCoreClass
  import opened Stores
  import opened Histories
  import opened Clusters
  import opened SafetyTheorems
  import opened Runtime
  import opened ReadyRefinement
  import opened RuntimeRefinement
  import opened RuntimeTheorems
  import opened Origins

  /** The term, commit index and applied index last seen at each member. */
  datatype Marks = Marks(terms: map<NodeId, nat>, commits: map<NodeId, nat>, applied: map<NodeId, nat>)

  function MarkOf(m: map<NodeId, nat>, i: NodeId): nat {
    if i in m then m[i] else 0
  }

  /** A status has not gone back, and its indexes are in order. */
  predicate StatusFits(marks: Marks, i: NodeId, c: Core) {
    && MarkOf(marks.terms, i) <= c.node.term
    && MarkOf(marks.commits, i) <= c.node.commit
    && MarkOf(marks.applied, i) <= c.applied <= c.node.commit <= LastIndex(c.node.log)
  }

  ghost predicate StatusesFit<M>(marks: Marks, live: map<NodeId, Live<M>>) {
    forall i :: i in live ==> StatusFits(marks, i, live[i].core)
  }

  predicate Leading<M>(l: Live<M>, t: nat) {
    l.core.node.role == Leader && l.core.node.term == t
  }

  ghost predicate OneLeaderEach<M>(live: map<NodeId, Live<M>>) {
    forall i, j ::
      i in live && j in live && live[i].core.node.role == Leader && Leading(live[j], live[i].core.node.term) ==> i == j
  }

  /** What two copies of a committed entry must share. */
  datatype Fingerprint = Fingerprint(term: nat, kind: EntryKind, id: string, payload: seq<byte>)

  function FingerprintOf(e: Entry): Fingerprint {
    Fingerprint(e.term, e.kind, if e.commandId.Some? then e.commandId.value else "", e.payload)
  }

  /** The command ID a leader accepts is never empty. */
  predicate ProperId(e: Entry) {
    if e.kind == Command then e.commandId.Some? && e.commandId.value != "" else e.commandId == None
  }

  /** Entries at one index have one fingerprint exactly when they are the same entry, payload and ID included. */
  lemma FingerprintsExact(e: Entry, f: Entry)
    requires ProperId(e) && ProperId(f)
    ensures FingerprintOf(e) == FingerprintOf(f) <==> e == f.(index := e.index)
  {
  }

  datatype Claim = Claim(index: nat, fingerprint: Fingerprint)

  /** So for any two entries in a state of a run, what is compared decides whether they are the same. */
  lemma ClaimsTell<M>(en: Ensemble, app: App<M>, srun: seq<System<M>>, k: nat, e: Entry, f: Entry)
    requires IsSysRun(en, app, srun) && k < |srun| && Anywhere(srun[k], e) && Anywhere(srun[k], f)
    ensures ClaimOf(e) == ClaimOf(f) <==> e == f
  {
    hide IsSysRun, Anywhere, CallStep;
    EntryIsProper(en, app, srun, k, e);
    EntryIsProper(en, app, srun, k, f);
    FingerprintsExact(e, f);
  }

  lemma EntryIsProper<M>(en: Ensemble, app: App<M>, srun: seq<System<M>>, k: nat, x: Entry)
    requires IsSysRun(en, app, srun) && k < |srun| && Anywhere(srun[k], x)
    ensures ProperId(x)
  {
    hide IsSysRun, Anywhere, CallStep;
    if !IsNoop(x) {
      var j, y, id := EveryCommandWasProposed(en, app, srun, k, x);
    }
  }

  function ClaimOf(e: Entry): Claim {
    Claim(e.index, FingerprintOf(e))
  }

  /** What a store says is committed. */
  ghost function Claims(store: Store, n: nat): set<Claim>
    requires n <= |store.entries|
  {
    set e | e in store.entries[..n] && e.index <= store.hard.commit :: ClaimOf(e)
  }

  ghost predicate Compatible(claims: set<Claim>) {
    forall c, d :: c in claims && d in claims && c.index == d.index ==> c == d
  }

  ghost function AllClaims(stores: map<NodeId, Store>, members: seq<NodeId>): set<Claim>
    requires forall i :: i in members ==> i in stores
  {
    if members == [] then {}
    else
      var last := |members| - 1;
      AllClaims(stores, members[..last]) + Claims(stores[members[last]], |stores[members[last]].entries|)
  }

  ghost predicate StoresFit(stores: map<NodeId, Store>, members: seq<NodeId>) {
    && (forall i :: i in members ==> i in stores && RunsFrom(stores[i].entries, Boundary(stores[i].snapshot) + 1))
    && Compatible(AllClaims(stores, members))
  }

  predicate CaughtUp<M>(l: Live<M>) {
    l.core.applied == l.core.node.commit
  }

  /** Of the caught-up nodes, those that have applied most hash alike. */
  ghost predicate MachinesFit<M>(live: map<NodeId, Live<M>>, hash: M -> string) {
    forall i, j ::
      i in live && j in live && Foremost(live, i) && Foremost(live, j) ==> hash(live[i].machine) == hash(live[j].machine)
  }

  ghost predicate Foremost<M>(live: map<NodeId, Live<M>>, i: NodeId)
    requires i in live
  {
    CaughtUp(live[i]) && forall j :: j in live && CaughtUp(live[j]) ==> live[j].core.applied <= live[i].core.applied
  }

  ghost predicate Acceptable<M>(members: seq<NodeId>, live: map<NodeId, Live<M>>, stores: map<NodeId, Store>, marks: Marks,
                                hash: Option<M -> string>) {
    && StatusesFit(marks, live) && OneLeaderEach(live) && StoresFit(stores, members)
    && (hash.Some? ==> MachinesFit(live, hash.value))
  }

  // ----- When the audit can fail -----

  function LiveOf<M>(en: Ensemble, sys: System<M>): map<NodeId, Live<M>> {
    map i | i in en.members && i in sys.procs && sys.procs[i].Up? :: sys.procs[i].live
  }

  /** Every live node has finished its work. */
  ghost predicate AllIdle<M>(en: Ensemble, srun: seq<System<M>>, k: nat) {
    forall i :: LiveAt(en, srun, k, i) ==> srun[k].procs[i].live.phase == Idle
  }

  ghost predicate MarkedAt<M>(en: Ensemble, srun: seq<System<M>>, j: nat, i: NodeId, marks: Marks) {
    && LiveAt(en, srun, j, i) && srun[j].procs[i].live.phase == Idle
    && var c := srun[j].procs[i].live.core;
       && MarkOf(marks.terms, i) == c.node.term && MarkOf(marks.commits, i) == c.node.commit
       && MarkOf(marks.applied, i) == c.applied
  }

  /** Every mark is of a node as it was idle at some time up to k, or there is none. */
  ghost predicate TakenIdle<M>(en: Ensemble, srun: seq<System<M>>, k: nat, marks: Marks) {
    forall i {:trigger MarkOf(marks.terms, i)} :: i in en.members ==>
      || (MarkOf(marks.terms, i) == 0 && MarkOf(marks.commits, i) == 0 && MarkOf(marks.applied, i) == 0)
      || exists j: nat :: j <= k && MarkedAt(en, srun, j, i, marks)
  }

  lemma IdleFacts<M>(en: Ensemble, app: App<M>, srun: seq<System<M>>, run: seq<Cluster>, k: nat, i: NodeId)
    requires Mirrors(en, app, srun, run) && LiveAt(en, srun, k, i) && srun[k].procs[i].live.phase == Idle
    ensures Member(en, run, k, i)
    ensures var c := srun[k].procs[i].live.core;
            c.node == run[k].nodes[i] && c.applied == c.node.commit <= LastIndex(c.node.log)
  {
    assert Related(en, app, srun[k], run[k], i);
    LastInLog(srun[k].procs[i].live.core.node.log);
  }

  lemma StatusNeverFalls<M>(en: Ensemble, app: App<M>, srun: seq<System<M>>, run: seq<Cluster>, k: nat, marks: Marks, i: NodeId)
    requires Mirrors(en, app, srun, run) && LiveAt(en, srun, k, i) && srun[k].procs[i].live.phase == Idle
    requires TakenIdle(en, srun, k, marks)
    ensures StatusFits(marks, i, srun[k].procs[i].live.core)
  {
    IdleFacts(en, app, srun, run, k, i);
    if MarkOf(marks.terms, i) != 0 || MarkOf(marks.commits, i) != 0 || MarkOf(marks.applied, i) != 0 {
      var j: nat :| j <= k && MarkedAt(en, srun, j, i, marks);
      IdleFacts(en, app, srun, run, j, i);
      NothingGoesBack(en, run, j, k, i);
    }
  }

  lemma {:induction false} ClaimSource(stores: map<NodeId, Store>, members: seq<NodeId>, c: Claim) returns (i: NodeId, e: Entry)
    requires (forall i :: i in members ==> i in stores) && c in AllClaims(stores, members)
    ensures i in members && e in stores[i].entries && e.index <= stores[i].hard.commit && c == ClaimOf(e)
    decreases |members|
  {
    var last := |members| - 1;
    var store := stores[members[last]];
    if c in Claims(store, |store.entries|) {
      i := members[last];
      e :| e in store.entries[..|store.entries|] && e.index <= store.hard.commit && ClaimOf(e) == c;
    } else {
      i, e := ClaimSource(stores, members[..last], c);
    }
  }

  lemma StoresAlwaysFit<M>(en: Ensemble, app: App<M>, srun: seq<System<M>>, run: seq<Cluster>, k: nat)
    requires IsSysRun(en, app, srun) && Mirrors(en, app, srun, run) && k < |srun|
    ensures StoresFit(srun[k].stores, en.members)
  {
    var stores := srun[k].stores;
    var hs := RunInv(en, run);
    forall i | i in en.members ensures i in stores && RunsFrom(stores[i].entries, Boundary(stores[i].snapshot) + 1) {
      StoreAt(en, app, srun, run, hs, k, i);
    }
    forall c, d | c in AllClaims(stores, en.members) && d in AllClaims(stores, en.members) && c.index == d.index ensures c == d {
      var x, e := ClaimSource(stores, en.members, c);
      var y, f := ClaimSource(stores, en.members, d);
      StoreAt(en, app, srun, run, hs, k, x);
      StoreAt(en, app, srun, run, hs, k, y);
      StateMachineSafety(en, run, k, k, x, y, e.index);
    }
  }

  lemma StoreAt<M>(en: Ensemble, app: App<M>, srun: seq<System<M>>, run: seq<Cluster>, hs: seq<History>, k: nat, i: NodeId)
    requires Mirrors(en, app, srun, run) && Explains(en, run, hs) && k < |srun| && i in en.members
    ensures HasMember(en, srun, k, i) && Member(en, run, k, i) && Holds(srun[k].stores[i], run[k].nodes[i])
    ensures RunsFrom(srun[k].stores[i].entries, 1) && Boundary(srun[k].stores[i].snapshot) == 0
    ensures forall e :: e in srun[k].stores[i].entries ==>
              1 <= e.index <= |run[k].nodes[i].log| && run[k].nodes[i].log[e.index - 1] == e
  {
    hide PhaseRel, CoreInv, HistoryInv, ValidLog, Committed, TermsBounded, VoteRecorded, CandidateInv, LeaderInv, RunsFrom;
    assert Related(en, app, srun[k], run[k], i) && Inv(en, run[k], hs[k]);
    assert NodeInv(en, hs[k], i, run[k].nodes[i]);
    PositionsAreIndexes(run[k].nodes[i].log);
  }

  lemma PositionsAreIndexes(log: seq<Entry>)
    requires Contiguous(log)
    ensures RunsFrom(log, 1)
    ensures forall e :: e in log ==> 1 <= e.index <= |log| && log[e.index - 1] == e
  {
  }

  /** A node whose engine has nothing left to apply shows what the store has committed, and has applied all of it. */
  lemma CaughtUpFolds<M>(en: Ensemble, app: App<M>, i: NodeId, l: Live<M>, store: Store, c: Cluster, h: History)
    requires Inv(en, c, h) && i in en.members && LiveRel(en, app, i, l, store, c.nodes[i], c.net) && CaughtUp(l)
    ensures l.core.applied == c.nodes[i].commit && Folded(app, c.nodes[i].log, c.nodes[i].commit, l.machine)
  {
    hide HistoryInv, NodeInv, WellFormed, Fold, Handle;
    var a := c.nodes[i];
    if Unsettled(l) {
      var e := if l.phase.Saving? then l.phase.event else l.phase.unsaved.value;
      PossibleIsHonest(en, c, h, i, e);
      assert NodeInv(en, h, i, a);
      InvIsWellFormed(en, h, i, a);
      EventSound(ConfigOf(en, i), a, e);
      assert l.core.node.log[..a.commit] == a.log[..a.commit];
    }
  }

  /** Caught-up nodes that have applied equally many entries have equal machines, at any moment. */
  lemma CaughtUpAgree<M>(en: Ensemble, app: App<M>, srun: seq<System<M>>, run: seq<Cluster>, hs: seq<History>, k: nat,
                         i: NodeId, j: NodeId)
    requires Mirrors(en, app, srun, run) && Explains(en, run, hs) && LiveAt(en, srun, k, i) && LiveAt(en, srun, k, j)
    requires var a, b := srun[k].procs[i].live, srun[k].procs[j].live;
             CaughtUp(a) && CaughtUp(b) && a.core.applied == b.core.applied
    ensures srun[k].procs[i].live.machine == srun[k].procs[j].live.machine
  {
    hide HistoryInv, NodeInv, LiveRel, Fold;
    assert Inv(en, run[k], hs[k]) && Related(en, app, srun[k], run[k], i) && Related(en, app, srun[k], run[k], j);
    CaughtUpFolds(en, app, i, srun[k].procs[i].live, srun[k].stores[i], run[k], hs[k]);
    CaughtUpFolds(en, app, j, srun[k].procs[j].live, srun[k].stores[j], run[k], hs[k]);
    SameAppliedPrefix(en, run, k, k, i, j, srun[k].procs[i].live.core.applied);
  }

  /**
   At any moment of any run of the runtime, between any two small steps, the audit accepts exactly when
   no live node's status has gone back behind its mark: leaders, stores and machines always fit.
   */
  lemma AuditExactly<M>(en: Ensemble, app: App<M>, srun: seq<System<M>>, k: nat, marks: Marks, hash: Option<M -> string>)
    requires IsSysRun(en, app, srun) && k < |srun|
    ensures Acceptable(en.members, LiveOf(en, srun[k]), srun[k].stores, marks, hash) <==> StatusesFit(marks, LiveOf(en, srun[k]))
  {
    hide SysNext, SysInit, StatusesFit, StoresFit, SysRel, Next;
    var run := RuntimeIsCluster(en, app, srun);
    var hs := RunInv(en, run);
    var live := LiveOf(en, srun[k]);
    StoresAlwaysFit(en, app, srun, run, k);
    forall i | i in live ensures LiveAt(en, srun, k, i) && live[i] == srun[k].procs[i].live {
      StoreOf(en, app, srun, run, k, i);
    }
    forall i, j | i in live && j in live && live[i].core.node.role == Leader && Leading(live[j], live[i].core.node.term)
      ensures i == j
    {
      RuntimeElectionSafety(en, app, srun, k, k, i, j);
    }
    if hash.Some? {
      forall i, j | i in live && j in live && Foremost(live, i) && Foremost(live, j)
        ensures hash.value(live[i].machine) == hash.value(live[j].machine)
      {
        CaughtUpAgree(en, app, srun, run, hs, k, i, j);
      }
    }
  }

  /**
   On any run of the runtime, injected failures and crashes included, the audit accepts whenever the
   live nodes have finished their work, now and when the marks were taken.
   */
  lemma AuditAccepts<M>(en: Ensemble, app: App<M>, srun: seq<System<M>>, k: nat, marks: Marks, hash: Option<M -> string>)
    requires IsSysRun(en, app, srun) && k < |srun| && AllIdle(en, srun, k) && TakenIdle(en, srun, k, marks)
    ensures Acceptable(en.members, LiveOf(en, srun[k]), srun[k].stores, marks, hash)
  {
    hide SysNext, SysInit, StatusFits, Acceptable;
    var run := RuntimeIsCluster(en, app, srun);
    var live := LiveOf(en, srun[k]);
    forall i | i in live ensures StatusFits(marks, i, live[i].core) {
      StoreOf(en, app, srun, run, k, i);
      StatusNeverFalls(en, app, srun, run, k, marks, i);
    }
    AuditExactly(en, app, srun, k, marks, hash);
  }

  /** The batch in hand would raise the durable term or commit index. */
  predicate Raises<M>(l: Live<M>, store: Store) {
    && l.core.outstanding.Some? && l.core.outstanding.value.hardState.Some?
    && var hard := l.core.outstanding.value.hardState.value; hard.term > store.hard.term || hard.commit > store.hard.commit
  }

  function MarksOf(i: NodeId, c: Core): Marks {
    Marks(map[i := c.node.term], map[i := c.node.commit], map[i := c.applied])
  }

  /** Node i is down from k + 1 to j. */
  ghost predicate DownBetween<M>(srun: seq<System<M>>, k: nat, j: nat, i: NodeId) {
    j < |srun| && forall n :: k < n <= j ==> i in srun[n].procs && srun[n].procs[i].Down?
  }

  /** While a node is down no step touches what its store has saved. */
  lemma DownKeepsStore<M>(en: Ensemble, app: App<M>, sys: System<M>, sys': System<M>, i: NodeId)
    requires SysNext(en, app, sys, sys') && i in sys.procs && sys.procs[i].Down? && i in sys.stores
    requires i in sys'.procs && sys'.procs[i].Down?
    ensures i in sys'.stores && sys'.stores[i].hard == sys.stores[i].hard
  {
    hide Continued, Begun, StepCore, Fold, NextEntries, Broken, Opened;
  }

  lemma {:induction false} DownKeepsHard<M>(en: Ensemble, app: App<M>, srun: seq<System<M>>, k: nat, j: nat, i: NodeId)
    requires IsSysRun(en, app, srun) && k < j && DownBetween(srun, k, j, i) && i in srun[k + 1].stores
    ensures i in srun[j].stores && srun[j].stores[i].hard == srun[k + 1].stores[i].hard
    decreases j
  {
    hide SysNext, SysInit;
    if k + 1 < j {
      DownKeepsHard(en, app, srun, k, j - 1, i);
      assert SysNext(en, app, srun[j - 1], srun[j]);
      DownKeepsStore(en, app, srun[j - 1], srun[j], i);
    }
  }

  /**
   A node crashes and starts again, at any later moment and with anything happening elsewhere in between.
   The audit then finds its status gone back exactly when its marks were taken while a batch that raises
   its term or commit index was not yet saved.
   */
  lemma RestartFallsExactly<M>(en: Ensemble, app: App<M>, srun: seq<System<M>>, k: nat, j: nat, i: NodeId)
    requires IsSysRun(en, app, srun) && k < j && j + 1 < |srun| && LiveAt(en, srun, k, i) && LiveAt(en, srun, j + 1, i)
    requires CrashStep(en, srun[k], srun[k + 1], i) && StartStep(en, app, srun[j], srun[j + 1], i)
    requires DownBetween(srun, k, j, i)
    ensures var before, after := srun[k].procs[i].live, srun[j + 1].procs[i].live.core;
            StatusFits(MarksOf(i, before.core), i, after) <==> !(Unsettled(before) && Raises(before, srun[k].stores[i]))
  {
    hide PhaseRel, HistoryInv, StatusFits, LastIndex, Unsettled, Raises, CoreInv, Holds, MarksOf, Fold, SysNext;
    var run := RuntimeIsCluster(en, app, srun);
    var hs := RunInv(en, run);
    var store, l := srun[k].stores[i], srun[k].procs[i].live;
    assert Related(en, app, srun[k], run[k], i) && Inv(en, run[k], hs[k]);
    StatusAgainstStore(en, app, i, l, store, run[k], hs[k]);
    DownKeepsHard(en, app, srun, k, j, i);
    StoreOf(en, app, srun, run, j, i);
    Facts(en, run, hs, j, j, i);
    var a := run[j].nodes[i];
    RecoveredHolds(app, ConfigOf(en, i), srun[j].stores[i], a);
    LastInLog(a.log);
    RecoveredStatus(MarksOf(i, l.core), i, l, srun[j].stores[i], a, srun[j + 1].procs[i].live.core, ConfigOf(en, i));
  }

  lemma RecoveredStatus<M>(marks: Marks, i: NodeId, l: Live<M>, store: Store, a: Node, after: Core, cfg: Config)
    requires marks == MarksOf(i, l.core) && Holds(store, a) && LastIndex(a.log) == |a.log| && a.commit <= |a.log|
    requires after == Opened(cfg, Persisted(Hard(a), a.log, a.commit)) && l.core.applied <= store.hard.commit
    ensures StatusFits(marks, i, after) <==> l.core.node.term <= store.hard.term && l.core.node.commit <= store.hard.commit
  {
    hide LastIndex;
  }

  /** How far a live status can be ahead of its store. */
  lemma StatusAgainstStore<M>(en: Ensemble, app: App<M>, i: NodeId, l: Live<M>, store: Store, c: Cluster, h: History)
    requires Inv(en, c, h) && i in en.members && LiveRel(en, app, i, l, store, c.nodes[i], c.net)
    ensures store.hard.term <= l.core.node.term && store.hard.commit <= l.core.node.commit && l.core.applied <= store.hard.commit
    ensures (store.hard.term < l.core.node.term || store.hard.commit < l.core.node.commit) <==> Unsettled(l) && Raises(l, store)
  {
    hide HistoryInv, NodeInv, WellFormed, Folded, Handle;
    if Unsettled(l) {
      var e := if l.phase.Saving? then l.phase.event else l.phase.unsaved.value;
      PossibleIsHonest(en, c, h, i, e);
      assert NodeInv(en, h, i, c.nodes[i]);
      InvIsWellFormed(en, h, i, c.nodes[i]);
      EventSound(ConfigOf(en, i), c.nodes[i], e);
      BatchTells(c.nodes[i], Handle(ConfigOf(en, i), c.nodes[i], e));
    }
  }

  /** The batch says how the step moved the term and the commit index. */
  lemma BatchTells(s: Node, o: Outcome)
    requires o.Done? && Advances(s, o.node) && Tracks(s, o.node, o.fx)
    ensures s.term <= o.node.term && s.commit <= o.node.commit
    ensures (s.term < o.node.term || s.commit < o.node.commit) <==>
              o.fx.hardState.Some? && (o.fx.hardState.value.term > s.term || o.fx.hardState.value.commit > s.commit)
  {
  }
}
