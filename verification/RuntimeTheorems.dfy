/**
 What every run of the full runtime keeps: stores, machines, queued messages and in-memory leaders,
 under crashes between any two steps and any use of the queue.
 */
module RuntimeTheorems {
  import opened RaftTypes
  import opened Logs
  import opened Protocol
  import opened Quorums
  import opened NodeFacts
  import opened CoreSpec
  import opened Stores
  import opened Networks
  import opened Histories
  import opened Decisions
  import opened NodeSteps
  import opened Handlers
  import opened Clusters
  import opened SafetyTheorems
  import opened Runtime
  import opened Machines
  import opened ReadyRefinement
  import opened RuntimeRefinement

  ghost predicate HasMember<M>(en: Ensemble, srun: seq<System<M>>, k: nat, x: NodeId) {
    k < |srun| && x in en.members && x in srun[k].procs && x in srun[k].stores
  }

  ghost predicate LiveAt<M>(en: Ensemble, srun: seq<System<M>>, k: nat, x: NodeId) {
    HasMember(en, srun, k, x) && srun[k].procs[x].Up?
  }

  /** State Machine Safety on disk: stores never hold different entries below both durable commit indexes. */
  lemma DurableStateMachineSafety<M>(en: Ensemble, app: App<M>, srun: seq<System<M>>, j: nat, k: nat,
                                     x: NodeId, y: NodeId, index: nat)
    requires IsSysRun(en, app, srun) && HasMember(en, srun, j, x) && HasMember(en, srun, k, y)
    requires 1 <= index <= srun[j].stores[x].hard.commit && index <= srun[k].stores[y].hard.commit
    ensures index <= |srun[j].stores[x].entries| && index <= |srun[k].stores[y].entries|
    ensures srun[j].stores[x].entries[index - 1] == srun[k].stores[y].entries[index - 1]
  {
    var run := RuntimeIsCluster(en, app, srun);
    assert Related(en, app, srun[j], run[j], x) && Related(en, app, srun[k], run[k], y);
    StateMachineSafety(en, run, j, k, x, y, index);
  }

  ghost function StoredBy(en: Ensemble, stores: map<NodeId, Store>, prefix: seq<Entry>): set<NodeId> {
    set v | v in en.members && v in stores && prefix <= stores[v].entries
  }

  /**
   Durability: what any store has ever recorded as committed is in the stores of a majority at every later
   moment, whoever has crashed, been refused a save or led since.
   */
  lemma DurableOnMajority<M>(en: Ensemble, app: App<M>, srun: seq<System<M>>, j: nat, k: nat, x: NodeId)
    requires IsSysRun(en, app, srun) && HasMember(en, srun, j, x) && j <= k < |srun|
    ensures var s := srun[j].stores[x];
            s.hard.commit <= |s.entries| && IsQuorum(en.members, StoredBy(en, srun[k].stores, s.entries[..s.hard.commit]))
  {
    var run := RuntimeIsCluster(en, app, srun);
    StoreOf(en, app, srun, run, j, x);
    CommittedOnMajority(en, run, j, k, x);
    var prefix := srun[j].stores[x].entries[..srun[j].stores[x].hard.commit];
    forall v | v in HeldBy(en, run[k], prefix) ensures v in StoredBy(en, srun[k].stores, prefix) {
      StoreOf(en, app, srun, run, k, v);
    }
    LargerIsQuorum(en.members, HeldBy(en, run[k], prefix), StoredBy(en, srun[k].stores, prefix));
  }

  // ----- One leader per term, in memory -----

  /** A node whose engine leads a term has a majority of votes on record, saved or not; alone, it needs none. */
  lemma LeaderWasElected(en: Ensemble, h: History, i: NodeId, s: Node, e: Event)
    requires Good(en, h, i, s) && HonestEvent(en, h, i, e)
    requires var o := Handle(ConfigOf(en, i), s, e); o.Done? && o.node.role == Leader
    ensures Elected(en, h, Handle(ConfigOf(en, i), s, e).node.term, i) || |en.members| == 1
  {
    var cfg := ConfigOf(en, i);
    var o := Handle(cfg, s, e);
    if s.role == Leader {
      assert ReignInv(en, h, s.term);
    }
    match e {
      case ElectionTimeout =>
      case HeartbeatTimeout =>
      case Propose(_, _) =>
      case Deliver(m) =>
        if s.role == Candidate && m.term == s.term && m.body == VoteResponse(true) {
          VoteCounted(en, h, i, s, m);
          var votes := s.votes + {m.from};
          if HasQuorum(cfg, |votes|) {
            LargerIsQuorum(en.members, votes, Voters(en, h, s.term, i));
          }
        }
        RoleAfterMessage(cfg, s, m);
    }
  }

  /** A message makes a leader only out of a leader of the same term or a candidate completing its majority. */
  lemma RoleAfterMessage(cfg: Config, s: Node, m: Message)
    ensures var o := HandleMessage(cfg, s, m, NO_EFFECTS);
            o.Done? && o.node.role == Leader ==>
              && o.node.term == s.term
              && (s.role == Leader
                  || (s.role == Candidate && m.term == s.term && m.body == VoteResponse(true)
                      && HasQuorum(cfg, |s.votes + {m.from}|)))
  {
  }

  lemma LiveLeaderElected<M>(en: Ensemble, app: App<M>, i: NodeId, l: Live<M>, store: Store, c: Cluster, h: History)
    requires Inv(en, c, h) && i in en.members && LiveRel(en, app, i, l, store, c.nodes[i], c.net)
    requires l.core.node.role == Leader
    ensures Elected(en, h, l.core.node.term, i) || |en.members| == 1
  {
    var a := c.nodes[i];
    assert NodeInv(en, h, i, a);
    if l.core.node == a {
      assert ReignInv(en, h, a.term);
    } else {
      var e := if l.phase.Saving? then l.phase.event else l.phase.unsaved.value;
      PossibleIsHonest(en, c, h, i, e);
      LeaderWasElected(en, h, i, a, e);
    }
  }

  /**
   Election Safety in memory: over a whole run no two engines ever lead one term, even if one of them
   failed to save its first batch or crashed before sending it.
   */
  lemma RuntimeElectionSafety<M>(en: Ensemble, app: App<M>, srun: seq<System<M>>, j: nat, k: nat, x: NodeId, y: NodeId)
    requires IsSysRun(en, app, srun) && LiveAt(en, srun, j, x) && LiveAt(en, srun, k, y)
    requires var a, b := srun[j].procs[x].live.core.node, srun[k].procs[y].live.core.node;
             a.role == Leader && b.role == Leader && a.term == b.term
    ensures x == y
  {
    var run := RuntimeIsCluster(en, app, srun);
    var hs := RunInv(en, run);
    var n, t := Max(j, k), srun[j].procs[x].live.core.node.term;
    VotesStay(en, app, srun, run, hs, j, n, x);
    VotesStay(en, app, srun, run, hs, k, n, y);
    OnlyOneElected(en, hs[n], t, x, y);
  }

  lemma OnlyOneElected(en: Ensemble, h: History, t: nat, x: NodeId, y: NodeId)
    requires Distinct(en.members) && x in en.members && y in en.members
    requires (Elected(en, h, t, x) && Elected(en, h, t, y)) || |en.members| == 1
    ensures x == y
  {
    if |en.members| != 1 {
      OneLeaderPerTerm(en, h, t, x, y);
    }
  }

  lemma VotesStay<M>(en: Ensemble, app: App<M>, srun: seq<System<M>>, run: seq<Cluster>, hs: seq<History>,
                     j: nat, n: nat, x: NodeId)
    requires Mirrors(en, app, srun, run) && Explains(en, run, hs) && j <= n < |run|
    requires LiveAt(en, srun, j, x) && srun[j].procs[x].live.core.node.role == Leader
    ensures Distinct(en.members)
    ensures Elected(en, hs[n], srun[j].procs[x].live.core.node.term, x) || |en.members| == 1
  {
    assert Related(en, app, srun[j], run[j], x) && Inv(en, run[j], hs[j]);
    LiveLeaderElected(en, app, x, srun[j].procs[x].live, srun[j].stores[x], run[j], hs[j]);
    if |en.members| != 1 {
      ElectedLater(en, hs[j], hs[n], srun[j].procs[x].live.core.node.term, x);
    }
  }

  // ----- Replica agreement -----

  /** What a committed prefix of length n is, does not depend on whom or when one asks. */
  lemma SameAppliedPrefix(en: Ensemble, run: seq<Cluster>, j: nat, k: nat, x: NodeId, y: NodeId, n: nat)
    requires IsRun(en, run) && Member(en, run, j, x) && Member(en, run, k, y)
    requires n <= run[j].nodes[x].commit && n <= run[k].nodes[y].commit
    ensures n <= |run[j].nodes[x].log| && n <= |run[k].nodes[y].log|
    ensures run[j].nodes[x].log[..n] == run[k].nodes[y].log[..n]
  {
    var hs := RunInv(en, run);
    var last := Max(j, k);
    Facts(en, run, hs, j, last, x);
    Facts(en, run, hs, k, last, y);
    var s, t := run[j].nodes[x], run[k].nodes[y];
    CommittedAgree(en, hs[last], s.log[..s.commit], t.log[..t.commit], s.term, t.term);
    SharedPrefix(s.log, s.commit, t.log, t.commit, n);
  }

  lemma SharedPrefix(a: seq<Entry>, i: nat, b: seq<Entry>, j: nat, n: nat)
    requires n <= i <= |a| && n <= j <= |b| && (a[..i] <= b[..j] || b[..j] <= a[..i])
    ensures a[..n] == b[..n]
  {
    assert a[..n] == a[..i][..n] && b[..n] == b[..j][..n];
  }

  /**
   Replica agreement: between batches every live machine is what apply makes of the commands among the
   entries 1 to its applied index, one after the other; so machines with equal applied indexes are equal,
   at any two moments, after any crashes and replays.
   */
  lemma ReplicaAgreement<M>(en: Ensemble, app: App<M>, srun: seq<System<M>>, j: nat, k: nat, x: NodeId, y: NodeId)
    requires IsSysRun(en, app, srun) && LiveAt(en, srun, j, x) && LiveAt(en, srun, k, y)
    requires srun[j].procs[x].live.phase == Idle && srun[k].procs[y].live.phase == Idle
    ensures var l := srun[j].procs[x].live;
            && l.core.applied <= |l.core.node.log|
            && Applied(app.apply, app.init, Commands(l.core.node.log[..l.core.applied])) == Some(l.machine)
    ensures srun[j].procs[x].live.core.applied == srun[k].procs[y].live.core.applied ==>
              srun[j].procs[x].live.machine == srun[k].procs[y].live.machine
  {
    var run := RuntimeIsCluster(en, app, srun);
    assert Related(en, app, srun[j], run[j], x) && Related(en, app, srun[k], run[k], y);
    var n := srun[j].procs[x].live.core.applied;
    FoldIsApplied(app, app.init, srun[j].procs[x].live.core.node.log[..n]);
    if n == srun[k].procs[y].live.core.applied {
      SameAppliedPrefix(en, run, j, k, x, y, n);
    }
  }

  // ----- Persist before send -----

  /** The sender's store holds what the message asserts. */
  ghost predicate Backs(store: Store, m: Message) {
    && store.hard.term == m.term
    && (m.body.VoteResponse? && m.body.granted ==> store.hard.votedFor == Some(m.to))
    && (m.body.AppendResponse? && m.body.success ==>
          m.body.matchIndex <= |store.entries| && LastTerm(store.entries) == m.term)
  }

  /** The store has moved on from a message it backed without going back on it. */
  ghost predicate StillBacks(store: Store, m: Message) {
    && m.term <= store.hard.term
    && (m.body.VoteResponse? && m.body.granted && store.hard.term == m.term ==> store.hard.votedFor == Some(m.to))
    && (m.body.AppendResponse? && m.body.success ==>
          VersionLeq(Version(m.term, m.body.matchIndex), VersionOf(store.entries)))
  }

  /** At the moment a node sends a message, its store already holds the term, vote and log the message speaks of. */
  lemma PersistBeforeSend<M>(en: Ensemble, app: App<M>, srun: seq<System<M>>, k: nat, i: NodeId)
    requires IsSysRun(en, app, srun) && LiveAt(en, srun, k, i)
    requires var l := srun[k].procs[i].live;
             l.phase.Sending? && Busy(l) && l.phase.next < |l.core.outstanding.value.messages|
    ensures var l := srun[k].procs[i].live; Backs(srun[k].stores[i], l.core.outstanding.value.messages[l.phase.next])
  {
    var run := RuntimeIsCluster(en, app, srun);
    var hs := RunInv(en, run);
    assert Related(en, app, srun[k], run[k], i) && Inv(en, run[k], hs[k]);
    var l := srun[k].procs[i].live;
    var m := l.core.outstanding.value.messages[l.phase.next];
    MessageFacts(en, run, hs, k, m);
    SentIsRecorded(en, hs[k], i, run[k].nodes[i], m);
  }

  lemma SentIsRecorded(en: Ensemble, h: History, i: NodeId, s: Node, m: Message)
    requires Good(en, h, i, s) && MessageInv(en, h, m) && m.from == i
    ensures m.body.VoteResponse? && m.body.granted ==> m.term <= s.term && (m.term == s.term ==> s.votedFor == Some(m.to))
    ensures m.body.AppendResponse? && m.body.success ==>
              m.term <= s.term && VersionLeq(Version(m.term, m.body.matchIndex), VersionOf(s.log))
              && (m.term == s.term ==> m.body.matchIndex <= |s.log| && LastTerm(s.log) == m.term)
  {
  }

  /** As long as a vote or an acknowledgment is in the queue, the sender's store stands by it. */
  lemma QueuedRepliesBacked<M>(en: Ensemble, app: App<M>, srun: seq<System<M>>, k: nat, p: nat)
    requires IsSysRun(en, app, srun) && k < |srun| && p < |srun[k].net.queue|
    requires var m := srun[k].net.queue[p].message;
             (m.body.VoteResponse? && m.body.granted) || (m.body.AppendResponse? && m.body.success)
    ensures var m := srun[k].net.queue[p].message;
            m.from in srun[k].stores && StillBacks(srun[k].stores[m.from], m)
  {
    var run := RuntimeIsCluster(en, app, srun);
    var hs := RunInv(en, run);
    var m := srun[k].net.queue[p].message;
    assert SysRel(en, app, srun[k], run[k]) && m in run[k].net;
    MessageFacts(en, run, hs, k, m);
    assert Related(en, app, srun[k], run[k], m.from) && Inv(en, run[k], hs[k]);
    SentIsRecorded(en, hs[k], m.from, run[k].nodes[m.from], m);
  }

  /** The message waits in the queue, or in the saved batch of a node that is sending. */
  ghost predicate OnItsWay<M>(en: Ensemble, srun: seq<System<M>>, k: nat, m: Message) {
    && k < |srun|
    && (|| (exists p :: 0 <= p < |srun[k].net.queue| && srun[k].net.queue[p].message == m)
        || (exists i :: LiveAt(en, srun, k, i) && Busy(srun[k].procs[i].live) && srun[k].procs[i].live.phase.Sending?
                        && m in srun[k].procs[i].live.core.outstanding.value.messages))
  }

  lemma OnItsWayWasSent<M>(en: Ensemble, app: App<M>, srun: seq<System<M>>, run: seq<Cluster>, k: nat, m: Message)
    requires Mirrors(en, app, srun, run) && OnItsWay(en, srun, k, m)
    ensures k < |run| && m in run[k].net
  {
    assert SysRel(en, app, srun[k], run[k]);
    if !(exists p :: 0 <= p < |srun[k].net.queue| && srun[k].net.queue[p].message == m) {
      var i :| LiveAt(en, srun, k, i) && Busy(srun[k].procs[i].live) && srun[k].procs[i].live.phase.Sending?
               && m in srun[k].procs[i].live.core.outstanding.value.messages;
      assert Related(en, app, srun[k], run[k], i);
    }
  }

  /**
   What an acknowledgment on its way vouches for: at some moment before, the store of its term's leader
   held a log that ends at the match index, and the sender's store holds that log for as long as the
   sender stays in the term.
   */
  lemma AckedPrefixIsLeaders<M>(en: Ensemble, app: App<M>, srun: seq<System<M>>, j: nat, k: nat, m: Message)
    returns (i: nat)
    requires IsSysRun(en, app, srun) && OnItsWay(en, srun, j, m) && m.body.AppendResponse? && m.body.success
    requires j <= k && HasMember(en, srun, k, m.from) && srun[k].stores[m.from].hard.term == m.term
    ensures i <= j && HasMember(en, srun, i, m.to)
    ensures var index := m.body.matchIndex; var leader := srun[i].stores[m.to];
            && leader.hard.term == m.term && leader.hard.votedFor == Some(m.to) && LastTerm(leader.entries) == m.term
            && |leader.entries| == index <= |srun[k].stores[m.from].entries|
            && srun[k].stores[m.from].entries[..index] == leader.entries
  {
    hide HistoryInv, LiveRel, CoreInv, PhaseRel;
    var run := RuntimeIsCluster(en, app, srun);
    OnItsWayWasSent(en, app, srun, run, j, m);
    StoreOf(en, app, srun, run, k, m.from);
    var q;
    i, q := AckedIsHeld(en, run, j, k, m);
    StoreOf(en, app, srun, run, i, m.to);
    var hs := RunInv(en, run);
    Facts(en, run, hs, i, i, m.to);
    LeadersMark(en, hs[i], m.to, run[i].nodes[m.to]);
  }

  lemma StoreOf<M>(en: Ensemble, app: App<M>, srun: seq<System<M>>, run: seq<Cluster>, k: nat, x: NodeId)
    requires Mirrors(en, app, srun, run) && k < |srun| && x in en.members
    ensures HasMember(en, srun, k, x) && Member(en, run, k, x) && Holds(srun[k].stores[x], run[k].nodes[x])
  {
    assert Related(en, app, srun[k], run[k], x);
  }

  lemma LeadersMark(en: Ensemble, h: History, x: NodeId, s: Node)
    requires Good(en, h, x, s) && s.role == Leader
    ensures s.votedFor == Some(x) && LastTerm(s.log) == s.term
  {
    assert ReignInv(en, h, s.term);
  }

  // ----- The store's own guards -----

  /** No batch of a run is ever refused by the store's checks; only an injected failure refuses one. */
  lemma StoreGuardsNeverFire<M>(en: Ensemble, app: App<M>, srun: seq<System<M>>, k: nat, i: NodeId)
    requires IsSysRun(en, app, srun) && LiveAt(en, srun, k, i) && Busy(srun[k].procs[i].live)
    ensures var l, store := srun[k].procs[i].live, srun[k].stores[i];
            var r := l.core.outstanding.value;
            && (l.phase.Saving? && !store.failing ==> PersistDurable(store, ReadyBatch(r)).Stored?)
            && (l.phase.Applying? && l.phase.next < |r.committed| && !store.failing ==>
                  PersistDurable(store, AppliedBatch(r.committed[l.phase.next].index)).Stored?)
  {
    var run := RuntimeIsCluster(en, app, srun);
    var hs := RunInv(en, run);
    assert Related(en, app, srun[k], run[k], i) && Inv(en, run[k], hs[k]);
    var l, store, a := srun[k].procs[i].live, srun[k].stores[i], run[k].nodes[i];
    if l.phase.Saving? {
      SaveAccepted(en, app, i, l, store, run[k], hs[k]);
    } else if l.phase.Applying? && l.phase.next < |l.core.outstanding.value.committed| {
      ApplyAccepted(en, app, i, l, store, a, run[k].net);
    }
  }

  lemma SaveAccepted<M>(en: Ensemble, app: App<M>, i: NodeId, l: Live<M>, store: Store, c: Cluster, h: History)
    requires Inv(en, c, h) && i in en.members && LiveRel(en, app, i, l, store, c.nodes[i], c.net) && l.phase.Saving?
    ensures !store.failing ==> PersistDurable(store, ReadyBatch(l.core.outstanding.value)).Stored?
  {
    PossibleIsHonest(en, c, h, i, l.phase.event);
    assert NodeInv(en, h, i, c.nodes[i]);
    EventSound(ConfigOf(en, i), c.nodes[i], l.phase.event);
    var o := Handle(ConfigOf(en, i), c.nodes[i], l.phase.event);
    BatchAccepted(store, c.nodes[i], o.node, o.fx, l.core.outstanding.value);
  }

  lemma ApplyAccepted<M>(en: Ensemble, app: App<M>, i: NodeId, l: Live<M>, store: Store, a: Node, net: set<Message>)
    requires LiveRel(en, app, i, l, store, a, net) && l.phase.Applying?
    requires l.phase.next < |l.core.outstanding.value.committed|
    ensures !store.failing ==>
              PersistDurable(store, AppliedBatch(l.core.outstanding.value.committed[l.phase.next].index)).Stored?
  {
    var e := l.core.outstanding.value.committed[l.phase.next];
    assert e == a.log[l.core.applied + l.phase.next];
    AppliedAccepted(store, a, e.index);
  }

  /**
   A node freezes exactly when its store was made to fail or the application threw: no committed command
   ever lacks an ID, and no batch is refused on its merits.
   */
  lemma FreezesExactly<M>(en: Ensemble, app: App<M>, srun: seq<System<M>>, k: nat, i: NodeId, d: bool)
    requires IsSysRun(en, app, srun) && LiveAt(en, srun, k, i) && Busy(srun[k].procs[i].live)
    ensures var l, store := srun[k].procs[i].live, srun[k].stores[i];
            var committed := l.core.outstanding.value.committed;
            Continued(app, Scene(l, store, srun[k].net), d).live.phase.Frozen? <==>
              || (l.phase.Saving? && store.failing)
              || (l.phase.Applying? && l.phase.next < |committed|
                  && (store.failing || (committed[l.phase.next].kind == Command
                                        && app.apply(l.machine, committed[l.phase.next]) == None)))
  {
    hide HistoryInv, NodeInv, LiveRel, NextEntries, MessageInv, Holds;
    StoreGuardsNeverFire(en, app, srun, k, i);
    var l := srun[k].procs[i].live;
    if l.phase.Applying? && l.phase.next < |l.core.outstanding.value.committed| {
      var run := RuntimeIsCluster(en, app, srun);
      var hs := RunInv(en, run);
      assert Related(en, app, srun[k], run[k], i) && Inv(en, run[k], hs[k]);
      CommittedNamed(en, app, i, l, srun[k].stores[i], run[k].nodes[i], hs[k], run[k].net);
    }
  }

  lemma CommittedNamed<M>(en: Ensemble, app: App<M>, i: NodeId, l: Live<M>, store: Store, a: Node, h: History, net: set<Message>)
    requires Good(en, h, i, a) && LiveRel(en, app, i, l, store, a, net) && l.phase.Applying?
    requires l.phase.next < |l.core.outstanding.value.committed|
    ensures Named(l.core.outstanding.value.committed[l.phase.next])
  {
    EntriesNamed(en, h, a.log);
    assert l.core.outstanding.value.committed[l.phase.next] == a.log[l.core.applied + l.phase.next];
  }

  /**
   The same for a restart: whatever the store holds at any moment of a run, recovery opens an engine over
   it exactly when the application accepts what is committed and the store is not armed against the
   applied index that has to be saved. The engine's assertions on what it loads never fail.
   */
  lemma RecoveryOpensExactly<M>(en: Ensemble, app: App<M>, srun: seq<System<M>>, k: nat, i: NodeId)
    requires IsSysRun(en, app, srun) && HasMember(en, srun, k, i)
    ensures var store := srun[k].stores[i];
            && store.hard.commit <= |store.entries|
            && (Recover(app, ConfigOf(en, i), store).Reopened? <==>
                  Fold(app, app.init, store.entries[..store.hard.commit]).Some?
                  && !(store.failing && store.applied < store.hard.commit))
  {
    hide HistoryInv, ValidLog, Committed, TermsBounded, VoteRecorded, CandidateInv, LeaderInv, PhaseRel;
    var run := RuntimeIsCluster(en, app, srun);
    var hs := RunInv(en, run);
    StoreOf(en, app, srun, run, k, i);
    Facts(en, run, hs, k, k, i);
    StoreReopens(app, ConfigOf(en, i), srun[k].stores[i], run[k].nodes[i]);
  }

  lemma StoreReopens<M>(app: App<M>, cfg: Config, store: Store, a: Node)
    requires Holds(store, a) && Contiguous(a.log) && a.commit <= |a.log|
    ensures Recover(app, cfg, store).Reopened? <==>
              Fold(app, app.init, a.log[..a.commit]).Some? && !(store.failing && store.applied < a.commit)
  {
    if store.applied < a.commit {
      AppliedAccepted(store, a, a.commit);
    }
  }

  /**
   A node freezes without being marked unhealthy exactly when its store refuses to record an applied
   entry that is not a command.
   */
  lemma SilentExactly<M>(en: Ensemble, app: App<M>, srun: seq<System<M>>, k: nat, i: NodeId, d: bool)
    requires IsSysRun(en, app, srun) && LiveAt(en, srun, k, i) && Busy(srun[k].procs[i].live)
    ensures var l, store := srun[k].procs[i].live, srun[k].stores[i];
            var committed := l.core.outstanding.value.committed;
            var t := Continued(app, Scene(l, store, srun[k].net), d);
            (t.live.phase.Frozen? && !t.live.phase.reported) <==>
              l.phase.Applying? && l.phase.next < |committed| && committed[l.phase.next].kind != Command && store.failing
  {
    hide HistoryInv, NodeInv, LiveRel, NextEntries, MessageInv, Holds;
    StoreGuardsNeverFire(en, app, srun, k, i);
    var l := srun[k].procs[i].live;
    if l.phase.Applying? && l.phase.next < |l.core.outstanding.value.committed| {
      var run := RuntimeIsCluster(en, app, srun);
      var hs := RunInv(en, run);
      assert Related(en, app, srun[k], run[k], i) && Inv(en, run[k], hs[k]);
      CommittedNamed(en, app, i, l, srun[k].stores[i], run[k].nodes[i], hs[k], run[k].net);
    }
  }

  // ----- After a failed save -----

  /** Messages of node i waiting in the queue. */
  ghost function FromNode(n: Network, i: NodeId): set<Message> {
    set p | p in n.queue && p.message.from == i :: p.message
  }

  /** A frozen node does nothing more: no step but a crash changes it or its durable state, and it sends nothing. */
  lemma FrozenUntilCrash<M>(en: Ensemble, app: App<M>, srun: seq<System<M>>, k: nat, i: NodeId)
    requires IsSysRun(en, app, srun) && k + 1 < |srun| && LiveAt(en, srun, k, i) && srun[k].procs[i].live.phase.Frozen?
    ensures i in srun[k + 1].procs && i in srun[k + 1].stores
    ensures srun[k + 1].procs[i] == srun[k].procs[i] || srun[k + 1].procs[i] == Down
    ensures srun[k + 1].stores[i].(failing := false) == srun[k].stores[i].(failing := false)
    ensures FromNode(srun[k + 1].net, i) <= FromNode(srun[k].net, i)
  {
    var run := RuntimeIsCluster(en, app, srun);
    assert Related(en, app, srun[k], run[k], i) && SysNext(en, app, srun[k], srun[k + 1]);
    FrozenStep(en, app, srun[k], srun[k + 1], run[k], i);
  }

  lemma FrozenStep<M>(en: Ensemble, app: App<M>, sys: System<M>, sys': System<M>, c: Cluster, i: NodeId)
    requires SysRel(en, app, sys, c) && SysNext(en, app, sys, sys') && IsUp(en, sys, i) && sys.procs[i].live.phase.Frozen?
    ensures i in sys'.procs && i in sys'.stores
    ensures sys'.procs[i] == sys.procs[i] || sys'.procs[i] == Down
    ensures sys'.stores[i].(failing := false) == sys.stores[i].(failing := false)
    ensures FromNode(sys'.net, i) <= FromNode(sys.net, i)
  {
    if x: NodeId, e: Event :| CallStep(en, sys, sys', x, e) {
      assert x != i;
    } else if index: nat :| DeliverStep(en, sys, sys', index) {
      FrozenDelivery(en, app, sys, sys', c, index, i);
    } else if x: NodeId, d: bool :| WorkStep(en, app, sys, sys', x, d) {
      WorkOfOther(en, app, sys, sys', c, x, d, i);
    } else {
      FrozenAmongTests(en, app, sys, sys', i);
    }
  }

  lemma FrozenAmongTests<M>(en: Ensemble, app: App<M>, sys: System<M>, sys': System<M>, i: NodeId)
    requires IsUp(en, sys, i)
    requires || (exists x: NodeId :: CrashStep(en, sys, sys', x))
             || (exists x: NodeId :: StartStep(en, app, sys, sys', x))
             || (exists x: NodeId :: ArmStep(en, sys, sys', x))
             || (exists op: NetOp :: NetworkStep(sys, sys', op))
    ensures i in sys'.procs && i in sys'.stores
    ensures sys'.procs[i] == sys.procs[i] || sys'.procs[i] == Down
    ensures sys'.stores[i].(failing := false) == sys.stores[i].(failing := false)
    ensures FromNode(sys'.net, i) <= FromNode(sys.net, i)
  {
    hide Recover, FromNode, ApplyNet;
    if op: NetOp :| NetworkStep(sys, sys', op) {
      OpsInventNothing(sys.net, op, i);
    } else if x: NodeId :| StartStep(en, app, sys, sys', x) {
      assert x != i;
      OpsInventNothing(sys.net, NetOp.Register(x), i);
    } else if x: NodeId :| CrashStep(en, sys, sys', x) {
      OpsInventNothing(sys.net, NetOp.Unregister(x), i);
    }
  }

  lemma FrozenDelivery<M>(en: Ensemble, app: App<M>, sys: System<M>, sys': System<M>, c: Cluster, index: nat, i: NodeId)
    requires SysRel(en, app, sys, c) && DeliverStep(en, sys, sys', index)
    requires IsUp(en, sys, i) && sys.procs[i].live.phase.Frozen?
    ensures i in sys'.procs && i in sys'.stores && sys'.procs[i] == sys.procs[i] && sys'.stores == sys.stores
    ensures FromNode(sys'.net, i) <= FromNode(sys.net, i)
  {
    assert Related(en, app, sys, c, i);
    QueueShrinks(sys.net, index, i);
    FrozenIgnores(sys.procs[i].live, Event.Deliver(sys.net.queue[index].message));
  }

  lemma QueueShrinks(n: Network, index: nat, i: NodeId)
    ensures FromNode(Dropped(n, index), i) <= FromNode(n, i)
  {
    var q := Dropped(n, index).queue;
    assert forall p :: p in q ==> p in n.queue;
  }

  lemma OpsInventNothing(n: Network, op: NetOp, i: NodeId)
    requires !op.Send? && !op.Deliver?
    ensures FromNode(ApplyNet(n, op), i) <= FromNode(n, i)
  {
    if op.Drop? {
      QueueShrinks(n, op.index, i);
    }
    if op.Duplicate? && op.index < |n.queue| {
      assert n.queue[op.index] in n.queue;
    }
  }

  lemma WorkOfOther<M>(en: Ensemble, app: App<M>, sys: System<M>, sys': System<M>, c: Cluster, x: NodeId, d: bool, i: NodeId)
    requires SysRel(en, app, sys, c) && WorkStep(en, app, sys, sys', x, d) && IsUp(en, sys, i) && sys.procs[i].live.phase.Frozen?
    ensures i != x && i in sys'.stores && sys'.procs[i] == sys.procs[i] && sys'.stores[i] == sys.stores[i]
    ensures FromNode(sys'.net, i) <= FromNode(sys.net, i)
  {
    assert Related(en, app, sys, c, x);
    var l := sys.procs[x].live;
    if l.phase.Sending? && l.phase.next < |l.core.outstanding.value.messages| {
      var m := l.core.outstanding.value.messages[l.phase.next];
      assert m.from == x;
      assert forall p :: p in Enqueued(sys.net, m).queue ==> p in sys.net.queue || p.message == m;
    }
  }
}
