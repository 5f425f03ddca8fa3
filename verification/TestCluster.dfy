/** The test cluster's audit as it runs: loops over live nodes, stores and machines that stop at the first violation. */
module TestClusterClass {
  import opened RaftTypes
  import opened CoreSpec
  import opened RaftCoreClass
  import opened Stores
  import opened Runtime
  import opened Audits

  datatype Violation =
    | CurrentTermDecreased(member: NodeId)
    | CommitIndexDecreased(member: NodeId)
    | AppliedIndexDecreased(member: NodeId)
    | AppliedExceedsCommit(member: NodeId)
    | CommitExceedsLog(member: NodeId)
    | TwoLeaders(term: nat, member: NodeId)
    | DurableLogGap(member: NodeId)
    | CommittedEntryDiffers(index: nat, member: NodeId)
    | HashesDiffer

  // ----- What a reported violation says -----

  predicate StatusFault(v: Violation, marks: Marks, i: NodeId, c: Core) {
    match v
    case CurrentTermDecreased(j) => j == i && c.node.term < MarkOf(marks.terms, i)
    case CommitIndexDecreased(j) => j == i && c.node.commit < MarkOf(marks.commits, i)
    case AppliedIndexDecreased(j) => j == i && c.applied < MarkOf(marks.applied, i)
    case AppliedExceedsCommit(j) => j == i && c.applied > c.node.commit
    case CommitExceedsLog(j) => j == i && c.node.commit > LastIndex(c.node.log)
    case _ => false
  }

  ghost predicate LiveFault<M>(v: Violation, marks: Marks, live: map<NodeId, Live<M>>) {
    match v
    case TwoLeaders(t, i) => i in live && Leading(live[i], t) && exists j :: j in live && j != i && Leading(live[j], t)
    case _ => exists i :: i in live && StatusFault(v, marks, i, live[i].core)
  }

  /** The named log has a gap, or claims another entry at the named index than some claim that counts. */
  ghost predicate StoreFault(v: Violation, i: NodeId, store: Store, claims: set<Claim>) {
    match v
    case DurableLogGap(j) => j == i && !RunsFrom(store.entries, Boundary(store.snapshot) + 1)
    case CommittedEntryDiffers(n, j) =>
      j == i && exists c, d :: c in Claims(store, |store.entries|) && d in claims && c.index == n && d.index == n && c != d
    case _ => false
  }

  ghost predicate StoresFault(v: Violation, stores: map<NodeId, Store>, members: seq<NodeId>)
    requires forall i :: i in members ==> i in stores
  {
    exists i :: i in members && StoreFault(v, i, stores[i], AllClaims(stores, members))
  }

  /** What is reported is so, and everything the audit looks at before it is in order. */
  ghost predicate Genuine<M>(v: Violation, members: seq<NodeId>, live: map<NodeId, Live<M>>, stores: map<NodeId, Store>,
                             marks: Marks, hash: Option<M -> string>)
    requires forall i :: i in members ==> i in stores
  {
    || LiveFault(v, marks, live)
    || (StoresFault(v, stores, members) && StatusesFit(marks, live) && OneLeaderEach(live))
    || (v == HashesDiffer && hash.Some? && !MachinesFit(live, hash.value) && StoresFit(stores, members)
        && StatusesFit(marks, live) && OneLeaderEach(live))
  }

  class TestCluster<M> {
    const members: seq<NodeId>
    const stateHash: Option<M -> string>
    var live: map<NodeId, Live<M>>
    var storage: map<NodeId, Store>
    var lastTerms: map<NodeId, nat>
    var lastCommits: map<NodeId, nat>
    var lastApplied: map<NodeId, nat>

    ghost function Seen(): Marks
      reads this
    {
      Marks(lastTerms, lastCommits, lastApplied)
    }

    constructor (members: seq<NodeId>, stateHash: Option<M -> string>)
      ensures this.members == members && this.stateHash == stateHash && live == map[]
      ensures storage == (map i | i in members :: EMPTY) && Seen() == Marks(map[], map[], map[])
    {
      this.members, this.stateHash := members, stateHash;
      live, lastTerms, lastCommits, lastApplied := map[], map[], map[], map[];
      storage := map i | i in members :: EMPTY;
    }

    /** No violation is reported exactly when everything it can see is acceptable; then the marks are brought up to date. */
    method AssertInvariants() returns (violation: Option<Violation>)
      requires forall i :: i in members ==> i in storage
      modifies this`lastTerms, this`lastCommits, this`lastApplied
      ensures violation == None <==> Acceptable(members, live, storage, old(Seen()), stateHash)
      ensures violation == None ==> Seen() == Marked(old(Seen()), live, live.Keys)
      ensures violation.Some? ==> MarkedInPart(old(Seen()), Seen(), live)
      ensures violation.Some? ==> Genuine(violation.value, members, live, storage, old(Seen()), stateHash)
    {
      hide StoreFault, StatusFault, MachinesFit, StatusesFit, OneLeaderEach, StoresFit, LiveFault, StoresFault;
      violation := CheckLive();
      if violation == None {
        violation := CheckStores();
      }
      if violation == None && stateHash.Some? {
        violation := CheckMachines(stateHash.value);
      }
    }

    method CheckLive() returns (violation: Option<Violation>)
      modifies this`lastTerms, this`lastCommits, this`lastApplied
      ensures violation == None <==> StatusesFit(old(Seen()), live) && OneLeaderEach(live)
      ensures violation == None ==> Seen() == Marked(old(Seen()), live, live.Keys)
      ensures MarkedInPart(old(Seen()), Seen(), live)
      ensures violation.Some? ==> LiveFault(violation.value, old(Seen()), live)
    {
      hide StatusFault, StatusFits, Marked, MarkOf, OneLeaderEach, Listed, MarkedInPart;
      NothingMarked(Seen(), live);
      var leadersByTerm: map<nat, NodeId> := map[];
      var rest := live.Keys;
      ghost var seen: set<NodeId> := {};
      NoneListed(live);
      while rest != {}
        invariant seen + rest == live.Keys && seen !! rest
        invariant Seen() == Marked(old(Seen()), live, seen)
        invariant forall i :: i in seen ==> StatusFits(old(Seen()), i, live[i].core)
        invariant Listed(live, seen, leadersByTerm)
        decreases rest
      {
        var member :| member in rest;
        var core := live[member].core;
        var wrong := CheckStatus(member, core);
        MarkedElsewhere(old(Seen()), live, seen, member);
        if wrong.Some? {
          FaultIsLive(wrong.value, old(Seen()), live, member);
          PartOf(old(Seen()), live, seen);
          return wrong;
        }
        MarkedGrows(old(Seen()), live, seen, member);
        lastTerms := lastTerms[member := core.node.term];
        lastCommits := lastCommits[member := core.node.commit];
        lastApplied := lastApplied[member := core.applied];
        if core.node.role == Leader {
          var term := core.node.term;
          if term in leadersByTerm && leadersByTerm[term] != member {
            RivalFound(live, seen, leadersByTerm, member);
            PartOf(old(Seen()), live, seen + {member});
            return Some(TwoLeaders(term, member));
          }
          OneMoreListed(live, seen, leadersByTerm, member);
          leadersByTerm := leadersByTerm[term := member];
        } else {
          NotALeader(live, seen, leadersByTerm, member);
        }
        seen, rest := seen + {member}, rest - {member};
      }
      ListedFit(live, leadersByTerm);
      PartOf(old(Seen()), live, seen);
      violation := None;
    }

    method CheckStatus(member: NodeId, core: Core) returns (violation: Option<Violation>)
      ensures violation == None <==> StatusFits(Seen(), member, core)
      ensures violation.Some? ==> StatusFault(violation.value, Seen(), member, core)
    {
      if core.node.term < MarkOf(lastTerms, member) {
        return Some(CurrentTermDecreased(member));
      }
      if core.node.commit < MarkOf(lastCommits, member) {
        return Some(CommitIndexDecreased(member));
      }
      if core.applied < MarkOf(lastApplied, member) {
        return Some(AppliedIndexDecreased(member));
      }
      if core.applied > core.node.commit {
        return Some(AppliedExceedsCommit(member));
      }
      if core.node.commit > LastIndex(core.node.log) {
        return Some(CommitExceedsLog(member));
      }
      violation := None;
    }

    method CheckStores() returns (violation: Option<Violation>)
      requires forall i :: i in members ==> i in storage
      ensures violation == None <==> StoresFit(storage, members)
      ensures violation.Some? ==> StoresFault(violation.value, storage, members)
    {
      hide StoreFault, Tallies, RunsFrom, Claims, AllClaims, Compatible;
      var committed: map<nat, Fingerprint> := map[];
      NothingTallied(storage);
      assert members[..0] == [];
      var k := 0;
      while k < |members|
        invariant 0 <= k <= |members|
        invariant forall i :: i in members[..k] ==> RunsFrom(storage[i].entries, Boundary(storage[i].snapshot) + 1)
        invariant Tallies(committed, AllClaims(storage, members[..k]))
      {
        ClaimsGrow(storage, members, k);
        violation, committed := CheckStore(members[k], committed, AllClaims(storage, members[..k]));
        if violation.Some? {
          ClaimsWithin(storage, members, k + 1);
          FaultStands(violation.value, members[k], storage[members[k]], AllClaims(storage, members[..k + 1]),
                      AllClaims(storage, members));
          if StoresFit(storage, members) {
            ClaimsCompatible(AllClaims(storage, members[..k + 1]), AllClaims(storage, members));
          }
          return;
        }
        k := k + 1;
      }
      assert members[..k] == members;
      TalliesFit(committed, AllClaims(storage, members));
      violation := None;
    }

    /** One durable log: contiguous, and in line with what the others have committed. */
    method CheckStore(member: NodeId, committed: map<nat, Fingerprint>, ghost claims: set<Claim>)
      returns (violation: Option<Violation>, committed': map<nat, Fingerprint>)
      requires member in storage && Tallies(committed, claims)
      ensures var store := storage[member];
              var all := claims + Claims(store, |store.entries|);
              if violation == None
              then RunsFrom(store.entries, Boundary(store.snapshot) + 1) && Tallies(committed', all)
              else StoreFault(violation.value, member, store, all)
                   && (!RunsFrom(store.entries, Boundary(store.snapshot) + 1) || !Compatible(all))
    {
      hide Claims, Tallies, FingerprintOf, Compatible, Boundary, RunsFrom;
      committed' := committed;
      var store := storage[member];
      NoClaimsYet(store, committed, claims);
      var expected, j := Boundary(store.snapshot) + 1, 0;
      while j < |store.entries|
        invariant 0 <= j <= |store.entries| && expected == Boundary(store.snapshot) + 1 + j
        invariant RunsFrom(store.entries[..j], Boundary(store.snapshot) + 1)
        invariant Tallies(committed', claims + Claims(store, j))
      {
        var entry := store.entries[j];
        if entry.index != expected {
          GapFound(store, j);
          return Some(DurableLogGap(member)), committed';
        }
        RunGrows(store, j);
        OneMoreClaim(store, j, committed', claims);
        expected := expected + 1;
        if entry.index <= store.hard.commit {
          var fingerprint := FingerprintOf(entry);
          if entry.index in committed' && committed'[entry.index] != fingerprint {
            ClaimsClash(committed', claims, store, j);
            return Some(CommittedEntryDiffers(entry.index, member)), committed';
          }
          committed' := committed'[entry.index := fingerprint];
        }
        j := j + 1;
      }
      assert store.entries[..j] == store.entries;
      violation := None;
    }

    method CheckMachines(hash: M -> string) returns (violation: Option<Violation>)
      ensures violation == if MachinesFit(live, hash) then None else Some(HashesDiffer)
    {
      var caughtUp := set i | i in live && CaughtUp(live[i]);
      var highest := 0;
      var rest := caughtUp;
      ghost var seen: set<NodeId> := {};
      while rest != {}
        invariant seen + rest == caughtUp && seen !! rest
        invariant forall i :: i in seen ==> live[i].core.applied <= highest
        invariant highest == 0 || exists i :: i in seen && live[i].core.applied == highest
        decreases rest
      {
        var i :| i in rest;
        if live[i].core.applied > highest {
          highest := live[i].core.applied;
        }
        seen, rest := seen + {i}, rest - {i};
      }
      assert forall i :: i in caughtUp ==> (Foremost(live, i) <==> live[i].core.applied == highest);
      violation := CompareHashes(hash, caughtUp, highest);
    }

    method CompareHashes(hash: M -> string, caughtUp: set<NodeId>, highest: nat) returns (violation: Option<Violation>)
      requires caughtUp <= live.Keys && forall i :: i in live && CaughtUp(live[i]) ==> i in caughtUp
      requires forall i :: i in caughtUp ==> (Foremost(live, i) <==> live[i].core.applied == highest)
      ensures violation == if MachinesFit(live, hash) then None else Some(HashesDiffer)
    {
      var first: Option<string> := None;
      var rest := caughtUp;
      ghost var seen: set<NodeId> := {};
      ghost var leader: Option<NodeId> := None;
      while rest != {}
        invariant seen + rest == caughtUp && seen !! rest
        invariant leader.Some? == first.Some?
        invariant leader.Some? ==> leader.value in live && Foremost(live, leader.value)
                                   && hash(live[leader.value].machine) == first.value
        invariant forall i :: i in seen && Foremost(live, i) ==> first == Some(hash(live[i].machine))
        decreases rest
      {
        var i :| i in rest;
        if live[i].core.applied == highest {
          var h := hash(live[i].machine);
          if first.Some? && first.value != h {
            assert Foremost(live, i) && Foremost(live, leader.value);
            return Some(HashesDiffer);
          }
          first, leader := Some(h), Some(i);
        }
        seen, rest := seen + {i}, rest - {i};
      }
      violation := None;
    }
  }

  /** The marks once the given nodes' statuses have been recorded. */
  function Marked<M>(marks: Marks, live: map<NodeId, Live<M>>, seen: set<NodeId>): Marks
    requires seen <= live.Keys
  {
    Marks(marks.terms + TermsIn(live, seen), marks.commits + CommitsIn(live, seen), marks.applied + AppliedIn(live, seen))
  }

  function TermsIn<M>(live: map<NodeId, Live<M>>, seen: set<NodeId>): map<NodeId, nat>
    requires seen <= live.Keys
  {
    map i | i in seen :: live[i].core.node.term
  }

  function CommitsIn<M>(live: map<NodeId, Live<M>>, seen: set<NodeId>): map<NodeId, nat>
    requires seen <= live.Keys
  {
    map i | i in seen :: live[i].core.node.commit
  }

  function AppliedIn<M>(live: map<NodeId, Live<M>>, seen: set<NodeId>): map<NodeId, nat>
    requires seen <= live.Keys
  {
    map i | i in seen :: live[i].core.applied
  }

  /** The statuses of some live nodes have been recorded, each of which had not gone back, and nothing else. */
  ghost predicate MarkedInPart<M>(was: Marks, now: Marks, live: map<NodeId, Live<M>>) {
    exists seen :: seen <= live.Keys && now == Marked(was, live, seen) && forall i :: i in seen ==> StatusFits(was, i, live[i].core)
  }

  lemma PartOf<M>(marks: Marks, live: map<NodeId, Live<M>>, seen: set<NodeId>)
    requires seen <= live.Keys && forall i :: i in seen ==> StatusFits(marks, i, live[i].core)
    ensures MarkedInPart(marks, Marked(marks, live, seen), live)
  {
  }

  /** The table records exactly the claims. */
  ghost predicate Tallies(committed: map<nat, Fingerprint>, claims: set<Claim>) {
    && (forall n :: n in committed ==> Claim(n, committed[n]) in claims)
    && (forall c :: c in claims ==> c.index in committed && committed[c.index] == c.fingerprint)
  }

  lemma NothingTallied(stores: map<NodeId, Store>)
    ensures Tallies(map[], AllClaims(stores, []))
  {
  }

  lemma ClaimsCompatible(some: set<Claim>, all: set<Claim>)
    requires some <= all && Compatible(all)
    ensures Compatible(some)
  {
  }

  lemma TalliesFit(committed: map<nat, Fingerprint>, claims: set<Claim>)
    requires Tallies(committed, claims)
    ensures Compatible(claims)
  {
  }

  // ----- Leaders listed so far -----

  /** The table names the one leader of every term led among the nodes seen. */
  ghost predicate Listed<M>(live: map<NodeId, Live<M>>, seen: set<NodeId>, leaders: map<nat, NodeId>)
    requires seen <= live.Keys
  {
    && (forall i :: i in seen && live[i].core.node.role == Leader ==>
                      live[i].core.node.term in leaders && leaders[live[i].core.node.term] == i)
    && (forall t :: t in leaders ==> leaders[t] in seen && Leading(live[leaders[t]], t))
  }

  lemma NoneListed<M>(live: map<NodeId, Live<M>>)
    ensures Listed(live, {}, map[])
  {
  }

  lemma OneMoreListed<M>(live: map<NodeId, Live<M>>, seen: set<NodeId>, leaders: map<nat, NodeId>, i: NodeId)
    requires seen <= live.Keys && i in live && i !in seen && Listed(live, seen, leaders) && live[i].core.node.role == Leader
    requires var t := live[i].core.node.term; t in leaders ==> leaders[t] == i
    ensures Listed(live, seen + {i}, leaders[live[i].core.node.term := i])
  {
  }

  lemma NotALeader<M>(live: map<NodeId, Live<M>>, seen: set<NodeId>, leaders: map<nat, NodeId>, i: NodeId)
    requires seen <= live.Keys && i in live && Listed(live, seen, leaders) && live[i].core.node.role != Leader
    ensures Listed(live, seen + {i}, leaders)
  {
  }

  lemma RivalFound<M>(live: map<NodeId, Live<M>>, seen: set<NodeId>, leaders: map<nat, NodeId>, i: NodeId)
    requires seen <= live.Keys && i in live && Listed(live, seen, leaders) && live[i].core.node.role == Leader
    requires var t := live[i].core.node.term; t in leaders && leaders[t] != i
    ensures !OneLeaderEach(live) && forall marks :: LiveFault(TwoLeaders(live[i].core.node.term, i), marks, live)
  {
    assert Leading(live[leaders[live[i].core.node.term]], live[i].core.node.term);
  }

  lemma ListedFit<M>(live: map<NodeId, Live<M>>, leaders: map<nat, NodeId>)
    requires Listed(live, live.Keys, leaders)
    ensures OneLeaderEach(live)
  {
  }

  // ----- Marks -----

  lemma NothingMarked<M>(marks: Marks, live: map<NodeId, Live<M>>)
    ensures Marked(marks, live, {}) == marks
  {
    assert Marked(marks, live, {}).terms == marks.terms;
    assert Marked(marks, live, {}).commits == marks.commits;
    assert Marked(marks, live, {}).applied == marks.applied;
  }

  lemma MarkedGrows<M>(marks: Marks, live: map<NodeId, Live<M>>, seen: set<NodeId>, i: NodeId)
    requires seen <= live.Keys && i in live
    ensures var was, now := Marked(marks, live, seen), Marked(marks, live, seen + {i});
            && now.terms == was.terms[i := live[i].core.node.term]
            && now.commits == was.commits[i := live[i].core.node.commit]
            && now.applied == was.applied[i := live[i].core.applied]
  {
    hide TermsIn, CommitsIn, AppliedIn;
    OneMoreOfEach(live, seen, i);
    Overlaid(marks.terms, TermsIn(live, seen), i, live[i].core.node.term);
    Overlaid(marks.commits, CommitsIn(live, seen), i, live[i].core.node.commit);
    Overlaid(marks.applied, AppliedIn(live, seen), i, live[i].core.applied);
  }

  lemma OneMoreOfEach<M>(live: map<NodeId, Live<M>>, seen: set<NodeId>, i: NodeId)
    requires seen <= live.Keys && i in live
    ensures TermsIn(live, seen + {i}) == TermsIn(live, seen)[i := live[i].core.node.term]
    ensures CommitsIn(live, seen + {i}) == CommitsIn(live, seen)[i := live[i].core.node.commit]
    ensures AppliedIn(live, seen + {i}) == AppliedIn(live, seen)[i := live[i].core.applied]
  {
  }

  lemma Overlaid(under: map<NodeId, nat>, over: map<NodeId, nat>, i: NodeId, v: nat)
    ensures under + over[i := v] == (under + over)[i := v]
  {
  }

  /** Recording other members does not change how a member is judged. */
  lemma MarkedElsewhere<M>(marks: Marks, live: map<NodeId, Live<M>>, seen: set<NodeId>, i: NodeId)
    requires seen <= live.Keys && i in live && i !in seen
    ensures StatusFits(Marked(marks, live, seen), i, live[i].core) == StatusFits(marks, i, live[i].core)
    ensures forall v :: StatusFault(v, Marked(marks, live, seen), i, live[i].core) == StatusFault(v, marks, i, live[i].core)
  {
    hide Marked, MarkOf, LastIndex;
    SameMarks(marks, live, seen, i);
  }

  lemma SameMarks<M>(marks: Marks, live: map<NodeId, Live<M>>, seen: set<NodeId>, i: NodeId)
    requires seen <= live.Keys && i !in seen
    ensures var now := Marked(marks, live, seen);
            && MarkOf(now.terms, i) == MarkOf(marks.terms, i) && MarkOf(now.commits, i) == MarkOf(marks.commits, i)
            && MarkOf(now.applied, i) == MarkOf(marks.applied, i)
  {
  }

  lemma FaultIsLive<M>(v: Violation, marks: Marks, live: map<NodeId, Live<M>>, i: NodeId)
    requires i in live && StatusFault(v, marks, i, live[i].core)
    ensures LiveFault(v, marks, live)
  {
  }

  lemma FaultStands(v: Violation, i: NodeId, store: Store, some: set<Claim>, all: set<Claim>)
    requires StoreFault(v, i, store, some) && some <= all
    ensures StoreFault(v, i, store, all)
  {
  }

  /** Recording members: their marks are their statuses, everyone else's stay. */
  lemma MarksRecorded<M>(marks: Marks, live: map<NodeId, Live<M>>, seen: set<NodeId>, i: NodeId)
    requires seen <= live.Keys
    ensures var now := Marked(marks, live, seen);
            if i in seen
            then MarkOf(now.terms, i) == live[i].core.node.term && MarkOf(now.commits, i) == live[i].core.node.commit
                 && MarkOf(now.applied, i) == live[i].core.applied
            else MarkOf(now.terms, i) == MarkOf(marks.terms, i) && MarkOf(now.commits, i) == MarkOf(marks.commits, i)
                 && MarkOf(now.applied, i) == MarkOf(marks.applied, i)
  {
  }

  // ----- Nothing is missed -----

  /** Two live nodes with nothing left to apply, neither behind any such node, whose machines hash differently. */
  ghost predicate HashesClash<M>(live: map<NodeId, Live<M>>, hash: M -> string, i: NodeId, j: NodeId) {
    && i in live && j in live && hash(live[i].machine) != hash(live[j].machine)
    && live[i].core.applied == live[i].core.node.commit == live[j].core.applied == live[j].core.node.commit
    && forall k :: k in live && live[k].core.applied == live[k].core.node.commit ==> live[k].core.applied <= live[i].core.applied
  }

  /** Two stores that hold different entries as committed at one index. */
  ghost predicate EntriesClash(stores: map<NodeId, Store>, i: NodeId, j: NodeId, e: Entry, f: Entry) {
    && i in stores && j in stores && e in stores[i].entries && f in stores[j].entries && e.index == f.index
    && e.index <= stores[i].hard.commit && f.index <= stores[j].hard.commit && FingerprintOf(e) != FingerprintOf(f)
  }

  /**
   The audit finds fault exactly when there is one: a status that went back or is out of order, two live
   leaders of one term, a gap in a durable log, two stores at odds, or foremost machines that hash differently.
   */
  lemma FaultsExactly<M>(members: seq<NodeId>, live: map<NodeId, Live<M>>, stores: map<NodeId, Store>, marks: Marks,
                         hash: Option<M -> string>)
    requires forall i :: i in members ==> i in stores
    ensures !Acceptable(members, live, stores, marks, hash) <==>
              || (exists v: Violation :: LiveFault(v, marks, live))
              || (exists i :: i in members && StoreFault(DurableLogGap(i), i, stores[i], {}))
              || (exists i, j, e, f :: i in members && j in members && EntriesClash(stores, i, j, e, f))
              || (hash.Some? && exists i, j :: HashesClash(live, hash.value, i, j))
  {
    hide FingerprintOf, StatusFits, StatusFault, RunsFrom, Compatible, AllClaims;
    StatusesMissed(marks, live);
    LeadersMissed(marks, live);
    ClaimsMissed(stores, members);
    if hash.Some? {
      HashesMissed(live, hash.value);
    }
  }

  lemma StatusesMissed<M>(marks: Marks, live: map<NodeId, Live<M>>)
    ensures !StatusesFit(marks, live) <==> exists v: Violation :: !v.TwoLeaders? && LiveFault(v, marks, live)
  {
    if i :| i in live && !StatusFits(marks, i, live[i].core) {
      var c := live[i].core;
      var v := if c.node.term < MarkOf(marks.terms, i) then CurrentTermDecreased(i)
               else if c.node.commit < MarkOf(marks.commits, i) then CommitIndexDecreased(i)
               else if c.applied < MarkOf(marks.applied, i) then AppliedIndexDecreased(i)
               else if c.applied > c.node.commit then AppliedExceedsCommit(i) else CommitExceedsLog(i);
      assert StatusFault(v, marks, i, c);
      FaultIsLive(v, marks, live, i);
    }
  }

  lemma LeadersMissed<M>(marks: Marks, live: map<NodeId, Live<M>>)
    ensures !OneLeaderEach(live) <==> exists v: Violation :: v.TwoLeaders? && LiveFault(v, marks, live)
  {
    if !OneLeaderEach(live) {
      var i, j :|
        i in live && j in live && live[i].core.node.role == Leader && Leading(live[j], live[i].core.node.term) && i != j;
      assert LiveFault(TwoLeaders(live[i].core.node.term, i), marks, live);
    }
  }

  lemma HashesMissed<M>(live: map<NodeId, Live<M>>, hash: M -> string)
    ensures !MachinesFit(live, hash) <==> exists i, j :: HashesClash(live, hash, i, j)
  {
    if i, j :| HashesClash(live, hash, i, j) {
      assert Foremost(live, i) && Foremost(live, j);
    }
    if !MachinesFit(live, hash) {
      var i, j :|
        i in live && j in live && Foremost(live, i) && Foremost(live, j) && hash(live[i].machine) != hash(live[j].machine);
      assert HashesClash(live, hash, i, j);
    }
  }

  lemma ClaimsMissed(stores: map<NodeId, Store>, members: seq<NodeId>)
    requires forall i :: i in members ==> i in stores
    ensures !Compatible(AllClaims(stores, members)) <==>
              exists i, j, e, f :: i in members && j in members && EntriesClash(stores, i, j, e, f)
  {
    hide FingerprintOf;
    if i, j, e, f :| i in members && j in members && EntriesClash(stores, i, j, e, f) {
      ClaimCounted(stores, members, i, e);
      ClaimCounted(stores, members, j, f);
    }
    if !Compatible(AllClaims(stores, members)) {
      var c, d :| c in AllClaims(stores, members) && d in AllClaims(stores, members) && c.index == d.index && c != d;
      var i, e := ClaimSource(stores, members, c);
      var j, f := ClaimSource(stores, members, d);
      assert EntriesClash(stores, i, j, e, f);
    }
  }

  lemma {:induction false} ClaimCounted(stores: map<NodeId, Store>, members: seq<NodeId>, i: NodeId, e: Entry)
    requires (forall j :: j in members ==> j in stores) && i in members
    requires e in stores[i].entries && e.index <= stores[i].hard.commit
    ensures ClaimOf(e) in AllClaims(stores, members)
    decreases |members|
  {
    var last := |members| - 1;
    assert members == members[..last] + [members[last]];
    if i == members[last] {
      assert stores[i].entries[..|stores[i].entries|] == stores[i].entries;
    } else {
      ClaimCounted(stores, members[..last], i, e);
    }
  }

  // ----- Claims counted so far -----

  lemma NoClaimsYet(store: Store, committed: map<nat, Fingerprint>, claims: set<Claim>)
    requires Tallies(committed, claims)
    ensures Tallies(committed, claims + Claims(store, 0)) && RunsFrom(store.entries[..0], Boundary(store.snapshot) + 1)
  {
    assert claims + Claims(store, 0) == claims;
  }

  lemma RunGrows(store: Store, j: nat)
    requires j < |store.entries| && RunsFrom(store.entries[..j], Boundary(store.snapshot) + 1)
    requires store.entries[j].index == Boundary(store.snapshot) + 1 + j
    ensures RunsFrom(store.entries[..j + 1], Boundary(store.snapshot) + 1)
  {
  }

  lemma GapFound(store: Store, j: nat)
    requires j < |store.entries| && store.entries[j].index != Boundary(store.snapshot) + 1 + j
    ensures !RunsFrom(store.entries, Boundary(store.snapshot) + 1)
  {
  }

  /** Counting one more entry: it adds its claim if it is committed, and keeps a table that agrees with it exact. */
  lemma OneMoreClaim(store: Store, j: nat, committed: map<nat, Fingerprint>, claims: set<Claim>)
    requires j < |store.entries| && Tallies(committed, claims + Claims(store, j))
    ensures var e := store.entries[j];
            if e.index > store.hard.commit then Tallies(committed, claims + Claims(store, j + 1))
            else !(e.index in committed && committed[e.index] != FingerprintOf(e)) ==>
                   Tallies(committed[e.index := FingerprintOf(e)], claims + Claims(store, j + 1))
  {
    hide FingerprintOf;
    assert store.entries[..j + 1] == store.entries[..j] + [store.entries[j]];
    assert Claims(store, j + 1) == Claims(store, j)
             + if store.entries[j].index <= store.hard.commit then {ClaimOf(store.entries[j])} else {};
  }

  lemma ClaimsClash(committed: map<nat, Fingerprint>, claims: set<Claim>, store: Store, j: nat)
    requires j < |store.entries| && Tallies(committed, claims + Claims(store, j))
    requires var e := store.entries[j];
             e.index <= store.hard.commit && e.index in committed && committed[e.index] != FingerprintOf(e)
    ensures !Compatible(claims + Claims(store, |store.entries|))
    ensures exists c, d :: c in Claims(store, |store.entries|) && d in claims + Claims(store, |store.entries|)
              && c.index == store.entries[j].index && d.index == store.entries[j].index && c != d
  {
    var e := store.entries[j];
    var all := claims + Claims(store, |store.entries|);
    var known := Claim(e.index, committed[e.index]);
    assert store.entries[..|store.entries|] == store.entries;
    assert forall d :: d in store.entries[..j] ==> d in store.entries;
    assert known in all && ClaimOf(e) in all;
  }

  lemma ClaimsGrow(stores: map<NodeId, Store>, members: seq<NodeId>, k: nat)
    requires k < |members| && forall i :: i in members ==> i in stores
    ensures AllClaims(stores, members[..k + 1])
         == AllClaims(stores, members[..k]) + Claims(stores[members[k]], |stores[members[k]].entries|)
  {
    assert members[..k + 1][..k] == members[..k];
  }

  lemma {:induction false} ClaimsWithin(stores: map<NodeId, Store>, members: seq<NodeId>, k: nat)
    requires k <= |members| && forall i :: i in members ==> i in stores
    ensures AllClaims(stores, members[..k]) <= AllClaims(stores, members)
    decreases |members| - k
  {
    if k < |members| {
      ClaimsGrow(stores, members, k);
      ClaimsWithin(stores, members, k + 1);
    } else {
      assert members[..k] == members;
    }
  }
}
