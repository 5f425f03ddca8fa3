# A model of the embedded Raft engine, its runtime and its test cluster

The repository is a Raft engine for Node.js: `RaftCore` turns one event into one `Ready` batch, `RaftNode`
saves the batch, sends its messages, applies its entries and advances, two in-memory stores keep what
survives a crash, `MemoryNetwork` is a queue that tests may drop from, duplicate, reorder and partition,
and `TestCluster` drives whole scenarios and audits them. This project models each of those pieces in the
form it has in the repository and proves what the design promises of all of them together, following
sections 5.1 to 5.4 of the extended Raft paper by Ongaro and Ousterhout.

The model has three levels, each proved to be an instance of the one above.

1. **Cluster** (`Clusters`, `SafetyTheorems`). Any number of nodes. A step is one event handled by one
   node, or a restart that keeps only term, vote, commit index and log. The network is the set of every
   message ever sent, so loss, duplication, reordering and delay are all there. `Handle` in `Protocol` is
   the whole of `RaftCore.step` before the batch is assembled, as a function on values. `Histories` keeps
   what a run has done so far (each leader's log, each campaign, each vote, how far each log reached in each
   term); it appears in proofs only, never in the statements of the theorems.
2. **Runtime** (`Runtime`, `RuntimeRefinement`, `RuntimeTheorems`). One small step at a time: save, send each
   message, apply each entry, record it, advance. A crash may fall between any two steps, a store may be
   armed to refuse its next batch, the application may throw, a send may fail. `RuntimeIsCluster` maps every
   run of it to a run of level 1, which carries every safety theorem over to stores, queues and machines.
3. **Code** (`RaftCoreClass`, `RaftNodeClass`, `StoreClasses`, `NetworkClass`, `TestClusterClass`). Classes
   whose methods assign fields and loop where the TypeScript does. Each method is proved equal to the
   function on values used by the level above.

`Fields`, `Draining`, `Convergence` and `Elections` are about whole operations, each seen through before the next:
any order of deliveries ends, and what a heartbeat or a campaign ends with. `Settlements` proves every such scenario
a run of level 2, and `Quiescence` carries the results to any moment of any run of level 2 at which the nodes are
idle, whatever failed before. `Healing` starts from a cut network, `Proposals` follows one command from its client to
every machine, and `Origins` goes the other way, from any entry anywhere to its proposal. `Machines` says what a
machine is in terms of the application's apply alone. `Interleavings` proves that at level 2 too the nodes' small steps and the deliveries come
to an end in any interleaving. `Depositions`, `Leaderships`, `Ledgers`, `Snapshots` and `Passages` say of single
operations of engine, stores and network what they do, in plain terms. `Audits` and `Witnesses` are about the test cluster's own checks.

Where to start reading: `SafetyTheorems`, then `RuntimeTheorems` and `Origins.EveryCommandWasProposed`, then
`Proposals.RuntimeProposal`, `Healing.RuntimeHealing` and `Elections.RuntimeCampaign`.

## What turned out not to hold, and exactly when it does

- `MemoryRaftStorage.persist` is not all-or-nothing: it assigns the hard state before its last check. A refused
  batch leaves the store as it was unless it is of the kind `Stores.BadApplied` names, which a caller can check
  beforehand: a new hard state together with an applied index that does not suit it
  (`Stores.MemoryAtomicExactly`; `Stores.HalfSavedWitness` is such a batch).
- The two stores do not always agree: the plain one also takes a second vote in a term and a commit index beyond
  the log (`Stores.SecondVoteWitness`, `Stores.CommitBeyondLogWitness`). `Stores.StoresAgreeExactly` says from which
  state and on which operation they part.
- A batch that carries a snapshot can leave the restartable store invalid, because the boundary moves and the log
  stays. `Stores.DurableStep` says exactly when it does not, `Stores.MisfitWitness` gives a batch that does.
- The test cluster's audit can report a term or commit index that went back, although nothing durable did: a node
  whose save failed shows the new term in memory and loses it at the restart. `Audits.RestartFallsExactly` gives the
  exact condition, and `Witnesses.AuditReportsFall` continues any run with an idle node that does not lead to one on
  which the audit reports it. Nothing else is ever reported: `Audits.AuditExactly` proves that at any moment of any
  run the audit accepts exactly when no status lies behind its mark, and `Audits.AuditAccepts` that this is so
  whenever live nodes have finished their work.
- With automatic timers off, a node can stop for good and still be marked healthy: exactly when its store refuses
  to record an applied entry that is not a command (`RuntimeTheorems.SilentExactly`;
  `packages/raft-node/src/node.ts:272-277`). `Witnesses.SilentFreezeReached` is a run of one node that ends so. A timer
  reports what fails in an operation it started (`packages/raft-node/src/node.ts:153-154,320-322`), and one that fires
  later is refused by the engine and reports that.
- The cut and the entries of a batch do not always replay to the engine's log: exactly when an accepted payload cuts
  into entries it appended itself (`NodeFacts.EffectsReplayExactly`, `NodeFacts.CutsItselfWitness`). No request of a
  cluster does (`SafetyTheorems.RequestsNeverCutThemselves`).
- A campaign on a quiet network with everyone reachable succeeds exactly when the candidate's log is as new as a
  majority's (`Elections.CampaignDecides`). `Witnesses.OutvotedReached` is a scenario that leads to a quiet state from
  which a campaign fails.
- docs/architecture.md:43 says that full replay is not implemented. The code replays every committed entry on
  creation (`packages/raft-node/src/node.ts:102-121`), as docs/storage-and-durability.md:9 says; the model follows
  the code.
- The follower bounds the commit index by its own last index where Figure 2 of the paper uses the last new entry.
  `SafetyTheorems.BoundsCoincide` shows that the two bounds give the same result here.

## Model

| member | source | states |
|---|---|---|
| SafetyTheorems.StateMachineSafety | packages/raft-core/src/raft.ts:246-381 | in every run, no two nodes ever have different entries committed at one index, at any two moments, restarts included (section 5.4.3) |
| SafetyTheorems.CommittedOnMajority | packages/raft-core/src/raft.ts:367-381 | whatever any node has committed is, from then on, a prefix of the logs of a majority at every moment of the run (section 5.4) |
| SafetyTheorems.LeaderCompleteness | packages/raft-core/src/raft.ts:367-381 | whatever any node has committed by term T is a prefix of the log of every leader of every later term, whenever that leader is looked at (sections 5.4.1, 5.4.2) |
| SafetyTheorems.ElectionSafety | packages/raft-core/src/raft.ts:136-169 | over a whole run, at most one node leads a given term (section 5.2) |
| SafetyTheorems.LogMatching | packages/raft-core/src/raft.ts:246-282 | two logs, at any two moments, that share a term at an index are equal up to it (section 5.3) |
| SafetyTheorems.LeaderAppendOnly | packages/raft-core/src/raft.ts:308-321 | while a node leads one term its log only grows |
| SafetyTheorems.RequestOrigin | packages/raft-core/src/raft.ts:327-346 | every AppendEntries request ever sent was, at some moment before, the rest of the log of its term's leader from prevLogIndex to the end, with the term before it |
| SafetyTheorems.RequestsNeverCutThemselves | packages/raft-core/src/raft.ts:262-286 | no request a node of the cluster meets cuts into what it appends itself, so the reported effects always replay there |
| SafetyTheorems.RequestsAreSlices | packages/raft-core/src/raft.ts:327-346 | and it stays a slice of the log of that leader, previous term included, wherever the leader is seen later |
| SafetyTheorems.CommitBound | packages/raft-core/src/raft.ts:283-286 | no AppendEntries request ever sent announces a commit index beyond what it carries and verifies |
| SafetyTheorems.BoundsCoincide | packages/raft-core/src/raft.ts:283-286 | for a receiver that accepts, bounding the commit index by its own last index equals bounding it by the last new entry |
| SafetyTheorems.AckOrigin | packages/raft-core/src/raft.ts:286-289 | every acknowledgment ever sent is of the whole log its term's leader had at some moment before |
| SafetyTheorems.AckedIsHeld | packages/raft-core/src/raft.ts:286-289 | and its sender holds that log, entry for entry, for as long as it stays in the term |
| SafetyTheorems.FollowerMirrorsLeader | packages/raft-core/src/raft.ts:246-289 | for an accepted request there was a moment at which it was sent; the follower ends with the sender's log of that moment as a prefix, and any surplus is of the same term and in that leader's later log as well |
| SafetyTheorems.GuardsNeverFire | packages/raft-core/src/raft.ts:439-451 | from any reachable state any possible event is handled without a throw, except a refused proposal that changes nothing; the engine's assertions hold after it |
| SafetyTheorems.NothingGoesBack | packages/raft-core/src/raft.ts:92-124 | term, vote within a term, commit index and committed entries of a node never go back between any two states of a run |
| SafetyTheorems.TermsNeverFall | packages/raft-core/src/raft.ts:262-282 | log terms start at 1, never fall along the log and never exceed the current term |
| SafetyTheorems.LeaderBookkeeping | packages/raft-core/src/raft.ts:160-169 | a leader voted for itself, its last entry is of its own term, every peer is tracked, 1 <= nextIndex <= last + 1 and matchIndex <= last |
| SafetyTheorems.MatchIsHeld | packages/raft-core/src/raft.ts:291-301 | what a leader's matchIndex claims of a peer in its term, that peer's log holds, entry for entry |
| SafetyTheorems.CandidateLogStands | packages/raft-core/src/raft.ts:136-158 | while a node is a candidate its log is the one its vote requests described |
| Origins.ProposalExactly | packages/raft-core/src/raft.ts:109-120 | a proposal is taken if and only if the node leads and ID and payload are within the limits; then its ID and bytes are the last entry of the log and the one entry to save, and every peer is sent a request; otherwise it throws, saying why, and nothing changes |
| Origins.EntryWasProposed | packages/raft-core/src/raft.ts:246-321 | in every run, each entry in any log or request that is not a no-op was proposed, with those bytes and that ID, at an earlier step, to the node leading its term, at the end of that log |
| Origins.EveryCommandWasProposed | packages/raft-node/src/node.ts:184-211 | the same over every run of the runtime, for any entry in a store, in memory, in a batch or in the queue |
| Leaderships.KnownLeaderLed | packages/raft-core/src/raft.ts:171-182 | in every run, whomever a node takes for the leader did lead its term, then or before |
| Depositions.ReignEnds | packages/raft-core/src/raft.ts:247-252 | in every run, a node in a newer term that meets a request of an older one answers it, and once the sender takes that answer it never leads the older term again |
| Clusters.RunInv | packages/raft-core/src/raft.ts:92-124 | every run is explained by one ever-growing history under which all node and message invariants hold in every state |
| Clusters.StepInv | packages/raft-core/src/raft.ts:92-124 | one step of the cluster keeps the invariants under a later history |
| Handlers.EventHandled | packages/raft-core/src/raft.ts:92-124 | one honest event keeps the invariants of its node, of history and of every message it sends, and throws only to refuse a proposal |
| Decisions.LeaderComplete | packages/raft-core/src/raft.ts:367-381 | what a majority acknowledged in term t, ending in an entry of term t, was in the log every later leader was elected with |
| Decisions.CommittedAgree | packages/raft-core/src/raft.ts:367-381 | two committed prefixes are always comparable, whatever decisions cover them |
| Decisions.OneLeaderPerTerm | packages/raft-core/src/raft.ts:238-244 | a majority of votes elects one candidate only |
| Quorums.QuorumsIntersect | packages/raft-core/src/raft.ts:435-437 | two majorities of floor(n/2)+1 share a member, for any n |
| Decisions.EntriesNamed | packages/raft-core/src/raft.ts:308-321 | every command in a log of a run carries a command ID |
| NodeSteps.MergeOutcome | packages/raft-core/src/raft.ts:262-282 | on an honest request the loop never throws and the result lies between what was sent and the leader's whole log, without losing a committed entry or making the log older |
| NodeSteps.CountedIsCommitted | packages/raft-core/src/raft.ts:367-381 | an entry of the leader's own term counted on a majority is committed with everything before it |
| Logs.MergeReproducesSender | packages/raft-core/src/raft.ts:262-282 | for matching logs the append loop never throws and ends with the sender's prefix, or the log it had if that already contains it |
| Logs.MergeKeepsCommitted | packages/raft-core/src/raft.ts:262-282 | whatever the payload, even when it throws half-way, the log stays contiguous and committed entries survive |
| Protocol.CommitTarget | packages/raft-core/src/raft.ts:367-381 | the downward scan settles on the greatest index above the commit index with an entry of this term on a majority, and on the old commit index when there is none |
| NodeFacts.MergeTracks | packages/raft-core/src/raft.ts:262-286 | cutting at the reported index and appending the reported entries reproduces the loop's log |
| NodeFacts.EventSound | packages/raft-core/src/raft.ts:92-124 | for any event, forged ones and mid-way throws included, the assertions still hold and durable facts only advance; on consecutive payloads the effects replay exactly to the new durable fields |
| NodeFacts.EffectsReplayExactly | packages/raft-core/src/raft.ts:262-286 | the reported cut and entries replay to the engine's log if and only if no accepted payload cuts into what it appended itself |
| NodeFacts.CutsItselfWitness | packages/raft-core/src/raft.ts:246-289 | a request the engine takes and for which they do not: its log ends with one entry, the reported effects replay to two |
| NodeFacts.EventShips | packages/raft-core/src/raft.ts:327-346 | whatever the event, every request sent carries the sender's log as it is after the step, to its end |
| NodeFacts.EventStamped | packages/raft-core/src/raft.ts:348-365 | every message a step sends carries the sender and the sender's term after the step |
| RaftCoreClass.RaftCore.Step | packages/raft-core/src/raft.ts:92-124 | the method changes the fields, returns the batch and throws exactly as the transition function says, also when it throws half-way |
| RaftCoreClass.RaftCore.Advance | packages/raft-core/src/raft.ts:126-134 | retires exactly the outstanding batch and moves the applied index to its last entry; any other ID throws and changes nothing |
| RaftCoreClass.RaftCore.Create | packages/raft-core/src/raft.ts:53-76 | an engine is built exactly when the options are accepted and the loaded state passes the assertions |
| RaftCoreClass.RaftCore.AssertInvariants | packages/raft-core/src/raft.ts:439-451 | throws exactly when the log has a gap, the commit index passes the last index, or the applied index passes the commit index, in that order |
| RaftCoreClass.RaftCore.StartElection | packages/raft-core/src/raft.ts:136-158 | new term, own vote, one vote request per peer in order, and leadership at once when alone |
| RaftCoreClass.RaftCore.BecomeLeader | packages/raft-core/src/raft.ts:160-169 | fresh progress for every peer, the no-op, the broadcast, then the commit scan |
| RaftCoreClass.RaftCore.BecomeFollower | packages/raft-core/src/raft.ts:171-182 | steps down, and forgets the vote and saves only when the term rises |
| RaftCoreClass.RaftCore.HandleMessage | packages/raft-core/src/raft.ts:184-208 | the gates in order, then stepping down for a newer term, then the handler |
| RaftCoreClass.RaftCore.HandleVoteRequest | packages/raft-core/src/raft.ts:210-236 | grants exactly when term, vote and up-to-date check allow it, and answers in both cases |
| RaftCoreClass.RaftCore.HandleVoteResponse | packages/raft-core/src/raft.ts:238-244 | counts a vote once per peer and leads from the majority on |
| RaftCoreClass.RaftCore.HandleAppendRequest | packages/raft-core/src/raft.ts:246-289 | rejects stale and inconsistent requests with the right hint, otherwise accepts |
| RaftCoreClass.RaftCore.AcceptEntries | packages/raft-core/src/raft.ts:262-289 | merges the payload, moves the commit index, saves it if it moved, and acknowledges the payload's end |
| RaftCoreClass.RaftCore.MergePayload | packages/raft-core/src/raft.ts:262-282 | the loop over find, filter and push leaves the log, the cut and the appended entries of the merge function, or throws where it refuses |
| RaftCoreClass.RaftCore.HandleAppendResponse | packages/raft-core/src/raft.ts:291-306 | updates one peer's progress, scans for a new commit index, announces it, and sends what is missing |
| RaftCoreClass.RaftCore.BroadcastAppend | packages/raft-core/src/raft.ts:323-325 | one request per peer in member order, or a throw if a peer is not tracked |
| RaftCoreClass.RaftCore.AppendRequestFor | packages/raft-core/src/raft.ts:327-346 | the whole suffix from nextIndex, with the term before it and the commit index |
| RaftCoreClass.RaftCore.AdvanceLeaderCommit | packages/raft-core/src/raft.ts:367-381 | the count-down loop finds the commit index the scan function finds and saves it only if it moved |
| RaftCoreClass.RaftCore.CountReplicas | packages/raft-core/src/raft.ts:372-376 | counts the leader and every peer whose matchIndex reaches the index |
| RaftCoreClass.RaftCore.AssembleReady | packages/raft-core/src/raft.ts:383-407 | no batch when there is nothing to do, otherwise the effects with exactly the unapplied committed entries under the next ID |
| RaftCoreClass.RaftCore.HandlePropose | packages/raft-core/src/raft.ts:92-124 | a leader appends a named command, broadcasts and commits; each refusal in order |
| Depositions.StrangersRefused | packages/raft-core/src/raft.ts:184-190 | a message of another version or cluster, for another node or from a stranger throws, saying which, and changes nothing |
| Depositions.MembersHeard | packages/raft-core/src/raft.ts:184-190 | and no other message is refused for that |
| Depositions.StaleRequestRefused | packages/raft-core/src/raft.ts:247-252 | a request of an older term changes nothing and is answered with exactly one refusal, in the newer term |
| Depositions.NewerReplyDeposes | packages/raft-core/src/raft.ts:171-182 | a reply of a newer term leaves any receiver a follower of that term without a vote, and saves that |
| Depositions.VoteRequestAnswered | packages/raft-core/src/raft.ts:210-236 | every vote request is answered once, with the vote if and only if it is not stale, the vote is free and the candidate's log is as new |
| Depositions.AppendRequestAnswered | packages/raft-core/src/raft.ts:246-289 | every AppendEntries request that does not throw is answered once, with success if and only if it is not stale and the log has the entry before it; the match index and the hint of the answer |
| Depositions.CommitFollows | packages/raft-core/src/raft.ts:283-286 | a request that is taken moves the commit index to the announced one as far as the log reaches, and never back |
| Depositions.AnswerTaken | packages/raft-core/src/raft.ts:291-306 | what a leader records of an answer and what it sends next |
| Depositions.StaleAnswerIgnored | packages/raft-core/src/raft.ts:238-306 | an answer of an older term, or one not waited for, changes nothing |
| Leaderships.IdleTimeouts | packages/raft-core/src/raft.ts:96-102 | a leader ignores its election timeout and anyone else the heartbeat timeout |
| Leaderships.HeartbeatAsks | packages/raft-core/src/raft.ts:323-346 | a heartbeat changes nothing and sends every peer, in member order, all it has from the index on record, with the term before it |
| Leaderships.CampaignAsks | packages/raft-core/src/raft.ts:136-158 | a campaign saves the next term and the own vote and asks every peer, in member order |
| Leaderships.VictoryOpens | packages/raft-core/src/raft.ts:160-169 | the deciding vote makes a leader that appends a no-op of its term and sends it to every peer with the entry before it to verify |
| Leaderships.RequestNamesLeader | packages/raft-core/src/raft.ts:253 | whoever takes a request that is not stale follows its sender |
| Leaderships.SavedExactly | packages/raft-core/src/raft.ts:423-429 | term, vote and commit index are given to save if and only if one of them moved or a vote was given |
| RaftCoreClass.BetweenIsSlice | packages/raft-core/src/raft.ts:383-395 | filtering a contiguous list by an index range is a slice of it |
| RaftCoreClass.FindIsPositional | packages/raft-core/src/raft.ts:409-417 | searching a contiguous list by index is positional access |
| CoreSpec.StepKeepsCore | packages/raft-core/src/raft.ts:92-124 | any event whatever keeps the engine valid; the internal assertions and the missing-progress throw are unreachable |
| CoreSpec.AdvanceKeepsCore | packages/raft-core/src/raft.ts:126-134 | advancing applies everything committed, and a wrong ID changes nothing |
| CoreSpec.CommittedStream | packages/raft-core/src/raft.ts:126-134 | over any sequence of steps and advances the retired batches concatenate to exactly the log between the first and the last applied index, and no later truncation reaches it |
| Ledgers.EveryBatchOnce | packages/raft-core/src/raft.ts:383-407 | over any calls, the batches made are numbered on without a gap and retired in that order, each at most once; what is made and not retired is in hand |
| Ledgers.RetiredForGood | packages/raft-core/src/raft.ts:126-134 | so advancing a batch that was retired before throws and changes nothing |
| Ledgers.BatchesExact | packages/raft-core/src/raft.ts:383-407 | a step makes a batch if and only if it has something to save, send or apply, and the batch carries all of that; with one in hand it is refused |
| CoreSpec.OptionsExactly | packages/raft-core/src/raft.ts:53-61 | options are accepted if and only if the size is 1, 3 or 5, the node is a member, no member appears twice and the timeouts are in order; the first fault is the one reported |
| CoreSpec.AcceptedTolerates | packages/raft-core/src/raft.ts:53-61 | an accepted cluster of n has a majority without any (n - 1) / 2 members, and not without one more |
| Quorums.MajorityExactly | packages/raft-core/src/raft.ts:435-437 | a majority is exactly more than half |
| Logs.NewnessIsTotal | packages/raft-core/src/raft.ts:213-217 | the comparison of logs in elections is a total order on last term and length |
| ReadyRefinement.ReadyMatchesStore | packages/raft-core/src/raft.ts:383-407 | saving the batch of any step makes the durable term, vote, commit index and log the engine's own; a step without a batch changes none of them |
| ReadyRefinement.BatchAccepted | packages/raft-testing/src/restartable-storage.ts:34-79 | a batch that describes a step is refused only by an injected failure |
| Stores.DurableValidExactly | packages/raft-testing/src/restartable-storage.ts:34-97 | from the empty store, with any batches, that invariant holds throughout if and only if every embedded snapshot that is accepted fits the state it meets |
| Stores.MisfitWitness | packages/raft-testing/src/restartable-storage.ts:64-79 | an accepted batch whose snapshot leaves the store invalid |
| Stores.DurableStep | packages/raft-testing/src/restartable-storage.ts:34-97 | one operation: a throw changes nothing but the armed failure, term, commit and applied index never fall, and the invariant stands if and only if the operation is refused or its snapshot fits: an emptied log ends at the applied index, any other keeps its boundary |
| Snapshots.PersistExactly | packages/raft-testing/src/restartable-storage.ts:34-79 | a batch on a valid store is taken if and only if it is in order and no failure is armed; then the store holds all it brings and is otherwise as before |
| Snapshots.PlainPersistExactly | packages/raft-storage-memory/src/index.ts:34-75 | the same of the plain store, and what a refused batch leaves |
| Snapshots.InstallExactly | packages/raft-testing/src/restartable-storage.ts:81-91 | a snapshot is refused if and only if it moves backward; then the store holds that snapshot, data included, the entries above it and lifted indexes |
| Snapshots.PlainInstallExactly | packages/raft-storage-memory/src/index.ts:114-122 | the plain store takes any snapshot unless it is armed |
| Snapshots.CompactExactly | packages/raft-testing/src/restartable-storage.ts:93-97 | compaction is refused if and only if no snapshot reaches so far; otherwise only entries up to the index go |
| Snapshots.CompactionRestores | packages/raft-testing/src/restartable-storage.ts:93-97 | after a batch that carries a snapshot, compacting through it makes the store valid again |
| Snapshots.RefusalsGenuine | packages/raft-testing/src/restartable-storage.ts:34-79 | the reason either store gives for refusing a batch is so |
| Stores.PersistShape | packages/raft-testing/src/restartable-storage.ts:43-55 | popping and pushing amount to cutting before the truncation index and appending, possible exactly when the indexes continue |
| Stores.StoresAgreeExactly | packages/raft-storage-memory/src/index.ts:34-130 | from any state and on any operation the two stores accept alike and end alike if and only if none of the guards that differ decides |
| Stores.PlainBatchesAgree | packages/raft-storage-memory/src/index.ts:34-75 | on a valid store no batch without hard state and snapshot parts them |
| Stores.StoresStayTogether | packages/raft-storage-memory/src/index.ts:34-130 | kept away from those guards, the two stores go through the same states from empty on |
| Stores.AcceptedByBoth | packages/raft-storage-memory/src/index.ts:34-130 | what the restartable store accepts, the plain store accepts into the same state, except exactly a snapshot installed while a failure is armed |
| Stores.MemoryAtomicExactly | packages/raft-storage-memory/src/index.ts:57-70 | a refused batch leaves the plain store as it was, but for the armed failure, if and only if it does not bring a new hard state together with an applied index out of range |
| Stores.HalfSavedWitness | packages/raft-storage-memory/src/index.ts:57-70 | a batch that is refused and yet leaves its term behind |
| Stores.CommitBeyondLogWitness | packages/raft-storage-memory/src/index.ts:57-63 | a commit index beyond the log that one store refuses and the other takes, ending invalid |
| Stores.SecondVoteWitness | packages/raft-storage-memory/src/index.ts:57-63 | a second vote in one term that one store refuses and the other takes |
| StoreClasses.DurableMemoryStorageState.Persist | packages/raft-testing/src/restartable-storage.ts:34-79 | every check in order on a working copy, then all fields at once, as the store function says |
| StoreClasses.DurableMemoryStorageState.InstallSnapshot | packages/raft-testing/src/restartable-storage.ts:81-91 | never moves the boundary back; drops what the snapshot covers and lifts commit and applied index to it |
| StoreClasses.DurableMemoryStorageState.Compact | packages/raft-testing/src/restartable-storage.ts:93-97 | drops a covered prefix, never beyond the snapshot |
| StoreClasses.MemoryRaftStorage.Persist | packages/raft-storage-memory/src/index.ts:34-75 | assigns field after field, with the hard state already changed when the applied index is refused |
| StoreClasses.MemoryRaftStorage.InstallSnapshot | packages/raft-storage-memory/src/index.ts:114-122 | persists the snapshot first, then trims |
| StoreClasses.PopTail | packages/raft-testing/src/restartable-storage.ts:47 | the pop loop keeps exactly the entries before the first index to drop |
| StoreClasses.PushAll | packages/raft-testing/src/restartable-storage.ts:49-53 | the push loop appends all entries or none, stopping at the first that is out of place |
| StoreClasses.FilterAbove | packages/raft-testing/src/restartable-storage.ts:85 | the filter loop keeps exactly the entries above the index, in order |
| Networks.QueueSimulatesSet | packages/raft-transport-memory/src/index.ts:31-131 | over any operations whatever the queue hands out was sent before, and pending IDs stay distinct and below the next one |
| Networks.NetStep | packages/raft-transport-memory/src/index.ts:31-131 | each single operation keeps that |
| Passages.HealOpens | packages/raft-transport-memory/src/index.ts:64-67 | from any network, after healing every message sent is queued and every pending one reaches its receiver if registered |
| Passages.PartitionCuts | packages/raft-transport-memory/src/index.ts:56-62 | a partition stops exactly the messages between its sides, both ways, when sent and when delivered |
| Passages.HealUndoes | packages/raft-transport-memory/src/index.ts:56-67 | healing takes a partition back |
| Passages.DropAllStops | packages/raft-transport-memory/src/index.ts:69-71 | while everything is dropped nothing sent is queued, and what is pending still arrives |
| Passages.OnlyRegistered | packages/raft-transport-memory/src/index.ts:21-29 | only a registered receiver is handed anything |
| Passages.DuplicateAddsOne | packages/raft-transport-memory/src/index.ts:73-77 | one copy under a new ID, right before the original |
| Passages.ReorderTurns | packages/raft-transport-memory/src/index.ts:79-81 | what came first is delivered last; twice is as before |
| Passages.ByIdIsExact | packages/raft-transport-memory/src/index.ts:105-109 | by ID exactly the pending message with that ID is taken |
| NetworkClass.MemoryNetwork.Enqueue | packages/raft-transport-memory/src/index.ts:31-37 | appends under a fresh ID unless everything is dropped or the edge is blocked |
| NetworkClass.MemoryNetwork.Partition | packages/raft-transport-memory/src/index.ts:56-62 | blocks every edge between the two sides in both directions |
| NetworkClass.MemoryNetwork.Duplicate | packages/raft-transport-memory/src/index.ts:73-77 | inserts a copy under a fresh ID in front of the original |
| NetworkClass.MemoryNetwork.Reorder | packages/raft-transport-memory/src/index.ts:79-81 | swapping from both ends reverses the queue in place |
| NetworkClass.MemoryNetwork.Drop | packages/raft-transport-memory/src/index.ts:101-103 | removes one pending message and says whether there was one |
| NetworkClass.MemoryNetwork.Deliver | packages/raft-transport-memory/src/index.ts:123-131 | removes one pending message and hands it over exactly when its receiver is registered and the edge is open |
| NetworkClass.MemoryNetwork.DeliverById | packages/raft-transport-memory/src/index.ts:105-109 | the first pending message with the ID, or nothing |
| NetworkClass.MemoryRaftTransport.Start | packages/raft-transport-memory/src/index.ts:153-157 | registers the node and starts, unless it is registered already |
| NetworkClass.MemoryRaftTransport.Send | packages/raft-transport-memory/src/index.ts:159-165 | takes a message exactly when started and the envelope names this node and that peer |
| NetworkClass.MemoryRaftTransport.Stop | packages/raft-transport-memory/src/index.ts:167-171 | unregisters the node and stops |
| RaftNodeClass.RaftNode.Create | packages/raft-node/src/node.ts:91-134 | applies exactly the committed commands in order to a fresh machine, records them as applied, and opens the engine over the store; fails exactly where recovery, the options or the time limits fail |
| RaftNodeClass.RaftNode.Process | packages/raft-node/src/node.ts:234-242 | one queued operation leaves engine, machine, store, network and health as the small steps run to their end over its transport leave them, throws exactly when the engine refuses or the node freezes, and announces a changed role |
| RaftNodeClass.RaftNode.ProcessReady | packages/raft-node/src/node.ts:244-270 | save, then send what the transport takes, then apply in order, then advance; a failed save sends and applies nothing |
| RaftNodeClass.RaftNode.SendMessages | packages/raft-node/src/node.ts:259-267 | messages go out in order; one the transport refuses is skipped and the others still go |
| RaftNodeClass.RaftNode.ApplyCommitted | packages/raft-node/src/node.ts:268 | entries are applied one after the other until one fails |
| RaftNodeClass.RaftNode.Apply | packages/raft-node/src/node.ts:272-306 | a command leaves the machine apply returns for it and anything else leaves it alone; records the index, and marks the node unhealthy exactly in the cases the code does |
| RuntimeRefinement.RuntimeIsCluster | packages/raft-node/src/node.ts:91-306 | every run of the runtime is state by state a run of the cluster: the store holds the node's durable fields and everything queued was sent |
| RuntimeRefinement.RecoveredHolds | packages/raft-node/src/node.ts:91-134 | recovery leaves a machine that is the fold of exactly the committed prefix, and an engine that agrees with its store |
| RuntimeTheorems.DurableStateMachineSafety | packages/raft-testing/src/restartable-storage.ts:34-79 | no two stores ever hold different entries at an index both have durably committed, at any two moments |
| RuntimeTheorems.DurableOnMajority | packages/raft-testing/src/restartable-storage.ts:34-79 | whatever any store has recorded as committed is a prefix of the stores of a majority at every later moment, whatever crashes, failed saves and leaders come after |
| RuntimeTheorems.RuntimeElectionSafety | packages/raft-node/src/node.ts:244-258 | no two engines ever lead one term in memory, even one that failed to save or crashed before sending |
| RuntimeTheorems.ReplicaAgreement | packages/raft-node/src/node.ts:272-306 | between batches a machine is what apply makes of the commands among entries 1 to its applied index, in order, so equal applied indexes mean equal machines, after any crashes and replays |
| Machines.FoldIsApplied | packages/raft-node/src/node.ts:102-121 | replay is apply run over the commands of the log from first to last, and throws on one without an ID |
| Machines.RecorderKeepsAll | packages/raft-node/src/node.ts:272-306 | an application that records what it is given ends with exactly the commands of the log, each once, in order |
| Machines.AppliesExactly | packages/raft-node/src/node.ts:272-306 | one committed entry: what goes through the application, what is recorded, and when the node stops and says so |
| Machines.SendsOrLoses | packages/raft-node/src/node.ts:259-267 | a message is queued when it is its turn and the transport takes it; otherwise it is lost and the next is tried |
| RuntimeTheorems.PersistBeforeSend | packages/raft-node/src/node.ts:244-267 | when a vote or an acknowledgment is sent the sender's store already holds the term, the vote and the log it speaks of |
| RuntimeTheorems.QueuedRepliesBacked | packages/raft-node/src/node.ts:244-267 | as long as a vote or an acknowledgment is queued, the sender's store stands by it |
| RuntimeTheorems.AckedPrefixIsLeaders | packages/raft-core/src/raft.ts:286-289 | for an acknowledgment on its way there was a moment at which the store of its term's leader held a log ending at the match index; the sender's store holds that log for as long as it stays in the term |
| RuntimeTheorems.StoreGuardsNeverFire | packages/raft-testing/src/restartable-storage.ts:42-73 | no batch and no applied index saved for a step is refused by the store's own checks |
| RuntimeTheorems.RecoveryOpensExactly | packages/raft-node/src/node.ts:91-134 | at any moment of any run, recovery opens an engine if and only if the application accepts what is committed and the store is not armed against the applied index to be saved; the assertions on what is loaded never fail |
| RuntimeTheorems.FreezesExactly | packages/raft-node/src/node.ts:244-306 | a step freezes the node if and only if its store was made to fail or the application threw on a command |
| RuntimeTheorems.SilentExactly | packages/raft-node/src/node.ts:272-277 | in an operation started by a caller or a delivery, with automatic timers off, a step freezes the node without costing its health if and only if its store refuses to record an applied entry that is not a command |
| Witnesses.SilentFreezeReached | packages/raft-node/src/node.ts:272-277 | a run of one node that ends frozen and healthy |
| RuntimeTheorems.FrozenUntilCrash | packages/raft-node/src/node.ts:332-338 | a frozen node, its durable state and its queued messages are touched by no step but a crash, and it sends nothing new |
| Fields.TestRunInv | packages/raft-testing/src/test-cluster.ts:85-151 | every scenario of whole operations is a run of the cluster, with a leader's commit index as great as its book-keeping allows |
| Fields.CommitIsExact | packages/raft-core/src/raft.ts:367-381 | in every state of every run no entry of the leader's term above its commit index is on a majority it knows of |
| Deliveries.DeliveryShaped | packages/raft-core/src/raft.ts:184-306 | a delivery that moves no term, election or commit index leaves roles and a leader's log alone and sends at most one message, which follows from the one taken |
| Draining.DeliveryIsSmaller | packages/raft-testing/src/test-cluster.ts:95-108 | every delivery lowers the lexicographic measure of terms, elections, commit indexes and weighted messages in flight |
| Convergence.EveryScheduleDrains | packages/raft-testing/src/test-cluster.ts:95-108 | from any state of any scenario, partitioned or not, every order of deliveries empties the queue after finitely many |
| Interleavings.EveryInterleavingEnds | packages/raft-node/src/node.ts:234-306 | from any state of any small-step run, partitioned, armed, frozen or half done, no interleaving of the nodes' own steps (save, send, apply, advance) and of deliveries goes on for ever |
| Interleavings.RestExactly | packages/raft-node/src/node.ts:234-306 | such a step is possible if and only if a message is queued or a live node has a batch to work on |
| Convergence.Drain | packages/raft-testing/src/test-cluster.ts:95-108 | the drain loop follows the schedule and throws exactly when the limit is spent with messages still pending |
| Convergence.HeartbeatConverges | packages/raft-transport-memory/src/index.ts:133-143 | after a heartbeat of a leader as new as everything else, with all reachable, any order that empties the queue leaves every log equal to that leader's log, all of it committed, and everyone else its follower in its term |
| Convergence.HeartbeatConvergesAlways | packages/raft-transport-memory/src/index.ts:133-143 | and every order does empty it |
| Healing.HealedConverges | packages/raft-testing/src/test-cluster.ts:120-131 | from any scenario, however the network is cut, with all registered: after healing, the newest leader's heartbeat and any order of deliveries end with every log its own and committed and everyone else its follower |
| Healing.StaleLeaderDeposed | packages/raft-testing/src/test-cluster.ts:120-131 | after healing, the heartbeat of a leader left behind in an older term ends, in any order of deliveries and whatever else is in flight, with that leader in the newer term |
| Proposals.ProposalCommits | packages/raft-testing/src/test-cluster.ts:115-122 | from any scenario with one newest leader and all reachable, a proposal within the limits and any order of deliveries end with its bytes as the last entry of every log, committed |
| Elections.CampaignDecides | packages/raft-core/src/raft.ts:136-169 | on a quiet network with all reachable, the campaign of a node whose term is as high as any makes it leader, with all logs its own and committed, if and only if its log is as new as a majority's; otherwise nobody leads and no log changes |
| Elections.ScenarioCampaign | packages/raft-testing/src/test-cluster.ts:85-88 | in any scenario such a campaign is decided so after finitely many deliveries in any order |
| Elections.RuntimeCampaign | packages/raft-node/src/node.ts:174-177 | from any moment of any small-step run with all members up and idle and nothing in flight, a campaign backed by a majority ends with every store holding that log and the no-op as committed and every machine the fold over it |
| LogRepair.OneRejection | packages/raft-core/src/raft.ts:254-261 | a rejection leaves the peer's log alone and makes the leader probe a strictly smaller index: the end of a shorter log, else one less |
| LogRepair.RejectionsExact | packages/raft-core/src/raft.ts:291-306 | the exact number of rejections: one if the first probe passes the peer's log, plus one for every index down to the greatest at which the terms agree |
| LogRepair.RejectionsBounded | packages/raft-core/src/raft.ts:291-306 | at most min(P, F + 1) rejections |
| LogRepair.RepairEnds | packages/raft-core/src/raft.ts:246-306 | in any reachable state such an exchange is refused at most min(P, F + 1) times, then the peer accepts and holds exactly the leader's log and the greater commit index |
| Settlements.WorkToEnd | packages/raft-node/src/node.ts:244-270 | a busy node's own small steps are a run that ends where the whole operation ends |
| Settlements.OperationDone | packages/raft-node/src/node.ts:234-270 | a whole operation on an idle node ends idle if and only if it makes no batch, or its store takes it and the application accepts what is committed; then it did to node, store and queue what the scenario level says |
| Settlements.ScenarioIsRun | packages/raft-testing/src/test-cluster.ts:85-151 | every scenario whose committed entries the application accepts is a run of the small-step runtime ending in the same state, all nodes idle and fully applied |
| Quiescence.QuiescentReplicas | packages/raft-testing/src/test-cluster.ts:95-108 | after such a heartbeat and any order of deliveries every store holds the leader's whole log as committed and every machine is the fold of apply over it, provided the application accepts that log |
| Quiescence.RuntimeQuiescence | packages/raft-node/src/node.ts:179-182 | the same from any moment of any small-step run at which every member is up and idle, whatever was lost, refused or crashed before |
| Healing.RuntimeHealing | packages/raft-testing/src/test-cluster.ts:120-131 | the same from any such moment however the network is cut, once it is healed |
| Proposals.RuntimeProposal | packages/raft-node/src/node.ts:184-230 | from any such moment a proposal the application accepts continues the run, in any order of deliveries, until every store holds it as its last committed entry and every machine is what apply makes of it |
| Quiescence.RegisteredAreUp | packages/raft-transport-memory/src/index.ts:153-171 | at any moment of a run exactly the nodes that are up can be reached |
| Audits.AuditExactly | packages/raft-testing/src/test-cluster.ts:158-217 | at any moment of any run, between any two small steps, the audit accepts if and only if no live status has gone back behind its mark: leaders, stores and hashes of caught-up machines always fit |
| Audits.AuditAccepts | packages/raft-testing/src/test-cluster.ts:158-217 | so on any run, failures and crashes included, it finds nothing whenever live nodes have finished their work, then and when the marks were taken |
| Audits.RestartFallsExactly | packages/raft-testing/src/test-cluster.ts:163-177 | after a crash and a restart at any later moment, whatever others do in between, a status has gone back if and only if it was seen while a batch raising term or commit index was unsaved |
| Witnesses.ArmedCampaignUnsettles | packages/raft-testing/src/test-cluster.ts:163-177 | from any run with an idle node that does not lead, a state with such an unsaved batch is reached |
| Witnesses.AuditReportsFall | packages/raft-testing/src/test-cluster.ts:163-177 | and its crash and restart give a run on which the audit reports a status that went back |
| Witnesses.OutvotedReached | packages/raft-core/src/raft.ts:136-169 | a scenario of two nodes reaches a quiet state in which a node's log is as new as no majority's, so its campaign fails |
| Audits.StoresAlwaysFit | packages/raft-testing/src/test-cluster.ts:186-199 | in every state of every run the durable logs are contiguous and their committed entries have equal fingerprints |
| Audits.FingerprintsExact | packages/raft-testing/src/test-cluster.ts:195-197 | two entries at one index have one fingerprint if and only if they are the same, payload and ID included |
| Audits.ClaimsTell | packages/raft-testing/src/test-cluster.ts:195-197 | so in any state of a run the comparison of fingerprints decides whether two entries are the same |
| TestClusterClass.FaultsExactly | packages/raft-testing/src/test-cluster.ts:158-217 | the audit finds fault if and only if a status went back or is out of order, two live nodes lead one term, a durable log has a gap, two stores hold different committed entries at one index, or foremost machines hash differently |
| TestClusterClass.TestCluster.AssertInvariants | packages/raft-testing/src/test-cluster.ts:158-217 | reports nothing if and only if statuses, leaders, stores and state hashes are acceptable, and then all marks are new; what it reports is so of the member it names, with everything looked at before in order, and only statuses that had not gone back were recorded |
| TestClusterClass.TestCluster.CheckLive | packages/raft-testing/src/test-cluster.ts:159-182 | nothing is reported if and only if no status went back or is out of order and no term has two live leaders; a report is true of the member named; what was recorded either way |
| TestClusterClass.TestCluster.CheckStores | packages/raft-testing/src/test-cluster.ts:184-199 | nothing is reported if and only if every durable log is contiguous and committed fingerprints agree; a report is true of the member and index named |
| TestClusterClass.TestCluster.CheckMachines | packages/raft-testing/src/test-cluster.ts:201-216 | nothing is reported if and only if the foremost caught-up machines hash alike |

## Left out

- RaftNodeClass.RaftNode.Create: requires a store without a snapshot. The engine never emits one and `#appendFor` cannot serve a compacted prefix, so engine, runtime and cluster have their boundary at 0; snapshots appear in the two stores only.
- RaftNodeClass.RaftNode.Apply: does not model pending and completed proposals, the retention limit or the result a client receives. They have no effect on logs or machines, and the repository does not promise exactly-once.
- Settlements.ScenarioIsRun: scenarios have no armed stores; runs that have are covered by `RuntimeTheorems` and, once the nodes are idle again, by `Quiescence`.
- Elections.CampaignDecides: starts with nothing in flight. An old message could still lengthen a peer's log before it is asked for its vote.
- RuntimeTheorems.SilentExactly: does not model operations started by an automatic timer, which marks the node unhealthy on any failure.
- Convergence.Drain: models the limit and the order of deliveries, not the yields to the event loop between rounds.
- NetworkClass.MemoryNetwork.Deliver: returns the message for its handler, because the handler runs as a separate operation of the receiving node.
- TestClusterClass.TestCluster.AssertInvariants: reads each live node's status and machine as values; the order in which members are visited is not modelled, so which of several violations of one kind of check is named is left open.
- Counters are natural numbers, so forged messages with negative indexes or terms are not modelled; neither are negative positions given to the queue.
- Each queued operation of a node is one serialized operation: promises, timers, `#enqueue`, `withTimeout` and `read` are not modelled, and a delivery to a busy node is one that comes later. `stop` waits for queued work; the model lets a crash fall anywhere.
- Codecs, SHA-256 (fingerprints are compared before hashing), ID formats and byte cloning: payloads are byte sequences, and decoding is part of the application's `apply`.
- Storage handles that are closed: the runtime never meets one between start and stop.
- `getEntries`, `getTerm`, `status`, error events, the history list of `MemoryRaftStorage`, `waitForPending`: readers and notifications.
- The key-value machines, `SeededRandom`, `VirtualClock`, the demo and the visualizer: an arbitrary `apply` stands for the machines, and any schedule for the random one.
