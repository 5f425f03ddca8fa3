/** The values the Raft engine exchanges: log entries, messages, events, and Ready batches. */
module RaftTypes {

  datatype Option<+T> = None | Some(value: T)

  newtype byte = b: int | 0 <= b < 256

  /** A positive index: the first log slot is 1. */
  type pos = n: nat | 1 <= n witness 1

  datatype NodeId = NodeId(name: string)

  datatype Role = Follower | Candidate | Leader

  datatype EntryKind = Command | Configuration | Noop

  datatype Entry = Entry(index: nat, term: nat, kind: EntryKind, payload: seq<byte>, commandId: Option<string>)

  datatype HardState = HardState(term: nat, votedFor: Option<NodeId>, commit: nat)

  const PROTOCOL_VERSION: int := 1

  const MAX_COMMAND_ID: nat := 256

  /** The four messages share one envelope. */
  datatype Message = Message(version: int, cluster: string, from: NodeId, to: NodeId, term: nat, body: Body)

  datatype Body =
    | VoteRequest(lastLogIndex: nat, lastLogTerm: nat)
    | VoteResponse(granted: bool)
    | AppendRequest(prevLogIndex: nat, prevLogTerm: nat, entries: seq<Entry>, leaderCommit: nat)
    | AppendResponse(success: bool, matchIndex: nat, rejectHint: nat)

  datatype Event =
    | ElectionTimeout
    | HeartbeatTimeout
    | Deliver(message: Message)
    | Propose(commandId: string, payload: seq<byte>)

  /** What one step wants done before the core may move on. */
  datatype Effects = Effects(hardState: Option<HardState>, truncateFrom: Option<nat>,
                             entries: seq<Entry>, messages: seq<Message>)

  const NO_EFFECTS := Effects(None, None, [], [])

  datatype Ready = Ready(id: nat, hardState: Option<HardState>, truncateFrom: Option<nat>,
                         unstable: seq<Entry>, messages: seq<Message>, committed: seq<Entry>)

  /** Every way the engine, the node or a store can throw. */
  datatype Error =
    | BadClusterSize
    | NotAMember
    | DuplicateMember
    | BadTimeouts
    | OutstandingReady
    | UnknownReady
    | UnsupportedVersion
    | CrossCluster
    | WrongPeer
    | NotLeader
    | BadCommandId
    | PayloadTooLarge
    | OverwriteCommitted
    | NonContiguousAppend
    | MissingProgress
    | BrokenLog
    | BrokenCommit
    | BrokenApplied
    | InjectedFailure
    | TruncateCommitted
    | NonContiguousPersist
    | TermDecreased
    | VotedTwice
    | CommitDecreased
    | CommitBeyondLog
    | AppliedDecreased
    | AppliedBeyondCommit
    | SnapshotBackward
    | CompactBeyondSnapshot
    | MissingCommandId
    | MachineFailed

  /** What one node is told about the cluster it belongs to. */
  datatype Config = Config(self: NodeId, cluster: string, members: seq<NodeId>, maxBytes: nat)

  function Min(a: int, b: int): int { if a < b then a else b }

  function Max(a: int, b: int): int { if a > b then a else b }

  predicate Distinct(s: seq<NodeId>) {
    forall i, j :: 0 <= i < j < |s| ==> s[i] != s[j]
  }

  function Elements(s: seq<NodeId>): set<NodeId> {
    set x | x in s
  }

  /** `members.filter(member => member !== self)` */
  function Without(s: seq<NodeId>, x: NodeId): (r: seq<NodeId>)
    ensures forall y :: y in r <==> y in s && y != x
  {
    if s == [] then [] else if s[0] == x then Without(s[1..], x) else [s[0]] + Without(s[1..], x)
  }

  function Peers(cfg: Config): seq<NodeId> {
    Without(cfg.members, cfg.self)
  }

  function Majority(members: seq<NodeId>): nat {
    |members| / 2 + 1
  }

  predicate ValidConfig(cfg: Config) {
    cfg.self in cfg.members && Distinct(cfg.members)
  }
}
