/**
 The deterministic transition of one Raft core, as functions on values. Handlers that throw in the
 middle leave the fields they have already assigned: `Threw` carries that half-updated node.
 */
module Protocol {
  import opened RaftTypes
  import opened Logs

  datatype Progress = Progress(next: pos, matched: nat)

  /** The fields of the engine that the protocol reads and writes. */
  datatype Node = Node(role: Role, leaderId: Option<NodeId>, term: nat, votedFor: Option<NodeId>, commit: nat,
                       log: seq<Entry>, votes: set<NodeId>, progress: map<NodeId, Progress>)

  datatype Outcome =
    | Done(node: Node, fx: Effects)
    | Threw(node: Node, error: Error)

  /** A fresh engine over what a store holds. */
  function Recovered(hard: HardState, log: seq<Entry>): Node {
    Node(Follower, None, hard.term, hard.votedFor, hard.commit, log, {}, map[])
  }

  function Hard(s: Node): HardState {
    HardState(s.term, s.votedFor, s.commit)
  }

  predicate HasQuorum(cfg: Config, count: nat) {
    count >= Majority(cfg.members)
  }

  function Envelope(cfg: Config, s: Node, to: NodeId, body: Body): Message {
    Message(PROTOCOL_VERSION, cfg.cluster, cfg.self, to, s.term, body)
  }

  function SendOne(fx: Effects, m: Message): Effects {
    fx.(messages := fx.messages + [m])
  }

  function SaveHard(fx: Effects, s: Node): Effects {
    fx.(hardState := Some(Hard(s)))
  }

  function AppendFor(cfg: Config, s: Node, peer: NodeId): Message
    requires peer in s.progress
  {
    var next := s.progress[peer].next;
    Envelope(cfg, s, peer, AppendRequest(next - 1, TermOr0(s.log, next - 1), Suffix(s.log, next), s.commit))
  }

  function AppendsFor(cfg: Config, s: Node, peers: seq<NodeId>): (r: seq<Message>)
    requires forall p :: p in peers ==> p in s.progress
    ensures |r| == |peers| && forall k :: 0 <= k < |r| ==> peers[k] in s.progress && r[k] == AppendFor(cfg, s, peers[k])
  {
    if peers == [] then [] else [AppendFor(cfg, s, peers[0])] + AppendsFor(cfg, s, peers[1..])
  }

  function Broadcast(cfg: Config, s: Node, fx: Effects): Outcome {
    if forall p :: p in Peers(cfg) ==> p in s.progress
    then Done(s, fx.(messages := fx.messages + AppendsFor(cfg, s, Peers(cfg))))
    else Threw(s, MissingProgress)
  }

  function VoteRequestFor(cfg: Config, s: Node, peer: NodeId): Message {
    Envelope(cfg, s, peer, VoteRequest(|s.log|, LastTerm(s.log)))
  }

  function VoteRequestsFor(cfg: Config, s: Node, peers: seq<NodeId>): (r: seq<Message>)
    ensures |r| == |peers| && forall k :: 0 <= k < |r| ==> r[k] == VoteRequestFor(cfg, s, peers[k])
  {
    if peers == [] then [] else [VoteRequestFor(cfg, s, peers[0])] + VoteRequestsFor(cfg, s, peers[1..])
  }

  function MatchedPeers(s: Node, index: nat): set<NodeId> {
    set p | p in s.progress && s.progress[p].matched >= index
  }

  predicate Replicated(cfg: Config, s: Node, index: nat) {
    HasQuorum(cfg, 1 + |MatchedPeers(s, index)|)
  }

  /** The commit index the downward scan from `index` settles on. */
  function CommitTarget(cfg: Config, s: Node, index: nat): (r: nat)
    ensures s.commit <= r <= Max(s.commit, index)
    ensures r > s.commit ==> TermAt(s.log, r) == Some(s.term) && Replicated(cfg, s, r)
    ensures forall k :: r < k <= index && TermAt(s.log, k) == Some(s.term) ==> !Replicated(cfg, s, k)
    decreases index
  {
    if index <= s.commit then s.commit
    else if TermAt(s.log, index) == Some(s.term) && Replicated(cfg, s, index) then index
    else CommitTarget(cfg, s, index - 1)
  }

  function AdvancedNode(cfg: Config, s: Node): Node {
    if s.role == Leader then s.(commit := CommitTarget(cfg, s, |s.log|)) else s
  }

  function AdvanceLeaderCommit(cfg: Config, s: Node, fx: Effects): Outcome {
    var s' := AdvancedNode(cfg, s);
    Done(s', if s'.commit > s.commit then SaveHard(fx, s') else fx)
  }

  function LocalEntry(s: Node, kind: EntryKind, payload: seq<byte>, commandId: Option<string>): Entry {
    Entry(|s.log| + 1, s.term, kind, payload, commandId)
  }

  function AppendLocal(s: Node, fx: Effects, e: Entry): Outcome {
    Done(s.(log := s.log + [e]), fx.(entries := fx.entries + [e]))
  }

  function BroadcastAndCommit(cfg: Config, s: Node, fx: Effects): Outcome {
    var sent := Broadcast(cfg, s, fx);
    if sent.Threw? then sent else AdvanceLeaderCommit(cfg, sent.node, sent.fx)
  }

  function Crowned(cfg: Config, s: Node): Node {
    s.(role := Leader, leaderId := Some(cfg.self),
       progress := map p | p in Peers(cfg) :: Progress(|s.log| + 1, 0))
  }

  function BecomeLeader(cfg: Config, s: Node, fx: Effects): Outcome {
    var appended := AppendLocal(Crowned(cfg, s), fx, LocalEntry(s, Noop, [], None));
    BroadcastAndCommit(cfg, appended.node, appended.fx)
  }

  function Campaigning(cfg: Config, s: Node): Node {
    s.(role := Candidate, leaderId := None, term := s.term + 1, votedFor := Some(cfg.self), votes := {cfg.self})
  }

  function StartElection(cfg: Config, s: Node, fx: Effects): Outcome {
    var s' := Campaigning(cfg, s);
    var asked := SaveHard(fx, s').(messages := fx.messages + VoteRequestsFor(cfg, s', Peers(cfg)));
    if HasQuorum(cfg, |s'.votes|) then BecomeLeader(cfg, s', asked) else Done(s', asked)
  }

  function BecomeFollower(s: Node, term: nat, leader: Option<NodeId>, fx: Effects): Outcome {
    var s' := if term > s.term then s.(term := term, votedFor := None) else s;
    Done(s'.(role := Follower, leaderId := leader, votes := {}, progress := map[]),
         if term > s.term then SaveHard(fx, s') else fx)
  }

  predicate WillGrant(s: Node, m: Message)
    requires m.body.VoteRequest?
  {
    m.term == s.term
    && (s.votedFor == None || s.votedFor == Some(m.from))
    && VersionLeq(VersionOf(s.log), Version(m.body.lastLogTerm, m.body.lastLogIndex))
  }

  function HandleVoteRequest(cfg: Config, s: Node, m: Message, fx: Effects): Outcome
    requires m.body.VoteRequest?
  {
    if WillGrant(s, m) then
      var s' := s.(role := Follower, leaderId := None, votedFor := Some(m.from));
      Done(s', SendOne(SaveHard(fx, s'), Envelope(cfg, s', m.from, VoteResponse(true))))
    else
      Done(s, SendOne(fx, Envelope(cfg, s, m.from, VoteResponse(false))))
  }

  function HandleVoteResponse(cfg: Config, s: Node, m: Message, fx: Effects): Outcome
    requires m.body.VoteResponse?
  {
    if m.term < s.term || s.role != Candidate then Done(s, fx)
    else if m.term == s.term && m.body.granted then
      var s' := s.(votes := s.votes + {m.from});
      if HasQuorum(cfg, |s'.votes|) then BecomeLeader(cfg, s', fx) else Done(s', fx)
    else Done(s, fx)
  }

  function AppendReply(cfg: Config, s: Node, to: NodeId, success: bool, matchIndex: nat, hint: nat): Message {
    Envelope(cfg, s, to, AppendResponse(success, matchIndex, hint))
  }

  function RejectHint(s: Node, prev: nat): nat {
    if prev > |s.log| then |s.log| + 1 else prev
  }

  /** The last index the payload speaks about. */
  function PayloadEnd(body: Body): nat
    requires body.AppendRequest?
  {
    if body.entries == [] then body.prevLogIndex else body.entries[|body.entries| - 1].index
  }

  function HandleAppendRequest(cfg: Config, s: Node, m: Message, fx: Effects): Outcome
    requires m.body.AppendRequest?
  {
    if m.term < s.term then Done(s, SendOne(fx, AppendReply(cfg, s, m.from, false, 0, |s.log| + 1)))
    else
      var b := BecomeFollower(s, m.term, Some(m.from), fx);
      if TermAt(b.node.log, m.body.prevLogIndex) != Some(m.body.prevLogTerm) then
        Done(b.node, SendOne(b.fx, AppendReply(cfg, b.node, m.from, false, 0, RejectHint(b.node, m.body.prevLogIndex))))
      else AcceptEntries(cfg, b.node, m, b.fx)
  }

  function AcceptEntries(cfg: Config, s: Node, m: Message, fx: Effects): Outcome
    requires m.body.AppendRequest?
  {
    FinishAppend(cfg, s, m, MergeEntries(s.log, s.commit, None, [], m.body.entries), fx)
  }

  /** What follows the loop over the payload. */
  function FinishAppend(cfg: Config, s: Node, m: Message, merge: Merge, fx: Effects): Outcome
    requires m.body.AppendRequest?
  {
    if merge.Refused? then Threw(s.(log := merge.log), merge.error)
    else
      var commit := if m.body.leaderCommit > s.commit then Min(m.body.leaderCommit, |merge.log|) else s.commit;
      var s' := s.(log := merge.log, commit := commit);
      var fx1 := fx.(truncateFrom := if merge.truncateFrom.Some? then merge.truncateFrom else fx.truncateFrom,
                     entries := fx.entries + merge.appended);
      var fx2 := if commit != s.commit then SaveHard(fx1, s') else fx1;
      var end := PayloadEnd(m.body);
      Done(s', SendOne(fx2, AppendReply(cfg, s', m.from, true, end, end + 1)))
  }

  /** The leader's book-keeping for a success reply. */
  function Acknowledged(p: Progress, matchIndex: nat): Progress {
    var reached := Max(matchIndex, p.matched);
    Progress(reached + 1, reached)
  }

  /** The leader's book-keeping for a rejection. */
  function BackedOff(p: Progress, hint: nat): Progress {
    Progress(Max(1, Min(p.next - 1, hint)), p.matched)
  }

  /** After a success: announce a new commit index, and send the rest of the log if some is missing. */
  function FollowUp(cfg: Config, s: Node, advanced: bool, peer: NodeId, fx: Effects): Outcome
    requires peer in s.progress
  {
    var b := if advanced then Broadcast(cfg, s, fx) else Done(s, fx);
    if b.Done? && s.progress[peer].next <= |s.log| then Done(s, SendOne(b.fx, AppendFor(cfg, s, peer))) else b
  }

  function HandleAppendResponse(cfg: Config, s: Node, m: Message, fx: Effects): Outcome
    requires m.body.AppendResponse?
  {
    if m.term < s.term || s.role != Leader || m.from !in s.progress then Done(s, fx)
    else if m.body.success then
      var s1 := s.(progress := s.progress[m.from := Acknowledged(s.progress[m.from], m.body.matchIndex)]);
      var a := AdvanceLeaderCommit(cfg, s1, fx);
      FollowUp(cfg, a.node, a.node.commit > s.commit, m.from, a.fx)
    else
      var s1 := s.(progress := s.progress[m.from := BackedOff(s.progress[m.from], m.body.rejectHint)]);
      Done(s1, SendOne(fx, AppendFor(cfg, s1, m.from)))
  }

  function Dispatch(cfg: Config, s: Node, m: Message, fx: Effects): Outcome {
    match m.body
    case VoteRequest(_, _) => HandleVoteRequest(cfg, s, m, fx)
    case VoteResponse(_) => HandleVoteResponse(cfg, s, m, fx)
    case AppendRequest(_, _, _, _) => HandleAppendRequest(cfg, s, m, fx)
    case AppendResponse(_, _, _) => HandleAppendResponse(cfg, s, m, fx)
  }

  function HandleMessage(cfg: Config, s: Node, m: Message, fx: Effects): Outcome {
    if m.version != PROTOCOL_VERSION then Threw(s, UnsupportedVersion)
    else if m.cluster != cfg.cluster then Threw(s, CrossCluster)
    else if m.to != cfg.self || m.from !in cfg.members then Threw(s, WrongPeer)
    else
      var b := if m.term > s.term then BecomeFollower(s, m.term, None, fx) else Done(s, fx);
      Dispatch(cfg, b.node, m, b.fx)
  }

  function HandlePropose(cfg: Config, s: Node, commandId: string, payload: seq<byte>, fx: Effects): Outcome {
    if s.role != Leader then Threw(s, NotLeader)
    else if |commandId| == 0 || |commandId| > MAX_COMMAND_ID then Threw(s, BadCommandId)
    else if |payload| > cfg.maxBytes then Threw(s, PayloadTooLarge)
    else
      var a := AppendLocal(s, fx, LocalEntry(s, Command, payload, Some(commandId)));
      BroadcastAndCommit(cfg, a.node, a.fx)
  }

  /** One event, before the Ready batch is assembled. */
  function Handle(cfg: Config, s: Node, e: Event): Outcome {
    match e
    case ElectionTimeout => if s.role != Leader then StartElection(cfg, s, NO_EFFECTS) else Done(s, NO_EFFECTS)
    case HeartbeatTimeout => if s.role == Leader then Broadcast(cfg, s, NO_EFFECTS) else Done(s, NO_EFFECTS)
    case Deliver(m) => HandleMessage(cfg, s, m, NO_EFFECTS)
    case Propose(id, payload) => HandlePropose(cfg, s, id, payload, NO_EFFECTS)
  }
}
