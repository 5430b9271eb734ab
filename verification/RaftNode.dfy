/** One Raft server as the code keeps it: a compacted log (`logs[0]` stands for the snapshot
    boundary), volatile leader state, the apply state, and what was last saved. The functions
    are the handlers, one per locked section. */
module RaftNode {
  import opened KvStore
  import opened RaftLog
  import opened RaftGroup

  /** What `persist` saves, together with the service snapshot. */
  datatype Disk = Disk(currentTerm: nat, votedFor: int, logs: Log,
                       lastIncludedIndex: nat, lastIncludedTerm: nat, snapshot: Option<Store>)

  datatype ApplyMsg =
    | CommandMsg(index: nat, cmd: Command)
    | SnapshotMsg(index: nat, term: nat, data: Option<Store>)

  datatype NodeData = NodeData(
    me: nat, peers: nat,
    currentTerm: nat, votedFor: int, logs: Log,
    lastIncludedIndex: nat, lastIncludedTerm: nat, snapshot: Option<Store>,
    role: Role, votes: set<nat>, nextIndex: seq<nat>, matchIndex: seq<nat>,
    commitIndex: nat, lastApplied: nat, pendingSnapshot: Option<ApplyMsg>,
    disk: Disk)

  predicate WellFormed(nd: NodeData) {
    nd.me < nd.peers && (nd.role == Leader ==> |nd.nextIndex| == nd.peers == |nd.matchIndex|)
  }

  const FRESH_DISK := Disk(0, -1, [DUMMY], 0, 0, None)

  type Node = nd: NodeData | WellFormed(nd) witness Booted(0, 1, FRESH_DISK)

  datatype VoteArgs = VoteArgs(term: nat, candidateId: nat, lastLogIndex: nat, lastLogTerm: nat)
  datatype VoteReply = VoteReply(term: nat, voteGranted: bool)

  datatype AppendArgs = AppendArgs(term: nat, leaderId: nat, prevLogIndex: nat, prevLogTerm: nat,
                                   entries: seq<Entry>, leaderCommit: nat)
  datatype AppendReply = AppendReply(term: nat, success: bool, conflictTerm: int, conflictIndex: nat)

  datatype InstallArgs = InstallArgs(term: nat, leaderId: nat, lastIncludedIndex: nat,
                                     lastIncludedTerm: nat, data: Option<Store>)

  // ----- indices -----

  function LastIndex(nd: NodeData): nat {
    nd.lastIncludedIndex + |nd.logs| - 1
  }

  predicate Contains(nd: NodeData, index: nat) {
    nd.lastIncludedIndex <= index <= LastIndex(nd)
  }

  function EntryAt(nd: NodeData, index: nat): Entry
    requires Contains(nd, index)
  {
    nd.logs[index - nd.lastIncludedIndex]
  }

  function TermAt(nd: NodeData, index: nat): nat
    requires Contains(nd, index)
  {
    EntryAt(nd, index).term
  }

  function Majority(n: nat): nat {
    n / 2 + 1
  }

  // ----- persistence and roles -----

  function DiskOf(nd: NodeData): Disk {
    Disk(nd.currentTerm, nd.votedFor, nd.logs, nd.lastIncludedIndex, nd.lastIncludedTerm, nd.snapshot)
  }

  function Persist(nd: Node): Node {
    nd.(disk := DiskOf(nd))
  }

  /** `Make` on what was saved. */
  function Booted(me: nat, peers: nat, d: Disk): NodeData {
    NodeData(me, peers, d.currentTerm, d.votedFor, d.logs, d.lastIncludedIndex, d.lastIncludedTerm, d.snapshot,
             Follower, {}, [], [], d.lastIncludedIndex, d.lastIncludedIndex, None, d)
  }

  function BecomeFollower(nd: Node, term: nat): Node {
    if term > nd.currentTerm then
      Persist(nd.(currentTerm := term, votedFor := -1)).(role := Follower)
    else nd.(role := Follower)
  }

  function BecomeLeader(nd: Node): Node {
    var last := LastIndex(nd);
    nd.(role := Leader,
        nextIndex := seq(nd.peers, p => last + 1),
        matchIndex := seq(nd.peers, p => if p == nd.me then last else 0))
  }

  // ----- elections -----

  function Stood(nd: Node): Node {
    Persist(nd.(role := Candidate, currentTerm := nd.currentTerm + 1, votedFor := nd.me, votes := {nd.me}))
  }

  function StartElection(nd: Node): Node {
    if 1 >= Majority(nd.peers) then BecomeLeader(Stood(nd)) else Stood(nd)
  }

  function VoteRequest(nd: Node): VoteArgs {
    VoteArgs(nd.currentTerm, nd.me, LastIndex(nd), LastTerm(nd.logs))
  }

  predicate GrantsVote(nd: Node, args: VoteArgs) {
    && (nd.votedFor == -1 || nd.votedFor == args.candidateId)
    && (args.lastLogTerm > LastTerm(nd.logs)
        || (args.lastLogTerm == LastTerm(nd.logs) && args.lastLogIndex >= LastIndex(nd)))
  }

  function CatchUp(nd: Node, term: nat): Node {
    if term > nd.currentTerm then BecomeFollower(nd, term) else nd
  }

  function HandleVote(nd: Node, args: VoteArgs): (Node, VoteReply) {
    if args.term < nd.currentTerm then (nd, VoteReply(nd.currentTerm, false))
    else
      var nd1 := CatchUp(nd, args.term);
      if GrantsVote(nd1, args) then
        (Persist(nd1.(votedFor := args.candidateId)), VoteReply(nd1.currentTerm, true))
      else (nd1, VoteReply(nd1.currentTerm, false))
  }

  /** One goroutine per peer counts at most one reply, so the count is a set of peers. */
  function HandleVoteReply(nd: Node, from: nat, args: VoteArgs, reply: VoteReply): Node {
    if reply.term > nd.currentTerm then BecomeFollower(nd, reply.term)
    else if nd.role != Candidate || nd.currentTerm != args.term || !reply.voteGranted then nd
    else
      var nd1 := nd.(votes := nd.votes + {from});
      if |nd1.votes| >= Majority(nd.peers) then BecomeLeader(nd1) else nd1
  }

  // ----- replication, follower side -----

  /** First index of the run of equal terms that ends at `index`, within the kept log. */
  function RunStart(logs: Log, base: nat, index: nat): (r: nat)
    requires base <= index < base + |logs|
    ensures base <= r <= index && logs[r - base].term == logs[index - base].term
    decreases index
  {
    if index > base && logs[index - 1 - base].term == logs[index - base].term
    then RunStart(logs, base, index - 1) else index
  }

  /** The merge loop: entries are compared from offset `off` on; the first one that is missing
      or has another term replaces everything from there. */
  function Merge(logs: Log, off: nat, entries: seq<Entry>): (r: Log)
    requires 0 < off <= |logs|
    decreases |entries|
  {
    if entries == [] then logs
    else if off == |logs| then logs + entries
    else if logs[off].term != entries[0].term then logs[..off] + entries
    else Merge(logs, off + 1, entries[1..])
  }

  function FollowerCommit(nd: Node, args: AppendArgs): Node {
    var lastNew := args.prevLogIndex + |args.entries|;
    var newCommit := if lastNew < args.leaderCommit then lastNew else args.leaderCommit;
    if args.leaderCommit > nd.commitIndex && newCommit > nd.commitIndex
    then nd.(commitIndex := newCommit) else nd
  }

  function MergeInto(nd: Node, args: AppendArgs): Node
    requires Contains(nd, args.prevLogIndex)
  {
    var logs := Merge(nd.logs, args.prevLogIndex + 1 - nd.lastIncludedIndex, args.entries);
    if logs == nd.logs then nd else Persist(nd.(logs := logs))
  }

  function HandleAppend(nd: Node, args: AppendArgs): (Node, AppendReply) {
    if args.term < nd.currentTerm then (nd, AppendReply(nd.currentTerm, false, -1, 0))
    else FollowerAppend(BecomeFollower(nd, args.term), args)
  }

  /** A follower of the leader's term checks the previous entry, and merges and commits if it matches. */
  function FollowerAppend(nd: Node, args: AppendArgs): (Node, AppendReply) {
    var term, prev := nd.currentTerm, args.prevLogIndex;
    if prev > LastIndex(nd) then (nd, AppendReply(term, false, -1, LastIndex(nd) + 1))
    else if prev < nd.lastIncludedIndex then (nd, AppendReply(term, false, -1, nd.lastIncludedIndex + 1))
    else if TermAt(nd, prev) != args.prevLogTerm then
      (nd, AppendReply(term, false, TermAt(nd, prev), RunStart(nd.logs, nd.lastIncludedIndex, prev)))
    else (FollowerCommit(MergeInto(nd, args), args), AppendReply(term, true, -1, 0))
  }

  /** Keeps what follows the snapshot boundary when the boundary entry matches. */
  function InstalledLogs(nd: Node, args: InstallArgs): Log {
    [Entry(args.lastIncludedTerm, Nil)] +
    if Contains(nd, args.lastIncludedIndex) && TermAt(nd, args.lastIncludedIndex) == args.lastIncludedTerm
    then nd.logs[args.lastIncludedIndex - nd.lastIncludedIndex + 1..] else []
  }

  /** The boundary moves to the snapshot's. */
  function Rebased(nd: Node, args: InstallArgs): Node {
    nd.(lastIncludedIndex := args.lastIncludedIndex,
        lastIncludedTerm := args.lastIncludedTerm,
        logs := InstalledLogs(nd, args),
        snapshot := args.data,
        commitIndex := args.lastIncludedIndex,
        lastApplied := args.lastIncludedIndex)
  }

  function Install(nd: Node, args: InstallArgs): Node {
    Persist(Rebased(nd, args)).(pendingSnapshot :=
      Some(SnapshotMsg(args.lastIncludedIndex, args.lastIncludedTerm, args.data)))
  }

  /** The reply carries a term and nothing else. */
  function HandleInstall(nd: Node, args: InstallArgs): (Node, nat) {
    if args.term < nd.currentTerm then (nd, nd.currentTerm)
    else
      var nd1 := BecomeFollower(nd, args.term);
      if args.lastIncludedIndex <= nd1.commitIndex then (nd1, nd1.currentTerm)
      else (Install(nd1, args), nd1.currentTerm)
  }

  // ----- replication, leader side -----

  /** The request a replication worker builds for a peer: a snapshot when the next index has
      been compacted away, log entries otherwise. */
  predicate SnapshotDue(nd: Node, peer: nat)
    requires nd.role == Leader && peer < nd.peers
  {
    nd.nextIndex[peer] <= nd.lastIncludedIndex
  }

  function InstallFor(nd: Node): InstallArgs {
    InstallArgs(nd.currentTerm, nd.me, nd.lastIncludedIndex, nd.lastIncludedTerm, nd.snapshot)
  }

  function AppendFor(nd: Node, peer: nat): AppendArgs
    requires nd.role == Leader && peer < nd.peers && !SnapshotDue(nd, peer)
    requires nd.nextIndex[peer] <= LastIndex(nd) + 1
  {
    var next := nd.nextIndex[peer];
    AppendArgs(nd.currentTerm, nd.me, next - 1, TermAt(nd, next - 1),
               nd.logs[next - nd.lastIncludedIndex..], nd.commitIndex)
  }

  function Heartbeat(nd: Node): AppendArgs {
    AppendArgs(nd.currentTerm, nd.me, LastIndex(nd), LastTerm(nd.logs), [], nd.commitIndex)
  }

  function Matchers(matched: seq<nat>, k: nat): set<nat> {
    set p: nat | p < |matched| && matched[p] >= k
  }

  /** Highest index in (commitIndex, k] that the current-term majority rule commits. */
  function CommitScan(nd: Node, k: nat): nat
    decreases k
  {
    if k <= nd.commitIndex then nd.commitIndex
    else if Contains(nd, k) && TermAt(nd, k) == nd.currentTerm && |Matchers(nd.matchIndex, k)| >= Majority(nd.peers)
    then k
    else CommitScan(nd, k - 1)
  }

  function AdvanceCommit(nd: Node): Node {
    if nd.role != Leader then nd else nd.(commitIndex := CommitScan(nd, LastIndex(nd)))
  }

  /** Matching and next index only move forward. */
  function Confirm(nd: Node, peer: nat, upTo: nat): Node
    requires nd.role == Leader && peer < nd.peers
  {
    var matched := if upTo > nd.matchIndex[peer] then nd.matchIndex[peer := upTo] else nd.matchIndex;
    var next := if upTo + 1 > nd.nextIndex[peer] then nd.nextIndex[peer := upTo + 1] else nd.nextIndex;
    nd.(matchIndex := matched, nextIndex := next)
  }

  /** Last index of `term` in the kept log, or -1. */
  function LastOfTerm(logs: seq<Entry>, base: nat, term: int): (r: int) {
    if logs == [] then -1
    else if logs[|logs| - 1].term == term then base + |logs| - 1
    else LastOfTerm(logs[..|logs| - 1], base, term)
  }

  /** Fast back-up: where to resume after a rejection. */
  function BackUp(nd: Node, peer: nat, reply: AppendReply): nat
    requires nd.role == Leader && peer < nd.peers
  {
    var last := LastOfTerm(nd.logs, nd.lastIncludedIndex, reply.conflictTerm);
    var wanted := if reply.conflictTerm != -1 && last >= 0 then last + 1 else reply.conflictIndex;
    var atLeastOne := if wanted < 1 then 1 else wanted;
    var capped := if atLeastOne > LastIndex(nd) + 1 then LastIndex(nd) + 1 else atLeastOne;
    if capped < nd.matchIndex[peer] + 1 then nd.matchIndex[peer] + 1 else capped
  }

  /** Peer `from` holds the log through `k`; only news can move the commit index. */
  function Replicated(nd: Node, from: nat, k: nat): Node
    requires from < nd.peers && nd.role == Leader
  {
    var nd1 := Confirm(nd, from, k);
    if nd1.matchIndex[from] > nd.matchIndex[from] then AdvanceCommit(nd1) else nd1
  }

  /** A leader hears about a request of its own term. */
  function Heard(nd: Node, from: nat, args: AppendArgs, reply: AppendReply): Node
    requires from < nd.peers && nd.role == Leader
  {
    if reply.success then Replicated(nd, from, args.prevLogIndex + |args.entries|)
    else if nd.nextIndex[from] != args.prevLogIndex + 1 then nd
    else nd.(nextIndex := nd.nextIndex[from := BackUp(nd, from, reply)])
  }

  function HandleAppendReply(nd: Node, from: nat, args: AppendArgs, reply: AppendReply): Node
    requires from < nd.peers
  {
    if reply.term > nd.currentTerm then BecomeFollower(nd, reply.term)
    else if nd.role != Leader || nd.currentTerm != args.term then nd
    else Heard(nd, from, args, reply)
  }

  /** Independent heartbeats use the reply only to notice a higher term. */
  function HandleProbeReply(nd: Node, reply: AppendReply): Node {
    if reply.term > nd.currentTerm then BecomeFollower(nd, reply.term) else nd
  }

  function HandleInstallReply(nd: Node, from: nat, args: InstallArgs, replyTerm: nat): Node
    requires from < nd.peers
  {
    if replyTerm > nd.currentTerm then BecomeFollower(nd, replyTerm)
    else if nd.role != Leader || nd.currentTerm != args.term then nd
    else Confirm(nd, from, args.lastIncludedIndex)
  }

  function Appended(nd: Node, cmd: Command): Node
    requires nd.role == Leader
  {
    var index := LastIndex(nd) + 1;
    Persist(nd.(logs := nd.logs + [Entry(nd.currentTerm, cmd)]))
      .(matchIndex := nd.matchIndex[nd.me := index], nextIndex := nd.nextIndex[nd.me := index + 1])
  }

  function Start(nd: Node, cmd: Command): Node {
    if nd.role != Leader then nd
    else if nd.peers == 1 then AdvanceCommit(Appended(nd, cmd)) else Appended(nd, cmd)
  }

  // ----- the apply stream and snapshots -----

  predicate CanClaim(nd: NodeData) {
    nd.pendingSnapshot.Some? || nd.lastApplied < nd.commitIndex
  }

  /** The commands at indices `start` to `end`. */
  function Batch(nd: NodeData, start: nat, end: nat): (r: seq<ApplyMsg>)
    requires nd.lastIncludedIndex < start <= end + 1 && end <= LastIndex(nd)
    ensures |r| == end + 1 - start
    ensures forall k :: 0 <= k < |r| ==> r[k] == CommandMsg(start + k, EntryAt(nd, start + k).cmd)
    decreases end + 1 - start
  {
    if start > end then [] else [CommandMsg(start, EntryAt(nd, start).cmd)] + Batch(nd, start + 1, end)
  }

  /** What the applier takes in one locked section: a pending snapshot, else the committed
      commands not yet handed over. */
  function Claim(nd: Node): (Node, seq<ApplyMsg>)
    requires CanClaim(nd)
    requires nd.pendingSnapshot.None? ==> nd.lastIncludedIndex <= nd.lastApplied && nd.commitIndex <= LastIndex(nd)
  {
    if nd.pendingSnapshot.Some? then
      var msg := nd.pendingSnapshot.value;
      var applied := if nd.lastApplied < msg.index then msg.index else nd.lastApplied;
      (nd.(pendingSnapshot := None, lastApplied := applied), [msg])
    else
      (nd.(lastApplied := nd.commitIndex), Batch(nd, nd.lastApplied + 1, nd.commitIndex))
  }

  /** The service has made a snapshot that covers everything up to `index`. */
  function TakeSnapshot(nd: Node, index: nat, data: Store): Node {
    if index <= nd.lastIncludedIndex || index > nd.lastApplied || index > LastIndex(nd) then nd
    else
      var cut := index - nd.lastIncludedIndex;
      var term := nd.logs[cut].term;
      Persist(nd.(lastIncludedIndex := index, lastIncludedTerm := term,
                  logs := [Entry(term, Nil)] + nd.logs[cut + 1..], snapshot := Some(data)))
  }
}
