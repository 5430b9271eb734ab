/** What each handler does, said of the server's full log and said completely: when it acts and when it
    does not, what it answers, and what it leaves alone. */
module RaftExact {
  import opened KvStore
  import opened RaftLog
  import opened RaftGroup
  import opened RaftNode
  import opened RaftSystem
  import opened RaftRep
  import opened RaftSafety
  import B = RaftBackup

  function Max(a: int, b: int): int {
    if a < b then b else a
  }

  function Min(a: int, b: int): int {
    if a < b then a else b
  }

  /** Every server of every run has such a full log at any time. */
  lemma HasFullLog(run: seq<System>, x: nat, i: nat) returns (s: Server)
    requires IsRun(run) && x < |run| && i < |run[x].procs|
    ensures var nd := run[x].procs[i].node;
            StateRep(|run[x].procs|, i, nd, s) && ApplyRep(nd) && s.base <= s.commit < |s.log|
  {
    var gs := RunSim(run);
    assert Shadows(run, gs, x);
    s := gs[x].servers[i];
    assert ProcRep(gs[x].h.n, i, run[x].procs[i], s);
  }

  // ----- elections -----

  /** A vote is granted exactly to a candidate of the server's term or a later one, if the server has
      not voted for another in that term and the candidate's log is at least as up to date as its own.
      A later term is adopted either way. */
  lemma VoteExactly(n: nat, i: nat, nd: Node, s: Server, args: VoteArgs)
    requires StateRep(n, i, nd, s)
    ensures var (nd', reply) := HandleVote(nd, args);
            && (reply.voteGranted <==>
                  && args.term >= s.term
                  && (args.term > s.term || s.vote == -1 || s.vote == args.candidateId)
                  && UpToDate(args.lastLogTerm, args.lastLogIndex, s.log))
            && reply.term == nd'.currentTerm == Max(s.term, args.term)
            && nd'.votedFor == (if reply.voteGranted then args.candidateId
                                else if args.term > s.term then -1 else s.vote)
            && nd'.role == (if args.term > s.term then Follower else s.role)
            && nd' == nd.(currentTerm := nd'.currentTerm, votedFor := nd'.votedFor, role := nd'.role,
                          disk := DiskOf(nd'))
  {
    assert LastTerm(nd.logs) == LastTerm(s.log);
  }

  /** Standing begins the next term with a vote for oneself; alone, that is already a majority. */
  lemma StandExactly(n: nat, i: nat, nd: Node, s: Server)
    requires StateRep(n, i, nd, s)
    ensures var nd' := StartElection(nd);
            && nd'.currentTerm == s.term + 1 && nd'.votedFor == i && nd'.votes == {i}
            && nd'.role == (if n == 1 then Leader else Candidate)
            && nd'.disk == DiskOf(nd') && nd'.logs == nd.logs && nd'.commitIndex == nd.commitIndex
            && VoteRequest(nd') == VoteArgs(s.term + 1, i, |s.log| - 1, LastTerm(s.log))
  {
    assert LastTerm(nd.logs) == LastTerm(s.log);
  }

  /** A reply is counted exactly if it grants the vote the server is standing for, and it makes the
      server leader exactly when more than half of the servers have voted for it. */
  lemma CountExactly(n: nat, i: nat, nd: Node, s: Server, from: nat, args: VoteArgs, reply: VoteReply)
    requires StateRep(n, i, nd, s)
    ensures var nd' := HandleVoteReply(nd, from, args, reply);
            && (reply.term > s.term ==> nd'.role == Follower && nd'.currentTerm == reply.term && nd'.votedFor == -1)
            && (reply.term <= s.term ==>
                  var counted := s.role == Candidate && args.term == s.term && reply.voteGranted;
                  && nd'.currentTerm == s.term && nd'.votedFor == s.vote
                  && nd'.votes == (if counted then nd.votes + {from} else nd.votes)
                  && nd'.role == (if counted && 2 * |nd'.votes| > n then Leader else s.role)
                  && (counted && nd'.role == Leader ==>
                        && |nd'.nextIndex| == |nd'.matchIndex| == n
                        && forall p :: 0 <= p < n ==>
                             nd'.nextIndex[p] == |s.log| && nd'.matchIndex[p] == if p == i then |s.log| - 1 else 0))
            && nd'.logs == nd.logs && nd'.commitIndex == nd.commitIndex
  {
  }

  // ----- AppendEntries -----

  /** A request is accepted exactly if it is not from an earlier term and its previous entry is in the
      log behind the boundary with the same term. Accepting moves the commit index to the smaller of
      the leader's and the last index the request vouches for, and never back. Refusing leaves the log
      alone and says where the leader may look next. */
  lemma AppendExactly(n: nat, i: nat, nd: Node, s: Server, args: AppendArgs)
    requires StateRep(n, i, nd, s)
    ensures var (nd', reply) := HandleAppend(nd, args);
            var prev := args.prevLogIndex;
            && (reply.success <==>
                  args.term >= s.term && s.base <= prev < |s.log| && s.log[prev].term == args.prevLogTerm)
            && reply.term == nd'.currentTerm == Max(s.term, args.term)
            && nd'.votedFor == (if args.term > s.term then -1 else s.vote)
            && nd'.role == (if args.term >= s.term then Follower else s.role)
            && nd'.commitIndex ==
               (if reply.success then Max(s.commit, Min(args.leaderCommit, prev + |args.entries|)) else s.commit)
            && (!reply.success ==> nd'.logs == nd.logs)
            && nd'.disk == DiskOf(nd')
            && nd'.lastIncludedIndex == nd.lastIncludedIndex && nd'.snapshot == nd.snapshot
            && nd'.lastApplied == nd.lastApplied && nd'.pendingSnapshot == nd.pendingSnapshot
  {
    if s.base <= args.prevLogIndex < |s.log| {
      assert TermAt(nd, args.prevLogIndex) == s.log[args.prevLogIndex].term;
    }
  }

  /** Where a refusal points: past the end, past the boundary, or to the first entry of the conflicting
      term in the kept log. */
  lemma ConflictExactly(n: nat, i: nat, nd: Node, s: Server, args: AppendArgs)
    requires StateRep(n, i, nd, s) && args.term >= s.term && !HandleAppend(nd, args).1.success
    ensures var reply, prev := HandleAppend(nd, args).1, args.prevLogIndex;
            && (prev >= |s.log| ==> reply.conflictTerm == -1 && reply.conflictIndex == |s.log|)
            && (prev < s.base ==> reply.conflictTerm == -1 && reply.conflictIndex == s.base + 1)
            && (s.base <= prev < |s.log| ==>
                  && reply.conflictTerm == s.log[prev].term && s.base <= reply.conflictIndex <= prev
                  && (forall k :: reply.conflictIndex <= k <= prev ==> s.log[k].term == s.log[prev].term)
                  && (reply.conflictIndex > s.base ==> s.log[reply.conflictIndex - 1].term != s.log[prev].term))
  {
    var prev := args.prevLogIndex;
    if s.base <= prev < |s.log| {
      assert TermAt(BecomeFollower(nd, args.term), prev) == s.log[prev].term;
      FirstOfRun(nd.logs, s.log, s.base, prev);
    }
  }

  /** `RunStart` finds the first entry of the run of equal terms. */
  lemma FirstOfRun(logs: Log, l: Log, base: nat, prev: nat)
    requires LogsRep(logs, l, base) && base <= prev < |l|
    ensures var r := RunStart(logs, base, prev);
            && (forall k :: r <= k <= prev ==> l[k].term == l[prev].term)
            && (r > base ==> l[r - 1].term != l[prev].term)
  {
    forall k | base <= k < |l| ensures l[k].term == logs[k - base].term {}
    forall k: nat | RunStart(logs, base, prev) <= k <= prev ensures l[k].term == l[prev].term {
      B.RunStartAt(logs, base, prev, k);
    }
    RunStartIsFirst(logs, base, prev);
  }

  lemma {:induction false} RunStartIsFirst(logs: Log, base: nat, index: nat)
    requires base <= index < base + |logs|
    ensures var r := RunStart(logs, base, index); r > base ==> logs[r - 1 - base].term != logs[index - base].term
    decreases index
  {
    if index > base && logs[index - 1 - base].term == logs[index - base].term {
      RunStartIsFirst(logs, base, index - 1);
    }
  }

  // ----- InstallSnapshot -----

  /** A snapshot is installed exactly if it is not from an earlier term and reaches past what is
      committed; then the boundary, the commit index and the apply index are its index and it is handed
      to the service. */
  lemma InstallExactly(n: nat, i: nat, nd: Node, s: Server, args: InstallArgs)
    requires StateRep(n, i, nd, s) && s.base <= s.commit
    ensures var (nd', term) := HandleInstall(nd, args);
            var at := args.lastIncludedIndex;
            && term == nd'.currentTerm == Max(s.term, args.term)
            && nd'.votedFor == (if args.term > s.term then -1 else s.vote)
            && nd'.role == (if args.term >= s.term then Follower else s.role)
            && nd'.disk == DiskOf(nd')
            && if args.term >= s.term && at > s.commit then
                 && nd'.lastIncludedIndex == nd'.commitIndex == nd'.lastApplied == at
                 && nd'.lastIncludedTerm == args.lastIncludedTerm && nd'.snapshot == args.data
                 && nd'.pendingSnapshot == Some(SnapshotMsg(at, args.lastIncludedTerm, args.data))
                 && nd'.logs == [Entry(args.lastIncludedTerm, Nil)] +
                                (if at < |s.log| && s.log[at].term == args.lastIncludedTerm
                                 then s.log[at + 1..] else [])
               else
                 && nd'.logs == nd.logs && nd'.lastIncludedIndex == nd.lastIncludedIndex
                 && nd'.commitIndex == nd.commitIndex && nd'.lastApplied == nd.lastApplied
                 && nd'.snapshot == nd.snapshot && nd'.pendingSnapshot == nd.pendingSnapshot
  {
    var at := args.lastIncludedIndex;
    if s.commit < at < |s.log| {
      assert TermAt(nd, at) == s.log[at].term;
      assert nd.logs[at - s.base + 1..] == s.log[at + 1..];
    }
  }

  // ----- the leader -----

  /** The servers the leader counts as holding the log through `k`. */
  function Holding(nd: Node, k: nat): set<nat>
    requires nd.role == Leader
  {
    set p: nat | p < nd.peers && nd.matchIndex[p] >= k
  }

  /** Nothing past the commit index may be committed by the current-term majority rule. */
  ghost predicate Settled(nd: Node)
    requires nd.role == Leader
  {
    forall k: nat {:trigger Holding(nd, k)} ::
      nd.commitIndex < k && Contains(nd, k) && TermAt(nd, k) == nd.currentTerm ==> !IsQuorum(nd.peers, Holding(nd, k))
  }

  /** The commit index is one the current-term majority rule allows. */
  predicate Backed(nd: Node)
    requires nd.role == Leader
  {
    var c := nd.commitIndex;
    Contains(nd, c) && TermAt(nd, c) == nd.currentTerm && IsQuorum(nd.peers, Holding(nd, c))
  }

  /** The leader's commit index becomes the highest one the current-term majority rule allows. */
  lemma CommitsHighest(nd: Node)
    requires nd.role == Leader
    ensures var c := AdvanceCommit(nd).commitIndex;
            && nd.commitIndex <= c && AdvanceCommit(nd) == nd.(commitIndex := c)
            && (forall k: nat {:trigger Holding(nd, k)} ::
                  c < k && Contains(nd, k) && TermAt(nd, k) == nd.currentTerm ==> !IsQuorum(nd.peers, Holding(nd, k)))
            && (nd.commitIndex < c ==>
                  Contains(nd, c) && TermAt(nd, c) == nd.currentTerm && IsQuorum(nd.peers, Holding(nd, c)))
    ensures Settled(AdvanceCommit(nd)) && (nd.commitIndex < AdvanceCommit(nd).commitIndex ==> Backed(AdvanceCommit(nd)))
  {
    ScanFindsHighest(nd, LastIndex(nd));
    var nd' := AdvanceCommit(nd);
    forall k: nat ensures Holding(nd', k) == Holding(nd, k) {}
  }

  lemma {:induction false} ScanFindsHighest(nd: Node, top: nat)
    requires nd.role == Leader
    ensures var c := CommitScan(nd, top);
            && nd.commitIndex <= c
            && (forall k: nat {:trigger Holding(nd, k)} ::
                  c < k <= top && Contains(nd, k) && TermAt(nd, k) == nd.currentTerm ==>
                    !IsQuorum(nd.peers, Holding(nd, k)))
            && (nd.commitIndex < c ==>
                  Contains(nd, c) && TermAt(nd, c) == nd.currentTerm && IsQuorum(nd.peers, Holding(nd, c)))
    decreases top
  {
    assert Matchers(nd.matchIndex, top) == Holding(nd, top);
    var held := Contains(nd, top) && TermAt(nd, top) == nd.currentTerm && IsQuorum(nd.peers, Holding(nd, top));
    if top > nd.commitIndex && !held { ScanFindsHighest(nd, top - 1); }
  }

  /** The request built for a peer carries the leader's log from the peer's next index to its end, or
      the snapshot when that index is compacted away; a heartbeat names the end of the log. */
  lemma RequestsExactly(n: nat, i: nat, nd: Node, s: Server, peer: nat)
    requires StateRep(n, i, nd, s) && nd.role == Leader && peer < n && nd.nextIndex[peer] <= |s.log|
    ensures SnapshotDue(nd, peer) <==> nd.nextIndex[peer] <= s.base
    ensures InstallFor(nd) == InstallArgs(s.term, i, s.base, s.log[s.base].term, SnapshotAt(s.log, s.base))
    ensures !SnapshotDue(nd, peer) ==>
              var next := nd.nextIndex[peer];
              AppendFor(nd, peer) == AppendArgs(s.term, i, next - 1, s.log[next - 1].term, s.log[next..], s.commit)
    ensures Heartbeat(nd) == AppendArgs(s.term, i, |s.log| - 1, LastTerm(s.log), [], s.commit)
  {
    if !SnapshotDue(nd, peer) {
      var next := nd.nextIndex[peer];
      assert TermAt(nd, next - 1) == s.log[next - 1].term;
      assert nd.logs[next - s.base..] == s.log[next..];
    }
  }

  /** What a leader learns from a reply to its own term's request: a success confirms the entries sent
      and settles the commit index if that is news; a refusal moves the next index only if no other
      reply has moved it since. */
  lemma AppendReplyExactly(nd: Node, from: nat, args: AppendArgs, reply: AppendReply)
    requires from < nd.peers
    ensures var nd', upTo := HandleAppendReply(nd, from, args, reply), args.prevLogIndex + |args.entries|;
            if reply.term > nd.currentTerm then
              nd'.role == Follower && nd'.currentTerm == reply.term && nd'.votedFor == -1
            else if nd.role != Leader || nd.currentTerm != args.term then nd' == nd
            else if reply.success then
              && nd'.matchIndex == nd.matchIndex[from := Max(nd.matchIndex[from], upTo)]
              && nd'.nextIndex == nd.nextIndex[from := Max(nd.nextIndex[from], upTo + 1)]
              && nd' == nd.(matchIndex := nd'.matchIndex, nextIndex := nd'.nextIndex, commitIndex := nd'.commitIndex)
              && nd.commitIndex <= nd'.commitIndex && (nd.commitIndex < nd'.commitIndex ==> Backed(nd'))
              && (upTo > nd.matchIndex[from] ==> Settled(nd'))
              && (upTo <= nd.matchIndex[from] ==> nd'.commitIndex == nd.commitIndex)
            else
              nd' == nd.(nextIndex := if nd.nextIndex[from] == args.prevLogIndex + 1
                                      then nd.nextIndex[from := BackUp(nd, from, reply)] else nd.nextIndex)
  {
    if nd.role == Leader && nd.currentTerm == args.term {
      CommitsHighest(Confirm(nd, from, args.prevLogIndex + |args.entries|));
    }
  }

  /** Within what the peer has confirmed and the end of the log. */
  function Clamped(nd: Node, peer: nat, next: nat): int
    requires nd.role == Leader && peer < nd.peers
  {
    Max(nd.matchIndex[peer] + 1, Min(Max(1, next), LastIndex(nd) + 1))
  }

  /** After a refusal the leader resumes right after its own last entry of the conflicting term, if it
      has one, and at the conflicting index otherwise. */
  lemma BackUpExactly(nd: Node, peer: nat, reply: AppendReply)
    requires nd.role == Leader && peer < nd.peers
    ensures forall m: nat ::
              && Contains(nd, m) && TermAt(nd, m) == reply.conflictTerm
              && (forall k :: m < k <= LastIndex(nd) ==> TermAt(nd, k) != reply.conflictTerm) ==>
                BackUp(nd, peer, reply) == Clamped(nd, peer, m + 1)
    ensures (forall m: nat :: Contains(nd, m) ==> TermAt(nd, m) != reply.conflictTerm) ==>
              BackUp(nd, peer, reply) == Clamped(nd, peer, reply.conflictIndex)
  {
    B.LastOfTermAt(nd.logs, nd.lastIncludedIndex, reply.conflictTerm);
    var last := LastOfTerm(nd.logs, nd.lastIncludedIndex, reply.conflictTerm);
    if last != -1 { assert TermAt(nd, last) == reply.conflictTerm; }
  }

  /** Only a leader starts an operation: it becomes the last entry, in the leader's term and on disk,
      at the index the call returns; a lone server commits it at once. */
  lemma StartExactly(n: nat, i: nat, nd: Node, s: Server, cmd: Command)
    requires StateRep(n, i, nd, s)
    ensures var nd', index := Start(nd, cmd), |s.log|;
            if s.role != Leader then nd' == nd
            else
              && LastIndex(nd') == index && EntryAt(nd', index) == Entry(s.term, cmd) == nd'.disk.logs[index - s.base]
              && nd'.disk == DiskOf(nd') && nd'.logs == nd.logs + [Entry(s.term, cmd)]
              && nd'.matchIndex == nd.matchIndex[i := index] && nd'.nextIndex == nd.nextIndex[i := index + 1]
              && nd' == nd.(logs := nd'.logs, disk := nd'.disk, matchIndex := nd'.matchIndex,
                            nextIndex := nd'.nextIndex, commitIndex := nd'.commitIndex)
              && (nd'.commitIndex == s.commit || (n == 1 && Backed(nd'))) && (n == 1 ==> Settled(nd'))
  {
    if s.role == Leader { CommitsHighest(Appended(nd, cmd)); }
  }

  // ----- the apply stream and snapshots -----

  /** The applier takes the pending snapshot, or all committed commands it has not taken, in order. */
  lemma ClaimExactly(n: nat, i: nat, nd: Node, s: Server)
    requires StateRep(n, i, nd, s) && ApplyRep(nd) && s.commit < |s.log| && CanClaim(nd)
    ensures var (nd', batch) := Claim(nd);
            && nd' == nd.(pendingSnapshot := None, lastApplied := nd'.lastApplied)
            && if nd.pendingSnapshot.Some? then
                 nd'.lastApplied == nd.lastApplied && batch == [nd.pendingSnapshot.value]
               else
                 && nd'.lastApplied == s.commit && |batch| == s.commit - nd.lastApplied
                 && forall k :: 0 <= k < |batch| ==>
                      batch[k] == CommandMsg(nd.lastApplied + 1 + k, s.log[nd.lastApplied + 1 + k].cmd)
  {
  }

  /** A snapshot is taken exactly if it covers more than the last one and nothing that has not been
      applied; then what it covers is dropped and nothing else. */
  lemma SnapshotExactly(n: nat, i: nat, nd: Node, s: Server, index: nat, data: Store)
    requires StateRep(n, i, nd, s)
    ensures var nd' := TakeSnapshot(nd, index, data);
            if s.base < index <= nd.lastApplied && index < |s.log| then
              && LogsRep(nd'.logs, s.log, index) && nd'.lastIncludedIndex == index
              && nd'.lastIncludedTerm == s.log[index].term && nd'.snapshot == Some(data)
              && nd' == nd.(logs := nd'.logs, lastIncludedIndex := index, lastIncludedTerm := nd'.lastIncludedTerm,
                            snapshot := nd'.snapshot, disk := DiskOf(nd'))
            else nd' == nd
  {
  }
}
