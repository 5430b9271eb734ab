/** The Raft server object. Each method is one locked section of the code, with its loops;
    its postcondition says which handler function of `RaftNode` it carries out. */
module RaftServer {
  import opened KvStore
  import opened RaftLog
  import opened RaftGroup
  import opened RaftNode

  class Raft {
    const me: nat
    const peers: nat
    var currentTerm: nat
    var votedFor: int
    var logs: Log
    var lastIncludedIndex: nat
    var lastIncludedTerm: nat
    var snapshot: Option<Store>
    var role: Role
    var votes: set<nat>
    var nextIndex: seq<nat>
    var matchIndex: seq<nat>
    var commitIndex: nat
    var lastApplied: nat
    var pendingSnapshot: Option<ApplyMsg>
    var saved: Disk

    ghost function Fields(): NodeData
      reads this
    {
      NodeData(me, peers, currentTerm, votedFor, logs, lastIncludedIndex, lastIncludedTerm, snapshot, role, votes,
               nextIndex, matchIndex, commitIndex, lastApplied, pendingSnapshot, saved)
    }

    ghost predicate Valid()
      reads this
    {
      WellFormed(Fields())
    }

    ghost function View(): Node
      reads this
      requires Valid()
    {
      Fields()
    }

    /** `Make`: start from what the previous incarnation saved. */
    constructor (me: nat, peers: nat, disk: Disk)
      requires me < peers
      ensures Valid() && View() == Booted(me, peers, disk)
    {
      this.me, this.peers := me, peers;
      currentTerm, votedFor, logs := disk.currentTerm, disk.votedFor, disk.logs;
      lastIncludedIndex, lastIncludedTerm, snapshot := disk.lastIncludedIndex, disk.lastIncludedTerm, disk.snapshot;
      role, votes, nextIndex, matchIndex := Follower, {}, [], [];
      commitIndex, lastApplied, pendingSnapshot := disk.lastIncludedIndex, disk.lastIncludedIndex, None;
      saved := disk;
    }

    method Save()
      requires Valid()
      modifies this`saved
      ensures Valid() && View() == Persist(old(View()))
    {
      saved := Disk(currentTerm, votedFor, logs, lastIncludedIndex, lastIncludedTerm, snapshot);
    }

    method FollowTerm(term: nat)
      requires Valid()
      modifies this
      ensures Valid() && View() == BecomeFollower(old(View()), term)
    {
      if term > currentTerm {
        currentTerm := term;
        votedFor := -1;
        Save();
      }
      role := Follower;
    }

    /** Every peer starts at the leader's last index. */
    method TakeLead()
      requires Valid()
      modifies this
      ensures Valid() && View() == BecomeLeader(old(View()))
    {
      var last := lastIncludedIndex + |logs| - 1;
      var next: seq<nat>, matched: seq<nat> := [], [];
      for p := 0 to peers
        invariant |next| == p == |matched|
        invariant forall q :: 0 <= q < p ==> next[q] == last + 1 && matched[q] == 0
      {
        next := next + [last + 1];
        matched := matched + [0];
      }
      matched := matched[me := last];
      next := next[me := last + 1];
      nextIndex, matchIndex, role := next, matched, Leader;
      ghost var v := BecomeLeader(old(View()));
      assert next == v.nextIndex && matched == v.matchIndex;
    }

    method Campaign()
      requires Valid()
      modifies this
      ensures Valid() && View() == StartElection(old(View()))
    {
      role := Candidate;
      currentTerm := currentTerm + 1;
      votedFor := me;
      votes := {me};
      Save();
      if 1 >= peers / 2 + 1 {
        TakeLead();
      }
    }

    method RequestVote(args: VoteArgs) returns (reply: VoteReply)
      requires Valid()
      modifies this
      ensures Valid() && (View(), reply) == HandleVote(old(View()), args)
    {
      var myLastIndex := lastIncludedIndex + |logs| - 1;
      var myLastTerm := logs[|logs| - 1].term;
      if args.term < currentTerm {
        reply := VoteReply(currentTerm, false);
        return;
      }
      if args.term > currentTerm {
        FollowTerm(args.term);
      }
      var granted := false;
      var canVote := votedFor == -1 || votedFor == args.candidateId;
      var upToDate := args.lastLogTerm > myLastTerm
                      || (args.lastLogTerm == myLastTerm && args.lastLogIndex >= myLastIndex);
      if canVote && upToDate {
        votedFor := args.candidateId;
        granted := true;
        Save();
      }
      reply := VoteReply(currentTerm, granted);
    }

    method VoteReplied(from: nat, args: VoteArgs, reply: VoteReply)
      requires Valid()
      modifies this
      ensures Valid() && View() == HandleVoteReply(old(View()), from, args, reply)
    {
      if reply.term > currentTerm {
        FollowTerm(reply.term);
        return;
      }
      if role != Candidate || currentTerm != args.term || !reply.voteGranted {
        return;
      }
      votes := votes + {from};
      if |votes| >= peers / 2 + 1 {
        TakeLead();
      }
    }

    /** Walks back to the first entry of the conflicting term. */
    method ConflictStart(prev: nat) returns (index: nat)
      requires Valid() && Contains(View(), prev)
      ensures index == RunStart(logs, lastIncludedIndex, prev)
    {
      index := prev;
      var term := logs[prev - lastIncludedIndex].term;
      while index > lastIncludedIndex && logs[index - 1 - lastIncludedIndex].term == term
        invariant lastIncludedIndex <= index <= prev
        invariant logs[index - lastIncludedIndex].term == term
        invariant RunStart(logs, lastIncludedIndex, index) == RunStart(logs, lastIncludedIndex, prev)
      {
        index := index - 1;
      }
    }

    /** The merge loop over the entries of an AppendEntries request. */
    method MergeEntries(off: nat, entries: seq<Entry>) returns (changed: bool)
      requires Valid() && 0 < off <= |logs|
      modifies this`logs
      ensures Valid() && logs == Merge(old(logs), off, entries) && changed == (logs != old(logs))
    {
      changed := false;
      var k := 0;
      while k < |entries|
        invariant 0 <= k <= |entries| && off + k <= |logs| && logs == old(logs) && !changed
        invariant Merge(old(logs), off, entries) == Merge(logs, off + k, entries[k..])
      {
        var at := off + k;
        assert entries[k..][1..] == entries[k + 1..] && entries[k..][0] == entries[k];
        if at < |logs| {
          if logs[at].term != entries[k].term {
            logs := logs[..at] + entries[k..];
            assert logs[at] == entries[k];
            changed := true;
            return;
          }
        } else {
          logs := logs + entries[k..];
          changed := true;
          return;
        }
        k := k + 1;
      }
      assert entries[k..] == [];
    }

    method AppendEntries(args: AppendArgs) returns (reply: AppendReply)
      requires Valid()
      modifies this
      ensures Valid() && (View(), reply) == HandleAppend(old(View()), args)
    {
      if args.term < currentTerm {
        reply := AppendReply(currentTerm, false, -1, 0);
        return;
      }
      FollowTerm(args.term);
      ghost var v1 := View();
      var prev := args.prevLogIndex;
      var last := lastIncludedIndex + |logs| - 1;
      if prev > last {
        reply := AppendReply(currentTerm, false, -1, last + 1);
        return;
      }
      if prev < lastIncludedIndex {
        reply := AppendReply(currentTerm, false, -1, lastIncludedIndex + 1);
        return;
      }
      var prevTerm := logs[prev - lastIncludedIndex].term;
      if prevTerm != args.prevLogTerm {
        var first := ConflictStart(prev);
        reply := AppendReply(currentTerm, false, prevTerm, first);
        return;
      }
      var changed := MergeEntries(prev + 1 - lastIncludedIndex, args.entries);
      if changed {
        Save();
      }
      assert View() == MergeInto(v1, args);
      CommitTo(args);
      reply := AppendReply(currentTerm, true, -1, 0);
    }

    method CommitTo(args: AppendArgs)
      requires Valid()
      modifies this`commitIndex
      ensures Valid() && View() == FollowerCommit(old(View()), args)
    {
      var lastNew := args.prevLogIndex + |args.entries|;
      if args.leaderCommit > commitIndex {
        var newCommit := args.leaderCommit;
        if lastNew < newCommit {
          newCommit := lastNew;
        }
        if newCommit > commitIndex {
          commitIndex := newCommit;
        }
      }
    }

    method InstallSnapshot(args: InstallArgs) returns (replyTerm: nat)
      requires Valid()
      modifies this
      ensures Valid() && (View(), replyTerm) == HandleInstall(old(View()), args)
    {
      replyTerm := currentTerm;
      if args.term < currentTerm {
        return;
      }
      FollowTerm(args.term);
      replyTerm := currentTerm;
      if args.lastIncludedIndex <= commitIndex {
        return;
      }
      ReplaceBySnapshot(args);
    }

    /** Replaces log and snapshot; the entries after the boundary stay if the boundary matches. */
    /** The boundary entry and, if it agrees with the log, what the log has behind it. */
    method LogsAfter(args: InstallArgs) returns (kept: Log)
      requires Valid()
      ensures kept == InstalledLogs(View(), args)
    {
      var at := args.lastIncludedIndex;
      var suffix: seq<Entry> := [];
      if lastIncludedIndex <= at <= lastIncludedIndex + |logs| - 1
         && logs[at - lastIncludedIndex].term == args.lastIncludedTerm {
        suffix := logs[at - lastIncludedIndex + 1..];
      }
      kept := [Entry(args.lastIncludedTerm, Nil)] + suffix;
    }

    method MoveBoundary(args: InstallArgs)
      requires Valid()
      modifies this`logs, this`lastIncludedIndex, this`lastIncludedTerm, this`snapshot, this`commitIndex,
               this`lastApplied
      ensures Valid() && View() == Rebased(old(View()), args)
    {
      logs := LogsAfter(args);
      lastIncludedIndex, lastIncludedTerm := args.lastIncludedIndex, args.lastIncludedTerm;
      snapshot := args.data;
      commitIndex, lastApplied := args.lastIncludedIndex, args.lastIncludedIndex;
    }

    method ReplaceBySnapshot(args: InstallArgs)
      requires Valid()
      modifies this
      ensures Valid() && View() == Install(old(View()), args)
    {
      MoveBoundary(args);
      Save();
      var at := args.lastIncludedIndex;
      pendingSnapshot := Some(SnapshotMsg(at, args.lastIncludedTerm, args.data));
    }

    /** Counts the peers that have reached an index. */
    method CountMatched(k: nat) returns (count: nat)
      ensures count == |Matchers(matchIndex, k)|
    {
      count := 0;
      assert Matchers(matchIndex[..0], k) == {};
      for p := 0 to |matchIndex|
        invariant count == |Matchers(matchIndex[..p], k)|
      {
        assert Matchers(matchIndex[..p + 1], k) ==
               Matchers(matchIndex[..p], k) + if matchIndex[p] >= k then {p} else {};
        if matchIndex[p] >= k {
          count := count + 1;
        }
      }
      assert matchIndex[..|matchIndex|] == matchIndex;
    }

    /** The commit rule: scan down from the last index for one of the current term that a
        majority has. */
    method AdvanceCommitIndex()
      requires Valid()
      modifies this`commitIndex
      ensures Valid() && View() == AdvanceCommit(old(View()))
    {
      if role != Leader {
        return;
      }
      ghost var v := View();
      var k: nat := lastIncludedIndex + |logs| - 1;
      while k > commitIndex
        invariant k <= LastIndex(v) && View() == v
        invariant CommitScan(v, LastIndex(v)) == CommitScan(v, k)
        decreases k
      {
        if k >= lastIncludedIndex && logs[k - lastIncludedIndex].term == currentTerm {
          var count := CountMatched(k);
          if count >= peers / 2 + 1 {
            commitIndex := k;
            return;
          }
        }
        k := k - 1;
      }
    }

    method Confirmed(peer: nat, upTo: nat)
      requires Valid() && role == Leader && peer < peers
      modifies this`matchIndex, this`nextIndex
      ensures Valid() && View() == Confirm(old(View()), peer, upTo)
    {
      if upTo > matchIndex[peer] {
        matchIndex := matchIndex[peer := upTo];
      }
      if upTo + 1 > nextIndex[peer] {
        nextIndex := nextIndex[peer := upTo + 1];
      }
    }

    method LastIndexOfTerm(term: int) returns (index: int)
      ensures index == LastOfTerm(logs, lastIncludedIndex, term)
    {
      var offset := |logs| - 1;
      assert logs[..offset + 1] == logs;
      while offset >= 0
        invariant -1 <= offset < |logs|
        invariant LastOfTerm(logs[..offset + 1], lastIncludedIndex, term) == LastOfTerm(logs, lastIncludedIndex, term)
      {
        if logs[offset].term == term {
          return lastIncludedIndex + offset;
        }
        assert logs[..offset + 1][..offset] == logs[..offset];
        offset := offset - 1;
      }
      index := -1;
    }

    /** Fast back-up after a rejection, within its clamps. */
    method BackUpNext(peer: nat, reply: AppendReply)
      requires Valid() && role == Leader && peer < peers
      modifies this`nextIndex
      ensures Valid() && View() == old(View()).(nextIndex := old(nextIndex)[peer := BackUp(old(View()), peer, reply)])
    {
      var newNext := reply.conflictIndex;
      if reply.conflictTerm != -1 {
        var last := LastIndexOfTerm(reply.conflictTerm);
        if last >= 0 {
          newNext := last + 1;
        }
      }
      if newNext < 1 {
        newNext := 1;
      }
      var maxNext := lastIncludedIndex + |logs|;
      if newNext > maxNext {
        newNext := maxNext;
      }
      var minNext := matchIndex[peer] + 1;
      if newNext < minNext {
        newNext := minNext;
      }
      nextIndex := nextIndex[peer := newNext];
    }

    method AppendReplied(from: nat, args: AppendArgs, reply: AppendReply)
      requires Valid() && from < peers
      modifies this
      ensures Valid() && View() == HandleAppendReply(old(View()), from, args, reply)
    {
      if reply.term > currentTerm {
        FollowTerm(reply.term);
        return;
      }
      if role != Leader || currentTerm != args.term {
        return;
      }
      if reply.success {
        var oldMatch := matchIndex[from];
        Confirmed(from, args.prevLogIndex + |args.entries|);
        if matchIndex[from] > oldMatch {
          AdvanceCommitIndex();
        }
        return;
      }
      if nextIndex[from] != args.prevLogIndex + 1 {
        return;
      }
      BackUpNext(from, reply);
    }

    method InstallReplied(from: nat, args: InstallArgs, replyTerm: nat)
      requires Valid() && from < peers
      modifies this
      ensures Valid() && View() == HandleInstallReply(old(View()), from, args, replyTerm)
    {
      if replyTerm > currentTerm {
        FollowTerm(replyTerm);
        return;
      }
      if role != Leader || currentTerm != args.term {
        return;
      }
      Confirmed(from, args.lastIncludedIndex);
    }

    method StartCommand(cmd: Command) returns (index: int, term: nat, isLeader: bool)
      requires Valid()
      modifies this
      ensures Valid() && View() == Start(old(View()), cmd)
      ensures isLeader == (old(role) == Leader) && term == old(currentTerm)
      ensures index == if isLeader then LastIndex(old(View())) + 1 else -1
    {
      term := currentTerm;
      if role != Leader {
        return -1, term, false;
      }
      index := lastIncludedIndex + |logs|;
      isLeader := true;
      logs := logs + [Entry(term, cmd)];
      Save();
      matchIndex := matchIndex[me := index];
      nextIndex := nextIndex[me := index + 1];
      if peers == 1 {
        AdvanceCommitIndex();
      }
    }

    /** One locked section of the applier. */
    method ClaimBatch() returns (batch: seq<ApplyMsg>)
      requires Valid() && CanClaim(View())
      requires pendingSnapshot.None? ==> lastIncludedIndex <= lastApplied && commitIndex <= LastIndex(View())
      modifies this
      ensures Valid() && (View(), batch) == Claim(old(View()))
    {
      if pendingSnapshot.Some? {
        var msg := pendingSnapshot.value;
        pendingSnapshot := None;
        if lastApplied < msg.index {
          lastApplied := msg.index;
        }
        return [msg];
      }
      var start := lastApplied + 1;
      if start <= lastIncludedIndex {
        start := lastIncludedIndex + 1;
      }
      batch := [];
      var index := start;
      while index <= commitIndex
        invariant start <= index <= commitIndex + 1 && |batch| == index - start
        invariant forall k :: 0 <= k < |batch| ==> batch[k] == CommandMsg(start + k, EntryAt(View(), start + k).cmd)
      {
        batch := batch + [CommandMsg(index, logs[index - lastIncludedIndex].cmd)];
        index := index + 1;
      }
      assert batch == Batch(View(), start, commitIndex);
      lastApplied := commitIndex;
    }

    method Snapshot(index: nat, data: Store)
      requires Valid()
      modifies this
      ensures Valid() && View() == TakeSnapshot(old(View()), index, data)
    {
      if index <= lastIncludedIndex {
        return;
      }
      if index > lastApplied || index > lastIncludedIndex + |logs| - 1 {
        return;
      }
      var cut := index - lastIncludedIndex;
      var term := logs[cut].term;
      logs := [Entry(term, Nil)] + logs[cut + 1..];
      lastIncludedIndex, lastIncludedTerm := index, term;
      snapshot := Some(data);
      Save();
    }
  }
}
