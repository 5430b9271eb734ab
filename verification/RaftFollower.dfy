/** The handlers of voters and followers, on compacted logs, make protocol moves. */
module RaftFollower {
  import opened KvStore
  import opened RaftLog
  import opened RaftHistory
  import opened RaftGrowth
  import opened RaftGroup
  import opened RaftMoves
  import opened RaftNode
  import opened RaftSystem
  import opened RaftRep

  ghost predicate ProcOk(h: History, i: nat, p: Proc, s: Server) {
    HistoryInv(h) && ServerOk(h, i, s) && ProcRep(h.n, i, p, s) && i < h.n
  }

  // ----- becoming a follower -----

  function Followed(s: Server, t: nat): Server {
    if t > s.term then ToTerm(s, t) else StepDown(s)
  }

  lemma FollowedOk(h: History, i: nat, p: Proc, s: Server, t: nat)
    requires ProcOk(h, i, p, s)
    ensures ProcOk(h, i, p.(node := BecomeFollower(p.node, t)), Followed(s, t))
  {
    if t > s.term { ToTermOk(h, i, s, t); } else { StepDownOk(h, i, s); }
  }

  // ----- merging entries and installing snapshots -----

  lemma ReplacedRep(logs: Log, l: Log, base: nat, top: Log, off: nat, entries: seq<Entry>)
    requires LogsRep(logs, l, base) && 0 < off <= |logs| && Agree(l, top, base + off - 1)
    requires base + off + |entries| <= |top|
    requires forall k :: 0 <= k < |entries| ==> entries[k] == top[base + off + k]
    ensures LogsRep(logs[..off] + entries, Prefix(top, base + off - 1 + |entries|), base)
  {
    var r: Log := logs[..off] + entries;
    var p := Prefix(top, base + off - 1 + |entries|);
    forall k | 0 < k < |r| ensures r[k] == p[base + k] {
      if k < off { assert r[k] == logs[k] == l[base + k]; } else { assert r[k] == entries[k - off]; }
    }
  }

  /** The merge loop on the compacted log does to the whole log what adopting the leader's
      prefix does: it drops nothing unless it conflicts with the leader. */
  lemma {:induction false} MergeAdopts(h: History, logs: Log, l: Log, base: nat, top: Log, off: nat,
                                       entries: seq<Entry>)
    requires Grounded(h, l) && Grounded(h, top) && LogsRep(logs, l, base)
    requires 0 < off <= |logs| && Agree(l, top, base + off - 1)
    requires base + off + |entries| <= |top|
    requires forall k :: 0 <= k < |entries| ==> entries[k] == top[base + off + k]
    ensures LogsRep(Merge(logs, off, entries), Adopt(l, Prefix(top, base + off - 1 + |entries|)), base)
    decreases |entries|
  {
    if entries == [] {
      assert Prefix(top, base + off - 1) == l[..base + off];
    } else if off == |logs| || logs[off].term != entries[0].term {
      ConflictAdopts(logs, l, base, top, off, entries);
    } else {
      MatchNext(h, logs, l, base, top, off);
      MergeAdopts(h, logs, l, base, top, off + 1, entries[1..]);
    }
  }

  lemma ConflictAdopts(logs: Log, l: Log, base: nat, top: Log, off: nat, entries: seq<Entry>)
    requires LogsRep(logs, l, base) && 0 < off <= |logs| && Agree(l, top, base + off - 1)
    requires base + off + |entries| <= |top| && entries != []
    requires forall k :: 0 <= k < |entries| ==> entries[k] == top[base + off + k]
    requires off == |logs| || logs[off].term != entries[0].term
    ensures LogsRep(Merge(logs, off, entries), Adopt(l, Prefix(top, base + off - 1 + |entries|)), base)
  {
    var at := base + off;
    var p := Prefix(top, at - 1 + |entries|);
    assert p[at] == entries[0] && (off < |logs| ==> l[at] == logs[off]);
    assert !(p <= l);
    assert off == |logs| ==> logs[..off] == logs;
    ReplacedRep(logs, l, base, top, off, entries);
  }

  lemma MatchNext(h: History, logs: Log, l: Log, base: nat, top: Log, off: nat)
    requires Grounded(h, l) && Grounded(h, top) && LogsRep(logs, l, base)
    requires 0 < off < |logs| && base + off < |top| && logs[off].term == top[base + off].term
    ensures Agree(l, top, base + off)
  {
    LogMatching(h, l, top, base + off);
  }

  lemma InstallAdopts(h: History, nd: Node, l: Log, top: Log, args: InstallArgs)
    requires Grounded(h, l) && Grounded(h, top) && LogsRep(nd.logs, l, nd.lastIncludedIndex)
    requires nd.lastIncludedIndex <= args.lastIncludedIndex < |top|
    requires args.lastIncludedTerm == top[args.lastIncludedIndex].term
    ensures LogsRep(InstalledLogs(nd, args), Adopt(l, Prefix(top, args.lastIncludedIndex)), args.lastIncludedIndex)
  {
    var at := args.lastIncludedIndex;
    var p := Prefix(top, at);
    if Contains(nd, at) && TermAt(nd, at) == args.lastIncludedTerm {
      LogMatching(h, l, top, at);
      assert p == l[..at + 1];
    } else {
      assert at < |l| ==> l[at].term != p[at].term;
      assert !(p <= l);
    }
  }

  /** The service and its stream only depend on the committed part of the log. */
  lemma ServiceStays(p: Proc, s: Server, nd': Node, s': Server)
    requires ServiceRep(p, s) && Agree(s.log, s'.log, s.commit) && s.commit <= s'.commit < |s'.log|
    requires nd'.pendingSnapshot == p.node.pendingSnapshot && nd'.lastApplied == p.node.lastApplied
    ensures ServiceRep(p.(node := nd'), s')
  {
    ReplayAgree(s.log, s'.log, p.applied);
    if |p.outbox| == 1 && p.outbox[0].SnapshotMsg? {
      ReplayAgree(s.log, s'.log, p.outbox[0].index);
    }
  }

  // ----- votes -----

  lemma GrantSim(h: History, i: nat, p: Proc, s: Server, args: VoteArgs) returns (h': History, s': Server)
    requires ProcOk(h, i, p, s) && MessageOk(h, VoteCall(i, args)) && s.term == args.term
    requires s.vote == -1 || s.vote == args.candidateId
    requires UpToDate(args.lastLogTerm, args.lastLogIndex, s.log)
    ensures Moved(h, h', i, s')
    ensures ProcRep(h'.n, i, p.(node := Persist(p.node.(votedFor := args.candidateId))), s')
    ensures (args.term, i) in h'.ballots && h'.ballots[(args.term, i)].candidate == args.candidateId
  {
    VoteMoveOk(h, i, s, args.candidateId);
    h', s' := VoteHistory(h, i, s, args.candidateId), Vote(s, args.candidateId);
    assert LastIndex(Persist(p.node.(votedFor := args.candidateId))) == LastIndex(p.node);
  }

  lemma CatchUpOk(h: History, i: nat, p: Proc, s: Server, t: nat) returns (s': Server)
    requires ProcOk(h, i, p, s) && t >= s.term
    ensures ProcOk(h, i, p.(node := CatchUp(p.node, t)), s') && s'.term == t
  {
    s' := s;
    if t > s.term {
      FollowedOk(h, i, p, s, t);
      s' := Followed(s, t);
    }
  }

  lemma HandleVoteSim(h: History, i: nat, p: Proc, s: Server, args: VoteArgs) returns (h': History, s': Server)
    requires ProcOk(h, i, p, s) && MessageOk(h, VoteCall(i, args))
    ensures Moved(h, h', i, s')
    ensures ProcRep(h'.n, i, p.(node := HandleVote(p.node, args).0), s')
    ensures MessageOk(h', VoteReturn(args.candidateId, i, args, HandleVote(p.node, args).1))
  {
    h', s' := h, s;
    Stayed(h, i, s);
    if args.term < s.term { return; }
    s' := CatchUpOk(h, i, p, s, args.term);
    var nd1 := CatchUp(p.node, args.term);
    Stayed(h, i, s');
    if GrantsVote(nd1, args) {
      assert LastIndex(nd1) == |s'.log| - 1 && LastTerm(nd1.logs) == LastTerm(s'.log);
      h', s' := GrantSim(h, i, p.(node := nd1), s', args);
    }
  }

  // ----- AppendEntries -----

  lemma MergedLogs(h: History, i: nat, nd: Node, s: Server, args: AppendArgs)
    requires HistoryInv(h) && Grounded(h, s.log) && StateRep(h.n, i, nd, s)
    requires s.term == args.term && AppendOf(h, args)
    requires Contains(nd, args.prevLogIndex) && TermAt(nd, args.prevLogIndex) == args.prevLogTerm
    ensures LogsRep(MergeInto(nd, args).logs, Accept(h, s, args.prevLogIndex + |args.entries|).log, s.base)
  {
    var top := h.reigns[args.term].log;
    assert ReignOk(h, args.term);
    LogMatching(h, s.log, top, args.prevLogIndex);
    MergeAdopts(h, nd.logs, s.log, s.base, top, args.prevLogIndex + 1 - s.base, args.entries);
  }

  lemma MergedRep(n: nat, i: nat, p: Proc, s: Server, args: AppendArgs, s': Server)
    requires ProcRep(n, i, p, s) && s.role == Follower && Contains(p.node, args.prevLogIndex)
    requires s' == s.(log := s'.log) && s.base <= s.commit && Agree(s.log, s'.log, s.commit)
    requires LogsRep(MergeInto(p.node, args).logs, s'.log, s.base)
    ensures ProcRep(n, i, p.(node := MergeInto(p.node, args)), s')
  {
    ReplayAgree(s.log, s'.log, s.base);
    ServiceStays(p, s, MergeInto(p.node, args), s');
  }

  lemma MergedProc(h: History, i: nat, p: Proc, s: Server, args: AppendArgs, s': Server)
    requires HistoryInv(h) && Grounded(h, s.log) && s.base <= s.commit && ProcRep(h.n, i, p, s)
    requires s.role == Follower && s.term == args.term && AppendOf(h, args)
    requires Contains(p.node, args.prevLogIndex) && TermAt(p.node, args.prevLogIndex) == args.prevLogTerm
    requires s' == Accept(h, s, args.prevLogIndex + |args.entries|) && Agree(s.log, s'.log, s.commit)
    ensures ProcRep(h.n, i, p.(node := MergeInto(p.node, args)), s')
  {
    MergedLogs(h, i, p.node, s, args);
    MergedRep(h.n, i, p, s, args, s');
  }

  lemma AcceptMoves(h: History, i: nat, s: Server, k: nat) returns (h': History, s': Server)
    requires HistoryInv(h) && ServerOk(h, i, s) && i < h.n && s.role == Follower
    requires s.term in h.reigns && k < |h.reigns[s.term].log|
    ensures Moved(h, h', i, s') && Acked(h', s.term, i, k)
    ensures s' == Accept(h, s, k) && Agree(s.log, s'.log, s.commit)
  {
    h', s' := AcceptHistory(h, i, s, k), Accept(h, s, k);
    AcceptOk(h, i, s, k);
  }

  lemma MergeIntoSim(h: History, i: nat, p: Proc, s: Server, args: AppendArgs) returns (h': History, s': Server)
    requires ProcOk(h, i, p, s) && s.role == Follower && s.term == args.term && AppendOf(h, args)
    requires Contains(p.node, args.prevLogIndex) && TermAt(p.node, args.prevLogIndex) == args.prevLogTerm
    ensures Moved(h, h', i, s')
    ensures ProcRep(h'.n, i, p.(node := MergeInto(p.node, args)), s')
    ensures s'.term == s.term && s'.role == Follower
    ensures Acked(h', args.term, i, args.prevLogIndex + |args.entries|)
  {
    h', s' := AcceptMoves(h, i, s, args.prevLogIndex + |args.entries|);
    MergedProc(h, i, p, s, args, s');
  }

  /** What a server has acknowledged in its own term it has. */
  lemma AckedHas(h: History, i: nat, s: Server, k: nat)
    requires KeepOk(h, i, s) && Acked(h, s.term, i, k)
    ensures Has(h, s.log, s.term, k)
  {
    assert Kept(h, s.log, s.term, k, s.term);
  }

  lemma FollowerCommitSim(h: History, i: nat, p: Proc, s: Server, args: AppendArgs) returns (s': Server)
    requires ProcOk(h, i, p, s) && s.role == Follower && s.term == args.term && AppendOf(h, args)
    requires Agree(s.log, h.reigns[args.term].log, args.prevLogIndex + |args.entries|)
    ensures ServerOk(h, i, s') && ProcRep(h.n, i, p.(node := FollowerCommit(p.node, args)), s')
  {
    var nd' := FollowerCommit(p.node, args);
    s' := s;
    if nd'.commitIndex > s.commit {
      var c := nd'.commitIndex;
      ChosenAgrees(h, h.reigns[args.term].log, args.leaderCommit, args.term, s.log, c);
      CommitOk(h, i, s, c);
      s' := s.(commit := c);
      ServiceStays(p, s, nd', s');
    }
  }

  lemma HandleAppendSim(h: History, i: nat, p: Proc, s: Server, args: AppendArgs, probe: bool)
    returns (h': History, s': Server)
    requires ProcOk(h, i, p, s) && AppendOf(h, args)
    ensures Moved(h, h', i, s')
    ensures ProcRep(h'.n, i, p.(node := HandleAppend(p.node, args).0), s')
    ensures MessageOk(h', AppendReturn(args.leaderId, i, args, probe, HandleAppend(p.node, args).1))
  {
    var nd := p.node;
    h', s' := h, s;
    Stayed(h, i, s);
    if args.term < nd.currentTerm { return; }
    FollowedOk(h, i, p, s, args.term);
    h', s' := FollowerAppendSim(h, i, p.(node := BecomeFollower(nd, args.term)), Followed(s, args.term), args);
  }

  lemma FollowerAppendSim(h: History, i: nat, p: Proc, s: Server, args: AppendArgs) returns (h': History, s': Server)
    requires ProcOk(h, i, p, s) && s.role == Follower && s.term == args.term && AppendOf(h, args)
    ensures Moved(h, h', i, s') && ProcRep(h'.n, i, p.(node := FollowerAppend(p.node, args).0), s')
    ensures AppendOf(h', args)
    ensures FollowerAppend(p.node, args).1.success ==> Acked(h', args.term, i, args.prevLogIndex + |args.entries|)
  {
    var prev := args.prevLogIndex;
    if Contains(p.node, prev) && TermAt(p.node, prev) == args.prevLogTerm {
      h', s' := MatchedSim(h, i, p, s, args);
    } else {
      h', s' := h, s;
      Stayed(h, i, s);
    }
  }

  /** The previous entry matches: the follower merges, acknowledges and commits. */
  lemma MatchedSim(h: History, i: nat, p: Proc, s: Server, args: AppendArgs) returns (h': History, s': Server)
    requires ProcOk(h, i, p, s) && s.role == Follower && s.term == args.term && AppendOf(h, args)
    requires Contains(p.node, args.prevLogIndex) && TermAt(p.node, args.prevLogIndex) == args.prevLogTerm
    ensures Moved(h, h', i, s')
    ensures ProcRep(h'.n, i, p.(node := FollowerCommit(MergeInto(p.node, args), args)), s')
    ensures AppendOf(h', args) && Acked(h', args.term, i, args.prevLogIndex + |args.entries|)
  {
    h', s' := MergeIntoSim(h, i, p, s, args);
    AppendOfGrows(h, h', args);
    AckedHas(h', i, s', args.prevLogIndex + |args.entries|);
    s' := FollowerCommitSim(h', i, p.(node := MergeInto(p.node, args)), s', args);
  }

  // ----- InstallSnapshot -----

  /** Accepting the leader's prefix up to the boundary, committing it and trimming to it. */
  lemma InstallMove(h: History, i: nat, s: Server, at: nat) returns (h': History, s': Server)
    requires HistoryInv(h) && ServerOk(h, i, s) && i < h.n && s.role == Follower
    requires s.term in h.reigns && Chosen(h, h.reigns[s.term].log, at, s.term) && at > s.commit
    ensures Moved(h, h', i, s') && Acked(h', s.term, i, at)
    ensures s' == s.(log := Adopt(s.log, Prefix(h.reigns[s.term].log, at)), commit := at, base := at)
    ensures Agree(s.log, s'.log, s.commit) && Agree(h.reigns[s.term].log, s'.log, at)
  {
    var s1;
    h', s1 := AcceptMoves(h, i, s, at);
    ChosenAgrees(h, h.reigns[s.term].log, at, s.term, s1.log, at);
    ChosenGrows(h, h', s1.log, at, s.term, s.term);
    CommitOk(h', i, s1, at);
    TrimOk(h', i, s1.(commit := at), at);
    s' := s1.(commit := at, base := at);
  }

  lemma InstallSim(h: History, i: nat, p: Proc, s: Server, args: InstallArgs) returns (h': History, s': Server)
    requires ProcOk(h, i, p, s) && s.role == Follower && s.term == args.term && InstallOf(h, args)
    requires args.lastIncludedIndex > s.commit
    ensures Moved(h, h', i, s')
    ensures ProcRep(h'.n, i, p.(node := Install(p.node, args)), s')
    ensures Acked(h', args.term, i, args.lastIncludedIndex)
  {
    var top := h.reigns[args.term].log;
    assert Grounded(h, top) by { assert ReignOk(h, args.term); }
    InstallAdopts(h, p.node, s.log, top, args);
    h', s' := InstallMove(h, i, s, args.lastIncludedIndex);
    InstalledRep(h.n, i, p, s, args, s', top);
  }

  lemma InstalledRep(n: nat, i: nat, p: Proc, s: Server, args: InstallArgs, s': Server, top: Log)
    requires ProcRep(n, i, p, s) && s.role == Follower && args.lastIncludedIndex > s.commit
    requires var at := args.lastIncludedIndex;
             && s' == s.(log := s'.log, commit := at, base := at)
             && Agree(s.log, s'.log, s.commit) && Agree(top, s'.log, at)
             && LogsRep(InstalledLogs(p.node, args), s'.log, at)
             && args.lastIncludedTerm == top[at].term && args.data == SnapshotAt(top, at)
    ensures ProcRep(n, i, p.(node := Install(p.node, args)), s')
  {
    ReplayAgree(top, s'.log, args.lastIncludedIndex);
    InstalledService(p, s, Install(p.node, args), s');
  }

  lemma InstalledService(p: Proc, s: Server, nd': Node, s': Server)
    requires ServiceRep(p, s) && Agree(s.log, s'.log, s.commit) && s.commit < s'.commit < |s'.log|
    requires nd'.pendingSnapshot.Some? && nd'.lastApplied == s'.commit && p.node.lastApplied <= s.commit
    ensures ServiceRep(p.(node := nd'), s')
  {
    ReplayAgree(s.log, s'.log, p.applied);
    if |p.outbox| == 1 && p.outbox[0].SnapshotMsg? {
      ReplayAgree(s.log, s'.log, p.outbox[0].index);
    }
  }

  /** Everything up to the boundary is committed here already: the reply confirms it. */
  lemma ConfirmBoundary(h: History, i: nat, s: Server, at: nat) returns (h': History)
    requires HistoryInv(h) && ServerOk(h, i, s) && i < h.n && s.role == Follower
    requires s.term in h.reigns && at <= s.commit
    ensures Moved(h, h', i, s) && Acked(h', s.term, i, at)
  {
    var top := h.reigns[s.term].log;
    ChosenInLeader(h, s.log, s.commit, s.term, s.term);
    assert Prefix(top, at) == s.log[..at + 1];
    AcceptOk(h, i, s, at);
    h' := AcceptHistory(h, i, s, at);
  }

  lemma HandleInstallSim(h: History, i: nat, p: Proc, s: Server, args: InstallArgs) returns (h': History, s': Server)
    requires ProcOk(h, i, p, s) && InstallOf(h, args)
    ensures Moved(h, h', i, s')
    ensures ProcRep(h'.n, i, p.(node := HandleInstall(p.node, args).0), s')
    ensures MessageOk(h', InstallReturn(args.leaderId, i, args, HandleInstall(p.node, args).1))
  {
    var nd := p.node;
    h', s' := h, s;
    Stayed(h, i, s);
    if args.term < nd.currentTerm { return; }
    FollowedOk(h, i, p, s, args.term);
    var nd1 := BecomeFollower(nd, args.term);
    s' := Followed(s, args.term);
    if args.lastIncludedIndex <= nd1.commitIndex {
      h' := ConfirmBoundary(h, i, s', args.lastIncludedIndex);
    } else {
      h', s' := InstallSim(h, i, p.(node := nd1), s', args);
    }
    InstallOfGrows(h, h', args);
  }
}
