/** Elections, the leader's side of replication, the applier and crashes make protocol moves. */
module RaftLeader {
  import opened RaftLog
  import opened RaftHistory
  import opened RaftGrowth
  import opened RaftGroup
  import opened RaftMoves
  import opened RaftNode
  import opened RaftSystem
  import opened RaftRep
  import opened RaftFollower

  // ----- elections -----

  lemma StandSim(h: History, i: nat, p: Proc, s: Server)
    requires ProcOk(h, i, p, s)
    ensures Moved(h, StandHistory(h, i, s), i, Stand(s, i))
    ensures ProcOk(StandHistory(h, i, s), i, p.(node := Stood(p.node)), Stand(s, i))
    ensures forall m :: m in VoteCalls(Stood(p.node)) ==> MessageOk(StandHistory(h, i, s), m)
  {
    StandOk(h, i, s);
    VoteCallsOk(h, i, p.node, s);
  }

  lemma VoteCallsOk(h: History, i: nat, nd: Node, s: Server)
    requires StateRep(h.n, i, nd, s)
    ensures forall m :: m in VoteCalls(Stood(nd)) ==> MessageOk(StandHistory(h, i, s), m)
  {
    assert VoteRequest(Stood(nd)) == VoteArgs(s.term + 1, i, |s.log| - 1, LastTerm(s.log));
  }

  lemma WinSim(h: History, i: nat, p: Proc, s: Server)
    requires ProcOk(h, i, p, s) && s.role == Candidate && |s.votes| >= Majority(h.n)
    ensures Moved(h, WinHistory(h, i, s), i, Win(s, i, h.n))
    ensures ProcRep(h.n, i, p.(node := BecomeLeader(p.node)), Win(s, i, h.n))
  {
    assert IsQuorum(h.n, s.votes);
    WinOk(h, i, s);
    var nd' := BecomeLeader(p.node);
    var s' := Win(s, i, h.n);
    assert LastIndex(nd') == |s.log| - 1;
    assert nd'.matchIndex == s'.matched;
    forall q | 0 <= q < nd'.peers ensures NextOk(nd'.matchIndex, nd'.nextIndex, LastIndex(nd'), q) {}
  }

  lemma MovedTrans(a: History, b: History, c: History, i: nat, s: Server, s': Server)
    requires Moved(a, b, i, s) && Moved(b, c, i, s')
    ensures Moved(a, c, i, s')
  {
    ExtendsTrans(a, b, c);
    forall t | t in c.reigns && c.reigns[t].leader != i ensures t in a.reigns && c.reigns[t] == a.reigns[t] {
      assert t in b.reigns && c.reigns[t] == b.reigns[t];
    }
  }

  lemma VoteCallsGrow(h: History, h': History, out: set<Message>)
    requires Extends(h, h') && forall m :: m in out ==> MessageOk(h, m)
    ensures forall m :: m in out ==> MessageOk(h', m)
  {
    forall m | m in out ensures MessageOk(h', m) { MessageGrows(h, h', m); }
  }

  lemma StartElectionSim(h: History, i: nat, p: Proc, s: Server) returns (h': History, s': Server)
    requires ProcOk(h, i, p, s)
    ensures Moved(h, h', i, s')
    ensures ProcRep(h'.n, i, p.(node := StartElection(p.node)), s')
    ensures forall m :: m in VoteCalls(StartElection(p.node)) ==> MessageOk(h', m)
  {
    StandSim(h, i, p, s);
    var nd1 := Stood(p.node);
    h', s' := StandHistory(h, i, s), Stand(s, i);
    if 1 >= Majority(h.n) {
      var h2, s2 := WinAloneSim(h', i, p.(node := nd1), s');
      MovedTrans(h, h', h2, i, s', s2);
      h', s' := h2, s2;
    }
  }

  /** A server that is a majority by itself wins at once. */
  lemma WinAloneSim(h: History, i: nat, p: Proc, s: Server) returns (h': History, s': Server)
    requires ProcOk(h, i, p, s) && s.role == Candidate && |s.votes| >= Majority(h.n)
    requires forall m :: m in VoteCalls(p.node) ==> MessageOk(h, m)
    ensures Moved(h, h', i, s') && ProcRep(h'.n, i, p.(node := BecomeLeader(p.node)), s')
    ensures forall m :: m in VoteCalls(BecomeLeader(p.node)) ==> MessageOk(h', m)
  {
    WinSim(h, i, p, s);
    h', s' := WinHistory(h, i, s), Win(s, i, h.n);
    assert VoteRequest(BecomeLeader(p.node)) == VoteRequest(p.node);
    assert VoteCalls(BecomeLeader(p.node)) == VoteCalls(p.node);
    VoteCallsGrow(h, h', VoteCalls(p.node));
  }

  lemma HandleVoteReplySim(h: History, i: nat, p: Proc, s: Server, from: nat, args: VoteArgs, reply: VoteReply)
    returns (h': History, s': Server)
    requires ProcOk(h, i, p, s) && MessageOk(h, VoteReturn(i, from, args, reply))
    ensures Moved(h, h', i, s') && ProcRep(h'.n, i, p.(node := HandleVoteReply(p.node, from, args, reply)), s')
  {
    var nd := p.node;
    h', s' := h, s;
    Stayed(h, i, s);
    if reply.term > nd.currentTerm {
      FollowedOk(h, i, p, s, reply.term);
      s' := Followed(s, reply.term);
      Stayed(h, i, s');
    } else if nd.role == Candidate && nd.currentTerm == args.term && reply.voteGranted {
      CountVoteOk(h, i, s, from);
      s' := s.(votes := s.votes + {from});
      var p1 := p.(node := nd.(votes := nd.votes + {from}));
      assert ProcOk(h, i, p1, s');
      Stayed(h, i, s');
      if |s'.votes| >= Majority(nd.peers) {
        WinSim(h, i, p1, s');
        h', s' := WinHistory(h, i, s'), Win(s', i, h.n);
      }
    }
  }

  // ----- replies to the leader -----

  lemma ConfirmSim(h: History, i: nat, p: Proc, s: Server, from: nat, k: nat) returns (s': Server)
    requires ProcOk(h, i, p, s) && s.role == Leader && from < h.n && Acked(h, s.term, from, k)
    ensures ProcOk(h, i, p.(node := Confirm(p.node, from, k)), s') && s'.role == Leader
  {
    var nd := p.node;
    var nd' := Confirm(nd, from, k);
    assert AckOk(h, s.term, from);
    assert k < |s.log| == LastIndex(nd) + 1;
    s' := s.(matched := nd'.matchIndex);
    if k > s.matched[from] {
      MatchedOk(h, i, s, from, k);
    } else {
      assert s' == s;
    }
    assert LastIndex(nd') == LastIndex(nd);
    forall q | 0 <= q < nd'.peers ensures NextOk(nd'.matchIndex, nd'.nextIndex, LastIndex(nd'), q) {
      assert NextOk(nd.matchIndex, nd.nextIndex, LastIndex(nd), q);
    }
  }

  /** What the descending scan picks is allowed by the commit rule. */
  lemma {:induction false} CommitScanOk(h: History, i: nat, nd: Node, s: Server, k: nat)
    requires HistoryInv(h) && ServerOk(h, i, s) && s.role == Leader
    requires StateRep(h.n, i, nd, s) && nd.matchIndex == s.matched
    requires k < |s.log|
    ensures s.commit <= CommitScan(nd, k) < |s.log| && Chosen(h, s.log, CommitScan(nd, k), s.term)
    decreases k
  {
    if k > nd.commitIndex {
      var q := Matchers(nd.matchIndex, k);
      if TermAt(nd, k) == nd.currentTerm && |q| >= Majority(nd.peers) {
        assert IsQuorum(h.n, q);
        LeaderCommitChosen(h, i, s, k, q);
      } else {
        CommitScanOk(h, i, nd, s, k - 1);
      }
    }
  }

  lemma AdvanceCommitSim(h: History, i: nat, p: Proc, s: Server) returns (s': Server)
    requires ProcOk(h, i, p, s) && s.role == Leader
    ensures ProcOk(h, i, p.(node := AdvanceCommit(p.node)), s')
  {
    var nd := p.node;
    CommitScanOk(h, i, nd, s, |s.log| - 1);
    var c := CommitScan(nd, LastIndex(nd));
    CommitOk(h, i, s, c);
    s' := s.(commit := c);
    var nd' := AdvanceCommit(nd);
    assert LastIndex(nd') == LastIndex(nd);
    ServiceStays(p, s, nd', s');
  }

  lemma BackUpSim(h: History, i: nat, p: Proc, s: Server, from: nat, reply: AppendReply)
    requires ProcOk(h, i, p, s) && s.role == Leader && from < h.n
    ensures ProcRep(h.n, i, p.(node := p.node.(nextIndex := p.node.nextIndex[from := BackUp(p.node, from, reply)])), s)
  {
    var nd := p.node;
    var nd' := nd.(nextIndex := nd.nextIndex[from := BackUp(nd, from, reply)]);
    assert LastIndex(nd') == LastIndex(nd);
    forall q | 0 <= q < nd'.peers ensures NextOk(nd'.matchIndex, nd'.nextIndex, LastIndex(nd'), q) {
      assert NextOk(nd.matchIndex, nd.nextIndex, LastIndex(nd), q);
    }
  }

  lemma ReplicatedSim(h: History, i: nat, p: Proc, s: Server, from: nat, k: nat) returns (s': Server)
    requires ProcOk(h, i, p, s) && s.role == Leader && from < h.n && Acked(h, s.term, from, k)
    ensures ServerOk(h, i, s') && ProcRep(h.n, i, p.(node := Replicated(p.node, from, k)), s')
  {
    s' := ConfirmSim(h, i, p, s, from, k);
    var nd1 := Confirm(p.node, from, k);
    if nd1.matchIndex[from] > p.node.matchIndex[from] {
      s' := AdvanceCommitSim(h, i, p.(node := nd1), s');
    }
  }

  lemma HeardSim(h: History, i: nat, p: Proc, s: Server, from: nat, args: AppendArgs, reply: AppendReply)
    returns (s': Server)
    requires ProcOk(h, i, p, s) && s.role == Leader && from < h.n
    requires reply.success ==> Acked(h, s.term, from, args.prevLogIndex + |args.entries|)
    ensures ServerOk(h, i, s') && ProcRep(h.n, i, p.(node := Heard(p.node, from, args, reply)), s')
  {
    if reply.success {
      s' := AcceptedSim(h, i, p, s, from, args, reply);
    } else {
      s' := RejectedSim(h, i, p, s, from, args, reply);
    }
  }

  lemma AcceptedSim(h: History, i: nat, p: Proc, s: Server, from: nat, args: AppendArgs, reply: AppendReply)
    returns (s': Server)
    requires ProcOk(h, i, p, s) && s.role == Leader && from < h.n && reply.success
    requires Acked(h, s.term, from, args.prevLogIndex + |args.entries|)
    ensures ServerOk(h, i, s') && ProcRep(h.n, i, p.(node := Heard(p.node, from, args, reply)), s')
  {
    HeardSuccess(p.node, from, args, reply);
    s' := ReplicatedSim(h, i, p, s, from, args.prevLogIndex + |args.entries|);
  }

  lemma HeardSuccess(nd: Node, from: nat, args: AppendArgs, reply: AppendReply)
    requires from < nd.peers && nd.role == Leader && reply.success
    ensures Heard(nd, from, args, reply) == Replicated(nd, from, args.prevLogIndex + |args.entries|)
  {
  }

  lemma RejectedSim(h: History, i: nat, p: Proc, s: Server, from: nat, args: AppendArgs, reply: AppendReply)
    returns (s': Server)
    requires ProcOk(h, i, p, s) && s.role == Leader && from < h.n && !reply.success
    ensures ServerOk(h, i, s') && ProcRep(h.n, i, p.(node := Heard(p.node, from, args, reply)), s')
  {
    s' := s;
    if p.node.nextIndex[from] == args.prevLogIndex + 1 { BackUpSim(h, i, p, s, from, reply); }
  }

  lemma HandleAppendReplySim(h: History, i: nat, p: Proc, s: Server, from: nat, args: AppendArgs, reply: AppendReply)
    returns (s': Server)
    requires ProcOk(h, i, p, s) && MessageOk(h, AppendReturn(i, from, args, false, reply))
    ensures ServerOk(h, i, s') && ProcRep(h.n, i, p.(node := HandleAppendReply(p.node, from, args, reply)), s')
  {
    var nd := p.node;
    s' := s;
    if reply.term > nd.currentTerm {
      FollowedOk(h, i, p, s, reply.term);
      s' := Followed(s, reply.term);
    } else if nd.role == Leader && nd.currentTerm == args.term {
      s' := HeardSim(h, i, p, s, from, args, reply);
    }
  }

  lemma HandleInstallReplySim(h: History, i: nat, p: Proc, s: Server, from: nat, args: InstallArgs, term: nat)
    returns (s': Server)
    requires ProcOk(h, i, p, s) && MessageOk(h, InstallReturn(i, from, args, term))
    ensures ServerOk(h, i, s') && ProcRep(h.n, i, p.(node := HandleInstallReply(p.node, from, args, term)), s')
  {
    var nd := p.node;
    s' := s;
    if term > nd.currentTerm {
      FollowedOk(h, i, p, s, term);
      s' := Followed(s, term);
    } else if nd.role == Leader && nd.currentTerm == args.term {
      s' := ConfirmSim(h, i, p, s, from, args.lastIncludedIndex);
    }
  }

  lemma HandleProbeReplySim(h: History, i: nat, p: Proc, s: Server, reply: AppendReply) returns (s': Server)
    requires ProcOk(h, i, p, s)
    ensures ServerOk(h, i, s') && ProcRep(h.n, i, p.(node := HandleProbeReply(p.node, reply)), s')
  {
    s' := s;
    if reply.term > p.node.currentTerm {
      FollowedOk(h, i, p, s, reply.term);
      s' := Followed(s, reply.term);
    }
  }

  // ----- requests the leader sends -----

  lemma AppendForOk(h: History, i: nat, p: Proc, s: Server, peer: nat)
    requires ProcOk(h, i, p, s) && s.role == Leader && peer < h.n && !SnapshotDue(p.node, peer)
    ensures p.node.nextIndex[peer] <= LastIndex(p.node) + 1
    ensures AppendOf(h, AppendFor(p.node, peer))
  {
    var nd := p.node;
    assert NextOk(nd.matchIndex, nd.nextIndex, LastIndex(nd), peer);
    var args := AppendFor(nd, peer);
    assert h.reigns[s.term].log == s.log;
  }

  lemma HeartbeatOk(h: History, i: nat, p: Proc, s: Server)
    requires ProcOk(h, i, p, s) && s.role == Leader
    ensures AppendOf(h, Heartbeat(p.node))
  {
    assert h.reigns[s.term].log == s.log;
  }

  lemma InstallForOk(h: History, i: nat, p: Proc, s: Server)
    requires ProcOk(h, i, p, s) && s.role == Leader
    ensures InstallOf(h, InstallFor(p.node))
  {
    assert h.reigns[s.term].log == s.log;
    ChosenAgrees(h, s.log, s.commit, s.term, s.log, s.base);
  }

  // ----- the service's side -----

  lemma StartSim(h: History, i: nat, p: Proc, s: Server, cmd: Command) returns (h': History, s': Server)
    requires ProcOk(h, i, p, s) && (s.role == Leader ==> Placed(h, Entry(s.term, cmd), |s.log|))
    ensures Moved(h, h', i, s') && ProcRep(h'.n, i, p.(node := Start(p.node, cmd)), s')
  {
    h', s' := h, s;
    Stayed(h, i, s);
    if s.role == Leader {
      AppendOk(h, i, s, cmd);
      h', s' := AppendHistory(h, i, s, cmd), Append(s, i, cmd);
      var nd1 := Appended(p.node, cmd);
      AppendedRep(h.n, i, p, s, cmd);
      if h.n == 1 {
        s' := AdvanceCommitSim(h', i, p.(node := nd1), s');
      }
    }
  }

  lemma AppendedRep(n: nat, i: nat, p: Proc, s: Server, cmd: Command)
    requires ProcRep(n, i, p, s) && s.role == Leader && |s.matched| == n && i < n
    ensures ProcRep(n, i, p.(node := Appended(p.node, cmd)), Append(s, i, cmd))
  {
    var nd, nd', s' := p.node, Appended(p.node, cmd), Append(s, i, cmd);
    assert LastIndex(nd') == LastIndex(nd) + 1 == |s.log|;
    forall q | 0 <= q < nd'.peers ensures NextOk(nd'.matchIndex, nd'.nextIndex, LastIndex(nd'), q) {
      assert NextOk(nd.matchIndex, nd.nextIndex, LastIndex(nd), q);
    }
    ReplayAgree(s.log, s'.log, s.base);
    ServiceStays(p, s, nd', s');
  }

  lemma ClaimSim(h: History, i: nat, p: Proc, s: Server)
    requires ProcOk(h, i, p, s) && p.outbox == [] && CanClaim(p.node)
    ensures InBounds(p.node)
    ensures ProcRep(h.n, i, p.(node := Claim(p.node).0, outbox := Claim(p.node).1), s)
  {
    ClaimedNode(h.n, i, p.node, s);
    ClaimedStream(p, s);
  }

  lemma ClaimedNode(n: nat, i: nat, nd: Node, s: Server)
    requires NodeRep(n, i, nd, s) && s.commit < |s.log| && CanClaim(nd)
    ensures InBounds(nd) && NodeRep(n, i, Claim(nd).0, s)
  {
    assert LastIndex(Claim(nd).0) == LastIndex(nd);
  }

  lemma ClaimedStream(p: Proc, s: Server)
    requires ServiceRep(p, s) && ApplyRep(p.node) && LogsRep(p.node.logs, s.log, p.node.lastIncludedIndex)
    requires p.node.commitIndex == s.commit < |s.log| && p.node.snapshot == SnapshotAt(s.log, p.node.lastIncludedIndex)
    requires p.outbox == [] && CanClaim(p.node)
    ensures ServiceRep(p.(node := Claim(p.node).0, outbox := Claim(p.node).1), s)
  {
  }

  lemma ConsumeService(p: Proc, s: Server)
    requires ServiceRep(p, s) && p.outbox != []
    ensures ServiceRep(Consume(p), s)
  {
    if p.outbox[0].CommandMsg? {
      assert Replay(s.log, p.applied + 1) == Apply(p.store, s.log[p.applied + 1].cmd);
      var rest := p.outbox[1..];
      assert forall k :: 0 <= k < |rest| ==> rest[k] == p.outbox[k + 1];
    }
  }

  lemma ConsumeSim(h: History, i: nat, p: Proc, s: Server)
    requires ProcOk(h, i, p, s) && p.outbox != []
    ensures ProcRep(h.n, i, Consume(p), s)
  {
    ConsumeService(p, s);
    assert Consume(p).node == p.node;
  }

  lemma TakeSnapshotSim(h: History, i: nat, p: Proc, s: Server) returns (s': Server)
    requires ProcOk(h, i, p, s)
    ensures ServerOk(h, i, s') && ProcRep(h.n, i, p.(node := TakeSnapshot(p.node, p.applied, p.store)), s')
  {
    var nd := p.node;
    s' := s;
    var nd' := TakeSnapshot(nd, p.applied, p.store);
    if nd' != nd {
      TrimOk(h, i, s, p.applied);
      s' := s.(base := p.applied);
      assert LastIndex(nd') == LastIndex(nd);
    }
  }

  lemma CrashSim(h: History, i: nat, p: Proc, s: Server, epoch: nat)
    requires ProcOk(h, i, p, s)
    ensures ServerOk(h, i, Reboot(s))
    ensures ProcRep(h.n, i, BootedProc(p.node.me, p.node.peers, p.node.disk, epoch), Reboot(s))
  {
    RebootOk(h, i, s);
  }
}
