/** From every reachable state, whatever has been lost, delayed or restarted, the servers can still elect
    a leader. */
module RaftElection {
  import opened RaftLog
  import opened RaftGroup
  import opened RaftNode
  import opened RaftSystem
  import opened RaftPaths

  predicate TermsUpTo(sys: System, t: nat) {
    forall j :: 0 <= j < |sys.procs| ==> sys.procs[j].node.currentTerm <= t
  }

  /** Server `i` leads and nobody is in a later term. */
  predicate InCharge(sys: System, i: nat) {
    i < |sys.procs| && sys.procs[i].node.role == Leader && TermsUpTo(sys, sys.procs[i].node.currentTerm)
  }

  lemma LatestTerm(sys: System) returns (t: nat)
    ensures TermsUpTo(sys, t)
  {
    t := 0;
    for i := 0 to |sys.procs|
      invariant forall j :: 0 <= j < i ==> sys.procs[j].node.currentTerm <= t
    {
      if sys.procs[i].node.currentTerm > t { t := sys.procs[i].node.currentTerm; }
    }
  }

  // ----- the most up-to-date server -----

  /** The log of `a` is at least as up to date as that of `b`. */
  predicate AsNew(a: NodeData, b: NodeData) {
    LastTerm(a.logs) > LastTerm(b.logs) || (LastTerm(a.logs) == LastTerm(b.logs) && LastIndex(a) >= LastIndex(b))
  }

  predicate Newest(sys: System, i: nat) {
    i < |sys.procs| && forall j :: 0 <= j < |sys.procs| ==> AsNew(sys.procs[i].node, sys.procs[j].node)
  }

  lemma FindNewest(sys: System) returns (i: nat)
    requires |sys.procs| > 0
    ensures Newest(sys, i)
  {
    i := 0;
    for k := 0 to |sys.procs|
      invariant i < |sys.procs| && forall j :: 0 <= j < k ==> AsNew(sys.procs[i].node, sys.procs[j].node)
    {
      if !AsNew(sys.procs[i].node, sys.procs[k].node) { i := k; }
    }
  }

  // ----- a stale leader steps down -----

  /** A heartbeat to a server of a later term brings that term back. */
  lemma StaleLeaderStepsDown(sys: System, i: nat, j: nat) returns (sys': System)
    requires Reachable(sys) && i < |sys.procs| && j < |sys.procs|
    requires sys.procs[i].node.role == Leader && sys.procs[j].node.currentTerm > sys.procs[i].node.currentTerm
    ensures Leads(sys, sys') && Reachable(sys')
    ensures var nd' := BecomeFollower(sys.procs[i].node, sys.procs[j].node.currentTerm);
            sys'.procs == sys.procs[i := sys.procs[i].(node := nd')]
  {
    ReachableNamed(sys);
    assert NamedAt(sys, i) && NamedAt(sys, j);
    var l, f := sys.procs[i].node, sys.procs[j].node;
    var args := Heartbeat(l);
    var sys1 := Probes(sys, i, j);
    var sys2 := Receives(sys1, j, AppendCall(j, args, true));
    assert sys2.procs == sys.procs;
    var reply := AppendReply(f.currentTerm, false, -1, 0);
    sys' := Receives(sys2, i, AppendReturn(i, j, args, true, reply));
    LeadsTrans(sys, sys1, sys2);
    LeadsTrans(sys, sys2, sys');
  }

  // ----- standing until no one is ahead -----

  /** Server `i` stands in its term and everyone else has been asked. */
  predicate Standing(sys: System, i: nat) {
    && i < |sys.procs| && sys.procs[i].node.role == Candidate && sys.procs[i].node.votes == {i}
    && VoteCalls(sys.procs[i].node) <= sys.net
  }

  predicate OnlyNode(sys: System, sys': System, i: nat) {
    && |sys'.procs| == |sys.procs| && i < |sys.procs|
    && (forall j :: 0 <= j < |sys.procs| && j != i ==> sys'.procs[j] == sys.procs[j])
    && sys'.procs[i].node.logs == sys.procs[i].node.logs
    && sys'.procs[i].node.lastIncludedIndex == sys.procs[i].node.lastIncludedIndex
  }

  lemma {:induction false} StandsPast(sys: System, i: nat, t: nat) returns (sys': System)
    requires Reachable(sys) && i < |sys.procs| && |sys.procs| > 1 && sys.procs[i].node.role != Leader
    ensures Leads(sys, sys') && Reachable(sys') && OnlyNode(sys, sys', i)
    ensures Standing(sys', i) && sys'.procs[i].node.currentTerm > t
    decreases t - sys.procs[i].node.currentTerm
  {
    ReachableNamed(sys);
    assert NamedAt(sys, i);
    sys' := TimesOut(sys, i);
    assert Standing(sys', i);
    if sys'.procs[i].node.currentTerm <= t {
      var sys1 := sys';
      sys' := StandsPast(sys1, i, t);
      LeadsTrans(sys, sys1, sys');
    }
  }

  // ----- the count -----

  /** Every server below `v` has been heard, and the candidate of term `t` leads or still counts. */
  predicate Counting(sys: System, i: nat, t: nat, v: nat) {
    && i < |sys.procs| && v <= |sys.procs| && TermsUpTo(sys, t) && Newest(sys, i)
    && var nd := sys.procs[i].node;
       && nd.currentTerm == t && VoteCalls(nd) <= sys.net
       && (forall j :: v <= j < |sys.procs| && j != i ==> sys.procs[j].node.currentTerm < t)
       && (|| nd.role == Leader
           || (nd.role == Candidate && |nd.votes| < Majority(nd.peers) && i in nd.votes
               && forall j: nat :: j < v ==> j in nd.votes))
  }

  /** Server `v`, asked for the first time in this term, grants its vote. */
  lemma Granted(nd: Node, v: Node)
    requires v.currentTerm < nd.currentTerm && AsNew(nd, v)
    ensures var (v', reply) := HandleVote(v, VoteRequest(nd));
            && reply == VoteReply(nd.currentTerm, true) && v'.currentTerm == nd.currentTerm
            && v'.logs == v.logs && v'.lastIncludedIndex == v.lastIncludedIndex
  {
  }

  lemma AsksOne(sys: System, i: nat, t: nat, v: nat) returns (sys': System)
    requires Reachable(sys) && Counting(sys, i, t, v) && v < |sys.procs| && v != i
    ensures Leads(sys, sys') && Reachable(sys') && |sys'.procs| == |sys.procs|
    ensures var nd := sys.procs[i].node;
            && sys'.procs[i].node == HandleVoteReply(nd, v, VoteRequest(nd), VoteReply(t, true))
            && sys'.procs[v].node.currentTerm == t && sys'.procs[v].node.logs == sys.procs[v].node.logs
            && sys'.procs[v].node.lastIncludedIndex == sys.procs[v].node.lastIncludedIndex
    ensures forall j :: 0 <= j < |sys.procs| && j != i && j != v ==> sys'.procs[j] == sys.procs[j]
    ensures sys.net <= sys'.net
  {
    ReachableNamed(sys);
    assert NamedAt(sys, i) && NamedAt(sys, v);
    var nd := sys.procs[i].node;
    var args := VoteRequest(nd);
    assert VoteCall(v, args) in VoteCalls(nd);
    Granted(nd, sys.procs[v].node);
    var sys1 := Receives(sys, v, VoteCall(v, args));
    sys' := Receives(sys1, i, VoteReturn(i, v, args, VoteReply(t, true)));
    LeadsTrans(sys, sys1, sys');
  }

  lemma CountsOne(sys: System, i: nat, t: nat, v: nat) returns (sys': System)
    requires Reachable(sys) && Counting(sys, i, t, v) && v < |sys.procs|
    ensures Leads(sys, sys') && Reachable(sys') && |sys'.procs| == |sys.procs|
    ensures Counting(sys', i, t, v + 1)
  {
    if v == i {
      sys' := sys;
      LeadsRefl(sys);
    } else {
      sys' := AsksOne(sys, i, t, v);
      var nd, nd' := sys.procs[i].node, sys'.procs[i].node;
      assert VoteRequest(nd') == VoteRequest(nd);
      assert VoteCalls(nd') == VoteCalls(nd);
      forall j | 0 <= j < |sys'.procs| ensures AsNew(nd', sys'.procs[j].node) {
        assert AsNew(nd, sys.procs[j].node);
      }
    }
  }

  lemma {:induction false} CountsAll(sys: System, i: nat, t: nat, v: nat) returns (sys': System)
    requires Reachable(sys) && Counting(sys, i, t, v)
    ensures Leads(sys, sys') && Reachable(sys') && Counting(sys', i, t, |sys'.procs|)
    decreases |sys.procs| - v
  {
    if v == |sys.procs| {
      sys' := sys;
      LeadsRefl(sys);
    } else {
      var sys1 := CountsOne(sys, i, t, v);
      sys' := CountsAll(sys1, i, t, v + 1);
      LeadsTrans(sys, sys1, sys');
    }
  }

  /** Once everyone has been heard the candidate leads. */
  lemma AllHeard(sys: System, i: nat, t: nat)
    requires Reachable(sys) && Counting(sys, i, t, |sys.procs|)
    ensures InCharge(sys, i)
  {
    ReachableNamed(sys);
    assert NamedAt(sys, i);
    var nd := sys.procs[i].node;
    if nd.role != Leader {
      SubsetSize(Range(nd.peers), nd.votes);
      assert false;
    }
  }

  // ----- an election -----

  /** The most up-to-date server, when it does not lead, can win. */
  lemma NewestWins(sys: System, i: nat) returns (sys': System)
    requires Reachable(sys) && Newest(sys, i) && sys.procs[i].node.role != Leader
    ensures Leads(sys, sys') && Reachable(sys') && InCharge(sys', i)
  {
    ReachableNamed(sys);
    assert NamedAt(sys, i);
    if |sys.procs| == 1 {
      sys' := TimesOut(sys, i);
    } else {
      var t := LatestTerm(sys);
      var sys1 := StandsPast(sys, i, t);
      StandingCounts(sys, sys1, i, t);
      var sys2 := CountsAll(sys1, i, sys1.procs[i].node.currentTerm, 0);
      AllHeard(sys2, i, sys1.procs[i].node.currentTerm);
      sys' := sys2;
      LeadsTrans(sys, sys1, sys');
    }
  }

  lemma StandingCounts(sys: System, sys1: System, i: nat, t: nat)
    requires Reachable(sys1) && Newest(sys, i) && OnlyNode(sys, sys1, i) && |sys.procs| > 1
    requires TermsUpTo(sys, t) && Standing(sys1, i) && sys1.procs[i].node.currentTerm > t
    ensures Counting(sys1, i, sys1.procs[i].node.currentTerm, 0)
  {
    ReachableNamed(sys1);
    assert NamedAt(sys1, i);
    forall j | 0 <= j < |sys1.procs| ensures AsNew(sys1.procs[i].node, sys1.procs[j].node) {
      assert AsNew(sys.procs[i].node, sys.procs[j].node);
    }
  }

  /** The newest server that is not in charge, if it leads at all, can be made to step down. */
  lemma NewestFree(sys: System, i: nat) returns (sys': System)
    requires Reachable(sys) && Newest(sys, i) && !InCharge(sys, i)
    ensures Leads(sys, sys') && Reachable(sys') && Newest(sys', i) && sys'.procs[i].node.role != Leader
  {
    if sys.procs[i].node.role != Leader {
      sys' := sys;
      LeadsRefl(sys);
    } else {
      var j: nat :| j < |sys.procs| && sys.procs[j].node.currentTerm > sys.procs[i].node.currentTerm;
      sys' := StaleLeaderStepsDown(sys, i, j);
      forall k | 0 <= k < |sys'.procs| ensures AsNew(sys'.procs[i].node, sys'.procs[k].node) {
        assert AsNew(sys.procs[i].node, sys.procs[k].node);
      }
    }
  }

  lemma SomeoneInCharge(sys: System) returns (sys': System, i: nat)
    requires Reachable(sys)
    ensures Leads(sys, sys') && Reachable(sys') && InCharge(sys', i)
  {
    ReachableNamed(sys);
    i := FindNewest(sys);
    if InCharge(sys, i) {
      sys' := sys;
      LeadsRefl(sys);
    } else {
      var sys1 := NewestFree(sys, i);
      sys' := NewestWins(sys1, i);
      LeadsTrans(sys, sys1, sys');
    }
  }

  /** Every run, from any initial state on, can go on to a state in which some server leads and nobody is
      in a later term. */
  lemma LeaderCanBeElected(run: seq<System>) returns (more: seq<System>, i: nat)
    requires IsRun(run)
    ensures IsRun(run + more) && InCharge((run + more)[|run + more| - 1], i)
  {
    RunReaches(run);
    var sys', leader := SomeoneInCharge(run[|run| - 1]);
    i := leader;
    more := RunGoesOn(run, sys');
  }
}
