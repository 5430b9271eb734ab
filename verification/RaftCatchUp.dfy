/** From every reachable state a leader nobody is ahead of can bring any other server's log up to its own,
    by the requests and replies it uses: heartbeats, log entries, back-up after refusals, snapshots. */
module RaftCatchUp {
  import opened RaftLog
  import opened RaftHistory
  import opened RaftGroup
  import opened RaftNode
  import opened RaftSystem
  import opened RaftRep
  import opened RaftSafety
  import opened RaftBackup
  import opened RaftPaths
  import opened RaftElection
  import opened RaftExact

  // ----- a leader and a server of its term -----

  /** The two logs agree through `c`, which covers what the server has committed and what the leader has
      confirmed; a request that starts past `c` is refused, and the refusal sends the leader back. */
  predicate Parted(l: Node, f: Node, j: nat, c: nat)
    requires l.role == Leader && j < l.peers
  {
    && l.currentTerm == f.currentTerm && l.logs[0].term == l.lastIncludedTerm
    && c <= LastIndex(l) && c <= LastIndex(f)
    && f.lastIncludedIndex <= f.commitIndex <= c
    && l.matchIndex[j] <= c && l.matchIndex[j] < l.nextIndex[j] <= LastIndex(l) + 1
    && (forall k: nat :: k <= c && Contains(l, k) && Contains(f, k) ==> TermAt(l, k) == TermAt(f, k))
    && (!SnapshotDue(l, j) && c + 1 < l.nextIndex[j] ==>
          !ReplyTo(l, f, j).success && BackUp(l, j, ReplyTo(l, f, j)) < l.nextIndex[j])
  }

  /** A conflicting term sends the leader to or before the conflict, compacted or not. */
  lemma ConflictBelow(h: History, logs: Log, base: nat, l: Log, f: Log, c: nat, prev: nat)
    requires HistoryInv(h) && Grounded(h, l) && Grounded(h, f) && CommonEnd(l, f, c)
    requires LogsRep(logs, l, base) && base <= prev && c < prev && prev < |l| && prev < |f|
    ensures LastOfTerm(logs, base, f[prev].term) < prev
  {
    var t := f[prev].term;
    var m := LastOfTerm(logs, base, t);
    LastOfTermAt(logs, base, t);
    if m != -1 {
      forall k | m < k < |l| ensures l[k].term != t { assert logs[k - base].term != t; }
      ConflictTermBounds(h, l, f, c, prev, m);
    }
  }

  lemma RefusalLowers(h: History, l: Node, sl: Server, f: Node, sf: Server, j: nat, c: nat)
    requires HistoryInv(h) && Grounded(h, sl.log) && Grounded(h, sf.log) && CommonEnd(sl.log, sf.log, c)
    requires l.role == Leader && j < l.peers && f.currentTerm == l.currentTerm
    requires l.lastIncludedIndex == sl.base && LogsRep(l.logs, sl.log, sl.base)
    requires f.lastIncludedIndex == sf.base && LogsRep(f.logs, sf.log, sf.base) && sf.base <= c
    requires l.matchIndex[j] <= c && l.lastIncludedIndex < l.nextIndex[j] <= LastIndex(l) + 1 && c + 1 < l.nextIndex[j]
    ensures !ReplyTo(l, f, j).success && BackUp(l, j, ReplyTo(l, f, j)) < l.nextIndex[j]
  {
    var prev: nat := l.nextIndex[j] - 1;
    assert TermAt(l, prev) == sl.log[prev].term;
    if prev <= LastIndex(f) {
      assert TermAt(f, prev) == sf.log[prev].term;
      TermsDiffer(h, sl.log, sf.log, c, prev);
      ConflictBelow(h, l.logs, sl.base, sl.log, sf.log, c, prev);
    }
  }

  lemma WhereTheyPart(sys: System, i: nat, j: nat) returns (c: nat)
    requires Reachable(sys) && i < |sys.procs| && j < |sys.procs| && i != j && sys.procs[i].node.role == Leader
    requires sys.procs[j].node.currentTerm == sys.procs[i].node.currentTerm
    ensures j < sys.procs[i].node.peers && Parted(sys.procs[i].node, sys.procs[j].node, j, c)
  {
    var g := ReachableRep(sys);
    var h, sl, sf := g.h, g.servers[i], g.servers[j];
    var l, f := sys.procs[i].node, sys.procs[j].node;
    assert ProcRep(h.n, i, sys.procs[i], sl) && ProcRep(h.n, j, sys.procs[j], sf);
    assert ServerOk(h, i, sl) && ServerOk(h, j, sf);
    assert NextOk(l.matchIndex, l.nextIndex, LastIndex(l), j);
    c := FindCommonEnd(sl.log, sf.log);
    FollowerInside(h, i, sl, j, sf, c);
    AgreeShows(h.n, i, l, sl, h.n, j, f, sf, c);
    forall k: nat | k <= c && Contains(l, k) && Contains(f, k) ensures TermAt(l, k) == TermAt(f, k) {
      assert SameAt(l, f, k);
    }
    if !SnapshotDue(l, j) && c + 1 < l.nextIndex[j] { RefusalLowers(h, l, sl, f, sf, j, c); }
  }

  // ----- one exchange -----

  /** The leader `i` and server `j` have become `l'` and `f'`; nothing else has changed. */
  predicate Exchanged(sys: System, sys': System, i: nat, j: nat, l': Node, f': Node) {
    && i < |sys.procs| && j < |sys.procs| && i != j && Quiet(sys, sys')
    && sys'.procs == sys.procs[j := sys.procs[j].(node := f')][i := sys.procs[i].(node := l')]
  }

  lemma Appends(sys: System, i: nat, j: nat) returns (sys': System)
    requires Reachable(sys) && i < |sys.procs| && j < |sys.procs| && i != j && sys.procs[i].node.role == Leader
    requires j < sys.procs[i].node.peers && !SnapshotDue(sys.procs[i].node, j)
    requires sys.procs[i].node.nextIndex[j] <= LastIndex(sys.procs[i].node) + 1
    ensures Leads(sys, sys') && Reachable(sys')
    ensures var l := sys.procs[i].node;
            var args := AppendFor(l, j);
            var (f', reply) := HandleAppend(sys.procs[j].node, args);
            Exchanged(sys, sys', i, j, HandleAppendReply(l, j, args, reply), f')
  {
    ReachableNamed(sys);
    assert NamedAt(sys, i) && NamedAt(sys, j);
    var args := AppendFor(sys.procs[i].node, j);
    var reply := HandleAppend(sys.procs[j].node, args).1;
    var sys1 := Replicates(sys, i, j);
    var sys2 := Receives(sys1, j, AppendCall(j, args, false));
    sys' := Receives(sys2, i, AppendReturn(i, j, args, false, reply));
    LeadsTrans(sys, sys1, sys2);
    LeadsTrans(sys, sys2, sys');
  }

  lemma Installs(sys: System, i: nat, j: nat) returns (sys': System)
    requires Reachable(sys) && i < |sys.procs| && j < |sys.procs| && i != j && sys.procs[i].node.role == Leader
    requires j < sys.procs[i].node.peers && SnapshotDue(sys.procs[i].node, j)
    requires sys.procs[i].node.nextIndex[j] <= LastIndex(sys.procs[i].node) + 1
    ensures Leads(sys, sys') && Reachable(sys')
    ensures var l := sys.procs[i].node;
            var args := InstallFor(l);
            var (f', term) := HandleInstall(sys.procs[j].node, args);
            Exchanged(sys, sys', i, j, HandleInstallReply(l, j, args, term), f')
  {
    ReachableNamed(sys);
    assert NamedAt(sys, i) && NamedAt(sys, j);
    var args := InstallFor(sys.procs[i].node);
    var term := HandleInstall(sys.procs[j].node, args).1;
    var sys1 := Replicates(sys, i, j);
    var sys2 := Receives(sys1, j, InstallCall(j, args));
    sys' := Receives(sys2, i, InstallReturn(i, j, args, term));
    LeadsTrans(sys, sys1, sys2);
    LeadsTrans(sys, sys2, sys');
  }

  /** A heartbeat brings a server into the leader's term. */
  lemma Joins(sys: System, i: nat, j: nat) returns (sys': System)
    requires Reachable(sys) && InCharge(sys, i) && j < |sys.procs| && i != j
    ensures Leads(sys, sys') && Reachable(sys') && |sys'.procs| == |sys.procs|
    ensures Exchanged(sys, sys', i, j, sys.procs[i].node, sys'.procs[j].node)
    ensures sys'.procs[j].node.currentTerm == sys.procs[i].node.currentTerm
  {
    ReachableNamed(sys);
    assert NamedAt(sys, i) && NamedAt(sys, j);
    var args := Heartbeat(sys.procs[i].node);
    var sys1 := Probes(sys, i, j);
    sys' := Receives(sys1, j, AppendCall(j, args, true));
    LeadsTrans(sys, sys1, sys');
  }

  // ----- what an exchange comes to -----

  /** The leader's process has only learned about server `j`. */
  predicate SameLeader(p: Proc, p': Proc, j: nat) {
    var l, l' := p.node, p'.node;
    && l.role == Leader && p' == p.(node := l')
    && l' == l.(nextIndex := l'.nextIndex, matchIndex := l'.matchIndex, commitIndex := l'.commitIndex)
    && l.commitIndex <= l'.commitIndex
    && forall q :: 0 <= q < l.peers && q != j ==> l'.matchIndex[q] == l.matchIndex[q]
  }

  /** Leader `i` has dealt with server `j`, which is in its term. */
  predicate Tended(sys: System, sys': System, i: nat, j: nat) {
    && |sys'.procs| == |sys.procs| && i < |sys.procs| && j < |sys.procs| && i != j && Quiet(sys, sys')
    && SameLeader(sys.procs[i], sys'.procs[i], j)
    && sys'.procs[j].node.currentTerm == sys.procs[i].node.currentTerm
    && forall k :: 0 <= k < |sys.procs| && k != i && k != j ==> sys'.procs[k] == sys.procs[k]
  }

  lemma TendedTrans(a: System, b: System, c: System, i: nat, j: nat)
    requires Tended(a, b, i, j) && Tended(b, c, i, j)
    ensures Tended(a, c, i, j)
  {
    forall q | 0 <= q < a.procs[i].node.peers && q != j
      ensures c.procs[i].node.matchIndex[q] == a.procs[i].node.matchIndex[q]
    {
      assert b.procs[i].node.matchIndex[q] == a.procs[i].node.matchIndex[q];
    }
  }

  /** The server has the leader's previous entry. */
  predicate Matches(l: Node, f: Node, j: nat)
    requires l.role == Leader && j < l.peers
  {
    && l.currentTerm == f.currentTerm && !SnapshotDue(l, j) && l.nextIndex[j] <= LastIndex(l) + 1
    && Contains(f, l.nextIndex[j] - 1) && TermAt(f, l.nextIndex[j] - 1) == TermAt(l, l.nextIndex[j] - 1)
  }

  /** The leader has confirmed its whole log on server `j`, and has committed what that allows. */
  ghost predicate UpWith(l: Node, j: nat) {
    l.role == Leader && j < l.peers && l.matchIndex[j] == LastIndex(l) && Settled(l)
  }

  lemma AcceptedByNode(l: Node, f: Node, j: nat)
    requires l.role == Leader && j < l.peers && Matches(l, f, j)
    ensures var (f', reply) := HandleAppend(f, AppendFor(l, j));
            reply.success && reply.term == l.currentTerm == f'.currentTerm
  {
  }

  lemma Accepted(sys: System, i: nat, j: nat) returns (sys': System)
    requires Reachable(sys) && i < |sys.procs| && j < |sys.procs| && i != j && sys.procs[i].node.role == Leader
    requires j < sys.procs[i].node.peers && Matches(sys.procs[i].node, sys.procs[j].node, j)
    requires sys.procs[i].node.matchIndex[j] < LastIndex(sys.procs[i].node)
    ensures Leads(sys, sys') && Reachable(sys') && Tended(sys, sys', i, j) && UpWith(sys'.procs[i].node, j)
  {
    var l, f := sys.procs[i].node, sys.procs[j].node;
    AcceptedByNode(l, f, j);
    var args := AppendFor(l, j);
    AppendReplyExactly(l, j, args, HandleAppend(f, args).1);
    sys' := Appends(sys, i, j);
  }

  /** A leader with something past its boundary, and a server of its term with some of that unconfirmed. */
  predicate Behind(sys: System, i: nat, j: nat) {
    && i < |sys.procs| && j < |sys.procs| && i != j && j < sys.procs[i].node.peers
    && var l := sys.procs[i].node;
       && l.role == Leader && sys.procs[j].node.currentTerm == l.currentTerm
       && l.lastIncludedIndex < LastIndex(l) && l.matchIndex[j] < LastIndex(l)
  }

  lemma Refused(sys: System, i: nat, j: nat) returns (sys': System)
    requires Reachable(sys) && Behind(sys, i, j) && !SnapshotDue(sys.procs[i].node, j)
    requires sys.procs[i].node.nextIndex[j] <= LastIndex(sys.procs[i].node) + 1
    requires !ReplyTo(sys.procs[i].node, sys.procs[j].node, j).success
    ensures Leads(sys, sys') && Reachable(sys') && Tended(sys, sys', i, j) && Behind(sys', i, j)
    ensures var l, f := sys.procs[i].node, sys.procs[j].node;
            && sys'.procs[i].node == WithNext(l, j, BackUp(l, j, ReplyTo(l, f, j)))
            && sys'.procs[j].node == f.(role := Follower)
  {
    var l, f := sys.procs[i].node, sys.procs[j].node;
    var args := AppendFor(l, j);
    AppendReplyExactly(l, j, args, HandleAppend(f, args).1);
    sys' := Appends(sys, i, j);
  }

  /** A request that starts before the server's boundary is refused, and the next one starts there. */
  lemma RaisedToBoundary(l: Node, f: Node, j: nat, c: nat)
    requires l.role == Leader && j < l.peers && Parted(l, f, j, c) && !SnapshotDue(l, j)
    requires l.nextIndex[j] - 1 < f.lastIncludedIndex
    ensures !ReplyTo(l, f, j).success
    ensures Matches(WithNext(l, j, BackUp(l, j, ReplyTo(l, f, j))), f.(role := Follower), j)
  {
    var reply := ReplyTo(l, f, j);
    assert reply == AppendReply(f.currentTerm, false, -1, f.lastIncludedIndex + 1);
    var m, b := l.matchIndex[j], f.lastIncludedIndex;
    var prev := if m < b then b else m;
    assert BackUp(l, j, reply) == prev + 1;
    assert prev <= c && Contains(l, prev) && Contains(f, prev);
  }

  /** A next index within the common part: at most one refusal away from acceptance. */
  lemma FromCommonPart(sys: System, i: nat, j: nat, c: nat) returns (sys': System)
    requires Reachable(sys) && Behind(sys, i, j) && Parted(sys.procs[i].node, sys.procs[j].node, j, c)
    requires !SnapshotDue(sys.procs[i].node, j) && sys.procs[i].node.nextIndex[j] <= c + 1
    ensures Leads(sys, sys') && Reachable(sys') && Tended(sys, sys', i, j) && UpWith(sys'.procs[i].node, j)
  {
    var l, f := sys.procs[i].node, sys.procs[j].node;
    if l.nextIndex[j] - 1 < f.lastIncludedIndex {
      RaisedToBoundary(l, f, j, c);
      var sys1 := Refused(sys, i, j);
      sys' := Accepted(sys1, i, j);
      LeadsTrans(sys, sys1, sys');
      TendedTrans(sys, sys1, sys', i, j);
    } else {
      sys' := Accepted(sys, i, j);
    }
  }

  /** A snapshot is sent and confirmed; afterwards the server has the leader's boundary, installed or
      already committed. */
  lemma SnapshotSent(sys: System, i: nat, j: nat, c: nat) returns (sys': System)
    requires Reachable(sys) && Behind(sys, i, j) && Parted(sys.procs[i].node, sys.procs[j].node, j, c)
    requires SnapshotDue(sys.procs[i].node, j)
    ensures Leads(sys, sys') && Reachable(sys') && Tended(sys, sys', i, j) && Behind(sys', i, j)
    ensures var l, l', f' := sys.procs[i].node, sys'.procs[i].node, sys'.procs[j].node;
            && l'.nextIndex[j] == l.lastIncludedIndex + 1 && l'.commitIndex == l.commitIndex
            && (Matches(l', f', j) || l.lastIncludedIndex <= f'.commitIndex)
  {
    var l, f := sys.procs[i].node, sys.procs[j].node;
    sys' := Installs(sys, i, j);
    var f' := HandleInstall(f, InstallFor(l)).0;
    assert f.commitIndex < l.lastIncludedIndex ==> TermAt(f', l.lastIncludedIndex) == l.lastIncludedTerm;
  }

  lemma FromSnapshot(sys: System, i: nat, j: nat, c: nat) returns (sys': System)
    requires Reachable(sys) && Behind(sys, i, j) && Parted(sys.procs[i].node, sys.procs[j].node, j, c)
    requires SnapshotDue(sys.procs[i].node, j)
    ensures Leads(sys, sys') && Reachable(sys') && Tended(sys, sys', i, j) && UpWith(sys'.procs[i].node, j)
  {
    var sys1 := SnapshotSent(sys, i, j, c);
    var l1, f1 := sys1.procs[i].node, sys1.procs[j].node;
    if Matches(l1, f1, j) {
      sys' := Accepted(sys1, i, j);
    } else {
      var c1 := WhereTheyPart(sys1, i, j);
      sys' := FromCommonPart(sys1, i, j, c1);
    }
    LeadsTrans(sys, sys1, sys');
    TendedTrans(sys, sys1, sys', i, j);
  }

  /** The worker's loop for one server of its term ends with the server's log confirmed. */
  lemma {:induction false} BringsUpJoined(sys: System, i: nat, j: nat) returns (sys': System)
    requires Reachable(sys) && Behind(sys, i, j)
    ensures Leads(sys, sys') && Reachable(sys') && Tended(sys, sys', i, j) && UpWith(sys'.procs[i].node, j)
    decreases sys.procs[i].node.nextIndex[j]
  {
    var c := WhereTheyPart(sys, i, j);
    var l := sys.procs[i].node;
    if SnapshotDue(l, j) {
      sys' := FromSnapshot(sys, i, j, c);
    } else if l.nextIndex[j] <= c + 1 {
      sys' := FromCommonPart(sys, i, j, c);
    } else {
      var sys1 := Refused(sys, i, j);
      sys' := BringsUpJoined(sys1, i, j);
      LeadsTrans(sys, sys1, sys');
      TendedTrans(sys, sys1, sys', i, j);
    }
  }

  /** A leader nobody is ahead of can confirm its whole log on any other server, however far that server
      is behind, ahead in uncommitted entries, or compacted. */
  lemma BringsUp(sys: System, i: nat, j: nat) returns (sys': System)
    requires Reachable(sys) && InCharge(sys, i) && j < |sys.procs| && i != j && j < sys.procs[i].node.peers
    requires var l := sys.procs[i].node; l.lastIncludedIndex < LastIndex(l) && l.matchIndex[j] < LastIndex(l)
    ensures Leads(sys, sys') && Reachable(sys') && InCharge(sys', i)
    ensures Tended(sys, sys', i, j) && UpWith(sys'.procs[i].node, j)
  {
    var sys1 := Joins(sys, i, j);
    sys' := BringsUpJoined(sys1, i, j);
    LeadsTrans(sys, sys1, sys');
  }
}
