/** How the compacted nodes, the services and the messages of the running system stand for the
    uncompacted servers and the history of the protocol. */
module RaftRep {
  import opened KvStore
  import opened RaftLog
  import opened RaftHistory
  import opened RaftGrowth
  import opened RaftGroup
  import opened RaftNode
  import opened RaftSystem

  /** The service state after the commands at indices 1 to k. */
  function Replay(l: Log, k: nat): Store
    requires k < |l|
  {
    if k == 0 then EMPTY_STORE else Apply(Replay(l, k - 1), l[k].cmd)
  }

  lemma {:induction false} ReplayAgree(a: Log, b: Log, k: nat)
    requires Agree(a, b, k)
    ensures Replay(a, k) == Replay(b, k)
  {
    if k > 0 { ReplayAgree(a, b, k - 1); }
  }

  function SnapshotAt(l: Log, k: nat): Option<Store>
    requires k < |l|
  {
    if k == 0 then None else Some(Replay(l, k))
  }

  /** `logs` is `l` with everything up to `base` replaced by one boundary entry. */
  predicate LogsRep(logs: Log, l: Log, base: nat) {
    && base < |l| && |logs| == |l| - base
    && logs[0] == Entry(l[base].term, Nil)
    && forall k :: 0 < k < |logs| ==> logs[k] == l[base + k]
  }

  predicate NextOk(matched: seq<nat>, next: seq<nat>, last: nat, p: nat)
    requires p < |matched| && p < |next|
  {
    matched[p] < next[p] <= last + 1
  }

  predicate LeaderRep(nd: Node, s: Server) {
    && (nd.role == Candidate ==> nd.votes == s.votes)
    && (nd.role == Leader ==>
          && nd.matchIndex == s.matched
          && forall p :: 0 <= p < nd.peers ==> NextOk(nd.matchIndex, nd.nextIndex, LastIndex(nd), p))
  }

  predicate StateRep(n: nat, i: nat, nd: Node, s: Server) {
    && nd.me == i && nd.peers == n
    && nd.currentTerm == s.term && nd.votedFor == s.vote && nd.role == s.role
    && nd.lastIncludedIndex == s.base && nd.commitIndex == s.commit
    && LogsRep(nd.logs, s.log, s.base) && nd.lastIncludedTerm == s.log[s.base].term
    && nd.disk == DiskOf(nd)
    && nd.snapshot == SnapshotAt(s.log, s.base)
  }

  predicate ApplyRep(nd: Node) {
    && nd.lastIncludedIndex <= nd.lastApplied <= nd.commitIndex
    && (nd.pendingSnapshot.Some? ==>
          && nd.pendingSnapshot.value == SnapshotMsg(nd.lastIncludedIndex, nd.lastIncludedTerm, nd.snapshot)
          && nd.lastApplied == nd.lastIncludedIndex > 0)
  }

  predicate NodeRep(n: nat, i: nat, nd: Node, s: Server) {
    StateRep(n, i, nd, s) && LeaderRep(nd, s) && ApplyRep(nd)
  }

  /** The apply stream is contiguous: each command is one past what the service has, a
      snapshot jumps strictly forward, and all of it is committed. */
  predicate StreamOk(outbox: seq<ApplyMsg>, applied: nat, l: Log, commit: nat) {
    && applied <= commit < |l|
    && if |outbox| == 1 && outbox[0].SnapshotMsg? then
         applied < outbox[0].index <= commit && outbox[0].data == SnapshotAt(l, outbox[0].index)
       else
         && applied + |outbox| <= commit
         && forall k :: 0 <= k < |outbox| ==> outbox[k] == CommandMsg(applied + 1 + k, l[applied + 1 + k].cmd)
  }

  /** Where the service will be once the outbox is drained. */
  function StreamEnd(outbox: seq<ApplyMsg>, applied: nat): nat {
    if |outbox| == 1 && outbox[0].SnapshotMsg? then outbox[0].index else applied + |outbox|
  }

  predicate ServiceRep(p: Proc, s: Server) {
    && StreamOk(p.outbox, p.applied, s.log, s.commit)
    && p.store == Replay(s.log, p.applied)
    && (p.node.pendingSnapshot.None? ==> StreamEnd(p.outbox, p.applied) == p.node.lastApplied)
    && (p.node.pendingSnapshot.Some? ==> StreamEnd(p.outbox, p.applied) < p.node.lastApplied)
  }

  predicate ProcRep(n: nat, i: nat, p: Proc, s: Server) {
    NodeRep(n, i, p.node, s) && ServiceRep(p, s)
  }

  ghost predicate MessageOk(h: History, m: Message) {
    match m
    case VoteCall(to, args) =>
      && (args.term, args.candidateId) in h.candidacies
      && var l := h.candidacies[(args.term, args.candidateId)];
         args.lastLogIndex == |l| - 1 && args.lastLogTerm == LastTerm(l)
    case VoteReturn(to, from, args, reply) =>
      && from < h.n
      && (reply.voteGranted ==> (args.term, from) in h.ballots && h.ballots[(args.term, from)].candidate == to)
    case AppendCall(to, args, _) => AppendOf(h, args)
    case AppendReturn(to, from, args, _, reply) =>
      && from < h.n
      && AppendOf(h, args)
      && (reply.success ==> Acked(h, args.term, from, args.prevLogIndex + |args.entries|))
    case InstallCall(to, args) => InstallOf(h, args)
    case InstallReturn(to, from, args, term) =>
      && from < h.n
      && InstallOf(h, args)
      && args.term <= term
      && (term == args.term ==> Acked(h, args.term, from, args.lastIncludedIndex))
  }

  /** The request is a piece of the log its leader had. */
  ghost predicate AppendOf(h: History, args: AppendArgs) {
    && args.term in h.reigns
    && var l := h.reigns[args.term].log;
       && args.prevLogIndex + |args.entries| < |l|
       && args.prevLogTerm == l[args.prevLogIndex].term
       && (forall k :: 0 <= k < |args.entries| ==> args.entries[k] == l[args.prevLogIndex + 1 + k])
       && Chosen(h, l, args.leaderCommit, args.term)
  }

  ghost predicate InstallOf(h: History, args: InstallArgs) {
    && args.term in h.reigns
    && var l := h.reigns[args.term].log;
       && Chosen(h, l, args.lastIncludedIndex, args.term)
       && args.lastIncludedTerm == l[args.lastIncludedIndex].term
       && args.data == SnapshotAt(l, args.lastIncludedIndex)
  }

  ghost predicate SystemRep(sys: System, g: Group) {
    && GroupInv(g)
    && |sys.procs| == g.h.n
    && (forall i {:trigger sys.procs[i]} :: 0 <= i < |sys.procs| ==> ProcRep(g.h.n, i, sys.procs[i], g.servers[i]))
    && (forall m :: m in sys.net ==> MessageOk(g.h, m))
    && OpsRegistered(sys.registered, g.h)
  }

  /** Only operations that were submitted are ever appended, as they were submitted. */
  predicate OpsRegistered(registered: map<OpId, Request>, h: History) {
    forall id <- h.ops :: id in registered && h.ops[id].entry.cmd == Op(id, registered[id])
  }

  // ----- growth -----

  lemma AppendOfGrows(h: History, h': History, args: AppendArgs)
    requires Extends(h, h') && AppendOf(h, args)
    ensures AppendOf(h', args)
  {
    var l := h.reigns[args.term].log;
    var l' := h'.reigns[args.term].log;
    assert ReignExtends(h.reigns[args.term], h'.reigns[args.term]);
    assert forall k :: 0 <= k < |l| ==> l[k] == l'[k];
    ChosenGrows(h, h', l, args.leaderCommit, args.term, args.term);
    ChosenAgrees(h', l, args.leaderCommit, args.term, l', args.leaderCommit);
  }

  lemma InstallOfGrows(h: History, h': History, args: InstallArgs)
    requires Extends(h, h') && InstallOf(h, args)
    ensures InstallOf(h', args)
  {
    var l := h.reigns[args.term].log;
    var l' := h'.reigns[args.term].log;
    assert ReignExtends(h.reigns[args.term], h'.reigns[args.term]);
    ChosenGrows(h, h', l, args.lastIncludedIndex, args.term, args.term);
    ChosenAgrees(h', l, args.lastIncludedIndex, args.term, l', args.lastIncludedIndex);
    ReplayAgree(l, l', args.lastIncludedIndex);
  }

  lemma MessageGrows(h: History, h': History, m: Message)
    requires Extends(h, h') && MessageOk(h, m)
    ensures MessageOk(h', m)
  {
    match m
    case VoteCall(_, _) =>
    case VoteReturn(_, _, _, _) =>
    case AppendCall(_, args, _) => AppendOfGrows(h, h', args);
    case AppendReturn(_, _, args, _, _) => AppendOfGrows(h, h', args);
    case InstallCall(_, args) => InstallOfGrows(h, h', args);
    case InstallReturn(_, _, args, _) => InstallOfGrows(h, h', args);
  }

  // ----- one process moves -----

  /** Server `i` may go to `s`, with the history growing to `h'`. */
  ghost predicate Moved(h: History, h': History, i: nat, s: Server) {
    Extends(h, h') && OnlyBy(h, h', i) && h'.ops == h.ops && HistoryInv(h') && ServerOk(h', i, s)
  }

  lemma Stayed(h: History, i: nat, s: Server)
    requires HistoryInv(h) && ServerOk(h, i, s)
    ensures Moved(h, h, i, s)
  {
    ExtendsRefl(h);
  }

  lemma ProcMoved(sys: System, sys': System, g: Group, i: nat, p: Proc, out: set<Message>, h': History, s': Server)
    requires SystemRep(sys, g) && Becomes(sys, sys', i, p, out) && sys'.registered == sys.registered
    requires Moved(g.h, h', i, s') && ProcRep(h'.n, i, p, s')
    requires forall m :: m in out ==> MessageOk(h', m)
    ensures SystemRep(sys', Move(g, i, s', h')) && Extends(g.h, h') && h'.ops == g.h.ops
  {
    MoveOk(g, i, s', h');
    forall m | m in sys'.net ensures MessageOk(h', m) {
      if m !in out { MessageGrows(g.h, h', m); }
    }
  }
}
