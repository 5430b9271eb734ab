/** The replicated store is never stuck: every run can go on until a new request is answered. */
module RaftProgress {
  import opened KvStore
  import opened RaftLog
  import opened RaftHistory
  import opened RaftGroup
  import opened RaftNode
  import opened RaftSystem
  import opened RaftRep
  import opened RsmRep
  import opened RaftPaths
  import opened RaftElection
  import opened RaftExact
  import opened RaftCatchUp

  // ----- an operation is submitted -----

  /** A call on this process waits for the operation at index `at` of its log, and is answered once the
      service has taken it; no snapshot on its way covers that index. */
  predicate Awaits(p: Proc, id: OpId, req: Request, at: nat) {
    && id in p.rsm.waiters && p.rsm.waiters[id].req == req
    && p.node.lastIncludedIndex < at <= LastIndex(p.node) && EntryAt(p.node, at).cmd == Op(id, req)
    && (forall m <- p.outbox :: m.SnapshotMsg? ==> m.index < at)
    && (at <= p.applied ==> p.rsm.waiters[id].answer.Some?)
  }

  /** The leader's last entry is the operation, of its own term; the other servers have not confirmed it. */
  ghost predicate JustStarted(sys: System, i: nat, id: OpId, req: Request) {
    && InCharge(sys, i)
    && var l := sys.procs[i].node;
       && Awaits(sys.procs[i], id, req, LastIndex(l)) && TermAt(l, LastIndex(l)) == l.currentTerm
       && l.peers == |sys.procs| && l.me == i && l.matchIndex[i] == LastIndex(l)
       && (forall q :: 0 <= q < l.peers && q != i ==> l.matchIndex[q] < LastIndex(l))
       && (l.peers == 1 ==> Settled(l))
  }

  lemma Registers(sys: System, i: nat, req: Request) returns (sys': System, id: OpId)
    requires Reachable(sys) && i < |sys.procs|
    ensures Leads(sys, sys') && Reachable(sys') && id !in sys.registered
    ensures var p := sys.procs[i];
            var rsm' := Rsm(p.rsm.epoch, p.rsm.nextSequence + 1, p.rsm.waiters[id := Waiter(req, false, None)]);
            sys'.procs == sys.procs[i := p.(rsm := rsm')]
  {
    var g := ReachableRep(sys);
    var p := sys.procs[i];
    id := OpId(i, p.rsm.epoch, p.rsm.nextSequence + 1);
    var rsm' := Rsm(p.rsm.epoch, p.rsm.nextSequence + 1, p.rsm.waiters[id := Waiter(req, false, None)]);
    sys' := sys.(procs := sys.procs[i := p.(rsm := rsm')], registered := sys.registered[id := req]);
    RegisterRsm(sys, sys', g.h, i, req);
    StepLeads(sys, sys', Register(i, req));
  }

  lemma Starts(sys: System, i: nat, id: OpId) returns (sys': System)
    requires Reachable(sys) && i < |sys.procs|
    requires id in sys.procs[i].rsm.waiters && !sys.procs[i].rsm.waiters[id].started
    ensures Leads(sys, sys') && Reachable(sys')
    ensures var p := sys.procs[i];
            var w := p.rsm.waiters[id];
            var rsm' := p.rsm.(waiters := p.rsm.waiters[id := w.(started := true)]);
            sys' == sys.(procs := sys.procs[i := p.(node := Start(p.node, Op(id, w.req)), rsm := rsm')])
  {
    var p := sys.procs[i];
    var w := p.rsm.waiters[id];
    var rsm' := p.rsm.(waiters := p.rsm.waiters[id := w.(started := true)]);
    sys' := sys.(procs := sys.procs[i := p.(node := Start(p.node, Op(id, w.req)), rsm := rsm')]);
    assert sys'.net == sys.net + {};
    StepLeads(sys, sys', StartOp(i, id));
  }

  /** What a leader's process holds before it starts something. */
  predicate Quiescent(p: Proc) {
    && p.node.role == Leader && p.applied <= LastIndex(p.node)
    && (forall m <- p.outbox :: m.SnapshotMsg? ==> m.index <= LastIndex(p.node))
    && forall q :: 0 <= q < p.node.peers ==> p.node.matchIndex[q] <= LastIndex(p.node)
  }

  lemma LeaderQuiescent(sys: System, i: nat)
    requires Reachable(sys) && i < |sys.procs| && sys.procs[i].node.role == Leader
    ensures Quiescent(sys.procs[i])
  {
    var g := ReachableRep(sys);
    var p := sys.procs[i];
    assert ProcRep(g.h.n, i, p, g.servers[i]);
    forall q | 0 <= q < p.node.peers ensures p.node.matchIndex[q] <= LastIndex(p.node) {
      assert NextOk(p.node.matchIndex, p.node.nextIndex, LastIndex(p.node), q);
    }
  }

  lemma StartedNode(nd: Node, cmd: Command)
    requires nd.role == Leader
    ensures var nd' := Start(nd, cmd);
            && nd'.role == Leader && nd'.currentTerm == nd.currentTerm && nd'.me == nd.me && nd'.peers == nd.peers
            && nd'.lastIncludedIndex == nd.lastIncludedIndex && LastIndex(nd') == LastIndex(nd) + 1
            && EntryAt(nd', LastIndex(nd')) == Entry(nd.currentTerm, cmd)
            && nd'.matchIndex == nd.matchIndex[nd.me := LastIndex(nd')]
            && (nd'.peers == 1 ==> Settled(nd'))
  {
    CommitsHighest(Appended(nd, cmd));
  }

  lemma Submits(sys: System, i: nat, req: Request) returns (sys': System, id: OpId)
    requires Reachable(sys) && InCharge(sys, i)
    ensures Leads(sys, sys') && Reachable(sys') && id !in sys.registered && JustStarted(sys', i, id, req)
  {
    var sys1, id1 := Registers(sys, i, req);
    id := id1;
    LeaderQuiescent(sys1, i);
    StartedNode(sys1.procs[i].node, Op(id, req));
    sys' := Starts(sys1, i, id);
    LeadsTrans(sys, sys1, sys');
    ReachableNamed(sys');
    assert NamedAt(sys', i);
  }

  // ----- it is committed -----

  /** Servers below `v` have confirmed the leader's last entry, the others have not. */
  predicate BroughtUp(l: Node, i: nat, v: nat) {
    && l.role == Leader && i < l.peers && v <= l.peers && l.lastIncludedIndex < LastIndex(l)
    && l.matchIndex[i] == LastIndex(l)
    && (forall q :: 0 <= q < v ==> l.matchIndex[q] == LastIndex(l))
    && (forall q :: v <= q < l.peers && q != i ==> l.matchIndex[q] < LastIndex(l))
  }

  /** The leader's process has only learned about other servers. */
  predicate OnlyLearned(p: Proc, p': Proc) {
    var l, l' := p.node, p'.node;
    && l.role == Leader && p' == p.(node := l')
    && l' == l.(nextIndex := l'.nextIndex, matchIndex := l'.matchIndex, commitIndex := l'.commitIndex)
  }

  lemma BringsNext(sys: System, i: nat, v: nat) returns (sys': System)
    requires Reachable(sys) && InCharge(sys, i) && v < |sys.procs| == sys.procs[i].node.peers && v != i
    requires BroughtUp(sys.procs[i].node, i, v)
    ensures Leads(sys, sys') && Reachable(sys') && InCharge(sys', i) && |sys'.procs| == |sys.procs|
    ensures OnlyLearned(sys.procs[i], sys'.procs[i]) && Quiet(sys, sys')
    ensures BroughtUp(sys'.procs[i].node, i, v + 1) && Settled(sys'.procs[i].node)
  {
    sys' := BringsUp(sys, i, v);
    assert SameLeader(sys.procs[i], sys'.procs[i], v);
  }

  lemma {:induction false} BringsAllUp(sys: System, i: nat, v: nat) returns (sys': System)
    requires Reachable(sys) && InCharge(sys, i) && v <= |sys.procs| == sys.procs[i].node.peers
    requires BroughtUp(sys.procs[i].node, i, v)
    ensures Leads(sys, sys') && Reachable(sys') && InCharge(sys', i) && |sys'.procs| == |sys.procs|
    ensures OnlyLearned(sys.procs[i], sys'.procs[i]) && Quiet(sys, sys')
    ensures BroughtUp(sys'.procs[i].node, i, |sys.procs|)
    ensures Settled(sys.procs[i].node) || (if v == i then v + 1 else v) < |sys.procs| ==> Settled(sys'.procs[i].node)
    decreases |sys.procs| - v
  {
    if v == |sys.procs| {
      sys' := sys;
      LeadsRefl(sys);
    } else if v == i {
      sys' := BringsAllUp(sys, i, v + 1);
    } else {
      var sys1 := BringsNext(sys, i, v);
      sys' := BringsAllUp(sys1, i, v + 1);
      LeadsTrans(sys, sys1, sys');
    }
  }

  /** What every server has confirmed, a leader that has settled has committed. */
  lemma AllConfirmed(l: Node)
    requires l.role == Leader && Settled(l) && l.lastIncludedIndex < LastIndex(l)
    requires TermAt(l, LastIndex(l)) == l.currentTerm
    requires forall q :: 0 <= q < l.peers ==> l.matchIndex[q] == LastIndex(l)
    ensures LastIndex(l) <= l.commitIndex
  {
    assert Holding(l, LastIndex(l)) == Range(l.peers);
    assert IsQuorum(l.peers, Holding(l, LastIndex(l)));
  }

  lemma Commits(sys: System, i: nat, id: OpId, req: Request) returns (sys': System)
    requires Reachable(sys) && JustStarted(sys, i, id, req)
    ensures Leads(sys, sys') && Reachable(sys') && i < |sys'.procs|
    ensures var p := sys'.procs[i]; Awaits(p, id, req, p.node.commitIndex)
  {
    sys' := BringsAllUp(sys, i, 0);
    AllConfirmed(sys'.procs[i].node);
    ApplierReady(sys', i);
  }

  // ----- it is applied and answered -----

  /** The service has taken what is in the outbox up to here, and the call still waits. */
  lemma HandsOver(p: Proc, id: OpId, req: Request, at: nat)
    requires Awaits(p, id, req, at) && p.outbox != []
    requires p.outbox[0].CommandMsg? ==>
               && p.outbox[0].index == p.applied + 1
               && (p.outbox[0].index == at ==> p.outbox[0].cmd == Op(id, req))
    ensures Awaits(Consume(p), id, req, at)
  {
  }

  lemma NextIsInOrder(sys: System, i: nat, at: nat)
    requires Reachable(sys) && i < |sys.procs| && sys.procs[i].outbox != [] && sys.procs[i].outbox[0].CommandMsg?
    requires Contains(sys.procs[i].node, at) && sys.procs[i].node.lastIncludedIndex < at
    ensures var p := sys.procs[i];
            && p.outbox[0].index == p.applied + 1
            && (p.outbox[0].index == at ==> p.outbox[0].cmd == EntryAt(p.node, at).cmd)
  {
    var g := ReachableRep(sys);
    var p, s := sys.procs[i], g.servers[i];
    assert ProcRep(g.h.n, i, p, s);
    assert EntryAt(p.node, at) == s.log[at];
  }

  lemma {:induction false} Drains(sys: System, i: nat, id: OpId, req: Request, at: nat) returns (sys': System)
    requires Reachable(sys) && i < |sys.procs| && Awaits(sys.procs[i], id, req, at)
    ensures Leads(sys, sys') && Reachable(sys') && i < |sys'.procs| && Awaits(sys'.procs[i], id, req, at)
    ensures sys'.procs[i].outbox == [] && sys'.procs[i].node == sys.procs[i].node
    decreases |sys.procs[i].outbox|
  {
    var p := sys.procs[i];
    if p.outbox == [] {
      sys' := sys;
      LeadsRefl(sys);
    } else {
      if p.outbox[0].CommandMsg? { NextIsInOrder(sys, i, at); }
      HandsOver(p, id, req, at);
      var sys1 := With(sys, i, Consume(p), {});
      StepLeads(sys, sys1, Deliver(i));
      sys' := Drains(sys1, i, id, req, at);
      LeadsTrans(sys, sys1, sys');
    }
  }

  /** In a reachable state the applier can claim, and an empty outbox leaves the service where the apply
      index is. */
  lemma ApplierReady(sys: System, i: nat)
    requires Reachable(sys) && i < |sys.procs|
    ensures var p := sys.procs[i];
            && InBounds(p.node) && p.node.lastApplied <= p.node.commitIndex
            && (p.node.pendingSnapshot.Some? ==>
                  p.node.pendingSnapshot.value.index == p.node.lastIncludedIndex == p.node.lastApplied)
            && (p.outbox == [] && p.node.pendingSnapshot.None? ==> p.applied == p.node.lastApplied)
  {
    var g := ReachableRep(sys);
    assert ProcRep(g.h.n, i, sys.procs[i], g.servers[i]);
  }

  /** How much the applier has still to claim. */
  function Unclaimed(nd: NodeData): int {
    (if nd.pendingSnapshot.Some? then 1 else 0) + (if nd.lastApplied < nd.commitIndex then 1 else 0)
  }

  lemma Claims(sys: System, i: nat, id: OpId, req: Request, at: nat) returns (sys': System)
    requires Reachable(sys) && i < |sys.procs| && Awaits(sys.procs[i], id, req, at)
    requires sys.procs[i].outbox == [] && CanClaim(sys.procs[i].node)
    ensures Leads(sys, sys') && Reachable(sys') && i < |sys'.procs| && Awaits(sys'.procs[i], id, req, at)
    ensures sys'.procs[i].node.commitIndex == sys.procs[i].node.commitIndex
    ensures Unclaimed(sys'.procs[i].node) < Unclaimed(sys.procs[i].node)
  {
    ApplierReady(sys, i);
    var (nd', batch) := Claim(sys.procs[i].node);
    sys' := With(sys, i, sys.procs[i].(node := nd', outbox := batch), {});
    StepLeads(sys, sys', TakeBatch(i));
  }

  lemma {:induction false} Applies(sys: System, i: nat, id: OpId, req: Request, at: nat) returns (sys': System)
    requires Reachable(sys) && i < |sys.procs| && Awaits(sys.procs[i], id, req, at)
    requires at <= sys.procs[i].node.commitIndex
    ensures Leads(sys, sys') && Reachable(sys') && i < |sys'.procs| && Awaits(sys'.procs[i], id, req, at)
    ensures at <= sys'.procs[i].applied
    decreases Unclaimed(sys.procs[i].node)
  {
    sys' := Drains(sys, i, id, req, at);
    ApplierReady(sys', i);
    if CanClaim(sys'.procs[i].node) {
      var sys1 := sys';
      var sys2 := Claims(sys1, i, id, req, at);
      sys' := Applies(sys2, i, id, req, at);
      LeadsTrans(sys, sys1, sys2);
      LeadsTrans(sys, sys2, sys');
    }
  }

  lemma Returns(sys: System, i: nat, id: OpId) returns (sys': System, r: Result)
    requires Reachable(sys) && i < |sys.procs|
    requires id in sys.procs[i].rsm.waiters && sys.procs[i].rsm.waiters[id].answer.Some?
    ensures Leads(sys, sys') && Reachable(sys') && r in sys'.returned
    ensures r.id == id && r.req == sys.procs[i].rsm.waiters[id].req
  {
    var p := sys.procs[i];
    var w := p.rsm.waiters[id];
    r := Result(id, w.req, w.answer.value);
    var gone := sys.procs[i := p.(rsm := p.rsm.(waiters := p.rsm.waiters - {id}))];
    sys' := sys.(procs := gone, returned := sys.returned + {r});
    StepLeads(sys, sys', Return(i, id));
  }

  lemma RequestServed(sys: System, req: Request) returns (sys': System, r: Result)
    requires Reachable(sys)
    ensures Leads(sys, sys') && r in sys'.returned && r.req == req && r.id !in sys.registered
  {
    var sys1, i := SomeoneInCharge(sys);
    LeadsKeeps(sys, sys1);
    var sys2, id := Submits(sys1, i, req);
    var sys3 := Commits(sys2, i, id, req);
    var sys4 := Applies(sys3, i, id, req, sys3.procs[i].node.commitIndex);
    sys', r := Returns(sys4, i, id);
    LeadsTrans(sys, sys1, sys2);
    LeadsTrans(sys, sys2, sys3);
    LeadsTrans(sys, sys3, sys4);
    LeadsTrans(sys, sys4, sys');
  }

  /** The replicated store is never stuck. Whatever has happened in a run, however many messages were lost,
      servers restarted, logs compacted or terms contested, it can go on so that a new call for any
      request returns OK. */
  lemma NeverStuck(run: seq<System>, req: Request) returns (more: seq<System>, r: Result)
    requires IsRun(run)
    ensures IsRun(run + more) && r in (run + more)[|run + more| - 1].returned
    ensures r.req == req && r.id !in run[|run| - 1].registered
  {
    RunReaches(run);
    var sys', result := RequestServed(run[|run| - 1], req);
    r := result;
    more := RunGoesOn(run, sys');
  }
}
