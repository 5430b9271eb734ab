/** Every run of the replicated store is a run of the protocol, and what follows for all runs:
    with loss, delay, reordering and duplication of messages, crashes, restarts and compaction. */
module RaftSafety {
  import opened KvStore
  import opened RaftLog
  import opened RaftHistory
  import opened RaftGrowth
  import opened RaftGroup
  import opened RaftMoves
  import opened RaftNode
  import opened RaftSystem
  import opened RaftRep
  import opened RaftFollower
  import opened RaftLeader
  import opened RsmRep

  // ----- simulation -----

  lemma InitSim(sys: System) returns (g: Group)
    requires Init(sys)
    ensures SystemRep(sys, g) && RsmInv(sys, g.h)
  {
    var n := |sys.procs|;
    g := Group(History(n, map[], map[], map[], map[], map[]),
               seq(n, i => Server(0, -1, [DUMMY], Follower, {}, [], 0, 0)));
    forall i | 0 <= i < n ensures RsmOk(sys, g.h, i) {}
  }

  lemma HandleSim(h: History, i: nat, p: Proc, s: Server, m: Message) returns (h': History, s': Server)
    requires ProcOk(h, i, p, s) && MessageOk(h, m) && m.to == i
    ensures m.VoteReturn? || m.AppendReturn? || m.InstallReturn? ==> m.from < p.node.peers
    ensures Moved(h, h', i, s') && ProcRep(h'.n, i, p.(node := Handle(p.node, m).0), s')
    ensures forall r :: r in Handle(p.node, m).1 ==> MessageOk(h', r)
  {
    match m
    case VoteCall(_, args) => h', s' := HandleVoteSim(h, i, p, s, args);
    case VoteReturn(_, from, args, reply) => h', s' := HandleVoteReplySim(h, i, p, s, from, args, reply);
    case AppendCall(_, args, probe) => h', s' := HandleAppendSim(h, i, p, s, args, probe);
    case AppendReturn(_, from, args, probe, reply) =>
      h' := h;
      if probe { s' := HandleProbeReplySim(h, i, p, s, reply); }
      else { s' := HandleAppendReplySim(h, i, p, s, from, args, reply); }
      Stayed(h, i, s');
    case InstallCall(_, args) => h', s' := HandleInstallSim(h, i, p, s, args);
    case InstallReturn(_, from, args, term) =>
      h' := h;
      s' := HandleInstallReplySim(h, i, p, s, from, args, term);
      Stayed(h, i, s');
  }

  lemma ReplicateSim(sys: System, sys': System, g: Group, step: Step)
    requires SystemRep(sys, g) && step.i < |sys.procs| && NodeStep(sys, sys', step) && Quiet(sys, sys')
    requires step.Replicate? || step.Probe?
    ensures SystemRep(sys', g)
  {
    var i := step.i;
    var p, s := sys.procs[i], g.servers[i];
    assert ProcOk(g.h, i, p, s);
    if step.Probe? {
      HeartbeatOk(g.h, i, p, s);
      CallSim(sys, sys', g, i, AppendCall(step.peer, Heartbeat(p.node), true));
    } else if SnapshotDue(p.node, step.peer) {
      InstallForOk(g.h, i, p, s);
      CallSim(sys, sys', g, i, InstallCall(step.peer, InstallFor(p.node)));
    } else {
      AppendForOk(g.h, i, p, s, step.peer);
      CallSim(sys, sys', g, i, AppendCall(step.peer, AppendFor(p.node, step.peer), false));
    }
  }

  /** Only a request is sent. */
  lemma CallSim(sys: System, sys': System, g: Group, i: nat, m: Message)
    requires SystemRep(sys, g) && i < |sys.procs| && Becomes(sys, sys', i, sys.procs[i], {m})
    requires sys'.registered == sys.registered && MessageOk(g.h, m)
    ensures SystemRep(sys', g)
  {
    assert sys'.procs == sys.procs;
    forall q | q in sys'.net ensures MessageOk(g.h, q) { assert q in sys.net || q == m; }
  }

  lemma ServiceSim(sys: System, sys': System, g: Group, step: Step) returns (g': Group)
    requires SystemRep(sys, g) && step.i < |sys.procs| && NodeStep(sys, sys', step) && Quiet(sys, sys')
    requires step.TakeBatch? || step.Deliver? || step.Compact?
    ensures SystemRep(sys', g') && g'.h == g.h
  {
    var i := step.i;
    var p := sys.procs[i];
    var s' := g.servers[i];
    assert ProcOk(g.h, i, p, s');
    match step {
      case TakeBatch(_) => ClaimSim(g.h, i, p, s');
      case Deliver(_) => ConsumeSim(g.h, i, p, s');
      case Compact(_) => s' := TakeSnapshotSim(g.h, i, p, s');
    }
    Stayed(g.h, i, s');
    ProcMoved(sys, sys', g, i, sys'.procs[i], {}, g.h, s');
    g' := Move(g, i, s', g.h);
  }

  /** Each step of a node is a sequence of protocol moves. */
  lemma NodeSim(sys: System, sys': System, g: Group, step: Step) returns (g': Group)
    requires SystemRep(sys, g) && step.i < |sys.procs| && NodeStep(sys, sys', step) && Quiet(sys, sys')
    ensures SystemRep(sys', g') && Extends(g.h, g'.h) && g'.h.ops == g.h.ops && (step.Deliver? ==> g'.h == g.h)
  {
    var i := step.i;
    var p, s := sys.procs[i], g.servers[i];
    assert ProcOk(g.h, i, p, s);
    ExtendsRefl(g.h);
    var h', s';
    match step {
      case Timeout(_) =>
        h', s' := StartElectionSim(g.h, i, p, s);
        ProcMoved(sys, sys', g, i, p.(node := StartElection(p.node)), VoteCalls(StartElection(p.node)), h', s');
        g' := Move(g, i, s', h');
      case Receive(_, m) =>
        h', s' := HandleSim(g.h, i, p, s, m);
        ProcMoved(sys, sys', g, i, p.(node := Handle(p.node, m).0), Handle(p.node, m).1, h', s');
        g' := Move(g, i, s', h');
      case Replicate(_, _) => ReplicateSim(sys, sys', g, step); g' := g;
      case Probe(_, _) => ReplicateSim(sys, sys', g, step); g' := g;
      case _ => g' := ServiceSim(sys, sys', g, step);
    }
  }

  lemma RegisterSim(sys: System, sys': System, g: Group, i: nat, req: Request) returns (g': Group)
    requires SystemRep(sys, g) && RsmInv(sys, g.h) && i < |sys.procs| && RegisterStep(sys, sys', i, req)
    ensures SystemRep(sys', g') && RsmInv(sys', g'.h) && Extends(g.h, g'.h)
  {
    g' := g;
    ExtendsRefl(g.h);
    RegisterRsm(sys, sys', g.h, i, req);
    assert ProcRep(g.h.n, i, sys.procs[i], g.servers[i]);
  }

  /** An operation that is nowhere yet is given its place at the end of the leader's log. */
  lemma PlaceSim(sys: System, g: Group, i: nat, id: OpId) returns (g': Group)
    requires SystemRep(sys, g) && i < |g.servers| && id in sys.registered && id !in g.h.ops
    ensures SystemRep(sys, g') && g'.servers == g.servers && Extends(g.h, g'.h)
    ensures forall o <- g'.h.ops :: o in g.h.ops || o == id
    ensures Placed(g'.h, Entry(g.servers[i].term, Op(id, sys.registered[id])), |g.servers[i].log|)
  {
    var s := g.servers[i];
    var place := Placement(|s.log|, Entry(s.term, Op(id, sys.registered[id])));
    WithOpOk(g, id, place);
    g' := Group(WithOp(g.h, id, place), g.servers);
    forall m | m in sys.net ensures MessageOk(g'.h, m) { MessageGrows(g.h, g'.h, m); }
  }

  lemma StartOpSim(sys: System, sys': System, g: Group, i: nat, id: OpId) returns (g': Group)
    requires SystemRep(sys, g) && RsmInv(sys, g.h) && i < |sys.procs| && StartStep(sys, sys', i, id)
    ensures SystemRep(sys', g') && RsmInv(sys', g'.h) && Extends(g.h, g'.h)
  {
    var p, s := sys.procs[i], g.servers[i];
    assert RsmOk(sys, g.h, i) && WaiterOk(sys.registered, g.h, i, p.rsm, id);
    var g1 := PlaceSim(sys, g, i, id);
    assert ProcOk(g1.h, i, p, s);
    var h', s' := StartSim(g1.h, i, p, s, Op(id, p.rsm.waiters[id].req));
    ProcMoved(sys, sys', g1, i, sys'.procs[i], {}, h', s');
    g' := Move(g1, i, s', h');
    ExtendsTrans(g.h, g1.h, h');
    StartRsm(sys, sys', g.h, h', i, id);
  }

  /** A step that touches only the glue state of one process. */
  lemma GlueSim(sys: System, sys': System, g: Group, i: nat, rsm: Rsm)
    requires SystemRep(sys, g) && i < |sys.procs|
    requires Becomes(sys, sys', i, sys.procs[i].(rsm := rsm), {}) && sys'.registered == sys.registered
    ensures SystemRep(sys', g)
  {
    assert ProcRep(g.h.n, i, sys.procs[i], g.servers[i]);
  }

  lemma CrashedSim(sys: System, sys': System, g: Group, i: nat, epoch: nat) returns (g': Group)
    requires SystemRep(sys, g) && i < |sys.procs| && CrashStep(sys, sys', i, epoch)
    ensures SystemRep(sys', g') && g'.h == g.h
  {
    var p, s := sys.procs[i], g.servers[i];
    assert ProcOk(g.h, i, p, s);
    CrashSim(g.h, i, p, s, epoch);
    Stayed(g.h, i, Reboot(s));
    ProcMoved(sys, sys', g, i, sys'.procs[i], {}, g.h, Reboot(s));
    g' := Move(g, i, Reboot(s), g.h);
  }

  lemma ReturnSim(sys: System, sys': System, g: Group, i: nat, id: OpId) returns (g': Group)
    requires SystemRep(sys, g) && RsmInv(sys, g.h) && StepTo(sys, sys', Return(i, id))
    ensures SystemRep(sys', g') && RsmInv(sys', g'.h) && Extends(g.h, g'.h)
  {
    g' := g;
    ExtendsRefl(g.h);
    GlueSim(sys, sys', g, i, sys'.procs[i].rsm);
    ReturnRsm(sys, sys', g.h, i, id);
  }

  lemma CrashStepSim(sys: System, sys': System, g: Group, i: nat, epoch: nat) returns (g': Group)
    requires SystemRep(sys, g) && RsmInv(sys, g.h) && StepTo(sys, sys', Crash(i, epoch))
    ensures SystemRep(sys', g') && RsmInv(sys', g'.h) && Extends(g.h, g'.h)
  {
    ExtendsRefl(g.h);
    g' := CrashedSim(sys, sys', g, i, epoch);
    CrashRsm(sys, sys', g.h, i, epoch);
  }

  /** Each step of the system is a sequence of protocol moves that keeps the glue in order. */
  lemma StepSim(sys: System, sys': System, g: Group, step: Step) returns (g': Group)
    requires SystemRep(sys, g) && RsmInv(sys, g.h) && StepTo(sys, sys', step)
    ensures SystemRep(sys', g') && RsmInv(sys', g'.h) && Extends(g.h, g'.h)
  {
    ExtendsRefl(g.h);
    match step {
      case Register(i, req) => g' := RegisterSim(sys, sys', g, i, req);
      case StartOp(i, id) => g' := StartOpSim(sys, sys', g, i, id);
      case Return(i, id) => g' := ReturnSim(sys, sys', g, i, id);
      case Crash(i, epoch) => g' := CrashStepSim(sys, sys', g, i, epoch);
      case _ => g' := NodeStepSim(sys, sys', g, step);
    }
  }

  lemma NodeStepSim(sys: System, sys': System, g: Group, step: Step) returns (g': Group)
    requires SystemRep(sys, g) && RsmInv(sys, g.h)
    requires step.i < |sys.procs| && NodeStep(sys, sys', step) && Quiet(sys, sys')
    ensures SystemRep(sys', g') && RsmInv(sys', g'.h) && Extends(g.h, g'.h)
  {
    g' := NodeSim(sys, sys', g, step);
    if step.Deliver? {
      DeliverRsm(sys, sys', g, step.i);
    } else {
      NodeStepQuiet(sys, sys', step);
      QuietRsm(sys, sys', g.h, g'.h);
    }
  }

  lemma NodeStepQuiet(sys: System, sys': System, step: Step)
    requires step.i < |sys.procs| && NodeStep(sys, sys', step) && !step.Deliver?
    ensures |sys'.procs| == |sys.procs|
    ensures forall i :: 0 <= i < |sys.procs| ==> sys'.procs[i].rsm == sys.procs[i].rsm
  {
  }

  /** State `x` of the run stands for group `gs[x]`, whose history the last group extends. */
  ghost predicate Shadows(run: seq<System>, gs: seq<Group>, x: nat)
    requires x < |run| == |gs|
  {
    SystemRep(run[x], gs[x]) && RsmInv(run[x], gs[x].h) && Extends(gs[x].h, gs[|gs| - 1].h)
  }

  /** The protocol runs alongside the system; its history grows over the whole run. */
  lemma {:induction false} RunSim(run: seq<System>) returns (gs: seq<Group>)
    requires IsRun(run)
    ensures |gs| == |run|
    ensures forall x :: 0 <= x < |run| ==> Shadows(run, gs, x)
  {
    if |run| == 1 {
      var g := InitSim(run[0]);
      ExtendsRefl(g.h);
      gs := [g];
    } else {
      var last := |run| - 1;
      var gs0 := RunSim(run[..last]);
      assert Shadows(run[..last], gs0, last - 1);
      assert Next(run[last - 1], run[last]);
      var step :| StepTo(run[last - 1], run[last], step);
      var g := StepSim(run[last - 1], run[last], gs0[last - 1], step);
      gs := gs0 + [g];
      ShadowsExtend(run, gs0, g);
    }
  }

  lemma ShadowsExtend(run: seq<System>, gs: seq<Group>, g: Group)
    requires |run| == |gs| + 1 > 1
    requires forall x :: 0 <= x < |gs| ==> Shadows(run[..|gs|], gs, x)
    requires SystemRep(run[|gs|], g) && RsmInv(run[|gs|], g.h) && Extends(gs[|gs| - 1].h, g.h)
    ensures forall x :: 0 <= x < |run| ==> Shadows(run, gs + [g], x)
  {
    forall x | 0 <= x < |run| ensures Shadows(run, gs + [g], x) {
      if x < |gs| {
        assert Shadows(run[..|gs|], gs, x);
        ExtendsTrans(gs[x].h, gs[|gs| - 1].h, g.h);
      } else {
        ExtendsRefl(g.h);
      }
    }
  }

  // ----- for all runs -----

  lemma LeaderReigns(run: seq<System>, gs: seq<Group>, x: nat, a: nat)
    requires |gs| == |run| && x < |run| && (forall y :: 0 <= y < |gs| ==> Shadows(run, gs, y))
    requires a < |run[x].procs| && run[x].procs[a].node.role == Leader
    ensures var t := run[x].procs[a].node.currentTerm;
            t in gs[x].h.reigns && gs[x].h.reigns[t].leader == a && Extends(gs[x].h, gs[|run| - 1].h)
  {
    assert Shadows(run, gs, x);
    LeaderReign(run[x], gs[x], a);
  }

  lemma LeaderReign(sys: System, g: Group, a: nat)
    requires SystemRep(sys, g) && a < |sys.procs| && sys.procs[a].node.role == Leader
    ensures var t := sys.procs[a].node.currentTerm; t in g.h.reigns && g.h.reigns[t].leader == a
  {
    assert ProcRep(g.h.n, a, sys.procs[a], g.servers[a]);
    assert RoleOk(g.h, a, g.servers[a]);
  }

  /** Election Safety: over a whole run, a term has at most one leader. */
  lemma ElectionSafety(run: seq<System>, x: nat, y: nat, a: nat, b: nat)
    requires IsRun(run) && x < |run| && y < |run| && a < |run[x].procs| && b < |run[y].procs|
    requires run[x].procs[a].node.role == Leader && run[y].procs[b].node.role == Leader
    requires run[x].procs[a].node.currentTerm == run[y].procs[b].node.currentTerm
    ensures a == b
  {
    var gs := RunSim(run);
    var h := gs[|run| - 1].h;
    var t := run[x].procs[a].node.currentTerm;
    LeaderReigns(run, gs, x, a);
    LeaderReigns(run, gs, y, b);
    assert ReignExtends(gs[x].h.reigns[t], h.reigns[t]) && ReignExtends(gs[y].h.reigns[t], h.reigns[t]);
  }

  /** Two nodes show the same entry at `j`, as far as compaction lets them show it. */
  predicate SameAt(a: NodeData, b: NodeData, j: nat) {
    Contains(a, j) && Contains(b, j) ==>
      && TermAt(a, j) == TermAt(b, j)
      && (j > a.lastIncludedIndex && j > b.lastIncludedIndex ==> EntryAt(a, j) == EntryAt(b, j))
  }

  lemma AgreeShows(n: nat, i: nat, a: Node, s: Server, n': nat, j: nat, b: Node, s': Server, k: nat)
    requires StateRep(n, i, a, s) && StateRep(n', j, b, s') && Agree(s.log, s'.log, k)
    ensures k <= LastIndex(a) && k <= LastIndex(b) && forall m :: 0 <= m <= k ==> SameAt(a, b, m)
  {
  }

  lemma MatchOverTime(ha: History, hb: History, h: History, a: Log, b: Log, k: nat)
    requires Extends(ha, h) && Extends(hb, h) && Grounded(ha, a) && Grounded(hb, b)
    requires k < |a| && k < |b| && a[k].term == b[k].term
    ensures Agree(a, b, k)
  {
    GroundedGrows(ha, h, a);
    GroundedGrows(hb, h, b);
    LogMatching(h, a, b, k);
  }

  /** Log Matching, across servers and across time: two nodes that show the same term at the
      same index show the same entries before it. */
  lemma LogMatchingInRuns(run: seq<System>, x: nat, y: nat, a: nat, b: nat, k: nat)
    requires IsRun(run) && x < |run| && y < |run| && a < |run[x].procs| && b < |run[y].procs|
    requires var na, nb := run[x].procs[a].node, run[y].procs[b].node;
             Contains(na, k) && Contains(nb, k) && TermAt(na, k) == TermAt(nb, k)
    ensures forall m :: 0 <= m <= k ==> SameAt(run[x].procs[a].node, run[y].procs[b].node, m)
  {
    var gs := RunSim(run);
    var s := ShadowLog(run, gs, x, a, k);
    var s' := ShadowLog(run, gs, y, b, k);
    MatchOverTime(gs[x].h, gs[y].h, gs[|run| - 1].h, s.log, s'.log, k);
    AgreeShows(gs[x].h.n, a, run[x].procs[a].node, s, gs[y].h.n, b, run[y].procs[b].node, s', k);
  }

  lemma ShadowLog(run: seq<System>, gs: seq<Group>, x: nat, a: nat, k: nat) returns (s: Server)
    requires x < |run| == |gs| && Shadows(run, gs, x)
    requires a < |run[x].procs| && Contains(run[x].procs[a].node, k)
    ensures Extends(gs[x].h, gs[|run| - 1].h) && Grounded(gs[x].h, s.log)
    ensures StateRep(gs[x].h.n, a, run[x].procs[a].node, s)
    ensures k < |s.log| && s.log[k].term == TermAt(run[x].procs[a].node, k)
  {
    s := gs[x].servers[a];
    assert ProcRep(gs[x].h.n, a, run[x].procs[a], s);
  }

  /** Leader Completeness: what a server of term T knows to be committed, at any time of the run,
      is in the log of every leader of a later term. */
  lemma LeaderCompletenessInRuns(run: seq<System>, x: nat, y: nat, a: nat, b: nat)
    requires IsRun(run) && x < |run| && y < |run| && a < |run[x].procs| && b < |run[y].procs|
    requires run[y].procs[b].node.role == Leader
    requires run[x].procs[a].node.currentTerm < run[y].procs[b].node.currentTerm
    ensures run[x].procs[a].node.commitIndex <= LastIndex(run[y].procs[b].node)
    ensures forall m :: 0 <= m <= run[x].procs[a].node.commitIndex ==>
              SameAt(run[x].procs[a].node, run[y].procs[b].node, m)
  {
    var gs := RunSim(run);
    var h := gs[|run| - 1].h;
    assert Shadows(run, gs, x) && Shadows(run, gs, y) && Shadows(run, gs, |run| - 1);
    var s, s' := gs[x].servers[a], gs[y].servers[b];
    assert ProcRep(gs[x].h.n, a, run[x].procs[a], s) && ProcRep(gs[y].h.n, b, run[y].procs[b], s');
    ChosenGrows(gs[x].h, h, s.log, s.commit, s.term, s.term);
    CommittedInStart(gs[y].h, h, s.log, s.commit, s.term, s'.term);
    AgreeShows(gs[x].h.n, a, run[x].procs[a].node, s, gs[y].h.n, b, run[y].procs[b].node, s', s.commit);
  }

  /** A prefix chosen before term `u` is in the log the leader of `u` had at any time. */
  lemma CommittedInStart(h0: History, h: History, l: Log, c: nat, bound: nat, u: nat)
    requires Extends(h0, h) && HistoryInv(h0) && HistoryInv(h) && Chosen(h, l, c, bound) && bound < u && u in h0.reigns
    ensures Agree(l, h0.reigns[u].log, c)
  {
    assert ReignExtends(h0.reigns[u], h.reigns[u]);
    assert ReignOk(h0, u);
    if c > 0 {
      var t, k :| ChosenBy(h, l, c, bound, t, k);
      LeaderCompleteness(h, t, k, u);
      AgreeTrans(l, h.reigns[t].log, h.reigns[u].start, c, k);
    }
  }

  /** What `s` has committed is a prefix of `cs`. */
  predicate Covers(cs: Log, s: Server) {
    s.commit < |cs| && Agree(s.log, cs, s.commit)
  }

  lemma CoverServers(g: Group, h: History, cs: Log, bound: nat) returns (cs': Log, bound': nat)
    requires GroupInv(g) && Extends(g.h, h) && HistoryInv(h) && Chosen(h, cs, |cs| - 1, bound)
    ensures Chosen(h, cs', |cs'| - 1, bound')
    ensures |cs| <= |cs'| && Agree(cs, cs', |cs| - 1)
    ensures forall a :: 0 <= a < |g.servers| ==> Covers(cs', g.servers[a])
  {
    cs', bound' := cs, bound;
    var a := 0;
    while a < |g.servers|
      invariant 0 <= a <= |g.servers|
      invariant Chosen(h, cs', |cs'| - 1, bound')
      invariant |cs| <= |cs'| && Agree(cs, cs', |cs| - 1)
      invariant forall j :: 0 <= j < a ==> Covers(cs', g.servers[j])
    {
      var s := g.servers[a];
      ChosenGrows(g.h, h, s.log, s.commit, s.term, s.term);
      if s.commit < |cs'| {
        ChosenAgree(h, s.log, s.commit, s.term, cs', |cs'| - 1, bound');
      } else {
        ChosenAgree(h, cs', |cs'| - 1, bound', s.log, s.commit, s.term);
        ghost var longer: Log := s.log[..s.commit + 1];
        ChosenAgrees(h, s.log, s.commit, s.term, longer, s.commit);
        cs', bound' := longer, s.term;
      }
      a := a + 1;
    }
  }

  /** `cs` covers every server of every group in `gs`. */
  predicate CoversAll(cs: Log, gs: seq<Group>) {
    forall x, a :: 0 <= x < |gs| && 0 <= a < |gs[x].servers| ==> Covers(cs, gs[x].servers[a])
  }

  lemma {:induction false} CoverRun(run: seq<System>, gs: seq<Group>, x: nat) returns (cs: Log, bound: nat)
    requires |run| == |gs| > 0 && x <= |gs|
    requires forall y :: 0 <= y < |gs| ==> Shadows(run, gs, y)
    ensures Chosen(gs[|gs| - 1].h, cs, |cs| - 1, bound) && CoversAll(cs, gs[..x])
    decreases x
  {
    var h := gs[|gs| - 1].h;
    assert Shadows(run, gs, |gs| - 1);
    if x == 0 {
      cs, bound := [DUMMY], 0;
    } else {
      assert Shadows(run, gs, x - 1);
      var cs0, bound0 := CoverRun(run, gs, x - 1);
      cs, bound := CoverServers(gs[x - 1], h, cs0, bound0);
      forall y, a | 0 <= y < x && 0 <= a < |gs[y].servers| ensures Covers(cs, gs[y].servers[a]) {
        if y < x - 1 { assert Covers(cs0, gs[..x - 1][y].servers[a]); }
      }
    }
  }

  /** A result that `Submit` returned is its own operation's, at its place in `cs`. */
  ghost predicate ResultIn(cs: Log, r: Result) {
    exists k {:trigger cs[k]} ::
      0 < k < |cs| && cs[k].cmd == Op(r.id, r.req) && r.reply == DoOp(Replay(cs, k - 1), r.req).1
  }

  lemma ResultStays(cs: Log, cs': Log, r: Result)
    requires ResultIn(cs, r) && Agree(cs, cs', |cs| - 1)
    ensures ResultIn(cs', r)
  {
    var k :| 0 < k < |cs| && cs[k].cmd == Op(r.id, r.req) && r.reply == DoOp(Replay(cs, k - 1), r.req).1;
    ReplayAgree(cs, cs', k - 1);
    assert cs'[k] == cs[k];
  }

  lemma CoverResult(h: History, cs: Log, bound: nat, r: Result) returns (cs': Log, bound': nat)
    requires HistoryInv(h) && Chosen(h, cs, |cs| - 1, bound) && AnswerOk(h, r.id, r.req, r.reply)
    ensures Chosen(h, cs', |cs'| - 1, bound') && Agree(cs, cs', |cs| - 1) && ResultIn(cs', r)
  {
    var l: Log, k: nat, b: nat :| AnsweredBy(h, l, k, b, r.id, r.req, r.reply);
    cs', bound' := cs, bound;
    if k < |cs| {
      ChosenAgree(h, l, k, b, cs, |cs| - 1, bound);
    } else {
      ChosenAgree(h, cs, |cs| - 1, bound, l, k, b);
      cs', bound' := l[..k + 1], b;
      ChosenAgrees(h, l, k, b, cs', k);
    }
    ReplayAgree(l, cs', k - 1);
    assert cs'[k] == l[k];
  }

  lemma ResultsStay(cs: Log, cs': Log, rs: set<Result>, r: Result)
    requires (forall q <- rs - {r} :: ResultIn(cs, q)) && cs != [] && Agree(cs, cs', |cs| - 1) && ResultIn(cs', r)
    ensures forall q <- rs :: ResultIn(cs', q)
  {
    forall q | q in rs ensures ResultIn(cs', q) { if q != r { ResultStays(cs, cs', q); } }
  }

  ghost predicate CoversResults(h: History, cs: Log, bound: nat, rs: set<Result>) {
    Chosen(h, cs, |cs| - 1, bound) && forall r <- rs :: ResultIn(cs, r)
  }

  lemma CoverOneMore(h: History, cs: Log, bound: nat, rs: set<Result>, r: Result) returns (cs': Log, bound': nat)
    requires HistoryInv(h) && CoversResults(h, cs, bound, rs - {r}) && AnswerOk(h, r.id, r.req, r.reply)
    ensures CoversResults(h, cs', bound', rs) && Agree(cs, cs', |cs| - 1)
  {
    cs', bound' := CoverResult(h, cs, bound, r);
    ResultsStay(cs, cs', rs, r);
  }

  lemma {:induction false} CoverResults(h: History, cs: Log, bound: nat, rs: set<Result>)
    returns (cs': Log, bound': nat)
    requires HistoryInv(h) && Chosen(h, cs, |cs| - 1, bound) && forall r <- rs :: AnswerOk(h, r.id, r.req, r.reply)
    ensures CoversResults(h, cs', bound', rs) && Agree(cs, cs', |cs| - 1)
    decreases |rs|
  {
    if rs == {} {
      cs', bound' := cs, bound;
    } else {
      var r :| r in rs;
      var cs1, bound1 := CoverResults(h, cs, bound, rs - {r});
      cs', bound' := CoverOneMore(h, cs1, bound1, rs, r);
      AgreeTrans(cs, cs1, cs', |cs| - 1, |cs1| - 1);
    }
  }

  lemma {:induction false} CoverRunResults(run: seq<System>, gs: seq<Group>, x: nat, cs: Log, bound: nat)
    returns (cs': Log, bound': nat)
    requires |run| == |gs| > 0 && x <= |gs| && Chosen(gs[|gs| - 1].h, cs, |cs| - 1, bound)
    requires forall y :: 0 <= y < |gs| ==> Shadows(run, gs, y)
    ensures Chosen(gs[|gs| - 1].h, cs', |cs'| - 1, bound') && Agree(cs, cs', |cs| - 1)
    ensures forall y, r :: 0 <= y < x && r in run[y].returned ==> ResultIn(cs', r)
    decreases x
  {
    cs', bound' := cs, bound;
    if x > 0 {
      var h := gs[|gs| - 1].h;
      var cs1, bound1 := CoverRunResults(run, gs, x - 1, cs, bound);
      assert Shadows(run, gs, x - 1) && Shadows(run, gs, |gs| - 1);
      ReturnedStay(run[x - 1], gs[x - 1].h, h);
      cs', bound' := CoverResults(h, cs1, bound1, run[x - 1].returned);
      AgreeTrans(cs, cs1, cs', |cs| - 1, |cs1| - 1);
      forall y, r | 0 <= y < x && r in run[y].returned ensures ResultIn(cs', r) {
        if y < x - 1 { ResultStays(cs1, cs', r); }
      }
    }
  }

  // ----- the order of operations -----

  /** Only submitted operations are in `cs`, as they were submitted. */
  predicate OnlySubmitted(cs: Log, registered: map<OpId, Request>) {
    forall k :: 0 < k < |cs| ==>
      cs[k].cmd.Op? && cs[k].cmd.id in registered && registered[cs[k].cmd.id] == cs[k].cmd.req
  }

  /** No operation is in `cs` twice. */
  predicate OncePerOperation(cs: Log) {
    forall j, k ::
      (&& 0 < j < |cs| && 0 < k < |cs| && cs[j].cmd.Op? && cs[k].cmd.Op?
       && cs[j].cmd.id == cs[k].cmd.id) ==> j == k
  }

  /** What had not been submitted when a result was returned comes after that result's operation. */
  ghost predicate InRealTime(cs: Log, sys: System) {
    forall r, j, k {:trigger r in sys.returned, cs[j], cs[k]} ::
      (&& r in sys.returned && 0 < j < |cs| && 0 < k < |cs| && cs[j].cmd.Op? && cs[k].cmd.Op?
       && cs[j].cmd.id == r.id && cs[k].cmd.id !in sys.registered) ==> j < k
  }

  lemma ChosenPlaced(h: History, l: Log, c: nat, bound: nat)
    requires HistoryInv(h) && Chosen(h, l, c, bound)
    ensures forall k :: 0 < k <= c ==> Placed(h, l[k], k)
  {
    if c > 0 {
      var t: nat, k: nat :| ChosenBy(h, l, c, bound, t, k);
      assert ReignOk(h, t);
    }
  }

  lemma SubmittedOnce(sys: System, g: Group, cs: Log, bound: nat)
    requires SystemRep(sys, g) && Chosen(g.h, cs, |cs| - 1, bound)
    ensures OnlySubmitted(cs, sys.registered) && OncePerOperation(cs)
  {
    ChosenPlaced(g.h, cs, |cs| - 1, bound);
  }

  /** A result of an earlier time: its operation's place was already chosen then, and nothing that was
      submitted later is at or before it. */
  lemma ReturnedBefore(sys: System, g: Group, h: History, cs: Log, bound: nat, r: Result, j: nat, k: nat)
    requires SystemRep(sys, g) && AnswerOk(g.h, r.id, r.req, r.reply) && Extends(g.h, h) && HistoryInv(h)
    requires Chosen(h, cs, |cs| - 1, bound) && 0 < j < |cs| && 0 < k <= j
    requires cs[j].cmd.Op? && cs[j].cmd.id == r.id && cs[k].cmd.Op?
    ensures cs[k].cmd.id in sys.registered
  {
    var l: Log, m: nat, b: nat :| AnsweredBy(g.h, l, m, b, r.id, r.req, r.reply);
    ChosenPlaced(g.h, l, m, b);
    ChosenPlaced(h, cs, |cs| - 1, bound);
    assert Placed(g.h, l[m], m) && Placed(h, cs[j], j);
    assert m == j;
    ChosenGrows(g.h, h, l, m, b, b);
    ChosenAgree(h, l, m, b, cs, |cs| - 1, bound);
    assert Placed(g.h, l[k], k) && cs[k] == l[k];
  }

  lemma OrderKept(run: seq<System>, gs: seq<Group>, x: nat, cs: Log, bound: nat)
    requires |run| == |gs| > 0 && x < |gs| && Chosen(gs[|gs| - 1].h, cs, |cs| - 1, bound)
    requires forall y :: 0 <= y < |gs| ==> Shadows(run, gs, y)
    ensures InRealTime(cs, run[x])
  {
    assert Shadows(run, gs, x) && Shadows(run, gs, |gs| - 1);
    forall r, j, k | r in run[x].returned && 0 < j < |cs| && 0 < k < |cs| && cs[j].cmd.Op? && cs[k].cmd.Op?
                     && cs[j].cmd.id == r.id && cs[k].cmd.id !in run[x].registered
      ensures j < k
    {
      if k <= j { ReturnedBefore(run[x], gs[x], gs[|gs| - 1].h, cs, bound, r, j, k); }
    }
  }

  /** State Machine Safety: one sequence of entries explains the whole run. Whatever a server's
      service has taken or is about to take, at any time, whether as commands or inside a snapshot,
      leaves it in the state of replaying a prefix of that sequence; commit indices and saved
      snapshots refer to the same sequence. The sequence holds submitted operations only, each once.
      Every `Submit` that returned OK returned the result of its own operation at its place in that
      sequence, and whatever was submitted after it had returned comes later in it. */
  lemma StateMachineSafety(run: seq<System>) returns (cs: Log)
    requires IsRun(run)
    ensures forall x, a :: 0 <= x < |run| && 0 <= a < |run[x].procs| ==> Explains(cs, run[x].procs[a])
    ensures forall x, r :: 0 <= x < |run| && r in run[x].returned ==> ResultIn(cs, r)
    ensures OnlySubmitted(cs, run[|run| - 1].registered) && OncePerOperation(cs)
    ensures forall x :: 0 <= x < |run| ==> InRealTime(cs, run[x])
  {
    var gs := RunSim(run);
    var cs0, bound := CoverRun(run, gs, |gs|);
    cs, bound := CoverRunResults(run, gs, |gs|, cs0, bound);
    ExplainsRun(run, gs, cs0, cs);
    assert Shadows(run, gs, |gs| - 1);
    SubmittedOnce(run[|run| - 1], gs[|gs| - 1], cs, bound);
    forall x | 0 <= x < |run| ensures InRealTime(cs, run[x]) { OrderKept(run, gs, x, cs, bound); }
  }

  lemma ExplainsRun(run: seq<System>, gs: seq<Group>, cs0: Log, cs: Log)
    requires |run| == |gs| > 0 && CoversAll(cs0, gs[..|gs|]) && Agree(cs0, cs, |cs0| - 1)
    requires forall y :: 0 <= y < |gs| ==> Shadows(run, gs, y)
    ensures forall x, a :: 0 <= x < |run| && 0 <= a < |run[x].procs| ==> Explains(cs, run[x].procs[a])
  {
    forall x, a | 0 <= x < |run| && 0 <= a < |run[x].procs| ensures Explains(cs, run[x].procs[a]) {
      assert Shadows(run, gs, x);
      assert Covers(cs0, gs[..|gs|][x].servers[a]);
      ExplainsCovered(gs[x].h.n, a, run[x].procs[a], gs[x].servers[a], cs);
    }
  }

  /** The committed entries of a process are those of `cs`, its service has replayed them, and what is
      queued for the service is the next of them. */
  predicate Explains(cs: Log, p: Proc) {
    var nd := p.node;
    && p.applied <= nd.commitIndex < |cs| && nd.commitIndex <= LastIndex(nd)
    && p.store == Replay(cs, p.applied)
    && nd.lastIncludedIndex <= nd.commitIndex && nd.snapshot == SnapshotAt(cs, nd.lastIncludedIndex)
    && (forall j :: nd.lastIncludedIndex < j <= nd.commitIndex ==> EntryAt(nd, j) == cs[j])
    && forall m <- p.outbox :: Queued(cs, m)
  }

  predicate Queued(cs: Log, m: ApplyMsg) {
    match m
    case CommandMsg(index, cmd) => 0 < index < |cs| && cs[index].cmd == cmd
    case SnapshotMsg(index, _, data) => 0 < index < |cs| && data == SnapshotAt(cs, index)
  }

  lemma ExplainsCovered(n: nat, i: nat, p: Proc, s: Server, cs: Log)
    requires ProcRep(n, i, p, s) && Covers(cs, s)
    ensures Explains(cs, p)
  {
    ReplayAgree(s.log, cs, p.applied);
    ReplayAgree(s.log, cs, s.base);
    var nd := p.node;
    forall j | nd.lastIncludedIndex < j <= nd.commitIndex ensures EntryAt(nd, j) == cs[j] {
      assert s.log[j] == cs[j];
    }
    QueuedCovered(p, s, cs);
  }

  lemma QueuedCovered(p: Proc, s: Server, cs: Log)
    requires StreamOk(p.outbox, p.applied, s.log, s.commit) && Covers(cs, s)
    ensures forall m <- p.outbox :: Queued(cs, m)
  {
    forall m | m in p.outbox ensures Queued(cs, m) {
      if m.SnapshotMsg? { ReplayAgree(s.log, cs, m.index); }
    }
  }

  /** In every reachable state the handlers stay within bounds, everything that must survive a
      crash is on disk, and the applier hands over a contiguous stream of commands. */
  lemma NothingPanics(run: seq<System>, x: nat, a: nat)
    requires IsRun(run) && x < |run| && a < |run[x].procs|
    ensures var nd := run[x].procs[a].node;
            && InBounds(nd)
            && nd.disk == DiskOf(nd)
            && (nd.role == Leader ==> forall p :: 0 <= p < nd.peers ==>
                  nd.matchIndex[p] < nd.nextIndex[p] <= LastIndex(nd) + 1)
    ensures forall m :: m in run[x].net && (m.VoteReturn? || m.AppendReturn? || m.InstallReturn?) ==>
              m.from < |run[x].procs|
    ensures var p := run[x].procs[a];
            p.outbox != [] ==>
              match p.outbox[0]
              case CommandMsg(index, cmd) => index == p.applied + 1 && cmd.Op?
              case SnapshotMsg(index, _, data) => index > p.applied && data.Some?
  {
    var gs := RunSim(run);
    assert Shadows(run, gs, x);
    var nd := run[x].procs[a].node;
    var h := gs[x].h;
    assert ProcRep(h.n, a, run[x].procs[a], gs[x].servers[a]);
    if nd.role == Leader {
      forall p | 0 <= p < nd.peers ensures nd.matchIndex[p] < nd.nextIndex[p] <= LastIndex(nd) + 1 {
        assert NextOk(nd.matchIndex, nd.nextIndex, LastIndex(nd), p);
      }
    }
    GroundedOps(h, gs[x].servers[a].log);
    forall m | m in run[x].net && (m.VoteReturn? || m.AppendReturn? || m.InstallReturn?)
      ensures m.from < |run[x].procs|
    {
      assert MessageOk(h, m);
    }
  }

  lemma MatchedAgree(h: History, a: nat, s: Server, b: nat, s': Server, m: nat)
    requires HistoryInv(h) && ServerOk(h, a, s) && ServerOk(h, b, s') && s.role == Leader && s'.term == s.term
    requires b < |s.matched| && m == s.matched[b] && MatchOk(h, s.term, s.matched, b)
    ensures Agree(s.log, s'.log, m)
  {
    if m > 0 { AckedAgree(h, a, s, b, s', m); }
  }

  /** Replication bookkeeping: while a server is in the leader's term, its log agrees with the
      leader's through the match index the leader keeps for it, whatever stale, duplicate or
      reordered requests and replies have been handled. */
  lemma MatchIndexSound(run: seq<System>, x: nat, a: nat, b: nat)
    requires IsRun(run) && x < |run| && a < |run[x].procs| && b < |run[x].procs|
    requires run[x].procs[a].node.role == Leader
    requires run[x].procs[b].node.currentTerm == run[x].procs[a].node.currentTerm
    ensures b < |run[x].procs[a].node.matchIndex|
    ensures var m := run[x].procs[a].node.matchIndex[b];
            && m <= LastIndex(run[x].procs[a].node) && m <= LastIndex(run[x].procs[b].node)
            && forall j :: 0 <= j <= m ==> SameAt(run[x].procs[a].node, run[x].procs[b].node, j)
  {
    var gs := RunSim(run);
    assert Shadows(run, gs, x);
    var h, s, s' := gs[x].h, gs[x].servers[a], gs[x].servers[b];
    var na, nb := run[x].procs[a].node, run[x].procs[b].node;
    assert ProcRep(h.n, a, run[x].procs[a], s) && ProcRep(h.n, b, run[x].procs[b], s');
    var m := na.matchIndex[b];
    MatchedAgree(h, a, s, b, s', m);
    AgreeShows(h.n, a, na, s, h.n, b, nb, s', m);
  }

  lemma AckedAgree(h: History, a: nat, s: Server, b: nat, s': Server, k: nat)
    requires HistoryInv(h) && ServerOk(h, a, s) && ServerOk(h, b, s') && s.role == Leader && s'.term == s.term
    requires Acked(h, s.term, b, k)
    ensures Agree(s.log, s'.log, k)
  {
    AckedHas(h, b, s', k);
  }

  /** The index through which a reply in the network acknowledges the log of term `term`, if it does. */
  function Acknowledges(m: Message, term: nat): Option<nat> {
    match m
    case AppendReturn(_, _, args, _, reply) =>
      if reply.success && args.term == term then Some(args.prevLogIndex + |args.entries|) else None
    case InstallReturn(_, _, args, replyTerm) =>
      if replyTerm == term && args.term == term then Some(args.lastIncludedIndex) else None
    case _ => None
  }

  /** Nothing acknowledged is dropped: from the moment a server has acknowledged part of a leader's log,
      whether or not the leader has heard of it, the server holds that part as long as it stays in the
      term, whatever late or repeated requests it handles. */
  lemma AcknowledgedIsKept(run: seq<System>, x: nat, a: nat, m: Message)
    requires IsRun(run) && x < |run| && a < |run[x].procs| && m in run[x].net
    requires run[x].procs[a].node.role == Leader && (m.AppendReturn? || m.InstallReturn?)
    requires Acknowledges(m, run[x].procs[a].node.currentTerm).Some?
    ensures m.from < |run[x].procs|
    ensures var na, nb := run[x].procs[a].node, run[x].procs[m.from].node;
            var k := Acknowledges(m, na.currentTerm).value;
            nb.currentTerm == na.currentTerm ==>
              k <= LastIndex(na) && k <= LastIndex(nb) && forall j :: 0 <= j <= k ==> SameAt(na, nb, j)
  {
    var gs := RunSim(run);
    assert Shadows(run, gs, x);
    AcknowledgedNow(run[x], gs[x], a, m);
  }

  lemma AcknowledgedNow(sys: System, g: Group, a: nat, m: Message)
    requires SystemRep(sys, g) && a < |sys.procs| && m in sys.net
    requires sys.procs[a].node.role == Leader && (m.AppendReturn? || m.InstallReturn?)
    requires Acknowledges(m, sys.procs[a].node.currentTerm).Some?
    ensures m.from < |sys.procs|
    ensures var na, nb := sys.procs[a].node, sys.procs[m.from].node;
            var k := Acknowledges(m, na.currentTerm).value;
            nb.currentTerm == na.currentTerm ==>
              k <= LastIndex(na) && k <= LastIndex(nb) && forall j :: 0 <= j <= k ==> SameAt(na, nb, j)
  {
    assert MessageOk(g.h, m);
    var na, nb, s, s' := sys.procs[a].node, sys.procs[m.from].node, g.servers[a], g.servers[m.from];
    assert ProcRep(g.h.n, a, sys.procs[a], s) && ProcRep(g.h.n, m.from, sys.procs[m.from], s');
    if nb.currentTerm == na.currentTerm {
      var k := Acknowledges(m, na.currentTerm).value;
      AckedAgree(g.h, a, s, m.from, s', k);
      AgreeShows(g.h.n, a, na, s, g.h.n, m.from, nb, s', k);
    }
  }
}
