/** Finite continuations of runs: which states can follow which, and the single steps that lead on. */
module RaftPaths {
  import opened KvStore
  import opened RaftLog
  import opened RaftGroup
  import opened RaftNode
  import opened RaftSystem
  import opened RaftRep
  import opened RaftSafety
  import opened RsmRep

  ghost predicate Path(path: seq<System>) {
    |path| > 0 && forall k :: 0 <= k < |path| - 1 ==> Next(path[k], path[k + 1])
  }

  ghost predicate PathBetween(path: seq<System>, a: System, b: System) {
    Path(path) && path[0] == a && path[|path| - 1] == b
  }

  /** Some finite number of steps goes from `a` to `b`. */
  ghost predicate Leads(a: System, b: System) {
    exists path :: PathBetween(path, a, b)
  }

  ghost predicate Reachable(sys: System) {
    exists start :: Init(start) && Leads(start, sys)
  }

  lemma LeadsRefl(a: System)
    ensures Leads(a, a)
  {
    assert PathBetween([a], a, a);
  }

  lemma LeadsNext(a: System, b: System)
    requires Next(a, b)
    ensures Leads(a, b)
  {
    assert PathBetween([a, b], a, b);
  }

  lemma LeadsTrans(a: System, b: System, c: System)
    requires Leads(a, b) && Leads(b, c)
    ensures Leads(a, c)
  {
    var p :| PathBetween(p, a, b);
    var q :| PathBetween(q, b, c);
    var r := p + q[1..];
    forall k | 0 <= k < |r| - 1 ensures Next(r[k], r[k + 1]) {
      if k < |p| - 1 {
        assert Next(p[k], p[k + 1]);
      } else {
        assert Next(q[k - (|p| - 1)], q[k - (|p| - 1) + 1]);
      }
    }
    assert PathBetween(r, a, c);
  }

  lemma ReachableOn(a: System, b: System)
    requires Reachable(a) && Leads(a, b)
    ensures Reachable(b)
  {
    var start :| Init(start) && Leads(start, a);
    LeadsTrans(start, a, b);
  }

  /** The last state of a run is reachable, and what it leads to ends a longer run. */
  lemma RunReaches(run: seq<System>)
    requires IsRun(run)
    ensures Reachable(run[|run| - 1])
  {
    assert PathBetween(run, run[0], run[|run| - 1]);
  }

  lemma RunGoesOn(run: seq<System>, b: System) returns (more: seq<System>)
    requires IsRun(run) && Leads(run[|run| - 1], b)
    ensures IsRun(run + more) && (run + more)[|run + more| - 1] == b
  {
    var q :| PathBetween(q, run[|run| - 1], b);
    more := q[1..];
    var r := run + more;
    forall k | 0 <= k < |r| - 1 ensures Next(r[k], r[k + 1]) {
      if k < |run| - 1 {
        assert Next(run[k], run[k + 1]);
      } else {
        assert Next(q[k - (|run| - 1)], q[k - (|run| - 1) + 1]);
      }
    }
  }

  /** A reachable state stands for a group of servers with their full logs. */
  lemma ReachableRep(sys: System) returns (g: Group)
    requires Reachable(sys)
    ensures SystemRep(sys, g) && RsmInv(sys, g.h)
  {
    var start :| Init(start) && Leads(start, sys);
    var run :| PathBetween(run, start, sys);
    var gs := RunSim(run);
    assert Shadows(run, gs, |run| - 1);
    g := gs[|run| - 1];
  }

  /** Every server knows its place in the group. */
  predicate Named(sys: System) {
    |sys.procs| > 0 && forall i :: 0 <= i < |sys.procs| ==> NamedAt(sys, i)
  }

  predicate NamedAt(sys: System, i: nat)
    requires i < |sys.procs|
  {
    sys.procs[i].node.me == i && sys.procs[i].node.peers == |sys.procs|
  }

  lemma ReachableNamed(sys: System)
    requires Reachable(sys)
    ensures Named(sys)
  {
    var g := ReachableRep(sys);
    forall i | 0 <= i < |sys.procs| ensures NamedAt(sys, i) {
      assert ProcRep(g.h.n, i, sys.procs[i], g.servers[i]);
    }
    var start :| Init(start) && Leads(start, sys);
    LeadsKeeps(start, sys);
  }

  /** The group stays the same and what was submitted stays submitted. */
  lemma {:induction false} SameCount(run: seq<System>, x: nat)
    requires Path(run) && x < |run|
    ensures |run[x].procs| == |run[0].procs| && run[0].registered.Keys <= run[x].registered.Keys
    decreases x
  {
    if x > 0 {
      SameCount(run, x - 1);
      assert Next(run[x - 1], run[x - 1 + 1]);
      StepKeepsCount(run[x - 1], run[x]);
    }
  }

  lemma StepKeepsCount(sys: System, sys': System)
    requires Next(sys, sys')
    ensures |sys'.procs| == |sys.procs| && sys.registered.Keys <= sys'.registered.Keys
  {
    var step :| StepTo(sys, sys', step);
    match step {
      case Register(_, _) =>
      case StartOp(_, _) =>
      case Return(_, _) =>
      case Crash(_, _) =>
      case Deliver(_) =>
      case _ => NodeStepQuiet(sys, sys', step);
    }
  }

  lemma LeadsKeeps(a: System, b: System)
    requires Leads(a, b)
    ensures |b.procs| == |a.procs| && a.registered.Keys <= b.registered.Keys
  {
    var path :| PathBetween(path, a, b);
    SameCount(path, |path| - 1);
  }

  // ----- single steps -----

  /** Process `i` has become `p` and has sent `out`. */
  function With(sys: System, i: nat, p: Proc, out: set<Message>): System
    requires i < |sys.procs|
  {
    sys.(procs := sys.procs[i := p], net := sys.net + out)
  }

  function WithNode(sys: System, i: nat, nd: Node, out: set<Message>): System
    requires i < |sys.procs|
  {
    With(sys, i, sys.procs[i].(node := nd), out)
  }

  lemma StepLeads(sys: System, sys': System, step: Step)
    requires Reachable(sys) && StepTo(sys, sys', step)
    ensures Leads(sys, sys') && Reachable(sys')
  {
    LeadsNext(sys, sys');
    ReachableOn(sys, sys');
  }

  lemma TimesOut(sys: System, i: nat) returns (sys': System)
    requires Reachable(sys) && i < |sys.procs| && sys.procs[i].node.role != Leader
    ensures Leads(sys, sys') && Reachable(sys')
    ensures var nd' := StartElection(sys.procs[i].node); sys' == WithNode(sys, i, nd', VoteCalls(nd'))
  {
    var nd' := StartElection(sys.procs[i].node);
    sys' := WithNode(sys, i, nd', VoteCalls(nd'));
    StepLeads(sys, sys', Timeout(i));
  }

  lemma Receives(sys: System, i: nat, m: Message) returns (sys': System)
    requires Reachable(sys) && i < |sys.procs| && m in sys.net && m.to == i
    requires m.VoteReturn? || m.AppendReturn? || m.InstallReturn? ==> m.from < sys.procs[i].node.peers
    ensures Leads(sys, sys') && Reachable(sys')
    ensures var (nd', out) := Handle(sys.procs[i].node, m); sys' == WithNode(sys, i, nd', out)
  {
    var (nd', out) := Handle(sys.procs[i].node, m);
    sys' := WithNode(sys, i, nd', out);
    StepLeads(sys, sys', Receive(i, m));
  }

  lemma Probes(sys: System, i: nat, peer: nat) returns (sys': System)
    requires Reachable(sys) && i < |sys.procs| && peer != i
    requires sys.procs[i].node.role == Leader && peer < sys.procs[i].node.peers
    ensures Leads(sys, sys') && Reachable(sys')
    ensures sys' == sys.(net := sys.net + {AppendCall(peer, Heartbeat(sys.procs[i].node), true)})
  {
    var m := AppendCall(peer, Heartbeat(sys.procs[i].node), true);
    sys' := sys.(net := sys.net + {m});
    assert Becomes(sys, sys', i, sys.procs[i], {m});
    StepLeads(sys, sys', Probe(i, peer));
  }

  lemma Replicates(sys: System, i: nat, peer: nat) returns (sys': System)
    requires Reachable(sys) && i < |sys.procs| && peer != i
    requires sys.procs[i].node.role == Leader && peer < sys.procs[i].node.peers
    requires sys.procs[i].node.nextIndex[peer] <= LastIndex(sys.procs[i].node) + 1
    ensures Leads(sys, sys') && Reachable(sys')
    ensures var nd := sys.procs[i].node;
            sys' == sys.(net := sys.net + {if SnapshotDue(nd, peer) then InstallCall(peer, InstallFor(nd))
                                           else AppendCall(peer, AppendFor(nd, peer), false)})
  {
    var nd := sys.procs[i].node;
    var m := if SnapshotDue(nd, peer) then InstallCall(peer, InstallFor(nd))
             else AppendCall(peer, AppendFor(nd, peer), false);
    sys' := sys.(net := sys.net + {m});
    assert Becomes(sys, sys', i, sys.procs[i], {m});
    StepLeads(sys, sys', Replicate(i, peer));
  }
}
