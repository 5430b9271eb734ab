/** The applier answers: what each delivered message does to the service and to the calls that wait for
    their operation. */
module RaftAnswers {
  import opened KvStore
  import opened RaftLog
  import opened RaftHistory
  import opened RaftGroup
  import opened RaftMoves
  import opened RaftNode
  import opened RaftSystem
  import opened RaftRep
  import opened RaftSafety
  import opened RsmRep

  /** What is waiting under `id` once the operation of `cmd` has returned `reply`. */
  function AfterReply(w: Waiter, id: OpId, cmd: Command, reply: Reply): Waiter {
    if cmd.Op? && cmd.id == id && w.answer.None? then w.(answer := Some(reply)) else w
  }

  /** One message goes from the applier to the service: it is the next of the sequence `cs` or a
      snapshot of it. A command's own waiter, if it is there and has no answer, is answered with the
      result of its request after everything before it in the sequence; nothing else changes for
      anyone who waits. */
  predicate HandedOver(cs: Log, p: Proc, p': Proc) {
    && p.outbox != [] && p' == Proc(p.node, p.outbox[1..], p'.store, p'.applied, p'.rsm)
    && p'.applied < |cs| && p'.store == Replay(cs, p'.applied)
    && match p.outbox[0]
       case CommandMsg(k, cmd) =>
         && p'.applied == k == p.applied + 1 && cmd.Op? && cs[k].cmd == cmd
         && p'.rsm == Rsm(p.rsm.epoch, p.rsm.nextSequence, p'.rsm.waiters)
         && p'.rsm.waiters.Keys == p.rsm.waiters.Keys
         && forall id <- p.rsm.waiters ::
              var w := p.rsm.waiters[id];
              p'.rsm.waiters[id] == AfterReply(w, id, cmd, DoOp(Replay(cs, k - 1), w.req).1)
       case SnapshotMsg(k, _, _) => p'.applied == k > p.applied && p'.rsm == p.rsm
  }

  /** Whoever waits for the operation of `cmd` waits with its request. */
  predicate OwnRequest(rsm: Rsm, cmd: Command) {
    cmd.Op? && (cmd.id in rsm.waiters ==> rsm.waiters[cmd.id].req == cmd.req)
  }

  lemma WaitsForOwn(sys: System, g: Group, i: nat, k: nat)
    requires SystemRep(sys, g) && RsmInv(sys, g.h) && i < |sys.procs| && 0 < k < |g.servers[i].log|
    ensures OwnRequest(sys.procs[i].rsm, g.servers[i].log[k].cmd)
  {
    var h, l, rsm := g.h, g.servers[i].log, sys.procs[i].rsm;
    assert ServerOk(h, i, g.servers[i]) && RsmOk(sys, h, i);
    GroundedOps(h, l);
    assert Placed(h, l[k], k);
    if l[k].cmd.id in rsm.waiters { assert WaiterOk(sys.registered, h, i, rsm, l[k].cmd.id); }
  }

  /** The next message, in the shadow of the process and with its waiters. */
  lemma NextMessage(sys: System, g: Group, i: nat)
    requires SystemRep(sys, g) && RsmInv(sys, g.h) && i < |sys.procs| && sys.procs[i].outbox != []
    ensures var p := sys.procs[i];
            match p.outbox[0]
            case CommandMsg(k, cmd) => k == p.applied + 1 && OwnRequest(p.rsm, cmd)
            case SnapshotMsg(k, _, data) => k > p.applied && data.Some?
  {
    var p := sys.procs[i];
    assert ProcRep(g.h.n, i, p, g.servers[i]);
    if p.outbox[0].CommandMsg? { WaitsForOwn(sys, g, i, p.applied + 1); }
  }

  lemma ConsumeHandsOver(cs: Log, p: Proc)
    requires p.outbox != [] && Queued(cs, p.outbox[0]) && p.applied < |cs| && p.store == Replay(cs, p.applied)
    requires match p.outbox[0]
             case CommandMsg(k, cmd) => k == p.applied + 1 && OwnRequest(p.rsm, cmd)
             case SnapshotMsg(k, _, data) => k > p.applied && data.Some?
    ensures HandedOver(cs, p, Consume(p))
  {
  }

  /** Every message the applier delivers, in any run, is handed over so. */
  lemma DeliveredIsAnswered(run: seq<System>, x: nat, i: nat, cs: Log)
    requires IsRun(run) && x + 1 < |run| && StepTo(run[x], run[x + 1], Deliver(i)) && Explains(cs, run[x].procs[i])
    ensures HandedOver(cs, run[x].procs[i], run[x + 1].procs[i])
    ensures forall j :: 0 <= j < |run[x].procs| && j != i ==> run[x + 1].procs[j] == run[x].procs[j]
  {
    var gs := RunSim(run);
    assert Shadows(run, gs, x);
    NextMessage(run[x], gs[x], i);
    ConsumeHandsOver(cs, run[x].procs[i]);
  }

  // ----- answers stay -----

  /** `id` was submitted, and if its call still waits on server `i`, this is its answer. */
  ghost predicate AnswerIs(sys: System, i: nat, id: OpId, reply: Reply) {
    && i < |sys.procs| && id in sys.registered
    && (id in sys.procs[i].rsm.waiters ==> sys.procs[i].rsm.waiters[id].answer == Some(reply))
  }

  lemma AnswerKept(sys: System, sys': System, h: History, step: Step, i: nat, id: OpId, reply: Reply)
    requires RsmInv(sys, h) && OpsRegistered(sys.registered, h) && StepTo(sys, sys', step)
    requires AnswerIs(sys, i, id, reply)
    ensures AnswerIs(sys', i, id, reply)
  {
    if step.Register? {
      RegisterRsm(sys, sys', h, step.i, step.req);
    } else if !(step.StartOp? || step.Return? || step.Crash?) {
      AnswerKeptByNode(sys, sys', step, i, id, reply);
    }
  }

  lemma AnswerKeptByNode(sys: System, sys': System, step: Step, i: nat, id: OpId, reply: Reply)
    requires step.i < |sys.procs| && NodeStep(sys, sys', step) && Quiet(sys, sys') && AnswerIs(sys, i, id, reply)
    ensures AnswerIs(sys', i, id, reply)
  {
    if !step.Deliver? { NodeStepQuiet(sys, sys', step); }
  }

  /** Some history of the protocol stands behind the glue. */
  ghost predicate GlueSound(sys: System) {
    exists h :: RsmInv(sys, h) && OpsRegistered(sys.registered, h)
  }

  lemma GlueAlwaysSound(run: seq<System>)
    requires IsRun(run)
    ensures forall x :: 0 <= x < |run| ==> GlueSound(run[x])
  {
    var gs := RunSim(run);
    forall x | 0 <= x < |run| ensures GlueSound(run[x]) {
      assert Shadows(run, gs, x);
    }
  }

  lemma AnswerKeptNext(sys: System, sys': System, i: nat, id: OpId, reply: Reply)
    requires GlueSound(sys) && Next(sys, sys') && AnswerIs(sys, i, id, reply)
    ensures AnswerIs(sys', i, id, reply)
  {
    var h :| RsmInv(sys, h) && OpsRegistered(sys.registered, h);
    var step :| StepTo(sys, sys', step);
    AnswerKept(sys, sys', h, step, i, id, reply);
  }

  lemma AnswerIsThere(sys: System, i: nat, id: OpId)
    requires GlueSound(sys) && i < |sys.procs|
    requires id in sys.procs[i].rsm.waiters && sys.procs[i].rsm.waiters[id].answer.Some?
    ensures AnswerIs(sys, i, id, sys.procs[i].rsm.waiters[id].answer.value)
  {
    var h :| RsmInv(sys, h) && OpsRegistered(sys.registered, h);
    assert RsmOk(sys, h, i) && WaiterOk(sys.registered, h, i, sys.procs[i].rsm, id);
  }

  lemma {:induction false} AnswerStaysIn(run: seq<System>, i: nat, id: OpId, reply: Reply)
    requires |run| > 0 && forall x :: 0 <= x < |run| ==> GlueSound(run[x])
    requires forall x :: 0 <= x < |run| - 1 ==> Next(run[x], run[x + 1])
    requires AnswerIs(run[0], i, id, reply)
    ensures AnswerIs(run[|run| - 1], i, id, reply)
  {
    if |run| > 1 {
      assert GlueSound(run[0]) && Next(run[0], run[0 + 1]);
      AnswerKeptNext(run[0], run[1], i, id, reply);
      AnswerStaysIn(run[1..], i, id, reply);
    }
  }

  /** An answer once given is never changed: whenever the call is looked at later, it is still there. */
  lemma AnswerStays(run: seq<System>, x: nat, y: nat, i: nat, id: OpId)
    requires IsRun(run) && x <= y < |run| && i < |run[x].procs|
    requires id in run[x].procs[i].rsm.waiters && run[x].procs[i].rsm.waiters[id].answer.Some?
    ensures AnswerIs(run[y], i, id, run[x].procs[i].rsm.waiters[id].answer.value)
  {
    GlueAlwaysSound(run);
    AnswerIsThere(run[x], i, id);
    AnswerStaysIn(run[x..y + 1], i, id, run[x].procs[i].rsm.waiters[id].answer.value);
  }
}
