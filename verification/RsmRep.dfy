/** What the replicated state machine glue keeps: operation identities are unique, and every
    answer is the result of its own operation at its place in the committed sequence. */
module RsmRep {
  import opened KvStore
  import opened RaftLog
  import opened RaftHistory
  import opened RaftGrowth
  import opened RaftGroup
  import opened RaftMoves
  import opened RaftNode
  import opened RaftSystem
  import opened RaftRep

  /** `reply` is what operation (id, req) returns at index `k` of a chosen sequence. */
  ghost predicate AnsweredBy(h: History, l: Log, k: nat, bound: nat, id: OpId, req: Request, reply: Reply) {
    && 0 < k && Chosen(h, l, k, bound)
    && l[k].cmd == Op(id, req) && reply == DoOp(Replay(l, k - 1), req).1
  }

  ghost predicate AnswerOk(h: History, id: OpId, req: Request, reply: Reply) {
    exists l, k, bound :: AnsweredBy(h, l, k, bound, id, req, reply)
  }

  lemma AnswerGrows(h: History, h': History, id: OpId, req: Request, reply: Reply)
    requires Extends(h, h') && AnswerOk(h, id, req, reply)
    ensures AnswerOk(h', id, req, reply)
  {
    var l, k, bound :| AnsweredBy(h, l, k, bound, id, req, reply);
    ChosenGrows(h, h', l, k, bound, bound);
    assert AnsweredBy(h', l, k, bound, id, req, reply);
  }

  ghost predicate WaiterOk(registered: map<OpId, Request>, h: History, i: nat, rsm: Rsm, id: OpId)
    requires id in rsm.waiters
  {
    var w := rsm.waiters[id];
    && id.server == i && id.epoch == rsm.epoch && id in registered && registered[id] == w.req
    && (w.answer.Some? ==> AnswerOk(h, id, w.req, w.answer.value))
    && (!w.started ==> id !in h.ops)
  }

  ghost predicate RsmOk(sys: System, h: History, i: nat)
    requires i < |sys.procs|
  {
    var rsm := sys.procs[i].rsm;
    && (i, rsm.epoch) in sys.epochs
    && (forall id <- rsm.waiters :: WaiterOk(sys.registered, h, i, rsm, id))
    && (forall id <- sys.registered :: id.server == i && id.epoch == rsm.epoch ==> id.sequence <= rsm.nextSequence)
  }

  ghost predicate RsmInv(sys: System, h: History) {
    && (forall i {:trigger RsmOk(sys, h, i)} :: 0 <= i < |sys.procs| ==> RsmOk(sys, h, i))
    && (forall id <- sys.registered :: (id.server, id.epoch) in sys.epochs)
    && (forall r <- sys.returned :: AnswerOk(h, r.id, r.req, r.reply))
  }

  /** Growth of the history, of the registered operations and of the epochs harms nobody. */
  lemma RsmStays(sys: System, sys': System, h: History, h': History, i: nat)
    requires RsmInv(sys, h) && Extends(h, h') && i < |sys.procs| == |sys'.procs|
    requires forall id <- h'.ops :: id in h.ops || id.server != i
    requires sys'.procs[i].rsm == sys.procs[i].rsm && sys.epochs <= sys'.epochs
    requires forall id <- sys.registered :: id in sys'.registered && sys'.registered[id] == sys.registered[id]
    requires forall id <- sys'.registered ::
               id.server == i && id.epoch == sys.procs[i].rsm.epoch ==> id in sys.registered
    ensures RsmOk(sys', h', i)
  {
    assert RsmOk(sys, h, i);
    var rsm := sys.procs[i].rsm;
    forall id | id in rsm.waiters ensures WaiterOk(sys'.registered, h', i, rsm, id) {
      assert WaiterOk(sys.registered, h, i, rsm, id);
      var w := rsm.waiters[id];
      if w.answer.Some? { AnswerGrows(h, h', id, w.req, w.answer.value); }
    }
  }

  lemma ReturnedStay(sys: System, h: History, h': History)
    requires RsmInv(sys, h) && Extends(h, h')
    ensures forall r <- sys.returned :: AnswerOk(h', r.id, r.req, r.reply)
  {
    forall r | r in sys.returned ensures AnswerOk(h', r.id, r.req, r.reply) {
      AnswerGrows(h, h', r.id, r.req, r.reply);
    }
  }

  /** A step that leaves every glue state alone. */
  lemma QuietRsm(sys: System, sys': System, h: History, h': History)
    requires RsmInv(sys, h) && Extends(h, h') && h'.ops == h.ops && Quiet(sys, sys') && |sys'.procs| == |sys.procs|
    requires forall i :: 0 <= i < |sys.procs| ==> sys'.procs[i].rsm == sys.procs[i].rsm
    ensures RsmInv(sys', h')
  {
    forall i | 0 <= i < |sys'.procs| ensures RsmOk(sys', h', i) { RsmStays(sys, sys', h, h', i); }
    ReturnedStay(sys, h, h');
  }

  /** One process changes its glue state. */
  lemma OneRsm(sys: System, sys': System, h: History, h': History, i: nat, p: Proc)
    requires RsmInv(sys, h) && Extends(h, h') && i < |sys.procs|
    requires sys'.procs == sys.procs[i := p] && sys'.registered == sys.registered && sys.epochs <= sys'.epochs
    requires forall id <- h'.ops :: id in h.ops || id.server == i
    requires RsmOk(sys', h', i)
    requires forall r <- sys'.returned :: r in sys.returned || AnswerOk(h', r.id, r.req, r.reply)
    ensures RsmInv(sys', h')
  {
    forall j | 0 <= j < |sys'.procs| ensures RsmOk(sys', h', j) {
      if j != i { RsmStays(sys, sys', h, h', j); }
    }
    ReturnedStay(sys, h, h');
  }

  // ----- the steps of the glue -----

  lemma RegisterRsm(sys: System, sys': System, h: History, i: nat, req: Request)
    requires RsmInv(sys, h) && OpsRegistered(sys.registered, h) && i < |sys.procs| && RegisterStep(sys, sys', i, req)
    ensures RsmInv(sys', h)
    ensures OpId(i, sys.procs[i].rsm.epoch, sys.procs[i].rsm.nextSequence + 1) !in sys.registered
  {
    var p := sys.procs[i];
    var id := OpId(i, p.rsm.epoch, p.rsm.nextSequence + 1);
    assert RsmOk(sys, h, i);
    assert id !in sys.registered;
    var rsm' := sys'.procs[i].rsm;
    ExtendsRefl(h);
    forall id0 | id0 in rsm'.waiters ensures WaiterOk(sys'.registered, h, i, rsm', id0) {
      if id0 != id { assert WaiterOk(sys.registered, h, i, p.rsm, id0); }
    }
    forall j | 0 <= j < |sys'.procs| ensures RsmOk(sys', h, j) {
      if j != i { RsmStays(sys, sys', h, h, j); }
    }
  }

  lemma StartRsm(sys: System, sys': System, h: History, h': History, i: nat, id: OpId)
    requires RsmInv(sys, h) && Extends(h, h') && i < |sys.procs| && StartStep(sys, sys', i, id)
    requires forall o <- h'.ops :: o in h.ops || o == id
    ensures RsmInv(sys', h')
  {
    var p := sys.procs[i];
    assert RsmOk(sys, h, i);
    var rsm' := sys'.procs[i].rsm;
    forall id0 | id0 in rsm'.waiters ensures WaiterOk(sys'.registered, h', i, rsm', id0) {
      assert WaiterOk(sys.registered, h, i, p.rsm, id0);
      var w := p.rsm.waiters[id0];
      if w.answer.Some? { AnswerGrows(h, h', id0, w.req, w.answer.value); }
    }
    OneRsm(sys, sys', h, h', i, sys'.procs[i]);
  }

  lemma ReturnRsm(sys: System, sys': System, h: History, i: nat, id: OpId)
    requires RsmInv(sys, h) && i < |sys.procs| && ReturnStep(sys, sys', i, id)
    ensures RsmInv(sys', h)
  {
    var p := sys.procs[i];
    ExtendsRefl(h);
    assert RsmOk(sys, h, i) && WaiterOk(sys.registered, h, i, p.rsm, id);
    var rsm' := sys'.procs[i].rsm;
    forall id0 | id0 in rsm'.waiters ensures WaiterOk(sys'.registered, h, i, rsm', id0) {
      assert WaiterOk(sys.registered, h, i, p.rsm, id0);
    }
    OneRsm(sys, sys', h, h, i, sys'.procs[i]);
  }

  lemma CrashRsm(sys: System, sys': System, h: History, i: nat, epoch: nat)
    requires RsmInv(sys, h) && i < |sys.procs| && CrashStep(sys, sys', i, epoch)
    ensures RsmInv(sys', h)
  {
    ExtendsRefl(h);
    OneRsm(sys, sys', h, h, i, sys'.procs[i]);
  }

  /** The applier's answer is the result of the waiter's own operation. */
  lemma DeliverRsm(sys: System, sys': System, g: Group, i: nat)
    requires SystemRep(sys, g) && RsmInv(sys, g.h) && i < |sys.procs|
    requires sys.procs[i].outbox != [] && Becomes(sys, sys', i, Consume(sys.procs[i]), {}) && Quiet(sys, sys')
    ensures RsmInv(sys', g.h)
  {
    var h, p, s := g.h, sys.procs[i], g.servers[i];
    ExtendsRefl(h);
    assert RsmOk(sys, h, i);
    assert ServerOk(h, i, s) && ProcRep(h.n, i, p, s);
    var rsm' := sys'.procs[i].rsm;
    forall id | id in rsm'.waiters ensures WaiterOk(sys'.registered, h, i, rsm', id) {
      assert WaiterOk(sys.registered, h, i, p.rsm, id);
      if rsm'.waiters[id] != p.rsm.waiters[id] {
        AnswerFromLog(sys.registered, h, p, s, id, p.rsm.waiters[id].req);
      }
    }
    OneRsm(sys, sys', h, h, i, sys'.procs[i]);
  }

  lemma AnswerFromLog(registered: map<OpId, Request>, h: History, p: Proc, s: Server, id: OpId, req: Request)
    requires HistoryInv(h) && Grounded(h, s.log) && Chosen(h, s.log, s.commit, s.term) && ServiceRep(p, s)
    requires OpsRegistered(registered, h) && id in registered && registered[id] == req
    requires p.outbox != [] && p.outbox[0].CommandMsg? && p.outbox[0].cmd.Op? && p.outbox[0].cmd.id == id
    ensures AnswerOk(h, id, req, DoOp(p.store, p.outbox[0].cmd.req).1)
  {
    var k := p.applied + 1;
    var cmd := s.log[k].cmd;
    assert p.outbox[0] == CommandMsg(k, cmd);
    GroundedOps(h, s.log);
    assert Placed(h, s.log[k], k);
    ChosenAgrees(h, s.log, s.commit, s.term, s.log, k);
    assert AnsweredBy(h, s.log, k, s.term, id, req, DoOp(p.store, req).1);
  }
}
