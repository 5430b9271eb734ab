/** The lock: clients that take and give back one key of the lossy store, each through its clerk. */
module LockService {
  import opened KvStore
  import K = KvClerk

  datatype Pc =
    | Outside
    | Acquiring
    | Taking(op: nat)
    | Confirming
    | Inside
    | Releasing
    | Dropping(op: nat)

  datatype Client = Client(id: string, pc: Pc)

  datatype System = System(key: string, kv: K.World, clients: seq<Client>)

  datatype Step =
    | Acquire(c: nat)
    | Release(c: nat)
    | Look(c: nat, op: nat)
    | Finish(c: nat)
    | KvStep(step: K.Step)

  function PutOf(key: string, value: string, version: nat): PutArgs {
    PutArgs(key, value, version, 0, 0, 0)
  }

  predicate Sets(sys: System, sys': System, c: nat, pc: Pc) {
    c < |sys.clients| && sys' == sys.(clients := sys.clients[c := sys.clients[c].(pc := pc)])
  }

  /** Client `c` begins the clerk call `op` and waits for it. */
  predicate Calls(sys: System, sys': System, c: nat, op: nat, args: PutArgs, pc: Pc) {
    && c < |sys.clients| && op !in sys.kv.puts
    && sys' == sys.(kv := K.Begun(sys.kv, op, args), clients := sys.clients[c := sys.clients[c].(pc := pc)])
  }

  /** The client has read the lock's key. */
  predicate Looks(sys: System, sys': System, c: nat, op: nat)
    requires c < |sys.clients|
  {
    var id := sys.clients[c].id;
    var got := Read(sys.kv.values, sys.key);
    match sys.clients[c].pc
    case Acquiring =>
      if got.err == ErrNoKey then Calls(sys, sys', c, op, PutOf(sys.key, id, 0), Taking(op))
      else if got.value != "" then Sets(sys, sys', c, Acquiring)
      else Calls(sys, sys', c, op, PutOf(sys.key, id, got.version), Taking(op))
    case Confirming => Sets(sys, sys', c, if got.err == OK && got.value == id then Inside else Acquiring)
    case Releasing =>
      if got.err == ErrNoKey || got.value != id then Sets(sys, sys', c, Outside)
      else Calls(sys, sys', c, op, PutOf(sys.key, "", got.version), Dropping(op))
    case _ => false
  }

  /** The clerk call has returned. */
  predicate Finishes(sys: System, sys': System, c: nat)
    requires c < |sys.clients|
  {
    match sys.clients[c].pc
    case Taking(op) =>
      && op in sys.kv.results
      && Sets(sys, sys', c, match sys.kv.results[op]
                            case OK => Inside
                            case ErrMaybe => Confirming
                            case _ => Acquiring)
    case Dropping(op) =>
      op in sys.kv.results && Sets(sys, sys', c, if sys.kv.results[op] == OK then Outside else Releasing)
    case _ => false
  }

  /** Anybody may release; nobody but the clients of the lock writes its key. */
  predicate StepTo(sys: System, sys': System, step: Step) {
    match step
    case Acquire(c) => c < |sys.clients| && sys.clients[c].pc.Outside? && Sets(sys, sys', c, Acquiring)
    case Release(c) =>
      c < |sys.clients| && (sys.clients[c].pc.Inside? || sys.clients[c].pc.Outside?) && Sets(sys, sys', c, Releasing)
    case Look(c, op) => c < |sys.clients| && Looks(sys, sys', c, op)
    case Finish(c) => c < |sys.clients| && Finishes(sys, sys', c)
    case KvStep(s) =>
      (s.Begin? ==> s.args.key != sys.key) && K.StepTo(sys.kv, sys'.kv, s) && sys' == sys.(kv := sys'.kv)
  }

  predicate Init(sys: System) {
    && sys.kv == K.EMPTY_WORLD
    && (forall c :: 0 <= c < |sys.clients| ==> sys.clients[c].pc == Outside && sys.clients[c].id != "")
    && (forall c, d :: 0 <= c < d < |sys.clients| ==> sys.clients[c].id != sys.clients[d].id)
  }

  // ----- invariant -----

  /** The lock word: empty when the lock is free or its key does not exist. */
  function Holder(sys: System): string {
    if sys.key in sys.kv.values then sys.kv.values[sys.key].value else ""
  }

  function Version(sys: System): nat {
    VersionOf(sys.kv.values, sys.key)
  }

  predicate Busy(pc: Pc, op: nat) {
    (pc.Taking? || pc.Dropping?) && pc.op == op
  }

  /** A put to the lock's key that can still take effect is one its client is waiting for. */
  ghost predicate OpOk(sys: System, op: nat)
    requires op in sys.kv.puts
  {
    var args := sys.kv.puts[op].args;
    args.key == sys.key ==>
      && args.version <= Version(sys)
      && (args.version == Version(sys) ==> exists c :: Waits(sys, c, op))
      && (op in sys.kv.results ==>
            args.version < Version(sys) && sys.kv.results[op] in {OK, ErrVersion, ErrMaybe})
  }

  /** An attempt that was executed has found, or left, a newer version. */
  ghost predicate ReplyOk(sys: System, id: nat)
    requires id in sys.kv.replies
  {
    var (op, err) := sys.kv.replies[id];
    op in sys.kv.puts && sys.kv.puts[op].args.key == sys.key ==>
      sys.kv.puts[op].args.version < Version(sys) && err in {OK, ErrVersion}
  }

  ghost predicate Waits(sys: System, c: nat, op: nat) {
    c < |sys.clients| && Busy(sys.clients[c].pc, op)
  }

  /** The lock word names a client exactly as long as it holds the lock or is about to find out. */
  predicate ClientOk(sys: System, c: nat)
    requires c < |sys.clients|
  {
    var id := sys.clients[c].id;
    match sys.clients[c].pc
    case Outside => Holder(sys) != id
    case Acquiring => Holder(sys) != id
    case Taking(op) =>
      && op in sys.kv.puts
      && sys.kv.puts[op].args == PutOf(sys.key, id, sys.kv.puts[op].args.version)
      && (sys.kv.puts[op].args.version == Version(sys) ==> Holder(sys) == "")
      && (op in sys.kv.effects <==> Holder(sys) == id)
    case Confirming => true
    case Inside => Holder(sys) == id
    case Releasing => true
    case Dropping(op) =>
      && op in sys.kv.puts
      && sys.kv.puts[op].args == PutOf(sys.key, "", sys.kv.puts[op].args.version)
      && (sys.kv.puts[op].args.version == Version(sys) ==> Holder(sys) == id)
      && (op in sys.kv.effects ==> Holder(sys) != id)
  }

  ghost predicate Inv(sys: System) {
    && K.Inv(sys.kv)
    && (forall c :: 0 <= c < |sys.clients| ==> sys.clients[c].id != "")
    && (forall c, d :: 0 <= c < d < |sys.clients| ==> sys.clients[c].id != sys.clients[d].id)
    && (forall op <- sys.kv.puts :: OpOk(sys, op))
    && (forall id <- sys.kv.replies :: ReplyOk(sys, id))
    && (forall c {:trigger ClientOk(sys, c)} :: 0 <= c < |sys.clients| ==> ClientOk(sys, c))
    && (forall c, d, op {:trigger Waits(sys, c, op), Waits(sys, d, op)} ::
          Waits(sys, c, op) && Waits(sys, d, op) ==> c == d)
  }

  /** A client that waits for `op` gives up waiting only when the put can no longer take effect. */
  ghost predicate MayLeave(sys: System, c: nat)
    requires c < |sys.clients|
  {
    forall op <- sys.kv.puts :: Busy(sys.clients[c].pc, op) && sys.kv.puts[op].args.key == sys.key ==>
      sys.kv.puts[op].args.version < Version(sys)
  }

  lemma SetsKeeps(sys: System, sys': System, c: nat, pc: Pc)
    requires Inv(sys) && Sets(sys, sys', c, pc) && ClientOk(sys', c) && MayLeave(sys, c)
    requires !pc.Taking? && !pc.Dropping?
    ensures Inv(sys')
  {
    forall op | op in sys'.kv.puts ensures OpOk(sys', op) { OpStays(sys, sys', c, op); }
    forall id | id in sys'.kv.replies ensures ReplyOk(sys', id) { assert ReplyOk(sys, id); }
    forall d | 0 <= d < |sys'.clients| ensures ClientOk(sys', d) { assert ClientOk(sys, d); }
    forall d, e, op | Waits(sys', d, op) && Waits(sys', e, op) ensures d == e {
      assert Waits(sys, d, op) && Waits(sys, e, op);
    }
  }

  lemma OpStays(sys: System, sys': System, c: nat, op: nat)
    requires Inv(sys) && c < |sys.clients| && op in sys.kv.puts && MayLeave(sys, c)
    requires sys'.key == sys.key && sys'.kv == sys.kv && |sys'.clients| == |sys.clients|
    requires forall d :: 0 <= d < |sys.clients| && d != c ==> sys'.clients[d] == sys.clients[d]
    ensures OpOk(sys', op)
  {
    assert OpOk(sys, op);
    if sys.kv.puts[op].args.key == sys.key && sys.kv.puts[op].args.version == Version(sys) {
      var d :| Waits(sys, d, op);
      assert Waits(sys', d, op);
    }
  }

  /** Clients that wait keep waiting when a step leaves them alone. */
  lemma OpSame(sys: System, sys': System, op: nat)
    requires op in sys.kv.puts && OpOk(sys, op) && op in sys'.kv.puts && sys'.key == sys.key
    requires sys'.kv.puts[op].args == sys.kv.puts[op].args && Version(sys') == Version(sys)
    requires op in sys'.kv.results ==> op in sys.kv.results && sys'.kv.results[op] == sys.kv.results[op]
    requires forall d {:trigger Waits(sys, d, op)} :: Waits(sys, d, op) ==> Waits(sys', d, op)
    ensures OpOk(sys', op)
  {
    if sys.kv.puts[op].args.key == sys.key && sys.kv.puts[op].args.version == Version(sys) {
      var d :| Waits(sys, d, op);
      assert Waits(sys', d, op);
    }
  }

  /** The store has neither written nor answered anything, and every put is what it was. */
  ghost predicate StoreStill(kv: K.World, kv': K.World) {
    && kv'.values == kv.values && kv'.effects == kv.effects && kv'.replies == kv.replies
    && forall op <- kv.puts :: op in kv'.puts && kv'.puts[op].args == kv.puts[op].args
  }

  lemma RepliesStill(sys: System, sys': System)
    requires Inv(sys) && sys'.key == sys.key && StoreStill(sys.kv, sys'.kv)
    ensures forall id <- sys'.kv.replies :: ReplyOk(sys', id)
  {
    forall id | id in sys'.kv.replies ensures ReplyOk(sys', id) {
      assert ReplyOk(sys, id);
      assert K.CopyOk(sys.kv, id);
    }
  }

  lemma ClientStill(sys: System, sys': System, d: nat)
    requires sys'.key == sys.key && StoreStill(sys.kv, sys'.kv)
    requires d < |sys.clients| == |sys'.clients| && sys'.clients[d] == sys.clients[d] && ClientOk(sys, d)
    ensures ClientOk(sys', d)
  {
  }

  /** The clients stand still while the store does too. */
  lemma ClientsStill(sys: System, sys': System)
    requires Inv(sys) && sys'.key == sys.key && sys'.clients == sys.clients && StoreStill(sys.kv, sys'.kv)
    requires K.Inv(sys'.kv) && forall op <- sys'.kv.puts :: OpOk(sys', op)
    ensures Inv(sys')
  {
    RepliesStill(sys, sys');
    forall d | 0 <= d < |sys'.clients| ensures ClientOk(sys', d) {
      assert ClientOk(sys, d);
      ClientStill(sys, sys', d);
    }
    forall d, e, o | Waits(sys', d, o) && Waits(sys', e, o) ensures d == e {
      assert Waits(sys, d, o) && Waits(sys, e, o);
    }
  }

  lemma CallsKeeps(sys: System, sys': System, c: nat, op: nat, args: PutArgs, pc: Pc)
    requires Inv(sys) && Calls(sys, sys', c, op, args, pc) && Busy(pc, op)
    requires !sys.clients[c].pc.Taking? && !sys.clients[c].pc.Dropping?
    requires args == PutOf(sys.key, if pc.Taking? then sys.clients[c].id else "", Version(sys))
    requires Holder(sys) == if pc.Taking? then "" else sys.clients[c].id
    ensures Inv(sys')
  {
    K.StepKeeps(sys.kv, sys'.kv, K.Begin(op, args));
    assert op !in sys.kv.effects && (op in sys.kv.results ==> K.ResultOk(sys.kv, op));
    assert Waits(sys', c, op);
    forall o | o in sys'.kv.puts ensures OpOk(sys', o) {
      if o != op { OpSame(sys, sys', o); }
    }
    RepliesStill(sys, sys');
    forall d | 0 <= d < |sys'.clients| ensures ClientOk(sys', d) {
      assert ClientOk(sys, d);
      if d != c { ClientStill(sys, sys', d); }
    }
    NewWaiter(sys, sys', c, op);
  }

  lemma NewWaiter(sys: System, sys': System, c: nat, op: nat)
    requires Inv(sys) && op !in sys.kv.puts && c < |sys.clients| == |sys'.clients| && Busy(sys'.clients[c].pc, op)
    requires forall d :: 0 <= d < |sys.clients| && d != c ==> sys'.clients[d] == sys.clients[d]
    ensures forall d, e, o {:trigger Waits(sys', d, o), Waits(sys', e, o)} ::
              Waits(sys', d, o) && Waits(sys', e, o) ==> d == e
  {
    forall d, e, o | Waits(sys', d, o) && Waits(sys', e, o) ensures d == e {
      if o == op {
        assert d != c ==> ClientOk(sys, d);
        assert e != c ==> ClientOk(sys, e);
      } else {
        assert Waits(sys, d, o) && Waits(sys, e, o);
      }
    }
  }

  lemma LooksKeeps(sys: System, sys': System, c: nat, op: nat)
    requires Inv(sys) && c < |sys.clients| && Looks(sys, sys', c, op)
    ensures Inv(sys')
  {
    assert ClientOk(sys, c);
    var pc := sys'.clients[c].pc;
    if pc.Taking? || pc.Dropping? {
      CallsKeeps(sys, sys', c, op, sys'.kv.puts[op].args, pc);
    } else {
      SetsKeeps(sys, sys', c, pc);
    }
  }

  lemma FinishesKeeps(sys: System, sys': System, c: nat)
    requires Inv(sys) && c < |sys.clients| && Finishes(sys, sys', c)
    ensures Inv(sys')
  {
    assert ClientOk(sys, c);
    var op := sys.clients[c].pc.op;
    assert OpOk(sys, op);
    assert K.ResultOk(sys.kv, op) && K.PutOk(sys.kv, op);
    SetsKeeps(sys, sys', c, sys'.clients[c].pc);
  }

  // ----- steps of the store -----

  /** Steps that neither write nor answer: sending, losing, giving up waiting, and puts to other keys. */
  lemma QuietKeeps(sys: System, sys': System, step: K.Step)
    requires Inv(sys) && StepTo(sys, sys', KvStep(step)) && !step.Execute? && !step.Return?
    ensures Inv(sys')
  {
    K.StepKeeps(sys.kv, sys'.kv, step);
    forall op | op in sys'.kv.puts ensures OpOk(sys', op) {
      if op in sys.kv.puts { OpSame(sys, sys', op); }
    }
    ClientsStill(sys, sys');
  }

  /** A put that returns has been answered, and so can no longer take effect. */
  lemma ReturnKeeps(sys: System, sys': System, op: nat)
    requires Inv(sys) && StepTo(sys, sys', KvStep(K.Return(op)))
    ensures Inv(sys')
  {
    K.StepKeeps(sys.kv, sys'.kv, K.Return(op));
    forall o | o in sys'.kv.puts ensures OpOk(sys', o) {
      if o == op && op in sys'.kv.results { ReturnedOp(sys, sys', op); } else { OpSame(sys, sys', o); }
    }
    ClientsStill(sys, sys');
  }

  lemma ReturnedOp(sys: System, sys': System, op: nat)
    requires Inv(sys) && StepTo(sys, sys', KvStep(K.Return(op))) && op in sys'.kv.results
    ensures OpOk(sys', op)
  {
    assert OpOk(sys, op);
    assert K.PutOk(sys.kv, op);
    assert ReplyOk(sys, sys.kv.puts[op].waiting.value);
  }

  /** Attempt `copy` takes effect on the lock's key. */
  ghost predicate Lands(sys: System, copy: nat)
    requires copy in sys.kv.net
  {
    sys.kv.net[copy].args.key == sys.key && Write(sys.kv.values, sys.kv.net[copy].args).1 == OK
  }

  lemma Landing(sys: System, copy: nat) returns (c: nat)
    requires Inv(sys) && copy in sys.kv.net && Lands(sys, copy)
    ensures Waits(sys, c, sys.kv.net[copy].op) && ClientOk(sys, c)
    ensures sys.kv.net[copy].op in sys.kv.puts && sys.kv.net[copy].op !in sys.kv.effects
    ensures sys.kv.net[copy].args == sys.kv.puts[sys.kv.net[copy].op].args
    ensures sys.kv.net[copy].args.version == Version(sys)
  {
    var op := sys.kv.net[copy].op;
    assert K.CopyOk(sys.kv, copy);
    assert OpOk(sys, op) && K.PutOk(sys.kv, op);
    c :| Waits(sys, c, op);
    assert ClientOk(sys, c);
  }

  /** The lock word before and after an attempt is executed. */
  lemma WordAfter(sys: System, sys': System, copy: nat)
    requires copy in sys.kv.net && sys' == sys.(kv := K.Executed(sys.kv, copy))
    ensures Lands(sys, copy) ==> Version(sys') == Version(sys) + 1 && Holder(sys') == sys.kv.net[copy].args.value
    ensures !Lands(sys, copy) ==> Version(sys') == Version(sys) && Holder(sys') == Holder(sys)
  {
  }

  lemma ClientAfter(sys: System, sys': System, copy: nat, d: nat)
    requires Inv(sys) && copy in sys.kv.net && sys' == sys.(kv := K.Executed(sys.kv, copy)) && d < |sys.clients|
    ensures ClientOk(sys', d)
  {
    WordAfter(sys, sys', copy);
    assert ClientOk(sys, d);
    assert K.CopyOk(sys.kv, copy);
    var pc, op := sys.clients[d].pc, sys.kv.net[copy].op;
    if Lands(sys, copy) {
      var c := Landing(sys, copy);
      if d != c { assert pc.Taking? || pc.Dropping? ==> Waits(sys, d, pc.op); }
    } else {
      assert pc.Taking? || pc.Dropping? ==> (pc.op in sys'.kv.effects <==> pc.op in sys.kv.effects);
    }
  }

  lemma ExecuteKeeps(sys: System, sys': System, copy: nat)
    requires Inv(sys) && copy in sys.kv.net && sys' == sys.(kv := K.Executed(sys.kv, copy))
    ensures Inv(sys')
  {
    K.ExecuteKeeps(sys.kv, copy);
    WordAfter(sys, sys', copy);
    assert K.CopyOk(sys.kv, copy);
    assert OpOk(sys, sys.kv.net[copy].op);
    forall op | op in sys'.kv.puts ensures OpOk(sys', op) {
      assert OpOk(sys, op);
      if sys.kv.puts[op].args.key == sys.key && sys.kv.puts[op].args.version == Version(sys) {
        var d :| Waits(sys, d, op);
        assert Waits(sys', d, op);
      }
    }
    forall id | id in sys'.kv.replies ensures ReplyOk(sys', id) {
      if id != copy { assert ReplyOk(sys, id); assert K.CopyOk(sys.kv, id); }
    }
    forall d | 0 <= d < |sys'.clients| ensures ClientOk(sys', d) { ClientAfter(sys, sys', copy, d); }
    forall d, e, o | Waits(sys', d, o) && Waits(sys', e, o) ensures d == e {
      assert Waits(sys, d, o) && Waits(sys, e, o);
    }
  }

  // ----- runs -----

  lemma StepKeeps(sys: System, sys': System, step: Step)
    requires Inv(sys) && StepTo(sys, sys', step)
    ensures Inv(sys')
  {
    match step
    case Acquire(c) =>
      assert ClientOk(sys, c);
      SetsKeeps(sys, sys', c, Acquiring);
    case Release(c) => SetsKeeps(sys, sys', c, Releasing);
    case Look(c, op) => LooksKeeps(sys, sys', c, op);
    case Finish(c) => FinishesKeeps(sys, sys', c);
    case KvStep(s) =>
      if s.Execute? { ExecuteKeeps(sys, sys', s.copy); }
      else if s.Return? { ReturnKeeps(sys, sys', s.op); }
      else { QuietKeeps(sys, sys', s); }
  }

  ghost predicate IsRun(run: seq<System>, steps: seq<Step>) {
    && |run| == |steps| + 1 && Init(run[0])
    && forall k :: 0 <= k < |steps| ==> StepTo(run[k], run[k + 1], steps[k])
  }

  lemma {:induction false} RunInv(run: seq<System>, steps: seq<Step>, k: nat)
    requires IsRun(run, steps) && k <= |steps|
    ensures Inv(run[k])
  {
    if k > 0 {
      RunInv(run, steps, k - 1);
      assert StepTo(run[k - 1], run[k - 1 + 1], steps[k - 1]);
      StepKeeps(run[k - 1], run[k], steps[k - 1]);
    }
  }

  /** Mutual exclusion: with requests lost, sent again or arriving late in any pattern, at most one
      client is between the return of `Acquire` and its `Release`, and the lock word names it. */
  lemma MutualExclusion(run: seq<System>, steps: seq<Step>, k: nat, c: nat, d: nat)
    requires IsRun(run, steps) && k <= |steps| && c < |run[k].clients| && d < |run[k].clients|
    requires run[k].clients[c].pc.Inside? && run[k].clients[d].pc.Inside?
    ensures c == d && Holder(run[k]) == run[k].clients[c].id
  {
    RunInv(run, steps, k);
    assert ClientOk(run[k], c) && ClientOk(run[k], d);
  }

  /** The lock is not lost either: a client that has given it back, or never got it, is not named
      by the lock word, so no lost reply can leave the lock taken by a client that moved on. */
  lemma NeverLeaked(run: seq<System>, steps: seq<Step>, k: nat, c: nat)
    requires IsRun(run, steps) && k <= |steps| && c < |run[k].clients|
    requires run[k].clients[c].pc.Outside? || run[k].clients[c].pc.Acquiring?
    ensures Holder(run[k]) != run[k].clients[c].id
  {
    RunInv(run, steps, k);
    assert ClientOk(run[k], c);
  }
}
