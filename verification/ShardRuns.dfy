/** Controllers, the shared record and whole runs of a sharded store. */
module ShardRuns {
  import opened KvStore
  import G = ShardGroup
  import opened ShardSystem
  import opened ShardInv
  import opened ShardSafety

  // ----- group steps -----

  lemma RpcStep(sys: System, sys': System, chain: seq<Config>, flat: seq<Store>, rpc: Rpc)
    requires Inv(sys, chain, flat) && Executes(sys, sys', rpc)
    ensures Inv(sys', chain, FlatNext(sys, flat, ExecuteRpc(rpc)))
  {
    assert RpcOk(sys, chain, rpc);
    match rpc {
      case FreezeRpc(g, sh, n) => FreezeOk(sys, sys', chain, flat, g, sh, n);
      case InstallRpc(g, sh, n, data) => InstallOk(sys, sys', chain, flat, g, sh, n, data);
      case DeleteRpc(g, sh, n) => DeleteOk(sys, sys', chain, flat, g, sh, n);
    }
    MessagesStay(sys, sys', chain);
    ControllersStay(sys, sys', chain);
  }

  /** What a step does to the flat store: a put that a serving group executes is executed there, and
      an install that takes effect gives its data. */
  function FlatNext(sys: System, flat: seq<Store>, step: Step): seq<Store> {
    match step
    case ClientPut(g, sh, args) =>
      if sh < |flat| && StateOf(sys.groups, g, sh).status == G.Serving then flat[sh := DoPut(flat[sh], args).0]
      else flat
    case ExecuteRpc(rpc) =>
      if rpc.InstallRpc? then Given(sys, flat, rpc.gid, rpc.shard, rpc.num, rpc.data) else flat
    case _ => flat
  }

  lemma PutStep(sys: System, sys': System, chain: seq<Config>, flat: seq<Store>, step: Step)
    requires Inv(sys, chain, flat) && StepTo(sys, sys', step) && step.ClientPut?
    ensures Inv(sys', chain, FlatNext(sys, flat, step))
  {
    PutOk(sys, sys', chain, flat, step.gid, step.shard, step.args);
    MessagesStay(sys, sys', chain);
    ControllersStay(sys, sys', chain);
  }

  // ----- a write of the record lands -----

  lemma ChainGrows(chain: seq<Config>, chain': seq<Config>, shards: nat, n: nat, sh: nat)
    requires chain <= chain' && n <= |chain|
    ensures Moves(chain', shards, n, sh) == Moves(chain, shards, n, sh)
    ensures Moves(chain, shards, n, sh) ==>
              && Source(chain', shards, n, sh) == Source(chain, shards, n, sh)
              && Target(chain', shards, n, sh) == Target(chain, shards, n, sh)
  {
  }

  /** The configuration a write adds to the chain, if it begins a plan. */
  ghost function NextChain(chain: seq<Config>, r: Record, r': Record): seq<Config> {
    if IsBegin(r, r') then chain + [To(r')] else chain
  }

  lemma LandedMeta(sys: System, sys': System, chain: seq<Config>, rec: Record)
    requires MetaOk(sys, chain) && sys' == sys.(meta := sys.meta + [rec]) && Follows(Latest(sys), rec)
    requires IsBegin(Latest(sys), rec) ==> Sized(To(rec), sys.shards)
    ensures MetaOk(sys', NextChain(chain, Latest(sys), rec))
  {
    var r, chain' := Latest(sys), NextChain(chain, Latest(sys), rec);
    assert RecordOk(r, chain);
    forall k | 0 <= k < |sys'.meta| ensures RecordOk(sys'.meta[k], chain') {
      if k < |sys.meta| { assert RecordOk(sys.meta[k], chain); }
    }
    forall k | 0 <= k < |sys'.meta| - 1 ensures Follows(sys'.meta[k], sys'.meta[k + 1]) {
      if k < |sys.meta| - 1 { assert Follows(sys.meta[k], sys.meta[k + 1]); }
    }
  }

  /** A shard's copies fit the new record: nothing moves when a write of the record lands. */
  lemma LandedShard(sys: System, sys': System, chain: seq<Config>, flat: seq<Store>, rec: Record, after: After, sh: nat)
    requires GroupsOk(sys, chain, flat) && sys' == sys.(meta := sys.meta + [rec]) && sh < sys.shards
    requires WriteOk(sys, Latest(sys), rec, after)
    ensures ShardAt(sys', sh, flat[sh])
  {
    LatestPlan(sys, chain, sh);
    assert ShardAt(sys, sh, flat[sh]);
    assert RecordOk(Latest(sys), chain);
    var p := Plan(From(Latest(sys)), To(Latest(sys)));
    assert Moving(p, sh) <==> p.from.shards[sh] != p.to.shards[sh];
  }

  lemma LandedMoves(sys: System, sys': System, chain: seq<Config>, flat: seq<Store>, rec: Record, after: After)
    requires GroupsOk(sys, chain, flat) && sys' == sys.(meta := sys.meta + [rec])
    requires WriteOk(sys, Latest(sys), rec, after)
    ensures PastMovesDone(sys', NextChain(chain, Latest(sys), rec))
  {
    var r, chain' := Latest(sys), NextChain(chain, Latest(sys), rec);
    forall n: nat, sh: nat | Moves(chain', sys.shards, n, sh) && (n < |chain'| || rec.pending.None?)
      ensures MoveDone(sys'.groups, chain', sys.shards, n, sh)
    {
      assert n <= |chain|;
      ChainGrows(chain, chain', sys.shards, n, sh);
      if n < |chain| || r.pending.None? {
        assert MoveDone(sys.groups, chain, sys.shards, n, sh);
      } else {
        PendingMove(sys, chain, flat, n, sh);
        var p := Plan(From(r), To(r));
        assert Moving(p, sh);
      }
    }
  }

  lemma FollowsFromWrite(sys: System, st: Record, rec: Record, after: After)
    requires WriteOk(sys, st, rec, after)
    ensures Follows(st, rec)
    ensures IsBegin(st, rec) ==> Sized(To(rec), sys.shards)
    ensures st.current.num <= rec.current.num || IsPublish(st, rec)
  {
  }

  lemma LandedMessages(sys: System, sys': System, chain: seq<Config>, rec: Record)
    requires MetaOk(sys, chain) && MessagesOk(sys, chain) && sys' == sys.(meta := sys.meta + [rec])
    requires Follows(Latest(sys), rec)
    ensures MessagesOk(sys', NextChain(chain, Latest(sys), rec))
  {
    var chain' := NextChain(chain, Latest(sys), rec);
    assert RecordOk(Latest(sys), chain);
    assert rec.current.num >= Latest(sys).current.num;
    forall rpc | rpc in sys'.rpcs ensures RpcOk(sys', chain', rpc) {
      assert RpcOk(sys, chain, rpc);
      ChainGrows(chain, chain', sys.shards, rpc.num, rpc.shard);
    }
    forall answer | answer in sys'.answers ensures AnswerOk(sys', chain', answer) {
      assert AnswerOk(sys, chain, answer);
      ChainGrows(chain, chain', sys.shards, answer.num, answer.shard);
    }
  }

  /** Nobody but the writer was waiting for this version. */
  lemma LandedPc(sys: System, sys': System, chain: seq<Config>, chain': seq<Config>, rec: Record, c: nat)
    requires sys.meta != [] && sys' == sys.(meta := sys.meta + [rec]) && chain <= chain'
    requires c < |sys.controllers| && PcOk(sys, chain, c, sys.controllers[c])
    requires rec.owner < |sys.controllers| && sys.controllers[rec.owner].pc.Cas?
    requires sys.controllers[rec.owner].pc.version == |sys.meta| && sys.controllers[rec.owner].pc.rec == rec
    ensures PcOk(sys', chain', c, sys.controllers[c])
  {
    var ctl := sys.controllers[c];
    match ctl.pc
    case Migrate(_, state, i, data, _) =>
      if data.Some? { ChainGrows(chain, chain', sys.shards, To(state).num, i); }
    case _ =>
  }

  lemma LandedControllers(sys: System, sys': System, chain: seq<Config>, rec: Record)
    requires sys.meta != [] && ControllersOk(sys, chain) && sys' == sys.(meta := sys.meta + [rec])
    requires (|sys.meta|, rec) in sys.cas
    ensures ControllersOk(sys', NextChain(chain, Latest(sys), rec))
  {
    var chain' := NextChain(chain, Latest(sys), rec);
    assert CasLive(sys, |sys.meta|, rec);
    forall c | 0 <= c < |sys'.controllers| ensures PcOk(sys', chain', c, sys'.controllers[c]) {
      LandedPc(sys, sys', chain, chain', rec, c);
    }
    forall v, r | (v, r) in sys'.cas ensures CasLive(sys', v, r) { assert CasLive(sys, v, r); }
  }

  lemma CasLands(sys: System, sys': System, chain: seq<Config>, flat: seq<Store>, rec: Record)
    requires Inv(sys, chain, flat) && (|sys.meta|, rec) in sys.cas && sys' == sys.(meta := sys.meta + [rec])
    ensures Inv(sys', NextChain(chain, Latest(sys), rec), flat)
  {
    assert CasLive(sys, |sys.meta|, rec);
    var ctl := sys.controllers[rec.owner];
    assert PcOk(sys, chain, rec.owner, ctl);
    var after := ctl.pc.after;
    assert WriteOk(sys, Latest(sys), rec, after);
    FollowsFromWrite(sys, Latest(sys), rec, after);
    LandedMeta(sys, sys', chain, rec);
    forall sh | 0 <= sh < sys.shards ensures ShardAt(sys', sh, flat[sh]) {
      LandedShard(sys, sys', chain, flat, rec, after, sh);
    }
    LandedMoves(sys, sys', chain, flat, rec, after);
    LandedMessages(sys, sys', chain, rec);
    LandedControllers(sys, sys', chain, rec);
  }

  // ----- controller steps -----

  /** What is said of the groups depends on the record and the groups only. */
  lemma GroupsSame(sys: System, sys': System, chain: seq<Config>, flat: seq<Store>)
    requires GroupsOk(sys, chain, flat)
    requires sys'.shards == sys.shards && sys'.meta == sys.meta && sys'.groups == sys.groups
    ensures GroupsOk(sys', chain, flat)
  {
    forall sh | 0 <= sh < sys.shards ensures ShardAt(sys', sh, flat[sh]) { assert ShardAt(sys, sh, flat[sh]); }
  }

  lemma MessagesSame(sys: System, sys': System, chain: seq<Config>)
    requires sys.meta != [] && MessagesOk(sys, chain)
    requires sys'.shards == sys.shards && sys'.meta == sys.meta && sys'.groups == sys.groups
    requires sys'.answers == sys.answers && forall rpc <- sys'.rpcs :: rpc in sys.rpcs || RpcOk(sys, chain, rpc)
    ensures MessagesOk(sys', chain)
  {
    forall rpc | rpc in sys'.rpcs ensures RpcOk(sys', chain, rpc) { assert RpcOk(sys, chain, rpc); }
    forall answer | answer in sys'.answers ensures AnswerOk(sys', chain, answer) {
      assert AnswerOk(sys, chain, answer);
    }
  }

  lemma PcSame(sys: System, sys': System, chain: seq<Config>, c: nat, ctl: Controller)
    requires sys.meta != [] && PcOk(sys, chain, c, ctl)
    requires sys'.shards == sys.shards && sys'.meta == sys.meta && sys'.groups == sys.groups
    ensures PcOk(sys', chain, c, ctl)
  {
  }

  lemma ControlsKeep(sys: System, sys': System, chain: seq<Config>, flat: seq<Store>, c: nat, ctl: Controller)
    requires Inv(sys, chain, flat) && Controls(sys, sys', c, ctl) && PcOk(sys, chain, c, ctl)
    requires sys.controllers[c].pc.Cas? ==> sys.controllers[c].pc.version < |sys.meta|
    ensures Inv(sys', chain, flat)
  {
    GroupsSame(sys, sys', chain, flat);
    MessagesSame(sys, sys', chain);
    forall k | 0 <= k < |sys'.controllers| ensures PcOk(sys', chain, k, sys'.controllers[k]) {
      if k != c { assert PcOk(sys, chain, k, sys.controllers[k]); }
      PcSame(sys, sys', chain, k, sys'.controllers[k]);
    }
    forall v, r | (v, r) in sys'.cas ensures CasLive(sys', v, r) { assert CasLive(sys, v, r); }
  }

  lemma ReadKeeps(sys: System, chain: seq<Config>, flat: seq<Store>, c: nat)
    requires Inv(sys, chain, flat) && c < |sys.controllers|
    ensures var ctl := sys.controllers[c];
            var version, rec := |sys.meta|, Latest(sys);
            && (ctl.pc.TakeOver? ==> PcOk(sys, chain, c, TakeOverRead(version, rec, c, ctl)))
            && (ctl.pc.Recover? ==> PcOk(sys, chain, c, RecoverRead(version, rec, c, ctl)))
            && (ctl.pc.CleanUp? ==> PcOk(sys, chain, c, CleanUpRead(version, rec, c, ctl)))
            && (ctl.pc.Begin? ==> PcOk(sys, chain, c, BeginRead(version, rec, c, ctl)))
  {
    var ctl := sys.controllers[c];
    assert PcOk(sys, chain, c, ctl);
    assert RecordOk(Latest(sys), chain);
  }

  lemma CasKeeps(sys: System, chain: seq<Config>, flat: seq<Store>, c: nat)
    requires Inv(sys, chain, flat) && c < |sys.controllers|
    requires sys.controllers[c].pc.Cas? && |sys.meta| > sys.controllers[c].pc.version
    ensures PcOk(sys, chain, c, Succeeded(sys.controllers[c])) && PcOk(sys, chain, c, Failed(sys.controllers[c]))
  {
    assert PcOk(sys, chain, c, sys.controllers[c]);
  }

  /** The plan a controller works on is one of the chain. */
  lemma PlanInChain(sys: System, chain: seq<Config>, flat: seq<Store>, c: nat)
    requires Inv(sys, chain, flat) && c < |sys.controllers|
    requires sys.controllers[c].pc.Migrate? || sys.controllers[c].pc.Deleting?
    ensures var pc := sys.controllers[c].pc;
            var p := PlanOf(pc);
            && pc.state.pending == Some(p)
            && InChain(chain, p.from) && InChain(chain, p.to) && p.to.num == p.from.num + 1
            && |p.from.shards| == |p.to.shards| == sys.shards
            && (Moving(p, pc.i) ==> Moves(chain, sys.shards, p.to.num, pc.i)
                                    && Source(chain, sys.shards, p.to.num, pc.i) == p.from.shards[pc.i]
                                    && Target(chain, sys.shards, p.to.num, pc.i) == p.to.shards[pc.i])
  {
    var pc := sys.controllers[c].pc;
    assert PcOk(sys, chain, c, sys.controllers[c]);
    assert RecordOk(sys.meta[pc.version - 1], chain);
    var p := PlanOf(pc);
    assert Sized(chain[p.from.num - 1], sys.shards) && Sized(chain[p.to.num - 1], sys.shards);
  }

  /** The published configuration number never falls. */
  lemma {:induction false} PublishedGrows(sys: System, chain: seq<Config>, j: nat, k: nat)
    requires MetaOk(sys, chain) && j <= k < |sys.meta|
    ensures sys.meta[j].current.num <= sys.meta[k].current.num && sys.meta[j].epoch <= sys.meta[k].epoch
    ensures To(sys.meta[j]).num <= To(sys.meta[k]).num
    decreases k
  {
    if j < k {
      PublishedGrows(sys, chain, j, k - 1);
      assert Follows(sys.meta[k - 1], sys.meta[k - 1 + 1]);
      assert RecordOk(sys.meta[k - 1], chain);
    }
  }

  lemma NextRpcOk(sys: System, chain: seq<Config>, flat: seq<Store>, c: nat)
    requires Inv(sys, chain, flat) && c < |sys.controllers|
    requires var pc := sys.controllers[c].pc;
             (pc.Migrate? || pc.Deleting?) && pc.i < sys.shards && Working(pc)
    ensures RpcOk(sys, chain, NextRpc(sys.controllers[c].pc))
  {
    var pc := sys.controllers[c].pc;
    assert PcOk(sys, chain, c, sys.controllers[c]);
    PlanInChain(sys, chain, flat, c);
    if pc.Deleting? { PublishedGrows(sys, chain, pc.version - 1, |sys.meta| - 1); }
  }

  lemma SendKeeps(sys: System, sys': System, chain: seq<Config>, flat: seq<Store>, rpc: Rpc)
    requires Inv(sys, chain, flat) && RpcOk(sys, chain, rpc) && sys' == sys.(rpcs := sys.rpcs + {rpc})
    ensures Inv(sys', chain, flat)
  {
    GroupsSame(sys, sys', chain, flat);
    MessagesSame(sys, sys', chain);
    ControllersSame(sys, sys', chain);
  }

  lemma ControllersSame(sys: System, sys': System, chain: seq<Config>)
    requires sys.meta != [] && ControllersOk(sys, chain)
    requires sys'.shards == sys.shards && sys'.meta == sys.meta && sys'.groups == sys.groups
    requires sys'.controllers == sys.controllers
    requires forall v, r {:trigger (v, r) in sys'.cas} :: (v, r) in sys'.cas ==> (v, r) in sys.cas || CasLive(sys, v, r)
    ensures ControllersOk(sys', chain)
  {
    forall k | 0 <= k < |sys'.controllers| ensures PcOk(sys', chain, k, sys'.controllers[k]) {
      assert PcOk(sys, chain, k, sys.controllers[k]);
      PcSame(sys, sys', chain, k, sys'.controllers[k]);
    }
    forall v, r | (v, r) in sys'.cas ensures CasLive(sys', v, r) { assert CasLive(sys, v, r); }
  }

  lemma SendCasKeeps(sys: System, sys': System, chain: seq<Config>, flat: seq<Store>, c: nat)
    requires Inv(sys, chain, flat) && c < |sys.controllers| && sys.controllers[c].pc.Cas?
    requires sys' == sys.(cas := sys.cas + {(sys.controllers[c].pc.version, sys.controllers[c].pc.rec)})
    ensures Inv(sys', chain, flat)
  {
    var pc := sys.controllers[c].pc;
    assert PcOk(sys, chain, c, sys.controllers[c]);
    assert CasLive(sys, pc.version, pc.rec);
    GroupsSame(sys, sys', chain, flat);
    MessagesSame(sys, sys', chain);
    ControllersSame(sys, sys', chain);
  }

  lemma AnswerKeeps(sys: System, chain: seq<Config>, flat: seq<Store>, c: nat, answer: Answer, pc': Pc)
    requires Inv(sys, chain, flat) && c < |sys.controllers| && answer in sys.answers
    requires var pc := sys.controllers[c].pc;
             (pc.Migrate? || pc.Deleting?) && pc.i < sys.shards && Working(pc) && Accepts(pc, answer, pc')
    ensures PcOk(sys, chain, c, sys.controllers[c].(pc := pc'))
  {
    var pc := sys.controllers[c].pc;
    assert PcOk(sys, chain, c, sys.controllers[c]);
    PlanInChain(sys, chain, flat, c);
    assert AnswerOk(sys, chain, answer);
  }

  lemma LoopKeeps(sys: System, chain: seq<Config>, flat: seq<Store>, c: nat)
    requires Inv(sys, chain, flat) && c < |sys.controllers|
    requires sys.controllers[c].pc.Migrate? || sys.controllers[c].pc.Deleting?
    requires sys.controllers[c].pc.i >= sys.shards
    ensures PcOk(sys, chain, c, sys.controllers[c].(pc := LoopDone(sys.controllers[c].pc)))
  {
    assert PcOk(sys, chain, c, sys.controllers[c]);
    PlanInChain(sys, chain, flat, c);
  }

  lemma SkipKeeps(sys: System, chain: seq<Config>, flat: seq<Store>, c: nat)
    requires Inv(sys, chain, flat) && c < |sys.controllers|
    requires sys.controllers[c].pc.Migrate? || sys.controllers[c].pc.Deleting?
    requires sys.controllers[c].pc.i < sys.shards && !Working(sys.controllers[c].pc)
    ensures var ctl := sys.controllers[c]; PcOk(sys, chain, c, ctl.(pc := ctl.pc.(i := ctl.pc.i + 1)))
  {
    assert PcOk(sys, chain, c, sys.controllers[c]);
    PlanInChain(sys, chain, flat, c);
  }

  /** The controller leaves `sys'.controllers[c]` in a state that fits. */
  ghost predicate MovesOn(sys: System, sys': System, chain: seq<Config>, c: nat)
    requires sys.meta != []
  {
    && c < |sys.controllers| && c < |sys'.controllers| && Controls(sys, sys', c, sys'.controllers[c])
    && PcOk(sys, chain, c, sys'.controllers[c])
    && (sys.controllers[c].pc.Cas? ==> sys.controllers[c].pc.version < |sys.meta|)
  }

  lemma ReadMovesOn(sys: System, sys': System, chain: seq<Config>, flat: seq<Store>, step: Step, c: nat)
    requires Inv(sys, chain, flat) && c < |sys.controllers| && ControllerStep(sys, sys', step, c) && step.ReadRecord?
    ensures MovesOn(sys, sys', chain, c)
  {
    ReadKeeps(sys, chain, flat, c);
  }

  lemma CasMovesOn(sys: System, sys': System, chain: seq<Config>, flat: seq<Store>, step: Step, c: nat)
    requires Inv(sys, chain, flat) && c < |sys.controllers| && ControllerStep(sys, sys', step, c)
    requires step.CasSucceeds? || step.CasFails?
    ensures MovesOn(sys, sys', chain, c)
  {
    CasKeeps(sys, chain, flat, c);
  }

  lemma LoopMovesOn(sys: System, sys': System, chain: seq<Config>, flat: seq<Store>, step: Step, c: nat)
    requires Inv(sys, chain, flat) && c < |sys.controllers| && ControllerStep(sys, sys', step, c)
    requires step.SkipShard? || step.FinishLoop?
    ensures MovesOn(sys, sys', chain, c)
  {
    if step.SkipShard? { SkipKeeps(sys, chain, flat, c); } else { LoopKeeps(sys, chain, flat, c); }
  }

  lemma OtherMovesOn(sys: System, sys': System, chain: seq<Config>, flat: seq<Store>, step: Step, c: nat)
    requires Inv(sys, chain, flat) && c < |sys.controllers| && ControllerStep(sys, sys', step, c)
    requires step.Call? || step.GiveUp? || step.GotAnswer?
    ensures MovesOn(sys, sys', chain, c)
  {
    if step.GotAnswer? { AnswerKeeps(sys, chain, flat, c, step.answer, sys'.controllers[c].pc); }
  }

  lemma PcKeeps(sys: System, sys': System, chain: seq<Config>, flat: seq<Store>, step: Step, c: nat)
    requires Inv(sys, chain, flat) && c < |sys.controllers| && ControllerStep(sys, sys', step, c)
    requires !step.SendCas? && !step.SendRpc?
    ensures MovesOn(sys, sys', chain, c)
  {
    if step.ReadRecord? { ReadMovesOn(sys, sys', chain, flat, step, c); }
    else if step.CasSucceeds? || step.CasFails? { CasMovesOn(sys, sys', chain, flat, step, c); }
    else if step.SkipShard? || step.FinishLoop? { LoopMovesOn(sys, sys', chain, flat, step, c); }
    else { OtherMovesOn(sys, sys', chain, flat, step, c); }
  }

  lemma ControllerKeeps(sys: System, sys': System, chain: seq<Config>, flat: seq<Store>, step: Step, c: nat)
    requires Inv(sys, chain, flat) && c < |sys.controllers| && ControllerStep(sys, sys', step, c)
    ensures Inv(sys', chain, flat)
  {
    match step {
      case SendCas(_) => SendCasKeeps(sys, sys', chain, flat, c);
      case SendRpc(_) =>
        NextRpcOk(sys, chain, flat, c);
        SendKeeps(sys, sys', chain, flat, NextRpc(sys.controllers[c].pc));
      case _ =>
        PcKeeps(sys, sys', chain, flat, step, c);
        ControlsKeep(sys, sys', chain, flat, c, sys'.controllers[c]);
    }
  }

  /** Every step keeps the invariant; the flat store follows the clients' puts. */
  lemma StepKeeps(sys: System, sys': System, chain: seq<Config>, flat: seq<Store>, step: Step)
    returns (chain': seq<Config>)
    requires Inv(sys, chain, flat) && StepTo(sys, sys', step)
    ensures Inv(sys', chain', FlatNext(sys, flat, step)) && chain <= chain'
  {
    chain' := if step.ExecuteCas? then NextChain(chain, Latest(sys), step.rec) else chain;
    if step.ExecuteCas? {
      CasLands(sys, sys', chain, flat, step.rec);
    } else if step.ExecuteRpc? {
      RpcStep(sys, sys', chain, flat, step.rpc);
    } else if step.ClientPut? {
      PutStep(sys, sys', chain, flat, step);
    } else {
      ControllerKeeps(sys, sys', chain, flat, step, step.c);
    }
  }

  lemma InitKeeps(sys: System)
    requires Init(sys)
    ensures Inv(sys, [sys.meta[0].current], seq(sys.shards, _ => EMPTY_STORE))
  {
    var chain, flat := [sys.meta[0].current], seq(sys.shards, _ => EMPTY_STORE);
    var c :| Founded(sys, c);
    assert RecordOk(sys.meta[0], chain);
    forall sh | 0 <= sh < sys.shards ensures ShardAt(sys, sh, flat[sh]) {
      forall g: nat ensures StateOf(sys.groups, g, sh) == if g in sys.groups then InitialShard(g) else G.NO_SHARD {}
    }
  }
}
