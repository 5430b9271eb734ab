/** A configuration change can always be completed: from every state of every run, a controller that has
    not started yet, or the owner itself, can finish what any predecessor left behind and then move on. */
module ShardProgress {
  import opened KvStore
  import G = ShardGroup
  import opened ShardSystem
  import opened ShardInv
  import opened ShardRuns
  import opened ShardTheorems

  ghost predicate Sound(sys: System) {
    exists chain, flat :: Inv(sys, chain, flat)
  }

  ghost predicate PathBetween(run: seq<System>, steps: seq<Step>, a: System, b: System) {
    && |run| == |steps| + 1 && run[0] == a && run[|steps|] == b
    && forall k: nat {:trigger Steps(run, steps, k)} :: k < |steps| ==> Steps(run, steps, k)
  }

  /** Some finite number of steps goes from `a` to `b`. */
  ghost predicate Leads(a: System, b: System) {
    exists run, steps :: PathBetween(run, steps, a, b)
  }

  lemma LeadsRefl(a: System)
    ensures Leads(a, a)
  {
    assert PathBetween([a], [], a, a);
  }

  lemma PathsJoin(run: seq<System>, steps: seq<Step>, a: System, b: System,
                  run': seq<System>, steps': seq<Step>, c: System)
    requires PathBetween(run, steps, a, b) && PathBetween(run', steps', b, c)
    ensures PathBetween(run + run'[1..], steps + steps', a, c)
  {
    var r, s := run + run'[1..], steps + steps';
    forall k: nat | k < |s| ensures Steps(r, s, k) {
      if k < |steps| {
        assert Steps(run, steps, k);
      } else {
        assert Steps(run', steps', k - |steps|);
      }
    }
  }

  lemma LeadsTrans(a: System, b: System, c: System)
    requires Leads(a, b) && Leads(b, c)
    ensures Leads(a, c)
  {
    var run, steps :| PathBetween(run, steps, a, b);
    var run', steps' :| PathBetween(run', steps', b, c);
    PathsJoin(run, steps, a, b, run', steps', c);
  }

  lemma StepLeads(sys: System, sys': System, step: Step)
    requires Sound(sys) && StepTo(sys, sys', step)
    ensures Leads(sys, sys') && Sound(sys')
  {
    var chain, flat :| Inv(sys, chain, flat);
    var chain' := StepKeeps(sys, sys', chain, flat, step);
    assert Steps([sys, sys'], [step], 0);
    assert PathBetween([sys, sys'], [step], sys, sys');
  }

  // ----- one controller at work -----

  /** The same shards, groups and controllers exist. */
  predicate SameWorld(sys: System, sys': System) {
    && sys'.shards == sys.shards && sys'.groups.Keys == sys.groups.Keys
    && |sys'.controllers| == |sys.controllers|
  }

  /** Controller `c` owns the record and stands at `pc`. */
  predicate Stands(sys: System, c: nat, pc: Pc) {
    && c < |sys.controllers| && sys.meta != []
    && sys.controllers[c].pc == pc && !sys.controllers[c].deposed && Owned(Latest(sys), c, sys.controllers[c])
  }

  /** Every group a configuration names exists. */
  predicate Known(sys: System, cfg: Config) {
    |cfg.shards| == sys.shards && forall g <- cfg.shards :: g == NO_GROUP || g in sys.groups
  }

  function WithController(sys: System, c: nat, ctl: Controller): System
    requires c < |sys.controllers|
  {
    sys.(controllers := sys.controllers[c := ctl])
  }

  function NextShard(pc: Pc): Pc
    requires pc.Migrate? || pc.Deleting?
  {
    if pc.Migrate? then Migrate(pc.version, pc.state, pc.i + 1, None, pc.next)
    else Deleting(pc.version, pc.state, pc.i + 1, pc.next)
  }

  /** A compare-and-swap on the latest version is sent, lands and is acknowledged. */
  lemma Swaps(sys: System, c: nat) returns (sys': System)
    requires Sound(sys) && c < |sys.controllers| && sys.controllers[c].pc.Cas?
    requires sys.meta != [] && sys.controllers[c].pc.version == |sys.meta|
    ensures Leads(sys, sys') && Sound(sys') && SameWorld(sys, sys')
    ensures sys'.meta == sys.meta + [sys.controllers[c].pc.rec]
    ensures sys'.controllers[c] == Succeeded(sys.controllers[c])
  {
    var Cas(version, rec, after) := sys.controllers[c].pc;
    var sys1 := sys.(cas := sys.cas + {(version, rec)});
    StepLeads(sys, sys1, SendCas(c));
    var sys2 := sys1.(meta := sys1.meta + [rec]);
    StepLeads(sys1, sys2, ExecuteCas(version, rec));
    sys' := WithController(sys2, c, Succeeded(sys.controllers[c]));
    StepLeads(sys2, sys', CasSucceeds(c));
    LeadsTrans(sys, sys1, sys2);
    LeadsTrans(sys, sys2, sys');
  }

  // ----- one request to a group -----

  /** The answer the controller waits for. */
  predicate IsAnswer(rpc: Rpc, answer: Answer) {
    match rpc
    case FreezeRpc(g, sh, num) => answer.Frozen? && answer == Frozen(g, sh, num, answer.data)
    case InstallRpc(g, sh, num, _) => answer == Installed(g, sh, num)
    case DeleteRpc(g, sh, num) => answer == Deleted(g, sh, num)
  }

  predicate AtWork(sys: System, c: nat) {
    && c < |sys.controllers| && (sys.controllers[c].pc.Migrate? || sys.controllers[c].pc.Deleting?)
    && sys.controllers[c].pc.i < sys.shards && Working(sys.controllers[c].pc)
  }

  lemma NotRefused(sys: System, c: nat)
    requires Sound(sys) && AtWork(sys, c) && Stands(sys, c, sys.controllers[c].pc)
    ensures ReplyTo(sys, NextRpc(sys.controllers[c].pc)) == OK
    ensures Shape(sys) && NextRpc(sys.controllers[c].pc).shard == sys.controllers[c].pc.i
  {
    var chain, flat :| Inv(sys, chain, flat);
    NeverRefused(sys, chain, flat, c);
  }

  lemma ExecutedRpc(sys: System, rpc: Rpc) returns (sys': System, answer: Answer)
    requires rpc in sys.rpcs && rpc.gid in sys.groups && rpc.shard < |sys.groups[rpc.gid]| && ReplyTo(sys, rpc) == OK
    ensures Executes(sys, sys', rpc) && SameWorld(sys, sys') && answer in sys'.answers && IsAnswer(rpc, answer)
    ensures sys'.meta == sys.meta && sys'.controllers == sys.controllers
  {
    var s := sys.groups[rpc.gid][rpc.shard];
    var s';
    match rpc {
      case FreezeRpc(g, sh, num) => s', answer := G.Freeze(s, num).0, Frozen(g, sh, num, G.Freeze(s, num).1.data);
      case InstallRpc(g, sh, num, data) => s', answer := G.Install(s, num, data).0, Installed(g, sh, num);
      case DeleteRpc(g, sh, num) => s', answer := G.Delete(s, num).0, Deleted(g, sh, num);
    }
    sys' := sys.(groups := sys.groups[rpc.gid := sys.groups[rpc.gid][rpc.shard := s']],
                 answers := sys.answers + {answer});
  }

  lemma Exchanges(sys: System, c: nat) returns (sys': System, answer: Answer)
    requires Sound(sys) && AtWork(sys, c) && Stands(sys, c, sys.controllers[c].pc)
    requires NextRpc(sys.controllers[c].pc).gid in sys.groups
    ensures Leads(sys, sys') && Sound(sys') && SameWorld(sys, sys') && sys'.meta == sys.meta
    ensures sys'.controllers == sys.controllers && answer in sys'.answers
    ensures IsAnswer(NextRpc(sys.controllers[c].pc), answer)
  {
    NotRefused(sys, c);
    var rpc := NextRpc(sys.controllers[c].pc);
    var sys1 := sys.(rpcs := sys.rpcs + {rpc});
    StepLeads(sys, sys1, SendRpc(c));
    sys', answer := ExecutedRpc(sys1, rpc);
    StepLeads(sys1, sys', ExecuteRpc(rpc));
    LeadsTrans(sys, sys1, sys');
  }

  lemma Takes(sys: System, c: nat, answer: Answer, pc': Pc) returns (sys': System)
    requires Sound(sys) && AtWork(sys, c) && sys.meta != [] && answer in sys.answers
    requires Accepts(sys.controllers[c].pc, answer, pc')
    ensures Leads(sys, sys') && Sound(sys')
    ensures sys' == WithController(sys, c, sys.controllers[c].(pc := pc'))
  {
    sys' := WithController(sys, c, sys.controllers[c].(pc := pc'));
    StepLeads(sys, sys', GotAnswer(c, answer));
  }

  /** A request is answered and the controller goes on to `pc'`. */
  lemma GoesOn(sys: System, c: nat) returns (sys': System, answer: Answer)
    requires Sound(sys) && AtWork(sys, c) && Stands(sys, c, sys.controllers[c].pc)
    requires NextRpc(sys.controllers[c].pc).gid in sys.groups
    ensures Leads(sys, sys') && Sound(sys') && SameWorld(sys, sys') && sys'.meta == sys.meta
    ensures sys'.controllers[c] == sys.controllers[c].(pc := sys'.controllers[c].pc)
    ensures Accepts(sys.controllers[c].pc, answer, sys'.controllers[c].pc)
    ensures IsAnswer(NextRpc(sys.controllers[c].pc), answer)
  {
    var pc := sys.controllers[c].pc;
    var sys1, a := Exchanges(sys, c);
    answer := a;
    var pc' := if pc.Migrate? && answer.Frozen? && PlanOf(pc).to.shards[pc.i] != NO_GROUP
               then Migrate(pc.version, pc.state, pc.i, Some(answer.data), pc.next) else NextShard(pc);
    sys' := Takes(sys1, c, answer, pc');
    LeadsTrans(sys, sys1, sys');
  }

  // ----- one shard -----

  /** The loop has got to shard `i` of the plan in the latest record. */
  predicate AtShard(sys: System, c: nat, pc: Pc) {
    && (pc.Migrate? || pc.Deleting?) && Stands(sys, c, pc) && pc.version == |sys.meta| && pc.state == Latest(sys)
    && pc.state.pending.Some? && Known(sys, PlanOf(pc).from) && Known(sys, PlanOf(pc).to)
  }

  lemma SkipsShard(sys: System, c: nat, pc: Pc) returns (sys': System)
    requires Sound(sys) && AtShard(sys, c, pc) && pc.i < sys.shards && !Working(pc) && (pc.Migrate? ==> pc.data == None)
    ensures Leads(sys, sys') && Sound(sys') && SameWorld(sys, sys') && sys'.meta == sys.meta
    ensures sys'.controllers[c] == sys.controllers[c].(pc := NextShard(pc))
  {
    sys' := WithController(sys, c, sys.controllers[c].(pc := NextShard(pc)));
    StepLeads(sys, sys', SkipShard(c));
  }

  /** The frozen copy is installed at its target. */
  lemma InstallsShard(sys: System, c: nat, pc: Pc) returns (sys': System)
    requires Sound(sys) && pc.Migrate? && pc.data.Some? && AtShard(sys, c, pc) && pc.i < sys.shards && Working(pc)
    requires PlanOf(pc).from.shards[pc.i] != NO_GROUP && PlanOf(pc).to.shards[pc.i] != NO_GROUP
    ensures Leads(sys, sys') && Sound(sys') && SameWorld(sys, sys') && sys'.meta == sys.meta
    ensures sys'.controllers[c] == sys.controllers[c].(pc := NextShard(pc))
  {
    assert PlanOf(pc).to.shards[pc.i] in PlanOf(pc).to.shards;
    var answer;
    sys', answer := GoesOn(sys, c);
  }

  /** The copy is frozen, or nothing had to be frozen and the shard is installed empty. */
  lemma FreezesShard(sys: System, c: nat, pc: Pc) returns (sys': System)
    requires Sound(sys) && pc.Migrate? && pc.data == None && AtShard(sys, c, pc) && pc.i < sys.shards && Working(pc)
    ensures Leads(sys, sys') && Sound(sys') && SameWorld(sys, sys') && sys'.meta == sys.meta
    ensures var pc' := sys'.controllers[c].pc;
            && sys'.controllers[c] == sys.controllers[c].(pc := pc')
            && (|| pc' == NextShard(pc)
                || (&& pc'.Migrate? && pc'.data.Some? && pc' == Migrate(pc.version, pc.state, pc.i, pc'.data, pc.next)
                    && PlanOf(pc).from.shards[pc.i] != NO_GROUP && PlanOf(pc).to.shards[pc.i] != NO_GROUP))
  {
    var p := PlanOf(pc);
    assert p.from.shards[pc.i] in p.from.shards && p.to.shards[pc.i] in p.to.shards;
    var answer;
    sys', answer := GoesOn(sys, c);
  }

  lemma MigratesShard(sys: System, c: nat, pc: Pc) returns (sys': System)
    requires Sound(sys) && pc.Migrate? && pc.data == None && AtShard(sys, c, pc) && pc.i < sys.shards
    ensures Leads(sys, sys') && Sound(sys') && SameWorld(sys, sys') && sys'.meta == sys.meta
    ensures sys'.controllers[c] == sys.controllers[c].(pc := NextShard(pc))
  {
    if !Working(pc) {
      sys' := SkipsShard(sys, c, pc);
    } else {
      sys' := FreezesShard(sys, c, pc);
      var pc1 := sys'.controllers[c].pc;
      if pc1 != NextShard(pc) {
        var sys1 := sys';
        sys' := InstallsShard(sys1, c, pc1);
        LeadsTrans(sys, sys1, sys');
      }
    }
  }

  lemma DeletesShard(sys: System, c: nat, pc: Pc) returns (sys': System)
    requires Sound(sys) && pc.Deleting? && AtShard(sys, c, pc) && pc.i < sys.shards
    ensures Leads(sys, sys') && Sound(sys') && SameWorld(sys, sys') && sys'.meta == sys.meta
    ensures sys'.controllers[c] == sys.controllers[c].(pc := NextShard(pc))
  {
    if !Working(pc) {
      sys' := SkipsShard(sys, c, pc);
    } else {
      assert PlanOf(pc).from.shards[pc.i] in PlanOf(pc).from.shards;
      var answer;
      sys', answer := GoesOn(sys, c);
    }
  }

  // ----- the loops -----

  /** The loop runs to its end and its outcome is written to the record. */
  lemma {:induction false} LoopEnds(sys: System, c: nat, pc: Pc) returns (sys': System)
    requires Sound(sys) && AtShard(sys, c, pc) && pc.i <= sys.shards && (pc.Migrate? ==> pc.data == None)
    ensures Leads(sys, sys') && Sound(sys') && SameWorld(sys, sys')
    ensures sys'.meta == sys.meta + [LoopDone(pc).rec]
    ensures sys'.controllers[c] == Succeeded(sys.controllers[c].(pc := LoopDone(pc)))
    decreases sys.shards - pc.i
  {
    if pc.i == sys.shards {
      var sys1 := WithController(sys, c, sys.controllers[c].(pc := LoopDone(pc)));
      StepLeads(sys, sys1, FinishLoop(c));
      sys' := Swaps(sys1, c);
      LeadsTrans(sys, sys1, sys');
    } else {
      var sys1;
      if pc.Migrate? { sys1 := MigratesShard(sys, c, pc); } else { sys1 := DeletesShard(sys, c, pc); }
      sys' := LoopEnds(sys1, c, NextShard(pc));
      LeadsTrans(sys, sys1, sys');
    }
  }

  // ----- recovery -----

  /** What is pending, if anything, names groups that exist. */
  predicate PlanKnown(sys: System) {
    sys.meta != [] && Known(sys, From(Latest(sys))) && Known(sys, To(Latest(sys)))
  }

  lemma Reads(sys: System, c: nat, ctl: Controller) returns (sys': System)
    requires Sound(sys) && c < |sys.controllers| && sys.meta != []
    requires match sys.controllers[c].pc
             case Recover(_) => ctl == RecoverRead(|sys.meta|, Latest(sys), c, sys.controllers[c])
             case CleanUp(_, _) => ctl == CleanUpRead(|sys.meta|, Latest(sys), c, sys.controllers[c])
             case Begin(_) => ctl == BeginRead(|sys.meta|, Latest(sys), c, sys.controllers[c])
             case TakeOver(_) => ctl == TakeOverRead(|sys.meta|, Latest(sys), c, sys.controllers[c])
             case _ => false
    ensures Leads(sys, sys') && Sound(sys') && sys' == WithController(sys, c, ctl)
  {
    sys' := WithController(sys, c, ctl);
    StepLeads(sys, sys', ReadRecord(c));
  }

  /** The published plan's old copies are deleted and the plan is cleared. */
  lemma CleansUp(sys: System, c: nat, plan: Plan, next: Option<Config>) returns (sys': System)
    requires Sound(sys) && Stands(sys, c, CleanUp(plan, next)) && PlanKnown(sys)
    requires Latest(sys).pending == Some(plan) && Latest(sys).current == plan.to
    ensures Leads(sys, sys') && Sound(sys') && SameWorld(sys, sys') && Stands(sys', c, Resume(next))
    ensures Latest(sys') == Latest(sys).(pending := None)
  {
    var pc := Deleting(|sys.meta|, Latest(sys), 0, next);
    var sys1 := Reads(sys, c, sys.controllers[c].(pc := pc));
    assert AtShard(sys1, c, pc);
    sys' := LoopEnds(sys1, c, pc);
    LeadsTrans(sys, sys1, sys');
  }

  /** An unpublished plan is carried out and published. */
  lemma Publishes(sys: System, c: nat, next: Option<Config>) returns (sys': System)
    requires Sound(sys) && Stands(sys, c, Recover(next)) && PlanKnown(sys)
    requires Latest(sys).pending.Some? && Latest(sys).current == From(Latest(sys))
    ensures Leads(sys, sys') && Sound(sys') && SameWorld(sys, sys')
    ensures Stands(sys', c, CleanUp(Latest(sys).pending.value, next))
    ensures Latest(sys') == Latest(sys).(current := To(Latest(sys)))
  {
    var pc := Migrate(|sys.meta|, Latest(sys), 0, None, next);
    var sys1 := Reads(sys, c, sys.controllers[c].(pc := pc));
    assert AtShard(sys1, c, pc);
    sys' := LoopEnds(sys1, c, pc);
    LeadsTrans(sys, sys1, sys');
  }

  lemma RecordSound(sys: System)
    requires Sound(sys) && sys.meta != []
    ensures Latest(sys).current == From(Latest(sys)) || Latest(sys).current == To(Latest(sys))
  {
    var chain, flat :| Inv(sys, chain, flat);
    assert RecordOk(sys.meta[|sys.meta| - 1], chain);
  }

  /** Whatever is pending is brought to its end. */
  lemma Recovers(sys: System, c: nat, next: Option<Config>) returns (sys': System)
    requires Sound(sys) && Stands(sys, c, Recover(next)) && PlanKnown(sys)
    ensures Leads(sys, sys') && Sound(sys') && SameWorld(sys, sys') && Stands(sys', c, Resume(next))
    ensures Latest(sys') == Latest(sys).(current := To(Latest(sys)), pending := None)
  {
    RecordSound(sys);
    var rec := Latest(sys);
    if rec.pending.None? {
      sys' := Reads(sys, c, sys.controllers[c].(pc := Resume(next)));
    } else if rec.current == rec.pending.value.from {
      var sys1 := Publishes(sys, c, next);
      sys' := CleansUp(sys1, c, rec.pending.value, next);
      LeadsTrans(sys, sys1, sys');
    } else {
      var sys1 := Reads(sys, c, sys.controllers[c].(pc := CleanUp(rec.pending.value, next)));
      sys' := CleansUp(sys1, c, rec.pending.value, next);
      LeadsTrans(sys, sys1, sys');
    }
  }

  /** A new plan is written down. */
  lemma Begins(sys: System, c: nat, to: Config) returns (sys': System)
    requires Sound(sys) && Stands(sys, c, Begin(to)) && Latest(sys).pending.None?
    requires to.num == Latest(sys).current.num + 1
    ensures Leads(sys, sys') && Sound(sys') && SameWorld(sys, sys') && Stands(sys', c, Recover(None))
    ensures Latest(sys') == Latest(sys).(pending := Some(Plan(Latest(sys).current, to)))
  {
    var rec := Latest(sys).(pending := Some(Plan(Latest(sys).current, to)));
    var sys1 := Reads(sys, c, sys.controllers[c].(pc := Cas(|sys.meta|, rec, ThenRecover(None, false))));
    sys' := Swaps(sys1, c);
    LeadsTrans(sys, sys1, sys');
  }

  // ----- a whole change -----

  /** A controller that has not started, or that owns the record and has nothing to do. */
  predicate CanAct(sys: System, c: nat) {
    && c < |sys.controllers| && sys.meta != []
    && (|| sys.controllers[c] == Controller(0, false, false, Idle)
        || (sys.controllers[c].initialized && Stands(sys, c, Idle)))
  }

  /** It calls, and takes the record over if it has not started before. */
  lemma Calls(sys: System, c: nat, next: Option<Config>) returns (sys': System)
    requires Sound(sys) && CanAct(sys, c) && (next.Some? ==> Sized(next.value, sys.shards))
    ensures Leads(sys, sys') && Sound(sys') && SameWorld(sys, sys') && Stands(sys', c, Recover(next))
    ensures Latest(sys') == Latest(sys).(owner := c, epoch := Latest(sys').epoch)
  {
    var ctl := sys.controllers[c];
    var started := ctl.initialized;
    var sys1 := WithController(sys, c, if started then ctl.(pc := Recover(next))
                                       else ctl.(initialized := true, pc := TakeOver(next)));
    StepLeads(sys, sys1, Call(c, next));
    sys' := sys1;
    if !started {
      sys' := TakesOver(sys1, c, next);
      LeadsTrans(sys, sys1, sys');
    }
  }

  lemma TakesOver(sys: System, c: nat, next: Option<Config>) returns (sys': System)
    requires Sound(sys) && c < |sys.controllers| && sys.meta != []
    requires sys.controllers[c].pc == TakeOver(next) && !sys.controllers[c].deposed
    ensures Leads(sys, sys') && Sound(sys') && SameWorld(sys, sys') && Stands(sys', c, Recover(next))
    ensures Latest(sys') == Latest(sys).(owner := c, epoch := Latest(sys').epoch)
  {
    var rec := Latest(sys).(owner := c, epoch := Latest(sys).epoch + 1);
    var cas := Cas(|sys.meta|, rec, ThenRecover(next, true));
    var sys1 := Reads(sys, c, sys.controllers[c].(pc := cas));
    sys' := Swaps(sys1, c);
    LeadsTrans(sys, sys1, sys');
  }

  /** Every shard is served by the group its configuration names. */
  predicate InPlace(sys: System, to: Config) {
    && sys.meta != [] && Latest(sys).current == to && Latest(sys).pending.None?
    && forall sh: nat :: sh < sys.shards && sh < |to.shards| && to.shards[sh] != NO_GROUP ==>
         StateOf(sys.groups, to.shards[sh], sh).status == G.Serving
  }

  lemma NothingPending(sys: System)
    requires Sound(sys) && sys.meta != [] && Latest(sys).pending.None?
    ensures InPlace(sys, Latest(sys).current)
  {
    var chain, flat :| Inv(sys, chain, flat);
    var to := Latest(sys).current;
    forall sh: nat | sh < sys.shards && sh < |to.shards| && to.shards[sh] != NO_GROUP
      ensures StateOf(sys.groups, to.shards[sh], sh).status == G.Serving
    {
      assert ShardAt(sys, sh, flat[sh]);
    }
  }

  lemma Changes(sys: System, c: nat, to: Config) returns (sys': System)
    requires Sound(sys) && CanAct(sys, c) && PlanKnown(sys) && Known(sys, to)
    requires to.num == To(Latest(sys)).num + 1
    ensures Leads(sys, sys') && InPlace(sys', to) && Latest(sys').owner == c
  {
    var sys1 := Calls(sys, c, Some(to));
    var sys2 := Recovers(sys1, c, Some(to));
    var sys3 := Begins(sys2, c, to);
    sys' := Recovers(sys3, c, None);
    NothingPending(sys');
    LeadsTrans(sys, sys1, sys2);
    LeadsTrans(sys, sys2, sys3);
    LeadsTrans(sys, sys3, sys');
  }

  /** Wherever earlier controllers have stopped, crashed or been overtaken in a run, the change to the next
      configuration can be carried out: the pending one first, if there is one, and then this one, until
      every shard is served where it says. */
  lemma ChangeCanComplete(run: seq<System>, steps: seq<Step>, c: nat, to: Config)
    returns (more: seq<System>, moreSteps: seq<Step>)
    requires IsRun(run, steps) && CanAct(run[|steps|], c) && PlanKnown(run[|steps|]) && Known(run[|steps|], to)
    requires to.num == To(Latest(run[|steps|])).num + 1
    ensures IsRun(run + more, steps + moreSteps) && InPlace((run + more)[|steps + moreSteps|], to)
  {
    var chain := RunInv(run, steps, |steps|);
    var end := Changes(run[|steps|], c, to);
    var path, pathSteps :| PathBetween(path, pathSteps, run[|steps|], end);
    more, moreSteps := path[1..], pathSteps;
    assert PathBetween(run, steps, run[0], run[|steps|]);
    PathsJoin(run, steps, run[0], run[|steps|], path, pathSteps, end);
  }
}
