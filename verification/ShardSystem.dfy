/** Shard migration as a whole: controllers racing on one versioned record, migration requests
    that may be executed late or repeatedly, replica groups and clients. */
module ShardSystem {
  import opened KvStore
  import G = ShardGroup

  datatype Config = Config(num: nat, shards: seq<nat>, groups: map<nat, seq<string>>)

  datatype Plan = Plan(from: Config, to: Config)

  /** The record all controllers share. */
  datatype Record = Record(owner: nat, epoch: nat, current: Config, pending: Option<Plan>)

  datatype Rpc =
    | FreezeRpc(gid: nat, shard: nat, num: nat)
    | InstallRpc(gid: nat, shard: nat, num: nat, data: Store)
    | DeleteRpc(gid: nat, shard: nat, num: nat)

  /** Successful replies; a refusal only makes the controller give up, which it may do anyway. */
  datatype Answer =
    | Frozen(gid: nat, shard: nat, num: nat, data: Store)
    | Installed(gid: nat, shard: nat, num: nat)
    | Deleted(gid: nat, shard: nat, num: nat)

  /** What a controller does once its compare-and-swap has succeeded. */
  datatype After =
    | ThenRecover(next: Option<Config>, newEpoch: bool)
    | ThenCleanUp(plan: Plan, next: Option<Config>)
    | ThenBegin(next: Option<Config>)

  /** Where a controller stands in `ensureLeadership`, `recoverPending` and `ChangeConfigTo`;
      `next` is the configuration it was asked for, if any. `version` is the version of the record
      `state` it read. */
  datatype Pc =
    | Idle
    | TakeOver(next: Option<Config>)
    | Recover(next: Option<Config>)
    | Migrate(version: nat, state: Record, i: nat, data: Option<Store>, next: Option<Config>)
    | CleanUp(plan: Plan, next: Option<Config>)
    | Deleting(version: nat, state: Record, i: nat, next: Option<Config>)
    | Begin(to: Config)
    | Cas(version: nat, rec: Record, after: After)

  datatype Controller = Controller(epoch: nat, initialized: bool, deposed: bool, pc: Pc)

  /** `meta[v - 1]` is the record at version `v`; the metadata server holds the last one. `cas`
      holds every conditional put ever sent to it. */
  datatype System = System(
    shards: nat,
    meta: seq<Record>, cas: set<(nat, Record)>,
    controllers: seq<Controller>,
    groups: map<nat, seq<G.ShardState>>, rpcs: set<Rpc>, answers: set<Answer>)

  function Latest(sys: System): Record
    requires sys.meta != []
  {
    sys.meta[|sys.meta| - 1]
  }

  /** A group that does not exist holds nothing. */
  function StateOf(groups: map<nat, seq<G.ShardState>>, g: nat, sh: nat): G.ShardState {
    if g in groups && sh < |groups[g]| then groups[g][sh] else G.NO_SHARD
  }

  const FIRST_GROUP: nat := 1
  const FIRST_NUM: nat := 1

  /** Group number of a shard that no group is to serve; it is no group of the sharded store. */
  const NO_GROUP: nat := 0

  predicate Sized(c: Config, shards: nat) {
    |c.shards| == shards
  }

  function InitialShard(g: nat): G.ShardState {
    if g == FIRST_GROUP then G.ShardState(EMPTY_STORE, G.Serving, FIRST_NUM) else G.NO_SHARD
  }

  ghost predicate Init(sys: System) {
    && |sys.controllers| > 0
    && (exists c :: Founded(sys, c))
    && sys.cas == {} && sys.rpcs == {} && sys.answers == {}
    && FIRST_GROUP in sys.groups && NO_GROUP !in sys.groups
    && (forall g <- sys.groups :: |sys.groups[g]| == sys.shards)
    && (forall g <- sys.groups, sh: nat :: sh < sys.shards ==> sys.groups[g][sh] == InitialShard(g))
  }

  /** Controller `c` has created the record with the initial configuration: number 1, every shard on
      the first group. The others have not started. */
  ghost predicate Founded(sys: System, c: nat) {
    && c < |sys.controllers|
    && |sys.meta| == 1
    && sys.meta[0].owner == c && sys.meta[0].epoch == 1 && sys.meta[0].pending == None
    && sys.meta[0].current.num == FIRST_NUM
    && sys.meta[0].current.shards == seq(sys.shards, _ => FIRST_GROUP)
    && forall k :: 0 <= k < |sys.controllers| ==>
         sys.controllers[k] == if k == c then Controller(1, true, false, Idle) else Controller(0, false, false, Idle)
  }

  // ----- controllers -----

  predicate Owned(rec: Record, c: nat, ctl: Controller) {
    rec.owner == c && rec.epoch == ctl.epoch
  }

  function Resume(next: Option<Config>): Pc {
    if next.Some? then Begin(next.value) else Idle
  }

  function Abandoned(ctl: Controller): Controller {
    ctl.(pc := Idle)
  }

  function Deposed(ctl: Controller): Controller {
    ctl.(deposed := true, pc := Idle)
  }

  /** `readOwned` at the start of `recoverPending`. */
  function RecoverRead(version: nat, rec: Record, c: nat, ctl: Controller): Controller
    requires ctl.pc.Recover?
  {
    if ctl.deposed || !Owned(rec, c, ctl) then Deposed(ctl)
    else if rec.pending.None? then ctl.(pc := Resume(ctl.pc.next))
    else if rec.current == rec.pending.value.from then ctl.(pc := Migrate(version, rec, 0, None, ctl.pc.next))
    else ctl.(pc := CleanUp(rec.pending.value, ctl.pc.next))
  }

  /** `readOwned` after publishing: the plan must still be pending and now be current. */
  function CleanUpRead(version: nat, rec: Record, c: nat, ctl: Controller): Controller
    requires ctl.pc.CleanUp?
  {
    if ctl.deposed || !Owned(rec, c, ctl) then Deposed(ctl)
    else if rec.pending != Some(ctl.pc.plan) || rec.current != ctl.pc.plan.to then Abandoned(ctl)
    else ctl.(pc := Deleting(version, rec, 0, ctl.pc.next))
  }

  /** `readOwned` before choosing a new plan. The pending plan is not looked at again. */
  function BeginRead(version: nat, rec: Record, c: nat, ctl: Controller): Controller
    requires ctl.pc.Begin?
  {
    var to := ctl.pc.to;
    if ctl.deposed || !Owned(rec, c, ctl) then Deposed(ctl)
    else if rec.current == to || to.num != rec.current.num + 1 then Abandoned(ctl)
    else ctl.(pc := Cas(version, rec.(pending := Some(Plan(rec.current, to))), ThenRecover(None, false)))
  }

  function TakeOverRead(version: nat, rec: Record, c: nat, ctl: Controller): Controller
    requires ctl.pc.TakeOver?
  {
    ctl.(pc := Cas(version, rec.(owner := c, epoch := rec.epoch + 1), ThenRecover(ctl.pc.next, true)))
  }

  /** The compare-and-swap succeeded. */
  function Succeeded(ctl: Controller): Controller
    requires ctl.pc.Cas?
  {
    match ctl.pc.after
    case ThenRecover(next, newEpoch) =>
      ctl.(epoch := if newEpoch then ctl.pc.rec.epoch else ctl.epoch, pc := Recover(next))
    case ThenCleanUp(plan, next) => ctl.(pc := CleanUp(plan, next))
    case ThenBegin(next) => ctl.(pc := Resume(next))
  }

  /** It failed: a candidate competes again, an owner gives up. */
  function Failed(ctl: Controller): Controller
    requires ctl.pc.Cas?
  {
    if ctl.pc.after.ThenRecover? && ctl.pc.after.newEpoch then ctl.(pc := TakeOver(ctl.pc.after.next))
    else Abandoned(ctl)
  }

  datatype Step =
    | Call(c: nat, next: Option<Config>)
    | ReadRecord(c: nat)
    | SendCas(c: nat)
    | CasSucceeds(c: nat)
    | CasFails(c: nat)
    | ExecuteCas(version: nat, rec: Record)
    | GiveUp(c: nat)
    | SkipShard(c: nat)
    | SendRpc(c: nat)
    | GotAnswer(c: nat, answer: Answer)
    | FinishLoop(c: nat)
    | ExecuteRpc(rpc: Rpc)
    | ClientPut(gid: nat, shard: nat, args: PutArgs)

  predicate Controls(sys: System, sys': System, c: nat, ctl: Controller) {
    c < |sys.controllers| && sys' == sys.(controllers := sys.controllers[c := ctl])
  }

  predicate Moving(p: Plan, sh: nat) {
    sh < |p.from.shards| && sh < |p.to.shards| && p.from.shards[sh] != p.to.shards[sh]
  }

  function PlanOf(pc: Pc): Plan
    requires pc.Migrate? || pc.Deleting?
  {
    if pc.state.pending.Some? then pc.state.pending.value else Plan(pc.state.current, pc.state.current)
  }

  /** The shard a controller is at moves; a shard that comes from no group leaves nothing to delete. */
  predicate Working(pc: Pc)
    requires pc.Migrate? || pc.Deleting?
  {
    Moving(PlanOf(pc), pc.i) && (pc.Deleting? ==> PlanOf(pc).from.shards[pc.i] != NO_GROUP)
  }

  /** The migration request for that shard; one that comes from no group is installed empty. */
  function NextRpc(pc: Pc): Rpc
    requires (pc.Migrate? || pc.Deleting?) && Working(pc)
  {
    var p := PlanOf(pc);
    if pc.Deleting? then DeleteRpc(p.from.shards[pc.i], pc.i, p.to.num)
    else if p.from.shards[pc.i] == NO_GROUP then InstallRpc(p.to.shards[pc.i], pc.i, p.to.num, EMPTY_STORE)
    else if pc.data.None? then FreezeRpc(p.from.shards[pc.i], pc.i, p.to.num)
    else InstallRpc(p.to.shards[pc.i], pc.i, p.to.num, pc.data.value)
  }

  /** The controller moves on with the reply to that request; a shard that goes to no group is done
      once it is frozen. */
  predicate Accepts(pc: Pc, answer: Answer, pc': Pc)
    requires (pc.Migrate? || pc.Deleting?) && Working(pc)
  {
    var p := PlanOf(pc);
    if pc.Deleting? then
      answer == Deleted(p.from.shards[pc.i], pc.i, p.to.num) && pc' == Deleting(pc.version, pc.state, pc.i + 1, pc.next)
    else if pc.data.None? && p.from.shards[pc.i] != NO_GROUP then
      && answer.Frozen? && answer == Frozen(p.from.shards[pc.i], pc.i, p.to.num, answer.data)
      && pc' == if p.to.shards[pc.i] == NO_GROUP then Migrate(pc.version, pc.state, pc.i + 1, None, pc.next)
                else Migrate(pc.version, pc.state, pc.i, Some(answer.data), pc.next)
    else
      && answer == Installed(p.to.shards[pc.i], pc.i, p.to.num)
      && pc' == Migrate(pc.version, pc.state, pc.i + 1, None, pc.next)
  }

  /** After the loop: publish the new configuration, or clear the plan. */
  function LoopDone(pc: Pc): Pc
    requires pc.Migrate? || pc.Deleting?
  {
    var p := PlanOf(pc);
    if pc.Migrate? then Cas(pc.version, pc.state.(current := p.to), ThenCleanUp(p, pc.next))
    else Cas(pc.version, pc.state.(pending := None), ThenBegin(pc.next))
  }

  // ----- groups -----

  predicate Updates(sys: System, sys': System, g: nat, sh: nat, s: G.ShardState, out: set<Answer>) {
    && g in sys.groups && sh < |sys.groups[g]|
    && sys' == sys.(groups := sys.groups[g := sys.groups[g][sh := s]], answers := sys.answers + out)
  }

  predicate Executes(sys: System, sys': System, rpc: Rpc) {
    && rpc in sys.rpcs && rpc.gid in sys.groups && rpc.shard < |sys.groups[rpc.gid]|
    && var s := sys.groups[rpc.gid][rpc.shard];
       match rpc
       case FreezeRpc(g, sh, num) =>
         var (s', reply) := G.Freeze(s, num);
         Updates(sys, sys', g, sh, s', if reply.err == OK then {Frozen(g, sh, num, reply.data)} else {})
       case InstallRpc(g, sh, num, data) =>
         var (s', err) := G.Install(s, num, data);
         Updates(sys, sys', g, sh, s', if err == OK then {Installed(g, sh, num)} else {})
       case DeleteRpc(g, sh, num) =>
         var (s', err) := G.Delete(s, num);
         Updates(sys, sys', g, sh, s', if err == OK then {Deleted(g, sh, num)} else {})
  }

  // ----- steps -----

  predicate ControllerStep(sys: System, sys': System, step: Step, c: nat)
    requires c < |sys.controllers| && sys.meta != []
  {
    var ctl := sys.controllers[c];
    var version, rec := |sys.meta|, Latest(sys);
    match step
    case Call(_, next) =>
      && ctl.pc.Idle? && (next.Some? ==> Sized(next.value, sys.shards))
      && Controls(sys, sys', c,
                  if ctl.initialized then ctl.(pc := Recover(next))
                  else ctl.(initialized := true, pc := TakeOver(next)))
    case ReadRecord(_) =>
      (match ctl.pc
       case TakeOver(_) => Controls(sys, sys', c, TakeOverRead(version, rec, c, ctl))
       case Recover(_) => Controls(sys, sys', c, RecoverRead(version, rec, c, ctl))
       case CleanUp(_, _) => Controls(sys, sys', c, CleanUpRead(version, rec, c, ctl))
       case Begin(_) => Controls(sys, sys', c, BeginRead(version, rec, c, ctl))
       case _ => false)
    case SendCas(_) =>
      ctl.pc.Cas? && sys' == sys.(cas := sys.cas + {(ctl.pc.version, ctl.pc.rec)})
    case CasSucceeds(_) =>
      // The put was acknowledged, or its outcome was uncertain and the record reads back equal.
      && ctl.pc.Cas? && version > ctl.pc.version
      && (sys.meta[ctl.pc.version] == ctl.pc.rec || rec == ctl.pc.rec)
      && Controls(sys, sys', c, Succeeded(ctl))
    case CasFails(_) =>
      // A version mismatch was reported.
      ctl.pc.Cas? && version > ctl.pc.version && Controls(sys, sys', c, Failed(ctl))
    case GiveUp(_) =>
      (ctl.pc.Migrate? || ctl.pc.Deleting?) && Controls(sys, sys', c, Abandoned(ctl))
    case SkipShard(_) =>
      && (ctl.pc.Migrate? || ctl.pc.Deleting?) && ctl.pc.i < sys.shards && !Working(ctl.pc)
      && Controls(sys, sys', c, ctl.(pc := ctl.pc.(i := ctl.pc.i + 1)))
    case SendRpc(_) =>
      && (ctl.pc.Migrate? || ctl.pc.Deleting?) && ctl.pc.i < sys.shards && Working(ctl.pc)
      && sys' == sys.(rpcs := sys.rpcs + {NextRpc(ctl.pc)})
    case GotAnswer(_, answer) =>
      && (ctl.pc.Migrate? || ctl.pc.Deleting?) && ctl.pc.i < sys.shards && Working(ctl.pc)
      && answer in sys.answers
      && c < |sys'.controllers|
      && Accepts(ctl.pc, answer, sys'.controllers[c].pc)
      && Controls(sys, sys', c, ctl.(pc := sys'.controllers[c].pc))
    case FinishLoop(_) =>
      && (ctl.pc.Migrate? || ctl.pc.Deleting?) && ctl.pc.i >= sys.shards
      && Controls(sys, sys', c, ctl.(pc := LoopDone(ctl.pc)))
    case _ => false
  }

  predicate StepTo(sys: System, sys': System, step: Step) {
    && sys.meta != []
    && match step
       case ExecuteCas(version, rec) =>
         (version, rec) in sys.cas && version == |sys.meta| && sys' == sys.(meta := sys.meta + [rec])
       case ExecuteRpc(rpc) => Executes(sys, sys', rpc)
       case ClientPut(g, sh, args) =>
         && g in sys.groups && sh < |sys.groups[g]|
         && Updates(sys, sys', g, sh, G.Put(sys.groups[g][sh], args).0, {})
       case _ => step.c < |sys.controllers| && ControllerStep(sys, sys', step, step.c)
  }

  ghost predicate Steps(run: seq<System>, steps: seq<Step>, k: nat) {
    k + 1 < |run| && k < |steps| && StepTo(run[k], run[k + 1], steps[k])
  }

  /** A run: every state and the step that led to the next one. */
  ghost predicate IsRun(run: seq<System>, steps: seq<Step>) {
    && |run| == |steps| + 1 && Init(run[0])
    && forall k: nat {:trigger Steps(run, steps, k)} :: k < |steps| ==> Steps(run, steps, k)
  }
}
