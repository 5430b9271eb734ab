/** What every step of a migration keeps: where each shard's live copy is, what messages in flight
    can still do, and what a controller knows. */
module ShardInv {
  import opened KvStore
  import G = ShardGroup
  import opened ShardSystem

  type Groups = map<nat, seq<G.ShardState>>

  // ----- the record and the chain of configurations -----

  function From(rec: Record): Config {
    if rec.pending.Some? then rec.pending.value.from else rec.current
  }

  function To(rec: Record): Config {
    if rec.pending.Some? then rec.pending.value.to else rec.current
  }

  ghost predicate InChain(chain: seq<Config>, c: Config) {
    1 <= c.num <= |chain| && chain[c.num - 1] == c
  }

  ghost predicate RecordOk(rec: Record, chain: seq<Config>) {
    && rec.epoch >= 1
    && InChain(chain, From(rec)) && InChain(chain, To(rec))
    && (rec.pending.Some? ==> To(rec).num == From(rec).num + 1 && (rec.current == From(rec) || rec.current == To(rec)))
  }

  ghost predicate IsTakeOver(r: Record, r': Record) {
    r' == r.(owner := r'.owner, epoch := r.epoch + 1)
  }

  ghost predicate IsBegin(r: Record, r': Record) {
    && r.pending.None? && r'.pending.Some? && r'.pending.value.to.num == r.current.num + 1
    && r' == r.(pending := Some(Plan(r.current, r'.pending.value.to)))
  }

  ghost predicate IsPublish(r: Record, r': Record) {
    r.pending.Some? && r.current == From(r) && r' == r.(current := To(r))
  }

  ghost predicate IsClear(r: Record, r': Record) {
    r.pending.Some? && r.current == To(r) && r' == r.(pending := None)
  }

  /** One write of the record: a takeover keeps the plan, an owner begins, publishes or clears. */
  ghost predicate Follows(r: Record, r': Record) {
    IsTakeOver(r, r') || IsBegin(r, r') || IsPublish(r, r') || IsClear(r, r')
  }

  ghost predicate ChainOk(chain: seq<Config>, shards: nat) {
    |chain| >= 1 && forall k :: 0 <= k < |chain| ==> chain[k].num == k + 1 && Sized(chain[k], shards)
  }

  ghost predicate MetaOk(sys: System, chain: seq<Config>) {
    && sys.meta != [] && ChainOk(chain, sys.shards)
    && (forall k :: 0 <= k < |sys.meta| ==> RecordOk(sys.meta[k], chain))
    && (forall k :: 0 <= k < |sys.meta| - 1 ==> Follows(sys.meta[k], sys.meta[k + 1]))
    && To(Latest(sys)).num == |chain|
  }

  /** Plan `n` moves shard `sh`. */
  ghost predicate Moves(chain: seq<Config>, shards: nat, n: nat, sh: nat) {
    && 2 <= n <= |chain| && sh < shards
    && sh < |chain[n - 2].shards| && sh < |chain[n - 1].shards|
    && chain[n - 2].shards[sh] != chain[n - 1].shards[sh]
  }

  function Source(chain: seq<Config>, shards: nat, n: nat, sh: nat): nat
    requires Moves(chain, shards, n, sh)
  {
    chain[n - 2].shards[sh]
  }

  function Target(chain: seq<Config>, shards: nat, n: nat, sh: nat): nat
    requires Moves(chain, shards, n, sh)
  {
    chain[n - 1].shards[sh]
  }

  // ----- where a shard's live copy is -----

  ghost predicate NumsWithin(groups: Groups, sh: nat, n: nat) {
    forall g: nat {:trigger StateOf(groups, g, sh)} :: StateOf(groups, g, sh).num <= n
  }

  ghost predicate OthersAbsent(groups: Groups, sh: nat, a: nat, b: nat) {
    forall g: nat {:trigger StateOf(groups, g, sh)} :: g != a && g != b ==> StateOf(groups, g, sh).status == G.Absent
  }

  /** A move between two groups in plan `n`: not begun, frozen, installed, or deleted at the source. The
      live copy is the source's until the target has it, and the target's from then on. */
  ghost predicate Phase(a: G.ShardState, b: G.ShardState, n: nat, flat: Store, unpublished: bool) {
    || (unpublished && a.status == G.Serving && a.num < n && b.status == G.Absent && b.num < n && a.data == flat)
    || (unpublished && a.status == G.Frozen && a.num == n && b.status == G.Absent && b.num < n && a.data == flat)
    || (a.status == G.Frozen && a.num == n && b.status == G.Serving && b.num == n && b.data == flat)
    || (!unpublished && a.status == G.Absent && a.num == n && b.status == G.Serving && b.num == n && b.data == flat)
  }

  /** A move to no group: the copy is frozen, and deleted after the plan is published. */
  ghost predicate Leaving(a: G.ShardState, n: nat, flat: Store, unpublished: bool) {
    || (unpublished && a.status == G.Serving && a.num < n && a.data == flat)
    || (a.status == G.Frozen && a.num == n && a.data == flat)
    || (!unpublished && a.status == G.Absent && a.num == n)
  }

  /** A move from no group: nothing is there until the target has been given an empty shard. */
  ghost predicate Arriving(b: G.ShardState, n: nat, flat: Store, unpublished: bool) {
    || (unpublished && b.status == G.Absent && b.num < n)
    || (b.status == G.Serving && b.num == n && b.data == flat)
  }

  ghost predicate ShardOk(groups: Groups, rec: Record, sh: nat, flat: Store)
    requires sh < |From(rec).shards| && sh < |To(rec).shards|
  {
    var a, b, n := From(rec).shards[sh], To(rec).shards[sh], To(rec).num;
    && NumsWithin(groups, sh, n) && OthersAbsent(groups, sh, a, b)
    && if a == b then
         if a == NO_GROUP then StateOf(groups, a, sh).status == G.Absent
         else StateOf(groups, a, sh).status == G.Serving && StateOf(groups, a, sh).data == flat
       else if a == NO_GROUP then Arriving(StateOf(groups, b, sh), n, flat, rec.current == From(rec))
       else if b == NO_GROUP then Leaving(StateOf(groups, a, sh), n, flat, rec.current == From(rec))
       else Phase(StateOf(groups, a, sh), StateOf(groups, b, sh), n, flat, rec.current == From(rec))
  }

  /** Source and target of a finished move have reached its number. */
  ghost predicate MoveDone(groups: Groups, chain: seq<Config>, shards: nat, n: nat, sh: nat)
    requires Moves(chain, shards, n, sh)
  {
    && (Source(chain, shards, n, sh) != NO_GROUP ==> StateOf(groups, Source(chain, shards, n, sh), sh).num >= n)
    && (Target(chain, shards, n, sh) != NO_GROUP ==> StateOf(groups, Target(chain, shards, n, sh), sh).num >= n)
  }

  ghost predicate PastMovesDone(sys: System, chain: seq<Config>)
    requires sys.meta != []
  {
    forall n: nat, sh: nat {:trigger Moves(chain, sys.shards, n, sh)} ::
      Moves(chain, sys.shards, n, sh) && (n < |chain| || Latest(sys).pending.None?) ==>
        MoveDone(sys.groups, chain, sys.shards, n, sh)
  }

  ghost predicate Shape(sys: System) {
    NO_GROUP !in sys.groups && forall g <- sys.groups :: |sys.groups[g]| == sys.shards
  }

  ghost predicate GroupsOk(sys: System, chain: seq<Config>, flat: seq<Store>) {
    && MetaOk(sys, chain) && Shape(sys) && |flat| == sys.shards
    && (forall sh {:trigger flat[sh]} :: 0 <= sh < sys.shards ==> ShardAt(sys, sh, flat[sh]))
    && PastMovesDone(sys, chain)
  }

  ghost predicate ShardAt(sys: System, sh: nat, flat: Store) {
    && sys.meta != []
    && sh < |From(Latest(sys)).shards| && sh < |To(Latest(sys)).shards|
    && ShardOk(sys.groups, Latest(sys), sh, flat)
  }

  // ----- messages -----

  /** Data to install for plan `n` is the source's frozen copy, as long as the target still needs it;
      a shard that comes from no group is empty. */
  ghost predicate DataOk(groups: Groups, chain: seq<Config>, shards: nat, sh: nat, n: nat, data: Store)
    requires Moves(chain, shards, n, sh)
  {
    var a := StateOf(groups, Source(chain, shards, n, sh), sh);
    var b := StateOf(groups, Target(chain, shards, n, sh), sh);
    || Target(chain, shards, n, sh) == NO_GROUP || b.num >= n
    || if Source(chain, shards, n, sh) == NO_GROUP then data == EMPTY_STORE
       else a.status == G.Frozen && a.num == n && a.data == data
  }

  ghost predicate Gone(s: G.ShardState, n: nat) {
    s.num > n || (s.num == n && s.status == G.Absent)
  }

  ghost predicate RpcOk(sys: System, chain: seq<Config>, rpc: Rpc)
    requires sys.meta != []
  {
    && Moves(chain, sys.shards, rpc.num, rpc.shard)
    && match rpc
       case FreezeRpc(g, sh, n) => g == Source(chain, sys.shards, n, sh) && g != NO_GROUP
       case InstallRpc(g, sh, n, data) =>
         g == Target(chain, sys.shards, n, sh) && g != NO_GROUP && DataOk(sys.groups, chain, sys.shards, sh, n, data)
       case DeleteRpc(g, sh, n) =>
         g == Source(chain, sys.shards, n, sh) && g != NO_GROUP && Latest(sys).current.num >= n
  }

  ghost predicate AnswerOk(sys: System, chain: seq<Config>, answer: Answer) {
    && Moves(chain, sys.shards, answer.num, answer.shard)
    && match answer
       case Frozen(g, sh, n, data) =>
         && g == Source(chain, sys.shards, n, sh) && StateOf(sys.groups, g, sh).num >= n
         && DataOk(sys.groups, chain, sys.shards, sh, n, data)
       case Installed(g, sh, n) => g == Target(chain, sys.shards, n, sh) && StateOf(sys.groups, g, sh).num >= n
       case Deleted(g, sh, n) => g == Source(chain, sys.shards, n, sh) && Gone(StateOf(sys.groups, g, sh), n)
  }

  ghost predicate MessagesOk(sys: System, chain: seq<Config>)
    requires sys.meta != []
  {
    && (forall rpc <- sys.rpcs :: RpcOk(sys, chain, rpc))
    && (forall answer <- sys.answers :: AnswerOk(sys, chain, answer))
  }

  // ----- controllers -----

  /** Every shard before `i` that the plan moves has been installed, or at least frozen if it goes to
      no group. */
  ghost predicate InstalledBefore(groups: Groups, p: Plan, i: nat) {
    forall j: nat {:trigger Moving(p, j)} ::
      j < i && Moving(p, j) ==>
        StateOf(groups, if p.to.shards[j] != NO_GROUP then p.to.shards[j] else p.from.shards[j], j).num >= p.to.num
  }

  ghost predicate GoneBefore(groups: Groups, p: Plan, i: nat) {
    forall j: nat {:trigger Moving(p, j)} ::
      j < i && Moving(p, j) && p.from.shards[j] != NO_GROUP ==> Gone(StateOf(groups, p.from.shards[j], j), p.to.num)
  }

  /** The record read at `version` was owned, and if it still is, it has not changed since. */
  ghost predicate ReadOk(sys: System, c: nat, ctl: Controller, version: nat, state: Record) {
    && 1 <= version <= |sys.meta| && sys.meta[version - 1] == state && Owned(state, c, ctl)
    && (Owned(Latest(sys), c, ctl) ==> version == |sys.meta|)
  }

  /** What a compare-and-swap may write over the record `st` it was computed from. */
  ghost predicate WriteOk(sys: System, st: Record, rec: Record, after: After) {
    match after
    case ThenRecover(_, newEpoch) =>
      if newEpoch then IsTakeOver(st, rec)
      else IsBegin(st, rec) && Sized(rec.pending.value.to, sys.shards)
    case ThenCleanUp(_, _) =>
      IsPublish(st, rec) && InstalledBefore(sys.groups, Plan(From(st), To(st)), sys.shards)
    case ThenBegin(_) =>
      IsClear(st, rec) && GoneBefore(sys.groups, Plan(From(st), To(st)), sys.shards)
  }

  ghost predicate NextOk(next: Option<Config>, shards: nat) {
    next.Some? ==> Sized(next.value, shards)
  }

  ghost predicate AfterOk(after: After, shards: nat) {
    NextOk(after.next, shards)
  }

  ghost predicate CasOk(sys: System, c: nat, ctl: Controller, version: nat, rec: Record, after: After) {
    && 1 <= version <= |sys.meta| && rec.owner == c
    && WriteOk(sys, sys.meta[version - 1], rec, after)
    && (!(after.ThenRecover? && after.newEpoch) ==> rec.epoch == ctl.epoch)
    && (|sys.meta| > version && Latest(sys).owner == c && Latest(sys).epoch == rec.epoch ==>
          |sys.meta| == version + 1 && Latest(sys) == rec)
  }

  ghost predicate PcOk(sys: System, chain: seq<Config>, c: nat, ctl: Controller)
    requires sys.meta != []
  {
    match ctl.pc
    case Idle => true
    case TakeOver(next) => NextOk(next, sys.shards)
    case Recover(next) => NextOk(next, sys.shards)
    case CleanUp(_, next) => NextOk(next, sys.shards)
    case Begin(to) => Sized(to, sys.shards) && (Owned(Latest(sys), c, ctl) ==> Latest(sys).pending.None?)
    case Migrate(version, state, i, data, next) =>
      && NextOk(next, sys.shards) && ReadOk(sys, c, ctl, version, state)
      && state.pending.Some? && state.current == state.pending.value.from && i <= sys.shards
      && InstalledBefore(sys.groups, state.pending.value, i)
      && (data.Some? ==> Moves(chain, sys.shards, To(state).num, i)
                         && Target(chain, sys.shards, To(state).num, i) != NO_GROUP
                         && DataOk(sys.groups, chain, sys.shards, i, To(state).num, data.value))
    case Deleting(version, state, i, next) =>
      && NextOk(next, sys.shards) && ReadOk(sys, c, ctl, version, state)
      && state.pending.Some? && state.current == state.pending.value.to && i <= sys.shards
      && GoneBefore(sys.groups, state.pending.value, i)
    case Cas(version, rec, after) => AfterOk(after, sys.shards) && CasOk(sys, c, ctl, version, rec, after)
  }

  /** Only the controller that is waiting for it can still land a write. */
  ghost predicate CasLive(sys: System, version: nat, rec: Record) {
    && version <= |sys.meta|
    && (version == |sys.meta| ==>
          && rec.owner < |sys.controllers| && sys.controllers[rec.owner].pc.Cas?
          && sys.controllers[rec.owner].pc.version == version && sys.controllers[rec.owner].pc.rec == rec)
  }

  ghost predicate ControllersOk(sys: System, chain: seq<Config>)
    requires sys.meta != []
  {
    && (forall c {:trigger sys.controllers[c]} ::
          0 <= c < |sys.controllers| ==> PcOk(sys, chain, c, sys.controllers[c]))
    && (forall v, r {:trigger (v, r) in sys.cas} :: (v, r) in sys.cas ==> CasLive(sys, v, r))
  }

  ghost predicate Inv(sys: System, chain: seq<Config>, flat: seq<Store>) {
    GroupsOk(sys, chain, flat) && MessagesOk(sys, chain) && ControllersOk(sys, chain)
  }
}
