/** What the operations of a replica group keep: freeze, install, delete and put, early, late or
    repeated, leave the invariant standing. */
module ShardSafety {
  import opened KvStore
  import G = ShardGroup
  import opened ShardSystem
  import opened ShardInv

  // ----- groups move forward -----

  /** What no operation of a group undoes. */
  ghost predicate Advances(s: G.ShardState, s': G.ShardState) {
    s.num <= s'.num && (s.num == s'.num && s.status == G.Absent ==> s'.status == G.Absent)
  }

  ghost predicate GroupsAdvance(groups: Groups, groups': Groups) {
    forall g: nat, sh: nat {:trigger StateOf(groups', g, sh)} ::
      Advances(StateOf(groups, g, sh), StateOf(groups', g, sh))
  }

  /** Data frozen for a move stays what it was, or the target has it. */
  ghost predicate DataStays(groups: Groups, groups': Groups, chain: seq<Config>, shards: nat) {
    forall n: nat, sh: nat, data: Store
      {:trigger DataOk(groups', chain, shards, sh, n, data)} ::
      Moves(chain, shards, n, sh) && DataOk(groups, chain, shards, sh, n, data) ==>
        DataOk(groups', chain, shards, sh, n, data)
  }

  lemma UpdatedState(sys: System, sys': System, g: nat, sh: nat, s: G.ShardState, out: set<Answer>, g': nat, sh': nat)
    requires Updates(sys, sys', g, sh, s, out)
    ensures StateOf(sys'.groups, g', sh') == if g' == g && sh' == sh then s else StateOf(sys.groups, g', sh')
  {
  }

  lemma UpdateAdvances(sys: System, sys': System, g: nat, sh: nat, s: G.ShardState, out: set<Answer>)
    requires Updates(sys, sys', g, sh, s, out) && Advances(StateOf(sys.groups, g, sh), s)
    ensures GroupsAdvance(sys.groups, sys'.groups)
  {
    forall g': nat, sh': nat ensures Advances(StateOf(sys.groups, g', sh'), StateOf(sys'.groups, g', sh')) {
      UpdatedState(sys, sys', g, sh, s, out, g', sh');
    }
  }

  /** Messages and controllers only rely on what groups do not undo. */
  lemma MessagesStay(sys: System, sys': System, chain: seq<Config>)
    requires sys.meta != [] && MessagesOk(sys, chain)
    requires sys'.meta == sys.meta && sys'.shards == sys.shards && sys'.rpcs == sys.rpcs
    requires GroupsAdvance(sys.groups, sys'.groups) && DataStays(sys.groups, sys'.groups, chain, sys.shards)
    ensures forall rpc <- sys'.rpcs :: RpcOk(sys', chain, rpc)
    ensures forall answer <- sys.answers :: AnswerOk(sys', chain, answer)
  {
    forall rpc | rpc in sys'.rpcs ensures RpcOk(sys', chain, rpc) { assert RpcOk(sys, chain, rpc); }
    forall answer | answer in sys.answers ensures AnswerOk(sys', chain, answer) {
      assert AnswerOk(sys, chain, answer);
      assert Advances(StateOf(sys.groups, answer.gid, answer.shard), StateOf(sys'.groups, answer.gid, answer.shard));
    }
  }

  lemma BeforeStays(groups: Groups, groups': Groups, p: Plan, i: nat)
    requires GroupsAdvance(groups, groups')
    ensures InstalledBefore(groups, p, i) ==> InstalledBefore(groups', p, i)
    ensures GoneBefore(groups, p, i) ==> GoneBefore(groups', p, i)
  {
    forall j: nat | j < i && Moving(p, j)
      ensures InstalledBefore(groups, p, i) ==>
                var g := if p.to.shards[j] != NO_GROUP then p.to.shards[j] else p.from.shards[j];
                StateOf(groups', g, j).num >= p.to.num
      ensures GoneBefore(groups, p, i) && p.from.shards[j] != NO_GROUP ==>
                Gone(StateOf(groups', p.from.shards[j], j), p.to.num)
    {
      assert Advances(StateOf(groups, p.to.shards[j], j), StateOf(groups', p.to.shards[j], j));
      assert Advances(StateOf(groups, p.from.shards[j], j), StateOf(groups', p.from.shards[j], j));
    }
  }

  lemma ControllersStay(sys: System, sys': System, chain: seq<Config>)
    requires sys.meta != [] && ControllersOk(sys, chain)
    requires sys'.meta == sys.meta && sys'.shards == sys.shards
    requires sys'.controllers == sys.controllers && sys'.cas == sys.cas
    requires GroupsAdvance(sys.groups, sys'.groups) && DataStays(sys.groups, sys'.groups, chain, sys.shards)
    ensures ControllersOk(sys', chain)
  {
    forall c | 0 <= c < |sys'.controllers| ensures PcOk(sys', chain, c, sys'.controllers[c]) {
      PcStays(sys, sys', chain, c, sys.controllers[c]);
    }
    forall v, r | (v, r) in sys'.cas ensures CasLive(sys', v, r) { assert CasLive(sys, v, r); }
  }

  lemma PcStays(sys: System, sys': System, chain: seq<Config>, c: nat, ctl: Controller)
    requires sys.meta != [] && PcOk(sys, chain, c, ctl)
    requires sys'.meta == sys.meta && sys'.shards == sys.shards
    requires GroupsAdvance(sys.groups, sys'.groups) && DataStays(sys.groups, sys'.groups, chain, sys.shards)
    ensures PcOk(sys', chain, c, ctl)
  {
    match ctl.pc
    case Migrate(_, state, i, _, _) => BeforeStays(sys.groups, sys'.groups, state.pending.value, i);
    case Deleting(_, state, i, _) => BeforeStays(sys.groups, sys'.groups, state.pending.value, i);
    case Cas(version, _, _) =>
      var st := sys.meta[version - 1];
      BeforeStays(sys.groups, sys'.groups, Plan(From(st), To(st)), sys.shards);
    case _ =>
  }

  // ----- one shard, one operation of a group -----

  /** The record's plan, seen from the chain. */
  lemma LatestPlan(sys: System, chain: seq<Config>, sh: nat)
    requires MetaOk(sys, chain) && sh < sys.shards
    ensures var rec, n := Latest(sys), |chain|;
            && sh < |From(rec).shards| && sh < |To(rec).shards| && To(rec) == chain[n - 1]
            && (rec.pending.Some? ==>
                  && n >= 2 && From(rec) == chain[n - 2]
                  && (Moves(chain, sys.shards, n, sh) <==> From(rec).shards[sh] != To(rec).shards[sh]))
  {
    var rec := Latest(sys);
    assert RecordOk(rec, chain);
    assert Sized(chain[From(rec).num - 1], sys.shards);
    assert Sized(chain[To(rec).num - 1], sys.shards);
  }

  /** The operation on one shard keeps its live copy, whichever step of whichever plan it belongs to. */
  lemma ShardUpdate(sys: System, sys': System, chain: seq<Config>, flat: seq<Store>, g: nat, sh: nat, s: G.ShardState,
                    out: set<Answer>, flat': Store)
    requires GroupsOk(sys, chain, flat) && Updates(sys, sys', g, sh, s, out) && sh < sys.shards
    requires Advances(StateOf(sys.groups, g, sh), s)
    requires ShardAt(sys', sh, flat')
    ensures GroupsOk(sys', chain, flat[sh := flat'])
  {
    UpdateAdvances(sys, sys', g, sh, s, out);
    var flats := flat[sh := flat'];
    forall sh' | 0 <= sh' < sys.shards ensures ShardAt(sys', sh', flats[sh']) {
      if sh' != sh {
        assert ShardAt(sys, sh', flat[sh']);
        forall g': nat ensures StateOf(sys'.groups, g', sh') == StateOf(sys.groups, g', sh') {
          UpdatedState(sys, sys', g, sh, s, out, g', sh');
        }
      }
    }
    forall n: nat, sh': nat | Moves(chain, sys.shards, n, sh') && (n < |chain| || Latest(sys).pending.None?)
      ensures MoveDone(sys'.groups, chain, sys.shards, n, sh')
    {
      assert MoveDone(sys.groups, chain, sys.shards, n, sh');
      var a, b := Source(chain, sys.shards, n, sh'), Target(chain, sys.shards, n, sh');
      assert Advances(StateOf(sys.groups, a, sh'), StateOf(sys'.groups, a, sh'));
      assert Advances(StateOf(sys.groups, b, sh'), StateOf(sys'.groups, b, sh'));
    }
  }

  /** A shard is unchanged by an operation that leaves the state at its group as it was. */
  lemma NoChange(sys: System, sys': System, chain: seq<Config>, g: nat, sh: nat, out: set<Answer>)
    requires Updates(sys, sys', g, sh, StateOf(sys.groups, g, sh), out)
    ensures sys'.groups == sys.groups
    ensures GroupsAdvance(sys.groups, sys'.groups) && DataStays(sys.groups, sys'.groups, chain, sys.shards)
  {
    assert sys.groups[g][sh := sys.groups[g][sh]] == sys.groups[g];
  }

  /** Below the pending plan, source and target have moved on. */
  lemma PastRpc(sys: System, chain: seq<Config>, flat: seq<Store>, n: nat, sh: nat)
    requires GroupsOk(sys, chain, flat) && Moves(chain, sys.shards, n, sh)
    requires n < |chain| || Latest(sys).pending.None?
    ensures MoveDone(sys.groups, chain, sys.shards, n, sh)
  {
  }

  /** The pending plan's move, with the phase it is in. */
  lemma PendingMove(sys: System, chain: seq<Config>, flat: seq<Store>, n: nat, sh: nat)
    requires GroupsOk(sys, chain, flat) && Moves(chain, sys.shards, n, sh)
    requires !(n < |chain| || Latest(sys).pending.None?)
    ensures var rec := Latest(sys);
            var a, b := Source(chain, sys.shards, n, sh), Target(chain, sys.shards, n, sh);
            && n == |chain| == To(rec).num && rec.pending.Some?
            && sh < |From(rec).shards| && sh < |To(rec).shards|
            && a == From(rec).shards[sh] && b == To(rec).shards[sh] && a != b
            && (a == NO_GROUP ==> Arriving(StateOf(sys.groups, b, sh), n, flat[sh], rec.current == From(rec)))
            && (b == NO_GROUP ==> Leaving(StateOf(sys.groups, a, sh), n, flat[sh], rec.current == From(rec)))
            && (a != NO_GROUP && b != NO_GROUP ==>
                  Phase(StateOf(sys.groups, a, sh), StateOf(sys.groups, b, sh), n, flat[sh], rec.current == From(rec)))
            && NumsWithin(sys.groups, sh, n) && OthersAbsent(sys.groups, sh, a, b)
  {
    LatestPlan(sys, chain, sh);
    assert ShardAt(sys, sh, flat[sh]);
  }

  // ----- the three migration operations and the client's -----

  ghost predicate GroupStepOk(sys: System, sys': System, chain: seq<Config>, flat: seq<Store>) {
    && GroupsOk(sys', chain, flat)
    && GroupsAdvance(sys.groups, sys'.groups) && DataStays(sys.groups, sys'.groups, chain, sys.shards)
  }

  lemma Unchanged(sys: System, sys': System, chain: seq<Config>, flat: seq<Store>, g: nat, sh: nat, out: set<Answer>)
    requires GroupsOk(sys, chain, flat) && Updates(sys, sys', g, sh, StateOf(sys.groups, g, sh), out)
    ensures GroupStepOk(sys, sys', chain, flat)
  {
    NoChange(sys, sys', chain, g, sh, out);
    forall k | 0 <= k < sys.shards ensures ShardAt(sys', k, flat[k]) { assert ShardAt(sys, k, flat[k]); }
  }

  /** Only the pending move of this shard has live data; the others are past. */
  lemma DataStaysAt(sys: System, sys': System, chain: seq<Config>, flat: seq<Store>, g: nat, sh: nat, s: G.ShardState,
                    out: set<Answer>)
    requires GroupsOk(sys, chain, flat) && Updates(sys, sys', g, sh, s, out) && sh < sys.shards
    requires Advances(StateOf(sys.groups, g, sh), s)
    requires forall n: nat, data: Store {:trigger DataOk(sys'.groups, chain, sys.shards, sh, n, data)} ::
               (&& Moves(chain, sys.shards, n, sh) && !(n < |chain| || Latest(sys).pending.None?)
                && DataOk(sys.groups, chain, sys.shards, sh, n, data)) ==>
                 DataOk(sys'.groups, chain, sys.shards, sh, n, data)
    ensures DataStays(sys.groups, sys'.groups, chain, sys.shards)
  {
    UpdateAdvances(sys, sys', g, sh, s, out);
    forall n: nat, sh': nat, data: Store
      | Moves(chain, sys.shards, n, sh') && DataOk(sys.groups, chain, sys.shards, sh', n, data)
      ensures DataOk(sys'.groups, chain, sys.shards, sh', n, data)
    {
      var a, b := Source(chain, sys.shards, n, sh'), Target(chain, sys.shards, n, sh');
      UpdatedState(sys, sys', g, sh, s, out, a, sh');
      UpdatedState(sys, sys', g, sh, s, out, b, sh');
      if sh' == sh && (n < |chain| || Latest(sys).pending.None?) {
        PastRpc(sys, chain, flat, n, sh);
        assert Advances(StateOf(sys.groups, b, sh), StateOf(sys'.groups, b, sh));
      }
    }
  }

  lemma FreezeOk(sys: System, sys': System, chain: seq<Config>, flat: seq<Store>, g: nat, sh: nat, n: nat)
    requires GroupsOk(sys, chain, flat) && RpcOk(sys, chain, FreezeRpc(g, sh, n))
    requires var (s, reply) := G.Freeze(StateOf(sys.groups, g, sh), n);
             Updates(sys, sys', g, sh, s, if reply.err == OK then {Frozen(g, sh, n, reply.data)} else {})
    ensures GroupStepOk(sys, sys', chain, flat)
    ensures forall answer :: answer in sys'.answers && answer !in sys.answers ==> AnswerOk(sys', chain, answer)
  {
    var s0 := StateOf(sys.groups, g, sh);
    var (s, reply) := G.Freeze(s0, n);
    var out := if reply.err == OK then {Frozen(g, sh, n, reply.data)} else {};
    var b := Target(chain, sys.shards, n, sh);
    if n < |chain| || Latest(sys).pending.None? {
      PastRpc(sys, chain, flat, n, sh);
      Unchanged(sys, sys', chain, flat, g, sh, out);
    } else {
      PendingMove(sys, chain, flat, n, sh);
      if s == s0 {
        Unchanged(sys, sys', chain, flat, g, sh, out);
      } else {
        FreezeMoves(sys, sys', chain, flat, g, sh, n, out);
      }
    }
  }

  lemma FreezeMoves(sys: System, sys': System, chain: seq<Config>, flat: seq<Store>, g: nat, sh: nat, n: nat,
                    out: set<Answer>)
    requires GroupsOk(sys, chain, flat) && RpcOk(sys, chain, FreezeRpc(g, sh, n))
    requires !(n < |chain| || Latest(sys).pending.None?)
    requires var s0 := StateOf(sys.groups, g, sh);
             && s0.status == G.Serving && s0.num < n
             && Updates(sys, sys', g, sh, s0.(status := G.Frozen, num := n), out)
    ensures GroupStepOk(sys, sys', chain, flat)
  {
    var s := StateOf(sys.groups, g, sh).(status := G.Frozen, num := n);
    PendingMove(sys, chain, flat, n, sh);
    var b := Target(chain, sys.shards, n, sh);
    forall g': nat ensures StateOf(sys'.groups, g', sh) == if g' == g then s else StateOf(sys.groups, g', sh) {
      UpdatedState(sys, sys', g, sh, s, out, g', sh);
    }
    assert ShardAt(sys', sh, flat[sh]);
    ShardUpdate(sys, sys', chain, flat, g, sh, s, out, flat[sh]);
    assert flat[sh := flat[sh]] == flat;
    UpdateAdvances(sys, sys', g, sh, s, out);
    DataStaysAt(sys, sys', chain, flat, g, sh, s, out);
  }

  /** What an install makes the flat store: the data, if it takes effect. Unless the shard comes from
      no group, that is what the flat store was anyway. */
  function Given(sys: System, flat: seq<Store>, g: nat, sh: nat, n: nat, data: Store): seq<Store> {
    var s := StateOf(sys.groups, g, sh);
    if sh < |flat| && G.Install(s, n, data).0 != s then flat[sh := data] else flat
  }

  lemma InstallOk(sys: System, sys': System, chain: seq<Config>, flat: seq<Store>, g: nat, sh: nat, n: nat, data: Store)
    requires GroupsOk(sys, chain, flat) && RpcOk(sys, chain, InstallRpc(g, sh, n, data))
    requires var (s, err) := G.Install(StateOf(sys.groups, g, sh), n, data);
             Updates(sys, sys', g, sh, s, if err == OK then {Installed(g, sh, n)} else {})
    ensures GroupStepOk(sys, sys', chain, Given(sys, flat, g, sh, n, data))
    ensures Source(chain, sys.shards, n, sh) != NO_GROUP ==> Given(sys, flat, g, sh, n, data) == flat
    ensures forall answer :: answer in sys'.answers && answer !in sys.answers ==> AnswerOk(sys', chain, answer)
  {
    var s0 := StateOf(sys.groups, g, sh);
    var (s, err) := G.Install(s0, n, data);
    var out := if err == OK then {Installed(g, sh, n)} else {};
    UpdatedState(sys, sys', g, sh, s, out, g, sh);
    if n < |chain| || Latest(sys).pending.None? {
      PastRpc(sys, chain, flat, n, sh);
      Unchanged(sys, sys', chain, flat, g, sh, out);
    } else {
      PendingMove(sys, chain, flat, n, sh);
      if s == s0 {
        Unchanged(sys, sys', chain, flat, g, sh, out);
      } else {
        InstallMoves(sys, sys', chain, flat, g, sh, n, data, out);
      }
    }
  }

  lemma InstallMoves(sys: System, sys': System, chain: seq<Config>, flat: seq<Store>, g: nat, sh: nat, n: nat,
                     data: Store, out: set<Answer>)
    requires GroupsOk(sys, chain, flat) && RpcOk(sys, chain, InstallRpc(g, sh, n, data))
    requires !(n < |chain| || Latest(sys).pending.None?)
    requires var s0 := StateOf(sys.groups, g, sh);
             && s0.status == G.Absent && s0.num < n
             && Updates(sys, sys', g, sh, G.ShardState(data, G.Serving, n), out)
    ensures GroupStepOk(sys, sys', chain, flat[sh := data])
    ensures Source(chain, sys.shards, n, sh) != NO_GROUP ==> data == flat[sh]
  {
    var s := G.ShardState(data, G.Serving, n);
    PendingMove(sys, chain, flat, n, sh);
    forall g': nat ensures StateOf(sys'.groups, g', sh) == if g' == g then s else StateOf(sys.groups, g', sh) {
      UpdatedState(sys, sys', g, sh, s, out, g', sh);
    }
    assert ShardAt(sys', sh, data);
    ShardUpdate(sys, sys', chain, flat, g, sh, s, out, data);
    UpdateAdvances(sys, sys', g, sh, s, out);
    DataStaysAt(sys, sys', chain, flat, g, sh, s, out);
  }

  lemma DeleteOk(sys: System, sys': System, chain: seq<Config>, flat: seq<Store>, g: nat, sh: nat, n: nat)
    requires GroupsOk(sys, chain, flat) && RpcOk(sys, chain, DeleteRpc(g, sh, n))
    requires var (s, err) := G.Delete(StateOf(sys.groups, g, sh), n);
             Updates(sys, sys', g, sh, s, if err == OK then {Deleted(g, sh, n)} else {})
    ensures GroupStepOk(sys, sys', chain, flat)
    ensures forall answer :: answer in sys'.answers && answer !in sys.answers ==> AnswerOk(sys', chain, answer)
  {
    var s0 := StateOf(sys.groups, g, sh);
    var (s, err) := G.Delete(s0, n);
    var out := if err == OK then {Deleted(g, sh, n)} else {};
    UpdatedState(sys, sys', g, sh, s, out, g, sh);
    if s == s0 {
      Unchanged(sys, sys', chain, flat, g, sh, out);
    } else {
      DeleteMoves(sys, sys', chain, flat, g, sh, n, out);
    }
  }

  lemma DeleteMoves(sys: System, sys': System, chain: seq<Config>, flat: seq<Store>, g: nat, sh: nat, n: nat,
                    out: set<Answer>)
    requires GroupsOk(sys, chain, flat) && RpcOk(sys, chain, DeleteRpc(g, sh, n))
    requires var s0 := StateOf(sys.groups, g, sh);
             && s0.status == G.Frozen && s0.num == n
             && Updates(sys, sys', g, sh, G.ShardState(EMPTY_STORE, G.Absent, n), out)
    ensures GroupStepOk(sys, sys', chain, flat)
  {
    var s := G.ShardState(EMPTY_STORE, G.Absent, n);
    FrozenIsPending(sys, chain, flat, g, sh, n);
    PendingMove(sys, chain, flat, n, sh);
    assert RecordOk(Latest(sys), chain);
    forall g': nat ensures StateOf(sys'.groups, g', sh) == if g' == g then s else StateOf(sys.groups, g', sh) {
      UpdatedState(sys, sys', g, sh, s, out, g', sh);
    }
    assert ShardAt(sys', sh, flat[sh]);
    ShardUpdate(sys, sys', chain, flat, g, sh, s, out, flat[sh]);
    assert flat[sh := flat[sh]] == flat;
    UpdateAdvances(sys, sys', g, sh, s, out);
    DataStaysAt(sys, sys', chain, flat, g, sh, s, out);
  }

  /** A frozen copy belongs to the pending plan, and to its source. */
  lemma FrozenIsPending(sys: System, chain: seq<Config>, flat: seq<Store>, g: nat, sh: nat, n: nat)
    requires GroupsOk(sys, chain, flat) && sh < sys.shards
    requires StateOf(sys.groups, g, sh).status == G.Frozen && StateOf(sys.groups, g, sh).num == n
    ensures n == |chain| && Latest(sys).pending.Some?
  {
    LatestPlan(sys, chain, sh);
    assert ShardAt(sys, sh, flat[sh]);
  }

  /** A group that serves a shard holds its live copy. */
  lemma ServingIsLive(sys: System, chain: seq<Config>, flat: seq<Store>, g: nat, sh: nat)
    requires GroupsOk(sys, chain, flat) && sh < sys.shards && StateOf(sys.groups, g, sh).status == G.Serving
    ensures StateOf(sys.groups, g, sh).data == flat[sh]
    ensures forall g': nat :: g' != g ==> StateOf(sys.groups, g', sh).status != G.Serving
  {
    LatestPlan(sys, chain, sh);
    assert ShardAt(sys, sh, flat[sh]);
  }

  lemma PutOk(sys: System, sys': System, chain: seq<Config>, flat: seq<Store>, g: nat, sh: nat, args: PutArgs)
    requires GroupsOk(sys, chain, flat) && sh < sys.shards
    requires Updates(sys, sys', g, sh, G.Put(StateOf(sys.groups, g, sh), args).0, {})
    ensures StateOf(sys.groups, g, sh).status == G.Serving ==>
              G.Put(StateOf(sys.groups, g, sh), args).1 == DoPut(flat[sh], args).1
    ensures GroupStepOk(sys, sys', chain,
                        if StateOf(sys.groups, g, sh).status != G.Serving then flat
                        else flat[sh := DoPut(flat[sh], args).0])
  {
    var s0 := StateOf(sys.groups, g, sh);
    if s0.status != G.Serving {
      Unchanged(sys, sys', chain, flat, g, sh, {});
    } else {
      ServingIsLive(sys, chain, flat, g, sh);
      var s := G.Put(s0, args).0;
      forall g': nat ensures StateOf(sys'.groups, g', sh) == if g' == g then s else StateOf(sys.groups, g', sh) {
        UpdatedState(sys, sys', g, sh, s, {}, g', sh);
      }
      LatestPlan(sys, chain, sh);
      assert ShardAt(sys, sh, flat[sh]);
      assert ShardAt(sys', sh, s.data);
      ShardUpdate(sys, sys', chain, flat, g, sh, s, {}, s.data);
      UpdateAdvances(sys, sys', g, sh, s, {});
      DataStaysAt(sys, sys', chain, flat, g, sh, s, {});
    }
  }
}
