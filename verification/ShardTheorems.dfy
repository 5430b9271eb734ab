/** What holds in every run of the sharded store. */
module ShardTheorems {
  import opened KvStore
  import Dedup
  import H = KvHistory
  import G = ShardGroup
  import opened ShardSystem
  import opened ShardInv
  import opened ShardSafety
  import opened ShardRuns

  // ----- the flat store -----

  /** Step `k` puts to a group that serves the shard. */
  ghost predicate IsPut(run: seq<System>, steps: seq<Step>, k: nat, sh: nat)
    requires IsRun(run, steps)
  {
    && k < |steps| && steps[k].ClientPut? && steps[k].shard == sh && sh < run[0].shards
    && StateOf(run[k].groups, steps[k].gid, sh).status == G.Serving
  }

  /** The puts to shard `sh` that serving groups executed from step `j` up to step `k`, in order. */
  ghost function Puts(run: seq<System>, steps: seq<Step>, j: nat, k: nat, sh: nat): seq<PutArgs>
    requires IsRun(run, steps) && j <= k <= |steps|
    decreases k
  {
    if k == j then []
    else Puts(run, steps, j, k - 1, sh) + if IsPut(run, steps, k - 1, sh) then [steps[k - 1].args] else []
  }

  /** The store that executing a sequence of puts, one after the other, makes of `st`. */
  function Applied(st: Store, ops: seq<PutArgs>): Store {
    Dedup.Executed(st, ops, |ops|)
  }

  /** One store per shard that nothing ever moves: it executes the puts from the start. */
  ghost function Flat(run: seq<System>, steps: seq<Step>, k: nat, sh: nat): Store
    requires IsRun(run, steps) && k <= |steps|
  {
    Applied(EMPTY_STORE, Puts(run, steps, 0, k, sh))
  }

  /** No record from the `v`-th on leaves the shard on no group, before or after its plan. */
  ghost predicate AssignedSince(sys: System, sh: nat, v: nat) {
    forall w {:trigger sys.meta[w]} :: v <= w < |sys.meta| ==> OnGroups(sys.meta[w], sh)
  }

  predicate OnGroups(rec: Record, sh: nat) {
    && sh < |From(rec).shards| && From(rec).shards[sh] != NO_GROUP
    && sh < |To(rec).shards| && To(rec).shards[sh] != NO_GROUP
  }

  lemma AfterOneMore(st: Store, ops: seq<PutArgs>, args: PutArgs)
    ensures Applied(st, ops + [args]) == DoPut(Applied(st, ops), args).0
  {
    H.ExecutedPrefix(st, ops, ops + [args], |ops|);
  }

  // ----- the invariant, all along a run -----

  lemma StepAt(run: seq<System>, steps: seq<Step>, k: nat)
    requires IsRun(run, steps) && k < |steps|
    ensures StepTo(run[k], run[k + 1], steps[k]) && run[k + 1].shards == run[k].shards
  {
    assert Steps(run, steps, k);
  }

  /** What the live copies hold, step by step. */
  ghost function Live(run: seq<System>, steps: seq<Step>, k: nat): (flat: seq<Store>)
    requires IsRun(run, steps) && k <= |steps|
    ensures |flat| == run[0].shards
  {
    if k == 0 then seq(run[0].shards, _ => EMPTY_STORE) else FlatNext(run[k - 1], Live(run, steps, k - 1), steps[k - 1])
  }

  ghost predicate Good(run: seq<System>, steps: seq<Step>, k: nat, chain: seq<Config>)
    requires IsRun(run, steps) && k <= |steps|
  {
    Inv(run[k], chain, Live(run, steps, k)) && run[k].shards == run[0].shards
  }

  lemma StartsGood(run: seq<System>, steps: seq<Step>)
    requires IsRun(run, steps)
    ensures Good(run, steps, 0, [run[0].meta[0].current])
  {
    InitKeeps(run[0]);
  }

  lemma StaysGood(run: seq<System>, steps: seq<Step>, k: nat, chain: seq<Config>) returns (chain': seq<Config>)
    requires IsRun(run, steps) && 0 < k <= |steps| && Good(run, steps, k - 1, chain)
    ensures Good(run, steps, k, chain')
  {
    StepAt(run, steps, k - 1);
    chain' := StepKeeps(run[k - 1], run[k], chain, Live(run, steps, k - 1), steps[k - 1]);
  }

  lemma {:induction false} RunInv(run: seq<System>, steps: seq<Step>, k: nat) returns (chain: seq<Config>)
    requires IsRun(run, steps) && k <= |steps|
    ensures Good(run, steps, k, chain)
  {
    if k == 0 {
      chain := [run[0].meta[0].current];
      StartsGood(run, steps);
    } else {
      chain := RunInv(run, steps, k - 1);
      chain := StaysGood(run, steps, k, chain);
    }
  }

  lemma {:induction false} MetaGrows(run: seq<System>, steps: seq<Step>, j: nat, k: nat)
    requires IsRun(run, steps) && j <= k <= |steps|
    ensures run[j].meta <= run[k].meta
    decreases k
  {
    if j < k {
      MetaGrows(run, steps, j, k - 1);
      StepAt(run, steps, k - 1);
    }
  }

  // ----- the live copy follows the puts -----

  /** An install of a shard that comes from a group gives nothing new. */
  lemma InstallGivesNothingNew(sys: System, chain: seq<Config>, flat: seq<Store>, rpc: Rpc)
    requires Inv(sys, chain, flat) && rpc in sys.rpcs && rpc.InstallRpc? && OnGroups(Latest(sys), rpc.shard)
    ensures Given(sys, flat, rpc.gid, rpc.shard, rpc.num, rpc.data) == flat
  {
    assert RpcOk(sys, chain, rpc);
    if rpc.num < |chain| || Latest(sys).pending.None? {
      PastRpc(sys, chain, flat, rpc.num, rpc.shard);
    } else {
      PendingMove(sys, chain, flat, rpc.num, rpc.shard);
      assert flat[rpc.shard := flat[rpc.shard]] == flat;
    }
  }

  lemma LiveStep(run: seq<System>, steps: seq<Step>, k: nat, sh: nat)
    requires IsRun(run, steps) && k < |steps| && sh < run[0].shards && run[k].meta != [] && OnGroups(Latest(run[k]), sh)
    ensures Live(run, steps, k + 1)[sh] ==
            var live := Live(run, steps, k)[sh];
            if IsPut(run, steps, k, sh) then DoPut(live, steps[k].args).0 else live
  {
    StepAt(run, steps, k);
    var chain := RunInv(run, steps, k);
    if steps[k].ExecuteRpc? && steps[k].rpc.InstallRpc? && steps[k].rpc.shard == sh {
      InstallGivesNothingNew(run[k], chain, Live(run, steps, k), steps[k].rpc);
    }
  }

  /** While a shard stays on groups, its live copy at a later time is the earlier one after the puts
      executed in between. */
  lemma {:induction false} LiveCarries(run: seq<System>, steps: seq<Step>, j: nat, k: nat, sh: nat)
    requires IsRun(run, steps) && j <= k <= |steps| && sh < run[0].shards
    requires run[j].meta != [] && AssignedSince(run[k], sh, |run[j].meta| - 1)
    ensures Live(run, steps, k)[sh] == Applied(Live(run, steps, j)[sh], Puts(run, steps, j, k, sh))
    decreases k
  {
    if j < k {
      MetaGrows(run, steps, j, k - 1);
      MetaGrows(run, steps, k - 1, k);
      assert forall w :: 0 <= w < |run[k - 1].meta| ==> run[k - 1].meta[w] == run[k].meta[w];
      LiveCarries(run, steps, j, k - 1, sh);
      LiveStep(run, steps, k - 1, sh);
      var ops := Puts(run, steps, j, k - 1, sh);
      if IsPut(run, steps, k - 1, sh) {
        AfterOneMore(Live(run, steps, j)[sh], ops, steps[k - 1].args);
      } else {
        assert ops + [] == ops;
      }
    }
  }

  lemma LiveIsFlat(run: seq<System>, steps: seq<Step>, k: nat, sh: nat)
    requires IsRun(run, steps) && k <= |steps| && sh < run[0].shards && AssignedSince(run[k], sh, 0)
    ensures Live(run, steps, k)[sh] == Flat(run, steps, k, sh)
  {
    LiveCarries(run, steps, 0, k, sh);
  }

  // ----- the sharded store is the flat store -----

  /** A copy that serves, or that is frozen for a move not yet completed, with nobody serving. */
  ghost predicate Carries(sys: System, g: nat, sh: nat) {
    || StateOf(sys.groups, g, sh).status == G.Serving
    || (StateOf(sys.groups, g, sh).status == G.Frozen
        && forall g': nat {:trigger StateOf(sys.groups, g', sh)} :: StateOf(sys.groups, g', sh).status != G.Serving)
  }

  lemma CarriesLive(sys: System, chain: seq<Config>, flat: seq<Store>, g: nat, sh: nat)
    requires GroupsOk(sys, chain, flat) && sh < sys.shards && Carries(sys, g, sh)
    ensures StateOf(sys.groups, g, sh).data == flat[sh]
  {
    assert ShardAt(sys, sh, flat[sh]);
    var b := StateOf(sys.groups, To(Latest(sys)).shards[sh], sh);
  }

  lemma SomebodyCarries(sys: System, chain: seq<Config>, flat: seq<Store>, sh: nat) returns (g: nat)
    requires GroupsOk(sys, chain, flat) && sh < sys.shards && OnGroups(Latest(sys), sh)
    ensures Carries(sys, g, sh)
  {
    assert ShardAt(sys, sh, flat[sh]);
    var a, b := From(Latest(sys)).shards[sh], To(Latest(sys)).shards[sh];
    g := if StateOf(sys.groups, b, sh).status == G.Serving then b else a;
  }

  /** Refinement, shard by shard: at every moment of every run that has left this shard on no group
      at no time, some copy of it, serving or in transit, is there; every such copy holds the flat
      store with its versions and its request table; and a serving group answers every get and put as
      the flat store would. What happens to other shards does not matter. */
  lemma ShardedStoreIsFlat(run: seq<System>, steps: seq<Step>, k: nat, sh: nat) returns (g: nat)
    requires IsRun(run, steps) && k <= |steps| && sh < run[0].shards && AssignedSince(run[k], sh, 0)
    ensures Carries(run[k], g, sh)
    ensures forall g': nat {:trigger StateOf(run[k].groups, g', sh)} ::
              Carries(run[k], g', sh) ==> StateOf(run[k].groups, g', sh).data == Flat(run, steps, k, sh)
    ensures forall g': nat {:trigger StateOf(run[k].groups, g', sh)} ::
              var s, flat := StateOf(run[k].groups, g', sh), Flat(run, steps, k, sh);
              s.status == G.Serving ==>
                && (forall key :: G.Get(s, key) == Read(flat.values, key))
                && (forall args :: G.Put(s, args).1 == DoPut(flat, args).1)
  {
    var chain := RunInv(run, steps, k);
    var flat := Live(run, steps, k);
    LiveIsFlat(run, steps, k, sh);
    g := SomebodyCarries(run[k], chain, flat, sh);
    forall g': nat | Carries(run[k], g', sh) ensures StateOf(run[k].groups, g', sh).data == flat[sh] {
      CarriesLive(run[k], chain, flat, g', sh);
    }
  }

  /** No executed write is lost, rolled back or overwritten: while a shard stays on groups, the copy
      that carries it at any later time, in whatever group, is the earlier carrying copy after exactly
      the puts that serving groups executed in between. */
  lemma NoWriteIsLost(run: seq<System>, steps: seq<Step>, j: nat, k: nat, g: nat, g': nat, sh: nat)
    requires IsRun(run, steps) && j <= k <= |steps| && sh < run[0].shards
    requires run[j].meta != [] && AssignedSince(run[k], sh, |run[j].meta| - 1)
    requires Carries(run[j], g, sh) && Carries(run[k], g', sh)
    ensures StateOf(run[k].groups, g', sh).data ==
            Applied(StateOf(run[j].groups, g, sh).data, Puts(run, steps, j, k, sh))
  {
    LiveCarries(run, steps, j, k, sh);
    var chain := RunInv(run, steps, j);
    CarriesLive(run[j], chain, Live(run, steps, j), g, sh);
    chain := RunInv(run, steps, k);
    CarriesLive(run[k], chain, Live(run, steps, k), g', sh);
  }

  // ----- what clients are answered -----

  /** Every group, at every moment: without serving the shard it refuses every get and put and changes
      nothing. Serving it, it answers a get by the last put to the key that took effect anywhere and the
      number of such puts, and a put by whether it runs and carries that number. */
  lemma GroupAnswers(run: seq<System>, steps: seq<Step>, k: nat, g: nat, sh: nat)
    requires IsRun(run, steps) && k <= |steps| && sh < run[0].shards
    ensures var s := StateOf(run[k].groups, g, sh);
            s.status != G.Serving ==>
              && (forall key :: G.Get(s, key) == GetReply("", 0, ErrWrongGroup))
              && (forall args :: G.Put(s, args) == (s, ErrWrongGroup))
    ensures var s, ops := StateOf(run[k].groups, g, sh), Puts(run, steps, 0, k, sh);
            s.status == G.Serving && AssignedSince(run[k], sh, 0) ==>
              && (forall key :: H.Answers(ops, GetRequest(key), G.Get(s, key)))
              && (forall args :: H.Answers(ops, PutRequest(args), PutReply(G.Put(s, args).1)))
  {
    var s, ops := StateOf(run[k].groups, g, sh), Puts(run, steps, 0, k, sh);
    if s.status == G.Serving && AssignedSince(run[k], sh, 0) {
      var _ := ShardedStoreIsFlat(run, steps, k, sh);
      forall key ensures H.Answers(ops, GetRequest(key), G.Get(s, key)) { H.StoreAnswers(ops, GetRequest(key)); }
      forall args ensures H.Answers(ops, PutRequest(args), PutReply(G.Put(s, args).1)) {
        H.StoreAnswers(ops, PutRequest(args));
      }
    }
  }

  lemma {:induction false} PutsGrow(run: seq<System>, steps: seq<Step>, j: nat, k: nat, sh: nat)
    requires IsRun(run, steps) && j <= k <= |steps|
    ensures Puts(run, steps, 0, j, sh) <= Puts(run, steps, 0, k, sh)
    ensures j < k && IsPut(run, steps, j, sh) ==>
              var n := |Puts(run, steps, 0, j, sh)|;
              n < |Puts(run, steps, 0, k, sh)| && Puts(run, steps, 0, k, sh)[n] == steps[j].args
    decreases k
  {
    if j < k { PutsGrow(run, steps, j, k - 1, sh); }
  }

  /** An acknowledged write is there for good: a put that any group has answered OK was executed by a
      group that served the shard; it, or the earlier copy whose reply it got, has taken effect, and at
      all later times it stands in the history of its key at its version. */
  lemma AcknowledgedIsForever(run: seq<System>, steps: seq<Step>, i: nat, k: nat, sh: nat) returns (m: nat)
    requires IsRun(run, steps) && i < k <= |steps| && sh < run[0].shards && AssignedSince(run[k], sh, 0)
    requires steps[i].ClientPut? && steps[i].shard == sh
    requires G.Put(StateOf(run[i].groups, steps[i].gid, sh), steps[i].args).1 == OK
    ensures IsPut(run, steps, i, sh)
    ensures var ops := Puts(run, steps, 0, k, sh);
            && m <= |Puts(run, steps, 0, i, sh)| < |ops|
            && (ops[m] == steps[i].args || H.SameRequest(ops[m], steps[i].args)) && H.Wins(ops, m)
            && ops[m].version < |H.Winners(ops, |ops|, ops[m].key)|
            && H.Winners(ops, |ops|, ops[m].key)[ops[m].version] == ops[m]
  {
    GroupAnswers(run, steps, i, steps[i].gid, sh);
    MetaGrows(run, steps, i, k);
    assert AssignedSince(run[i], sh, 0) by {
      forall w | 0 <= w < |run[i].meta| ensures OnGroups(run[i].meta[w], sh) { assert OnGroups(run[k].meta[w], sh); }
    }
    var _ := ShardedStoreIsFlat(run, steps, i, sh);
    PutsGrow(run, steps, i, k, sh);
    var before, ops := Puts(run, steps, 0, i, sh), Puts(run, steps, 0, k, sh);
    H.ExecutedPrefix(EMPTY_STORE, before, ops, |before|);
    m := H.OkTookEffect(ops, |before|);
    H.WinStays(ops, m, |ops|);
  }

  /** What a group answers to a migration request, and what it then holds: a freeze succeeds exactly if
      the copy is then frozen for that number, an install exactly if it is then serving at that number,
      a delete exactly if it is then gone for that number. */
  lemma MigrationAnswers(s: G.ShardState, num: nat, data: Store)
    ensures var (s', reply) := G.Freeze(s, num);
            && (reply.err == OK <==> s'.status == G.Frozen && s'.num == num)
            && (reply.err == OK <==> (s.status == G.Serving && s.num < num) || (s.status == G.Frozen && s.num == num))
            && (reply.err == OK ==> reply.data == s'.data == s.data) && reply.num == s'.num
            && (reply.err != OK ==> reply.err == ErrWrongGroup && s' == s)
    ensures var (s', err) := G.Install(s, num, data);
            && (err == OK <==> s'.status == G.Serving && s'.num == num)
            && (err == OK <==> (s.status == G.Absent && s.num < num) || (s.status == G.Serving && s.num == num))
            && (err == OK && s.num < num ==> s'.data == data) && (err == OK && s.num == num ==> s' == s)
            && (err != OK ==> err == ErrWrongGroup && s' == s)
    ensures var (s', err) := G.Delete(s, num);
            && (err == OK <==> Gone(s', num))
            && (err == OK <==> Gone(s, num) || (s.status == G.Frozen && s.num == num))
            && (err == OK && !Gone(s, num) ==> s' == G.ShardState(EMPTY_STORE, G.Absent, num))
            && (err != OK ==> err == ErrWrongGroup) && (err != OK || Gone(s, num) ==> s' == s)
  {
  }

  /** The `i`-th and a later step are puts of copies of one request. */
  ghost predicate Copies(run: seq<System>, steps: seq<Step>, i: nat, j: nat, sh: nat)
    requires IsRun(run, steps)
  {
    && i < j && IsPut(run, steps, i, sh) && IsPut(run, steps, j, sh) && steps[i].args.clientId != 0
    && steps[j].args.clientId == steps[i].args.clientId && steps[j].args.sequence == steps[i].args.sequence
  }

  lemma {:induction false} FirstPut(run: seq<System>, steps: seq<Step>, i: nat, j: nat, sh: nat)
    requires IsRun(run, steps) && i < j <= |steps| && IsPut(run, steps, i, sh)
    ensures |Puts(run, steps, i, j, sh)| > 0 && Puts(run, steps, i, j, sh)[0] == steps[i].args
    decreases j
  {
    if i + 1 < j { FirstPut(run, steps, i, j - 1, sh); }
  }

  /** At most once through moves: however often a shard moves between two copies of a request, once
      the first has run its write the second leaves the values alone, wherever it is executed, and
      gets the first one's reply or `ErrStaleRequest`. */
  lemma WriteOnceThroughMoves(run: seq<System>, steps: seq<Step>, i: nat, j: nat, sh: nat)
    requires IsRun(run, steps) && Copies(run, steps, i, j, sh)
    requires run[i].meta != [] && AssignedSince(run[j], sh, |run[i].meta| - 1)
    requires Dedup.Runs(StateOf(run[i].groups, steps[i].gid, sh).data, steps[i].args)
    ensures var s := StateOf(run[j].groups, steps[j].gid, sh);
            var (s', later) := G.Put(s, steps[j].args);
            var first := G.Put(StateOf(run[i].groups, steps[i].gid, sh), steps[i].args).1;
            && !Dedup.Runs(s.data, steps[j].args)
            && s'.data.values == s.data.values && (later == first || later == ErrStaleRequest)
  {
    var st, ops := StateOf(run[i].groups, steps[i].gid, sh).data, Puts(run, steps, i, j, sh);
    NoWriteIsLost(run, steps, i, j, steps[i].gid, steps[j].gid, sh);
    FirstPut(run, steps, i, j, sh);
    var all := ops + [steps[j].args];
    H.ExecutedPrefix(st, ops, all, |ops|);
    Dedup.AtMostOnce(st, all, 0, |ops|);
  }

  // ----- the clerk's panic -----

  /** Every put that reaches a group is a copy that one of the clients has sent. */
  ghost predicate SentByClients(steps: seq<Step>, d: Dedup.Deployment) {
    forall k {:trigger steps[k]} :: 0 <= k < |steps| && steps[k].ClientPut? ==> steps[k].args in d.sent
  }

  /** An install that takes effect gives the live copy, or an empty shard. */
  lemma GivenIsLiveOrEmpty(sys: System, chain: seq<Config>, flat: seq<Store>, rpc: Rpc, sh: nat)
    requires Inv(sys, chain, flat) && rpc in sys.rpcs && rpc.InstallRpc? && sh < |flat|
    ensures var given := Given(sys, flat, rpc.gid, rpc.shard, rpc.num, rpc.data);
            given[sh] == flat[sh] || given[sh] == EMPTY_STORE
  {
    assert RpcOk(sys, chain, rpc);
    if rpc.num < |chain| || Latest(sys).pending.None? {
      PastRpc(sys, chain, flat, rpc.num, rpc.shard);
    } else {
      PendingMove(sys, chain, flat, rpc.num, rpc.shard);
    }
  }

  /** The live copy's watermarks never pass the clients' own, through whatever moves. */
  lemma {:induction false} LiveWatermark(run: seq<System>, steps: seq<Step>, d: Dedup.Deployment, k: nat, sh: nat)
    requires IsRun(run, steps) && k <= |steps| && sh < run[0].shards
    requires Dedup.DeploymentInv(d) && SentByClients(steps, d)
    ensures Dedup.WatermarkOk(d.clients, Live(run, steps, k)[sh])
  {
    if k > 0 {
      LiveWatermark(run, steps, d, k - 1, sh);
      StepAt(run, steps, k - 1);
      var step, flat := steps[k - 1], Live(run, steps, k - 1);
      if step.ClientPut? && step.shard == sh {
        Dedup.ExecuteKeepsWatermark(d.clients, flat[sh], step.args);
      } else if step.ExecuteRpc? && step.rpc.InstallRpc? {
        var chain := RunInv(run, steps, k - 1);
        GivenIsLiveOrEmpty(run[k - 1], chain, flat, step.rpc, sh);
      }
    }
  }

  /** The sharded store never turns an active request away: in every run whose puts are copies clients
      have sent, however shards move and wherever a copy of a request its client has not completed is
      executed, the answer is not `ErrStaleRequest`. */
  lemma ActiveNeverStaleInRuns(run: seq<System>, steps: seq<Step>, ds: seq<Dedup.Deployment>, k: nat, g: nat, sh: nat,
                               args: PutArgs)
    requires IsRun(run, steps) && k <= |steps| && sh < run[0].shards && Dedup.IsHistory(ds)
    requires var d := ds[|ds| - 1];
             && SentByClients(steps, d) && args in d.sent
             && args.clientId in d.clients && Dedup.Active(d.clients[args.clientId], args.sequence)
    ensures G.Put(StateOf(run[k].groups, g, sh), args).1 != ErrStaleRequest
  {
    var d := ds[|ds| - 1];
    Dedup.InvHolds(ds);
    LiveWatermark(run, steps, d, k, sh);
    var chain := RunInv(run, steps, k);
    if StateOf(run[k].groups, g, sh).status == G.Serving {
      ServingIsLive(run[k], chain, Live(run, steps, k), g, sh);
      Dedup.NotStale(d.clients, Live(run, steps, k)[sh], args);
    }
  }

  // ----- one server per shard -----

  /** At most one group serves a shard; between migrations the owner named by the current
      configuration serves it and no other group has a copy, and of a shard on no group nobody has. */
  lemma SingleServer(run: seq<System>, steps: seq<Step>, k: nat, sh: nat)
    requires IsRun(run, steps) && k <= |steps| && sh < run[0].shards
    ensures forall g: nat, g': nat {:trigger StateOf(run[k].groups, g, sh), StateOf(run[k].groups, g', sh)} ::
              StateOf(run[k].groups, g, sh).status == StateOf(run[k].groups, g', sh).status == G.Serving ==> g == g'
    ensures run[k].meta != [] && sh < |Latest(run[k]).current.shards|
    ensures Latest(run[k]).pending.None? ==>
              var owner := Latest(run[k]).current.shards[sh];
              && (owner != NO_GROUP ==> StateOf(run[k].groups, owner, sh).status == G.Serving)
              && forall g: nat {:trigger StateOf(run[k].groups, g, sh)} ::
                   g != owner || owner == NO_GROUP ==> StateOf(run[k].groups, g, sh).status == G.Absent
  {
    var chain := RunInv(run, steps, k);
    assert ShardAt(run[k], sh, Live(run, steps, k)[sh]);
    assert RecordOk(Latest(run[k]), chain);
  }

  lemma FrozenStep(sys: System, sys': System, step: Step, g: nat, sh: nat)
    requires StepTo(sys, sys', step) && StateOf(sys.groups, g, sh).status == G.Frozen
    ensures var s, s' := StateOf(sys.groups, g, sh), StateOf(sys'.groups, g, sh);
            s' != s ==> step == ExecuteRpc(DeleteRpc(g, sh, s.num)) && step.rpc in sys.rpcs
                        && s' == G.ShardState(EMPTY_STORE, G.Absent, s.num)
  {
    if step.ExecuteRpc? {
      var rpc := step.rpc;
      if rpc.gid != g || rpc.shard != sh { OtherCopy(sys, sys', rpc.gid, rpc.shard, g, sh); }
    } else if step.ClientPut? {
      if step.gid != g || step.shard != sh { OtherCopy(sys, sys', step.gid, step.shard, g, sh); }
    } else if !step.ExecuteCas? {
      assert ControllerStep(sys, sys', step, step.c);
    }
  }

  lemma OtherCopy(sys: System, sys': System, g: nat, sh: nat, g': nat, sh': nat)
    requires g in sys.groups && sh < |sys.groups[g]| && (g != g' || sh != sh')
    requires exists s, out :: Updates(sys, sys', g, sh, s, out)
    ensures StateOf(sys'.groups, g', sh') == StateOf(sys.groups, g', sh')
  {
    var s, out :| Updates(sys, sys', g, sh, s, out);
    UpdatedState(sys, sys', g, sh, s, out, g', sh');
  }

  lemma FrozenTarget(sys: System, chain: seq<Config>, flat: seq<Store>, g: nat, sh: nat, n: nat)
    requires GroupsOk(sys, chain, flat) && sh < sys.shards && RpcOk(sys, chain, DeleteRpc(g, sh, n))
    requires StateOf(sys.groups, g, sh).status == G.Frozen && StateOf(sys.groups, g, sh).num == n
    ensures sh < |Latest(sys).current.shards| && Latest(sys).current.num == n
    ensures Latest(sys).current.shards[sh] != NO_GROUP ==>
              StateOf(sys.groups, Latest(sys).current.shards[sh], sh) == G.ShardState(flat[sh], G.Serving, n)
  {
    FrozenIsPending(sys, chain, flat, g, sh, n);
    assert ShardAt(sys, sh, flat[sh]);
    assert RecordOk(Latest(sys), chain);
  }

  /** A copy frozen for configuration `n` changes only by being deleted at `n`, once `n` is published;
      unless the shard goes to no group, the target of the move is by then serving the live copy. */
  lemma FrozenOnlyDeleted(run: seq<System>, steps: seq<Step>, k: nat, g: nat, sh: nat)
    requires IsRun(run, steps) && k < |steps| && sh < run[0].shards
    requires StateOf(run[k].groups, g, sh).status == G.Frozen
    requires StateOf(run[k + 1].groups, g, sh) != StateOf(run[k].groups, g, sh)
    ensures var n := StateOf(run[k].groups, g, sh).num;
            && StateOf(run[k + 1].groups, g, sh) == G.ShardState(EMPTY_STORE, G.Absent, n)
            && run[k].meta != [] && sh < |Latest(run[k]).current.shards| && Latest(run[k]).current.num == n
            && var target := Latest(run[k]).current.shards[sh];
               var s := StateOf(run[k].groups, target, sh);
               target != NO_GROUP ==>
                 && s.status == G.Serving && s.num == n
                 && (AssignedSince(run[k], sh, 0) ==> s.data == Flat(run, steps, k, sh))
  {
    var chain := RunInv(run, steps, k);
    var n := StateOf(run[k].groups, g, sh).num;
    StepAt(run, steps, k);
    FrozenStep(run[k], run[k + 1], steps[k], g, sh);
    assert RpcOk(run[k], chain, DeleteRpc(g, sh, n));
    FrozenTarget(run[k], chain, Live(run, steps, k), g, sh, n);
    if AssignedSince(run[k], sh, 0) { LiveIsFlat(run, steps, k, sh); }
  }

  // ----- controllers -----

  /** Every configuration number ever gets one plan and one configuration, whoever owned the record
      when it was written, and each plan starts where the one before it ended. */
  lemma OnePlanPerNumber(run: seq<System>, steps: seq<Step>, j: nat, k: nat, v: nat, w: nat)
    requires IsRun(run, steps) && j <= |steps| && k <= |steps| && v < |run[j].meta| && w < |run[k].meta|
    ensures var r, s := run[j].meta[v], run[k].meta[w];
            && (r.current.num == s.current.num ==> r.current == s.current)
            && (r.pending.Some? ==>
                  && r.pending.value.to.num == r.pending.value.from.num + 1
                  && (r.current == r.pending.value.from || r.current == r.pending.value.to))
            && (r.pending.Some? && s.pending.Some? && s.pending.value.to.num == r.pending.value.to.num ==>
                  s.pending == r.pending)
            && (r.pending.Some? && s.pending.Some? && s.pending.value.to.num == r.pending.value.to.num + 1 ==>
                  s.pending.value.from == r.pending.value.to)
  {
    var last := if j < k then k else j;
    MetaGrows(run, steps, j, last);
    MetaGrows(run, steps, k, last);
    var chain := RunInv(run, steps, last);
    assert RecordOk(run[last].meta[v], chain) && RecordOk(run[last].meta[w], chain);
  }

  lemma {:induction false} OwnersInOrder(sys: System, chain: seq<Config>, v: nat, w: nat)
    requires MetaOk(sys, chain) && v <= w < |sys.meta|
    ensures sys.meta[v].epoch <= sys.meta[w].epoch
    ensures sys.meta[v].epoch == sys.meta[w].epoch ==> sys.meta[v].owner == sys.meta[w].owner
    decreases w
  {
    if v < w {
      OwnersInOrder(sys, chain, v, w - 1);
      assert Follows(sys.meta[w - 1], sys.meta[w - 1 + 1]);
    }
  }

  /** Fencing: a write lands only in its own epoch, by that epoch's owner, or to begin the next
      epoch without touching configuration or plan. Once a newer epoch has begun, nothing an
      older owner wrote, however late it arrives, lands any more. */
  lemma WritesAreFenced(run: seq<System>, steps: seq<Step>, j: nat, k: nat, v: nat)
    requires IsRun(run, steps) && j <= k < |steps| && v < |run[j].meta| && steps[k].ExecuteCas?
    ensures var before, rec := run[j].meta[v], steps[k].rec;
            && run[k].meta != [] && run[k + 1].meta == run[k].meta + [rec]
            && before.epoch <= rec.epoch
            && (before.epoch == rec.epoch ==> before.owner == rec.owner)
            && var last := Latest(run[k]);
               rec.epoch == last.epoch || rec == last.(owner := rec.owner, epoch := last.epoch + 1)
  {
    MetaGrows(run, steps, j, k + 1);
    var chain := RunInv(run, steps, k + 1);
    StepAt(run, steps, k);
    OwnersInOrder(run[k + 1], chain, v, |run[k].meta|);
    assert Follows(run[k + 1].meta[|run[k].meta| - 1], run[k + 1].meta[|run[k].meta| - 1 + 1]);
  }

  /** Reading the record back settles an uncertain write: it equals what the controller wrote exactly
      when that very write has landed and nothing has been written since. */
  lemma ReadBackIsSound(run: seq<System>, steps: seq<Step>, k: nat, c: nat)
    requires IsRun(run, steps) && k <= |steps| && c < |run[k].controllers| && run[k].controllers[c].pc.Cas?
    requires run[k].meta != [] && |run[k].meta| > run[k].controllers[c].pc.version
    ensures var pc := run[k].controllers[c].pc;
            Latest(run[k]) == pc.rec <==> |run[k].meta| == pc.version + 1 && run[k].meta[pc.version] == pc.rec
  {
    var chain := RunInv(run, steps, k);
    assert PcOk(run[k], chain, c, run[k].controllers[c]);
  }

  /** The reply a group gives to a migration request. */
  function ReplyTo(sys: System, rpc: Rpc): Err {
    var s := StateOf(sys.groups, rpc.gid, rpc.shard);
    match rpc
    case FreezeRpc(_, _, num) => G.Freeze(s, num).1.err
    case InstallRpc(_, _, num, data) => G.Install(s, num, data).1
    case DeleteRpc(_, _, num) => G.Delete(s, num).1
  }

  lemma NeverRefused(sys: System, chain: seq<Config>, flat: seq<Store>, c: nat)
    requires Inv(sys, chain, flat) && c < |sys.controllers|
    requires var ctl := sys.controllers[c];
             && Owned(Latest(sys), c, ctl) && (ctl.pc.Migrate? || ctl.pc.Deleting?)
             && ctl.pc.i < sys.shards && Working(ctl.pc)
    ensures ReplyTo(sys, NextRpc(sys.controllers[c].pc)) == OK
  {
    var ctl := sys.controllers[c];
    assert PcOk(sys, chain, c, ctl);
    PlanInChain(sys, chain, flat, c);
    assert ctl.pc.state == Latest(sys);
    assert ShardAt(sys, ctl.pc.i, flat[ctl.pc.i]);
  }

  /** Recoverability: a controller that replays a plan, wherever the previous owner stopped, is
      never refused by a group while it is still the owner. */
  lemma OwnerNeverRefused(run: seq<System>, steps: seq<Step>, k: nat, c: nat)
    requires IsRun(run, steps) && k <= |steps| && run[k].meta != [] && c < |run[k].controllers|
    requires var ctl := run[k].controllers[c];
             && Owned(Latest(run[k]), c, ctl) && (ctl.pc.Migrate? || ctl.pc.Deleting?)
             && ctl.pc.i < run[k].shards && Working(ctl.pc)
    ensures ReplyTo(run[k], NextRpc(run[k].controllers[c].pc)) == OK
  {
    var chain := RunInv(run, steps, k);
    NeverRefused(run[k], chain, Live(run, steps, k), c);
  }
}
