/** The replicated store end to end: Raft, the state machine glue, the store and its request
    table. */
module ReplicatedKv {
  import opened KvStore
  import opened Dedup
  import H = KvHistory
  import opened RaftLog
  import opened RaftSystem
  import opened RaftRep
  import opened RaftSafety

  predicate IsPut(cs: Log, k: nat) {
    k < |cs| && cs[k].cmd.Op? && cs[k].cmd.req.PutRequest?
  }

  function PutAt(cs: Log, k: nat): PutArgs
    requires IsPut(cs, k)
  {
    cs[k].cmd.req.args
  }

  /** Two entries that are copies of one client request. */
  predicate SameRequest(cs: Log, i: nat, j: nat) {
    && IsPut(cs, i) && IsPut(cs, j)
    && PutAt(cs, i).clientId == PutAt(cs, j).clientId != 0 && PutAt(cs, i).sequence == PutAt(cs, j).sequence
  }

  lemma {:induction false} SettledInLog(cs: Log, i: nat, j: nat, c: nat, q: nat, r: Err)
    requires i <= j < |cs| && Settled(Replay(cs, i), c, q, r)
    ensures Settled(Replay(cs, j), c, q, r)
    decreases j
  {
    if i < j {
      SettledInLog(cs, i, j - 1, c, q, r);
      if IsPut(cs, j) { SettledStays(Replay(cs, j - 1), PutAt(cs, j), c, q, r); }
    }
  }

  /** Of all the copies of a write in a committed sequence, at most one changes the values, and the
      later ones get its reply or `ErrStaleRequest`. */
  lemma WriteOnce(cs: Log, i: nat, j: nat)
    requires 0 < i < j && SameRequest(cs, i, j) && Runs(Replay(cs, i - 1), PutAt(cs, i))
    ensures Replay(cs, j).values == Replay(cs, j - 1).values
    ensures var first := DoPut(Replay(cs, i - 1), PutAt(cs, i)).1;
            var later := DoPut(Replay(cs, j - 1), PutAt(cs, j)).1;
            later == first || later == ErrStaleRequest
  {
    var args := PutAt(cs, i);
    var r := DoPut(Replay(cs, i - 1), args).1;
    RunSettles(Replay(cs, i - 1), args);
    SettledInLog(cs, i, j - 1, args.clientId, args.sequence, r);
    SettledCopy(Replay(cs, j - 1), PutAt(cs, j), r);
  }

  /** The puts among the first `k` operations. */
  function PutsIn(cs: Log, k: nat): seq<PutArgs>
    requires k < |cs|
  {
    if k == 0 then [] else PutsIn(cs, k - 1) + if IsPut(cs, k) then [PutAt(cs, k)] else []
  }

  lemma {:induction false} ReplayIsExecuted(cs: Log, k: nat)
    requires k < |cs|
    ensures Replay(cs, k) == Executed(EMPTY_STORE, PutsIn(cs, k), |PutsIn(cs, k)|)
  {
    if k > 0 {
      ReplayIsExecuted(cs, k - 1);
      H.ExecutedPrefix(EMPTY_STORE, PutsIn(cs, k - 1), PutsIn(cs, k), |PutsIn(cs, k - 1)|);
      if !IsPut(cs, k) { assert PutsIn(cs, k) == PutsIn(cs, k - 1); }
    }
  }

  /** The result is what the puts before the operation make it: a get shows the last put to its key that
      took effect, with the number of such puts as its version; a put takes effect if it runs with that
      number as its version. */
  ghost predicate AnsweredIn(cs: Log, r: Result) {
    exists k {:trigger cs[k]} ::
      0 < k < |cs| && cs[k].cmd == Op(r.id, r.req) && H.Answers(PutsIn(cs, k - 1), r.req, r.reply)
  }

  lemma ResultAnswered(cs: Log, r: Result)
    requires ResultIn(cs, r)
    ensures AnsweredIn(cs, r)
  {
    var k :| 0 < k < |cs| && cs[k].cmd == Op(r.id, r.req) && r.reply == DoOp(Replay(cs, k - 1), r.req).1;
    AnsweredAt(cs, k - 1, r.req);
    assert cs[k].cmd == Op(r.id, r.req);
  }

  lemma AnsweredAt(cs: Log, k: nat, req: Request)
    requires k < |cs|
    ensures H.Answers(PutsIn(cs, k), req, DoOp(Replay(cs, k), req).1)
  {
    ReplayIsExecuted(cs, k);
    H.StoreAnswers(PutsIn(cs, k), req);
  }

  /** Linearizability: for every run of the replicated store there is one sequence of submitted
      operations, each there once, such that every server's store, whenever looked at, is that sequence
      executed up to some point; every reply a client-facing call returned is its operation's result
      there, as the puts before it determine it; an operation submitted after another had returned comes
      after it; and no client request takes effect twice, through retries, leader changes, crashes,
      snapshots and restores. */
  lemma ReplicatedStoreIsOneStore(run: seq<System>) returns (cs: Log)
    requires IsRun(run)
    ensures forall x, a :: 0 <= x < |run| && 0 <= a < |run[x].procs| ==>
              run[x].procs[a].applied < |cs| && run[x].procs[a].store == Replay(cs, run[x].procs[a].applied)
    ensures forall x, r :: 0 <= x < |run| && r in run[x].returned ==> ResultIn(cs, r) && AnsweredIn(cs, r)
    ensures OnlySubmitted(cs, run[|run| - 1].registered) && OncePerOperation(cs)
    ensures forall x :: 0 <= x < |run| ==> InRealTime(cs, run[x])
    ensures forall i, j :: 0 < i < j && SameRequest(cs, i, j) && Runs(Replay(cs, i - 1), PutAt(cs, i)) ==>
              Replay(cs, j).values == Replay(cs, j - 1).values
  {
    cs := StateMachineSafety(run);
    forall x, r | 0 <= x < |run| && r in run[x].returned ensures AnsweredIn(cs, r) { ResultAnswered(cs, r); }
    forall x, a | 0 <= x < |run| && 0 <= a < |run[x].procs|
      ensures run[x].procs[a].applied < |cs| && run[x].procs[a].store == Replay(cs, run[x].procs[a].applied)
    {
      assert Explains(cs, run[x].procs[a]);
    }
    forall i, j | 0 < i < j && SameRequest(cs, i, j) && Runs(Replay(cs, i - 1), PutAt(cs, i))
      ensures Replay(cs, j).values == Replay(cs, j - 1).values
    {
      WriteOnce(cs, i, j);
    }
  }

  // ----- the clerks' panics -----

  /** Every put handed to the replicated store is a copy that one of the clients has sent. */
  ghost predicate SentByClients(registered: map<OpId, Request>, d: Deployment) {
    forall id <- registered :: registered[id].PutRequest? ==> registered[id].args in d.sent
  }

  lemma {:induction false} WatermarkInLog(clients: map<nat, Client>, cs: Log, k: nat)
    requires k < |cs| && forall j :: 0 < j < |cs| && IsPut(cs, j) ==> CopyOk(clients, PutAt(cs, j))
    ensures WatermarkOk(clients, Replay(cs, k))
  {
    if k > 0 {
      WatermarkInLog(clients, cs, k - 1);
      if IsPut(cs, k) { ExecuteKeepsWatermark(clients, Replay(cs, k - 1), PutAt(cs, k)); }
    }
  }

  lemma LogOfCopies(registered: map<OpId, Request>, d: Deployment, cs: Log)
    requires OnlySubmitted(cs, registered) && SentByClients(registered, d) && DeploymentInv(d)
    ensures forall j :: 0 < j < |cs| && IsPut(cs, j) ==> CopyOk(d.clients, PutAt(cs, j))
  {
    forall j | 0 < j < |cs| && IsPut(cs, j) ensures CopyOk(d.clients, PutAt(cs, j)) {
      assert registered[cs[j].cmd.id] == cs[j].cmd.req;
    }
  }

  lemma ResultNotStale(clients: map<nat, Client>, cs: Log, r: Result, args: PutArgs)
    requires ResultIn(cs, r) && r.req == PutRequest(args)
    requires forall j :: 0 < j < |cs| && IsPut(cs, j) ==> CopyOk(clients, PutAt(cs, j))
    requires CopyOk(clients, args) && Active(clients[args.clientId], args.sequence)
    ensures r.reply != PutReply(ErrStaleRequest)
  {
    var k :| 0 < k < |cs| && cs[k].cmd == Op(r.id, r.req) && r.reply == DoOp(Replay(cs, k - 1), r.req).1;
    WatermarkInLog(clients, cs, k - 1);
    NotStale(clients, Replay(cs, k - 1), args);
  }

  /** The replicated store never turns an active request away: however its clients interleave, retry
      and complete their requests, and whatever the servers do, no call for a request its client has
      not completed returns `ErrStaleRequest`, and no server's store would answer it so. */
  lemma ActiveNeverStaleInRuns(run: seq<System>, ds: seq<Deployment>, args: PutArgs)
    requires IsRun(run) && IsHistory(ds)
    requires var d := ds[|ds| - 1];
             && SentByClients(run[|run| - 1].registered, d) && args in d.sent
             && args.clientId in d.clients && Active(d.clients[args.clientId], args.sequence)
    ensures forall r :: r in run[|run| - 1].returned && r.req == PutRequest(args) ==>
              r.reply != PutReply(ErrStaleRequest)
    ensures forall x, a :: 0 <= x < |run| && 0 <= a < |run[x].procs| ==>
              DoPut(run[x].procs[a].store, args).1 != ErrStaleRequest
  {
    var d := ds[|ds| - 1];
    InvHolds(ds);
    var cs := StateMachineSafety(run);
    LogOfCopies(run[|run| - 1].registered, d, cs);
    assert CopyOk(d.clients, args);
    forall r | r in run[|run| - 1].returned && r.req == PutRequest(args) ensures r.reply != PutReply(ErrStaleRequest) {
      ResultNotStale(d.clients, cs, r, args);
    }
    forall x, a | 0 <= x < |run| && 0 <= a < |run[x].procs|
      ensures DoPut(run[x].procs[a].store, args).1 != ErrStaleRequest
    {
      assert Explains(cs, run[x].procs[a]);
      WatermarkInLog(d.clients, cs, run[x].procs[a].applied);
      NotStale(d.clients, run[x].procs[a].store, args);
    }
  }
}
