/** Deduplicated writes: the client's contiguous acknowledgement watermark and the server's
    reply cache together run every write at most once and never turn away an active one. */
module Dedup {
  import opened KvStore

  // ----- the server side: one write, at most one effect -----

  /** The body of the write runs when `args` is executed on `st`. */
  predicate Runs(st: Store, args: PutArgs) {
    || args.clientId == 0
    || (&& args.sequence != 0 && args.ack < args.sequence
        && var s := Acknowledge(SessionOf(st.requests, args.clientId), args.ack);
           args.sequence > s.ack && args.sequence !in s.replies)
  }

  /** Request (c, q) is behind the watermark, or its reply is cached and is `r`. */
  predicate Settled(st: Store, c: nat, q: nat, r: Err) {
    && c in st.requests
    && var s := st.requests[c];
       q <= s.ack || (q in s.replies && s.replies[q] == r)
  }

  lemma RunSettles(st: Store, args: PutArgs)
    requires args.clientId != 0 && Runs(st, args)
    ensures var (st', r) := DoPut(st, args);
            && Settled(st', args.clientId, args.sequence, r)
            && (st'.values, r) == Write(st.values, args)
  {
  }

  /** Nothing unsettles a request: not other clients, not other requests, not late copies with
      any acknowledgement they may carry. */
  lemma SettledStays(st: Store, args: PutArgs, c: nat, q: nat, r: Err)
    requires Settled(st, c, q, r)
    ensures Settled(DoPut(st, args).0, c, q, r)
  {
  }

  lemma SettledCopy(st: Store, args: PutArgs, r: Err)
    requires args.clientId != 0 && Settled(st, args.clientId, args.sequence, r)
    ensures !Runs(st, args)
    ensures var (st', e) := DoPut(st, args); st'.values == st.values && (e == r || e == ErrStaleRequest)
  {
  }

  /** The store after executing the first `k` of a sequence of copies. */
  function Executed(st: Store, ops: seq<PutArgs>, k: nat): Store
    requires k <= |ops|
  {
    if k == 0 then st else DoPut(Executed(st, ops, k - 1), ops[k - 1]).0
  }

  /** At-most-once effect: whatever the order of the copies of all requests and whatever
      acknowledgements they carry, if the copy at `i` runs the body then every later copy of the
      same request leaves the values alone and gets the original reply or `ErrStaleRequest`. */
  lemma {:induction false} AtMostOnce(st: Store, ops: seq<PutArgs>, i: nat, j: nat)
    requires i < j < |ops| && ops[i].clientId != 0
    requires ops[j].clientId == ops[i].clientId && ops[j].sequence == ops[i].sequence
    requires Runs(Executed(st, ops, i), ops[i])
    ensures !Runs(Executed(st, ops, j), ops[j])
    ensures Executed(st, ops, j + 1).values == Executed(st, ops, j).values
    ensures var first := DoPut(Executed(st, ops, i), ops[i]).1;
            var later := DoPut(Executed(st, ops, j), ops[j]).1;
            later == first || later == ErrStaleRequest
  {
    var r := DoPut(Executed(st, ops, i), ops[i]).1;
    RunSettles(Executed(st, ops, i), ops[i]);
    StaysSettled(st, ops, i + 1, j, ops[i].clientId, ops[i].sequence, r);
    SettledCopy(Executed(st, ops, j), ops[j], r);
  }

  lemma {:induction false} StaysSettled(st: Store, ops: seq<PutArgs>, i: nat, j: nat, c: nat, q: nat, r: Err)
    requires i <= j <= |ops| && Settled(Executed(st, ops, i), c, q, r)
    ensures Settled(Executed(st, ops, j), c, q, r)
    decreases j
  {
    if i < j {
      StaysSettled(st, ops, i, j - 1, c, q, r);
      SettledStays(Executed(st, ops, j - 1), ops[j - 1], c, q, r);
    }
  }

  // ----- the client side: the watermark -----

  /** A client's counters: sequences up to `next` were handed out; those up to `ack`, and those
      in `completed`, are done. */
  datatype Client = Client(next: nat, ack: nat, completed: set<nat>)

  predicate ClientOk(c: Client) {
    && c.ack <= c.next && c.ack + 1 !in c.completed
    && forall q <- c.completed :: c.ack < q <= c.next
  }

  predicate Done(c: Client, q: nat) {
    q <= c.ack || q in c.completed
  }

  predicate Active(c: Client, q: nat) {
    0 < q <= c.next && !Done(c, q)
  }

  predicate DonePrefix(c: Client, a: nat) {
    forall q: nat :: q <= a ==> Done(c, q)
  }

  /** The acknowledgement is the longest contiguous prefix of completed sequences. */
  lemma AckIsLongestPrefix(c: Client, a: nat)
    requires ClientOk(c)
    ensures DonePrefix(c, a) <==> a <= c.ack
  {
    assert !Done(c, c.ack + 1);
  }

  /** The loop that moves the watermark over a contiguous run. */
  function Advance(ack: nat, completed: set<nat>): (nat, set<nat>)
    decreases |completed|
  {
    if ack + 1 in completed then Advance(ack + 1, completed - {ack + 1}) else (ack, completed)
  }

  function Complete(c: Client, q: nat): Client {
    if q <= c.ack then c
    else
      var (ack, completed) := Advance(c.ack, c.completed + {q});
      c.(ack := ack, completed := completed)
  }

  lemma {:induction false} AdvanceOk(next: nat, ack: nat, completed: set<nat>)
    requires ack <= next && forall q <- completed :: ack < q <= next
    ensures var (ack', completed') := Advance(ack, completed);
            && ack <= ack' && ClientOk(Client(next, ack', completed'))
            && forall q :: Done(Client(next, ack', completed'), q) <==> Done(Client(next, ack, completed), q)
    decreases |completed|
  {
    if ack + 1 in completed { AdvanceOk(next, ack + 1, completed - {ack + 1}); }
  }

  /** Completing a request marks that request done and no other. */
  lemma CompleteOk(c: Client, q: nat)
    requires ClientOk(c) && q <= c.next
    ensures ClientOk(Complete(c, q)) && c.ack <= Complete(c, q).ack && Complete(c, q).next == c.next
    ensures forall p :: Done(Complete(c, q), p) <==> Done(c, p) || p == q
  {
    if q > c.ack {
      AdvanceOk(c.next, c.ack, c.completed + {q});
    }
  }

  // ----- clients, delayed copies and any number of stores -----

  /** `sent` holds every copy ever sent; `stores` are replicas or shard copies. */
  datatype Deployment = Deployment(clients: map<nat, Client>, sent: set<PutArgs>, stores: map<nat, Store>)

  datatype Event =
    | Join(id: nat)
    | BeginRequest(id: nat)
    | SendCopy(args: PutArgs)
    | CompleteRequest(id: nat, sequence: nat)
    | Execute(replica: nat, args: PutArgs)
    | Transfer(from: nat, to: nat)
    | Drop(replica: nat)

  predicate Starts(d: Deployment) {
    d.clients == map[] && d.sent == {} && forall r <- d.stores :: d.stores[r] == EMPTY_STORE
  }

  /** Copies may be executed late, repeatedly, out of order and on any store; a snapshot, a
      restore or a shard move copies one store over another; a store may be emptied. */
  predicate Happens(d: Deployment, d': Deployment, e: Event) {
    match e
    case Join(id) =>
      id != 0 && id !in d.clients && d' == d.(clients := d.clients[id := Client(0, 0, {})])
    case BeginRequest(id) =>
      id in d.clients && d' == d.(clients := d.clients[id := d.clients[id].(next := d.clients[id].next + 1)])
    case SendCopy(args) =>
      && args.clientId in d.clients && Active(d.clients[args.clientId], args.sequence)
      && args.ack == d.clients[args.clientId].ack
      && d' == d.(sent := d.sent + {args})
    case CompleteRequest(id, q) =>
      && id in d.clients && Active(d.clients[id], q)
      && d' == d.(clients := d.clients[id := Complete(d.clients[id], q)])
    case Execute(r, args) =>
      r in d.stores && args in d.sent && d' == d.(stores := d.stores[r := DoPut(d.stores[r], args).0])
    case Transfer(from, to) =>
      from in d.stores && to in d.stores && d' == d.(stores := d.stores[to := d.stores[from]])
    case Drop(r) => r in d.stores && d' == d.(stores := d.stores[r := EMPTY_STORE])
  }

  /** A store's watermark for a client never passes the client's own. */
  predicate WatermarkOk(clients: map<nat, Client>, st: Store) {
    && (forall id <- st.requests :: id in clients && st.requests[id].ack <= clients[id].ack)
    && (forall id <- st.requests, q <- st.requests[id].replies :: st.requests[id].replies[q] != ErrStaleRequest)
  }

  predicate CopyOk(clients: map<nat, Client>, args: PutArgs) {
    && args.clientId in clients && args.clientId != 0
    && args.ack < args.sequence && args.ack <= clients[args.clientId].ack
  }

  predicate DeploymentInv(d: Deployment) {
    && (forall id <- d.clients :: id != 0 && ClientOk(d.clients[id]))
    && (forall args <- d.sent :: CopyOk(d.clients, args))
    && (forall r <- d.stores :: WatermarkOk(d.clients, d.stores[r]))
  }

  lemma ExecuteKeepsWatermark(clients: map<nat, Client>, st: Store, args: PutArgs)
    requires WatermarkOk(clients, st) && CopyOk(clients, args)
    ensures WatermarkOk(clients, DoPut(st, args).0)
  {
    var requests := DoPut(st, args).0.requests;
    forall id | id in requests ensures id in clients && requests[id].ack <= clients[id].ack {
      if id != args.clientId { assert id in st.requests && requests[id] == st.requests[id]; }
    }
    forall id, q | id in requests && q in requests[id].replies ensures requests[id].replies[q] != ErrStaleRequest {
      if id != args.clientId { assert id in st.requests && requests[id] == st.requests[id]; }
    }
  }

  /** Clients only move forward. */
  lemma ClientsGrow(d: Deployment, clients: map<nat, Client>)
    requires DeploymentInv(d)
    requires forall id <- d.clients :: id in clients && d.clients[id].ack <= clients[id].ack
    ensures forall args <- d.sent :: CopyOk(clients, args)
    ensures forall r <- d.stores :: WatermarkOk(clients, d.stores[r])
  {
    forall args | args in d.sent ensures CopyOk(clients, args) { assert CopyOk(d.clients, args); }
    forall r | r in d.stores ensures WatermarkOk(clients, d.stores[r]) { assert WatermarkOk(d.clients, d.stores[r]); }
  }

  lemma EventKeepsInv(d: Deployment, d': Deployment, e: Event)
    requires DeploymentInv(d) && Happens(d, d', e)
    ensures DeploymentInv(d')
  {
    match e
    case CompleteRequest(id, q) =>
      CompleteOk(d.clients[id], q);
      ClientMoves(d, d', id);
    case Join(id) => ClientMoves(d, d', id);
    case BeginRequest(id) => ClientMoves(d, d', id);
    case Execute(r, args) =>
      ExecuteKeepsWatermark(d.clients, d.stores[r], args);
      StoreMoves(d, d', r);
    case Transfer(from, to) => StoreMoves(d, d', to);
    case Drop(r) => StoreMoves(d, d', r);
    case SendCopy(args) =>
  }

  /** One client joins or moves forward. */
  lemma ClientMoves(d: Deployment, d': Deployment, id: nat)
    requires DeploymentInv(d) && id in d'.clients && d' == d.(clients := d.clients[id := d'.clients[id]])
    requires id != 0 && ClientOk(d'.clients[id]) && (id in d.clients ==> d.clients[id].ack <= d'.clients[id].ack)
    ensures DeploymentInv(d')
  {
    ClientsGrow(d, d'.clients);
  }

  /** One store changes. */
  lemma StoreMoves(d: Deployment, d': Deployment, r: nat)
    requires DeploymentInv(d) && r in d'.stores && d' == d.(stores := d.stores[r := d'.stores[r]])
    requires WatermarkOk(d.clients, d'.stores[r])
    ensures DeploymentInv(d')
  {
  }

  ghost predicate IsHistory(ds: seq<Deployment>) {
    && |ds| > 0 && Starts(ds[0])
    && forall k :: 0 <= k < |ds| - 1 ==> Evolves(ds[k], ds[k + 1])
  }

  ghost predicate Evolves(d: Deployment, d': Deployment) {
    exists e :: Happens(d, d', e)
  }

  lemma {:induction false} InvHolds(ds: seq<Deployment>)
    requires IsHistory(ds)
    ensures DeploymentInv(ds[|ds| - 1])
  {
    if |ds| > 1 {
      var last := |ds| - 1;
      InvHolds(ds[..last]);
      assert Evolves(ds[last - 1], ds[last]);
      var e :| Happens(ds[last - 1], ds[last], e);
      EventKeepsInv(ds[last - 1], ds[last], e);
    }
  }

  lemma NotStale(clients: map<nat, Client>, st: Store, args: PutArgs)
    requires WatermarkOk(clients, st) && CopyOk(clients, args) && Active(clients[args.clientId], args.sequence)
    ensures DoPut(st, args).1 != ErrStaleRequest
  {
  }

  /** Active requests are never stale: a copy of a request its client has not completed, executed
      on any store at any time, however late and whatever was executed before, is not turned
      away. The clerks' panics on `ErrStaleRequest` are unreachable. */
  lemma ActiveNeverStale(ds: seq<Deployment>, r: nat, args: PutArgs)
    requires IsHistory(ds)
    requires var d := ds[|ds| - 1];
             && r in d.stores && args in d.sent
             && args.clientId in d.clients && Active(d.clients[args.clientId], args.sequence)
    ensures DoPut(ds[|ds| - 1].stores[r], args).1 != ErrStaleRequest
  {
    InvHolds(ds);
    var d := ds[|ds| - 1];
    NotStale(d.clients, d.stores[r], args);
  }
}
