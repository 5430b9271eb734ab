/** The objects around the store that are updated in place: the client's request counter, the
    server's store with its request table, and the state machine glue. */
module KvServer {
  import opened KvStore
  import opened RaftLog
  import opened RaftNode
  import opened RaftSystem
  import Dedup

  const UINT64_LIMIT: nat := 0x1_0000_0000_0000_0000

  class RequestClient {
    var id: nat
    var next: nat
    var ack: nat
    var completed: set<nat>

    ghost function View(): Dedup.Client
      reads this
    {
      Dedup.Client(next, ack, completed)
    }

    ghost predicate Valid()
      reads this
    {
      Dedup.ClientOk(View())
    }

    constructor ()
      ensures Valid() && id == 0 && View() == Dedup.Client(0, 0, {})
    {
      id, next, ack, completed := 0, 0, 0, {};
    }

    /** Hands out the next sequence; `drawn` is the random identity used the first time. The
        source panics when the 64-bit counter is exhausted. */
    method Begin(drawn: nat) returns (panicked: bool, client: nat, sequence: nat)
      requires Valid() && drawn != 0
      modifies this
      ensures Valid() && panicked == (old(next) + 1 >= UINT64_LIMIT)
      ensures id == (if old(id) == 0 then drawn else old(id))
      ensures panicked ==> View() == old(View())
      ensures !panicked ==> client == id && sequence == next && View() == old(View()).(next := old(next) + 1)
      ensures !panicked ==> Dedup.Active(View(), sequence)
    {
      if id == 0 {
        id := drawn;
      }
      if next + 1 >= UINT64_LIMIT {
        return true, 0, 0;
      }
      next := next + 1;
      return false, id, next;
    }

    /** Marks a sequence done and moves the watermark over the contiguous run. */
    method Complete(sequence: nat)
      requires Valid() && sequence <= next
      modifies this`ack, this`completed
      ensures Valid() && View() == Dedup.Complete(old(View()), sequence)
    {
      Dedup.CompleteOk(View(), sequence);
      if sequence <= ack {
        return;
      }
      completed := completed + {sequence};
      ghost var target := Dedup.Advance(ack, completed);
      while ack + 1 in completed
        invariant Dedup.Advance(ack, completed) == target
        decreases |completed|
      {
        ack := ack + 1;
        completed := completed - {ack};
      }
    }
  }

  class KVServer {
    var values: Values
    var requests: Table

    ghost function View(): Store
      reads this
    {
      Store(values, requests)
    }

    constructor ()
      ensures View() == EMPTY_STORE
    {
      values, requests := map[], map[];
    }

    method PutLocked(args: PutArgs) returns (err: Err)
      modifies this`values
      ensures (values, err) == Write(old(values), args)
    {
      if args.key !in values {
        if args.version != 0 {
          return ErrNoKey;
        }
        values := values[args.key := Versioned(args.value, 1)];
        return OK;
      }
      var entry := values[args.key];
      if entry.version != args.version {
        return ErrVersion;
      }
      values := values[args.key := Versioned(args.value, entry.version + 1)];
      return OK;
    }

    /** Drops the cached replies at or below the watermark, in any order. */
    static method Prune(replies: map<nat, Err>, ack: nat) returns (kept: map<nat, Err>)
      ensures kept == map q | q in replies && q > ack :: replies[q]
    {
      kept := replies;
      var todo := replies.Keys;
      while todo != {}
        invariant todo <= replies.Keys
        invariant kept.Keys <= replies.Keys && forall q <- kept :: kept[q] == replies[q]
        invariant forall q <- replies :: q in kept <==> q in todo || q > ack
        decreases todo
      {
        var q :| q in todo;
        if q <= ack {
          kept := kept - {q};
        }
        todo := todo - {q};
      }
    }

    /** `Table.Do` around the conditional write. */
    method DoPut(args: PutArgs) returns (err: Err)
      modifies this
      ensures (View(), err) == KvStore.DoPut(old(View()), args)
    {
      if args.clientId == 0 {
        err := PutLocked(args);
        return;
      }
      if args.sequence == 0 || args.ack >= args.sequence {
        return ErrStaleRequest;
      }
      var session := if args.clientId in requests then requests[args.clientId] else Session(0, map[]);
      if args.ack > session.ack {
        var kept := Prune(session.replies, args.ack);
        session := Session(args.ack, kept);
      }
      if args.sequence <= session.ack {
        requests := requests[args.clientId := session];
        return ErrStaleRequest;
      }
      if args.sequence in session.replies {
        requests := requests[args.clientId := session];
        return session.replies[args.sequence];
      }
      err := PutLocked(args);
      session := session.(replies := session.replies[args.sequence := err]);
      requests := requests[args.clientId := session];
    }

    method DoOp(req: Request) returns (reply: Reply)
      modifies this
      ensures (View(), reply) == KvStore.DoOp(old(View()), req)
    {
      match req
      case GetRequest(key) =>
        if key !in values {
          reply := GetReply("", 0, ErrNoKey);
        } else {
          reply := GetReply(values[key].value, values[key].version, OK);
        }
      case PutRequest(args) =>
        var err := DoPut(args);
        reply := PutReply(err);
    }

    /** An empty snapshot leaves the store alone. */
    method Restore(data: Option<Store>)
      modifies this
      ensures View() == if data.Some? then data.value else old(View())
    {
      if data.Some? {
        values, requests := data.value.values, data.value.requests;
      }
    }
  }

  /** The state machine glue of one incarnation of one server. */
  class Glue {
    const me: nat
    const epoch: nat
    const kv: KVServer
    var nextSequence: nat
    var waiters: map<OpId, Waiter>

    ghost function View(): Rsm
      reads this
    {
      Rsm(epoch, nextSequence, waiters)
    }

    /** Waiters are for sequences this incarnation has handed out. */
    ghost predicate Valid()
      reads this
    {
      forall id <- waiters :: id.server == me && id.epoch == epoch && id.sequence <= nextSequence
    }

    constructor (me: nat, epoch: nat, kv: KVServer, snapshot: Option<Store>)
      requires kv.View() == EMPTY_STORE
      modifies kv
      ensures Valid() && this.me == me && this.kv == kv && View() == Rsm(epoch, 0, map[])
      ensures kv.View() == RestoredStore(snapshot)
    {
      this.me, this.epoch, this.kv := me, epoch, kv;
      nextSequence, waiters := 0, map[];
      new;
      kv.Restore(snapshot);
    }

    /** The first locked section of `Submit`. */
    method Register(req: Request) returns (id: OpId)
      requires Valid()
      modifies this
      ensures Valid() && id !in old(waiters)
      ensures id == OpId(me, epoch, old(nextSequence) + 1)
      ensures View() == Rsm(epoch, old(nextSequence) + 1, old(waiters)[id := Waiter(req, false, None)])
    {
      nextSequence := nextSequence + 1;
      id := OpId(me, epoch, nextSequence);
      waiters := waiters[id := Waiter(req, false, None)];
    }

    /** The applier handles one message; only the waiter of the same operation is answered. */
    method Take(p: Proc)
      requires Valid() && p.outbox != [] && p.store == kv.View() && p.rsm == View()
      modifies this, kv
      ensures Valid()
      ensures kv.View() == Consume(p).store && View() == Consume(p).rsm
      ensures nextSequence == old(nextSequence) && waiters.Keys == old(waiters).Keys
      ensures match p.outbox[0]
              case SnapshotMsg(_, _, _) => waiters == old(waiters)
              case CommandMsg(_, cmd) =>
                forall id <- waiters ::
                  waiters[id] == if cmd.Op? && cmd.id == id && old(waiters)[id].answer.None?
                                 then old(waiters)[id].(answer := Some(DoOp(p.store, cmd.req).1))
                                 else old(waiters)[id]
    {
      match p.outbox[0]
      case SnapshotMsg(index, term, data) =>
        kv.Restore(data);
      case CommandMsg(index, cmd) =>
        if cmd.Op? {
          var reply := kv.DoOp(cmd.req);
          if cmd.id in waiters && waiters[cmd.id].answer.None? {
            waiters := waiters[cmd.id := waiters[cmd.id].(answer := Some(reply))];
          }
        }
    }
  }
}
