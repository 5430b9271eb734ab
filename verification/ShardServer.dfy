/** The replica group's state machine object: an array of shards updated in place. */
module ShardServer {
  import opened KvStore
  import KvServer
  import G = ShardGroup
  import opened ShardSystem

  class KVServer {
    const shards: array<G.ShardState>
    const shardOf: string -> nat

    ghost predicate Valid()
      reads this
    {
      forall key :: shardOf(key) < shards.Length
    }

    ghost function View(): seq<G.ShardState>
      reads this, shards
    {
      shards[..]
    }

    /** The first group starts out serving every shard, every other group none. */
    constructor (gid: nat, n: nat, shardOf: string -> nat)
      requires forall key :: shardOf(key) < n
      ensures Valid() && fresh(shards) && this.shardOf == shardOf
      ensures View() == seq(n, _ => InitialShard(gid))
    {
      this.shardOf := shardOf;
      shards := new G.ShardState[n](_ => G.NO_SHARD);
      new;
      if gid == FIRST_GROUP {
        for i := 0 to n
          invariant forall j :: 0 <= j < i ==> shards[j] == InitialShard(gid)
        {
          shards[i] := shards[i].(status := G.Serving, num := FIRST_NUM, data := EMPTY_STORE);
        }
      }
      assert shards[..] == seq(n, _ => InitialShard(gid));
    }

    method Get(key: string) returns (reply: Reply)
      requires Valid()
      ensures reply == G.Get(View()[shardOf(key)], key)
    {
      var state := shards[shardOf(key)];
      if state.status != G.Serving {
        return GetReply("", 0, ErrWrongGroup);
      }
      if key !in state.data.values {
        return GetReply("", 0, ErrNoKey);
      }
      return GetReply(state.data.values[key].value, state.data.values[key].version, OK);
    }

    /** The shard's own request table guards the conditional write. */
    method Put(args: PutArgs) returns (err: Err)
      requires Valid()
      modifies shards
      ensures var (s, e) := G.Put(old(View())[shardOf(args.key)], args);
              err == e && View() == old(View())[shardOf(args.key) := s]
    {
      var sh := shardOf(args.key);
      if shards[sh].status != G.Serving {
        return ErrWrongGroup;
      }
      var kv := new KvServer.KVServer();
      kv.Restore(Some(shards[sh].data));
      err := kv.DoPut(args);
      shards[sh] := shards[sh].(data := Store(kv.values, kv.requests));
    }

    method Freeze(sh: nat, num: nat) returns (reply: G.FreezeReply)
      requires sh < shards.Length
      modifies shards
      ensures var (s, r) := G.Freeze(old(View())[sh], num); reply == r && View() == old(View())[sh := s]
    {
      var state := shards[sh];
      if num == state.num && state.status == G.Frozen {
        return G.FreezeReply(OK, state.num, state.data);
      }
      if state.status != G.Serving || num <= state.num {
        return G.FreezeReply(ErrWrongGroup, state.num, EMPTY_STORE);
      }
      shards[sh] := state.(status := G.Frozen, num := num);
      return G.FreezeReply(OK, num, state.data);
    }

    method Install(sh: nat, num: nat, data: Store) returns (err: Err)
      requires sh < shards.Length
      modifies shards
      ensures var (s, e) := G.Install(old(View())[sh], num, data); err == e && View() == old(View())[sh := s]
    {
      var state := shards[sh];
      if num == state.num && state.status == G.Serving {
        return OK;
      }
      if state.status != G.Absent || num <= state.num {
        return ErrWrongGroup;
      }
      shards[sh] := G.ShardState(data, G.Serving, num);
      return OK;
    }

    method Delete(sh: nat, num: nat) returns (err: Err)
      requires sh < shards.Length
      modifies shards
      ensures var (s, e) := G.Delete(old(View())[sh], num); err == e && View() == old(View())[sh := s]
    {
      var state := shards[sh];
      if num < state.num || (num == state.num && state.status == G.Absent) {
        return OK;
      }
      if num != state.num || state.status != G.Frozen {
        return ErrWrongGroup;
      }
      shards[sh] := state.(data := EMPTY_STORE, status := G.Absent);
      return OK;
    }

    method Snapshot() returns (data: seq<G.ShardState>)
      ensures data == View()
    {
      data := shards[..];
    }

    /** An empty snapshot leaves the shards alone. */
    method Restore(data: Option<seq<G.ShardState>>)
      requires data.Some? ==> |data.value| == shards.Length
      modifies shards
      ensures View() == if data.Some? then data.value else old(View())
    {
      if data.None? {
        return;
      }
      for i := 0 to shards.Length
        invariant shards[..i] == data.value[..i]
      {
        shards[i] := data.value[i];
      }
    }
  }
}
