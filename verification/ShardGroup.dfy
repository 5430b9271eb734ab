/** One shard as a replica group keeps it, and the operations of the group's state machine on it.
    Migration operations are fenced by the shard's status and configuration number. */
module ShardGroup {
  import opened KvStore

  datatype Status = Absent | Serving | Frozen

  /** `data` holds values, versions and the request table: all of it migrates. */
  datatype ShardState = ShardState(data: Store, status: Status, num: nat)

  const NO_SHARD := ShardState(EMPTY_STORE, Absent, 0)

  datatype FreezeReply = FreezeReply(err: Err, num: nat, data: Store)

  function Get(s: ShardState, key: string): Reply {
    if s.status != Serving then GetReply("", 0, ErrWrongGroup) else Read(s.data.values, key)
  }

  function Put(s: ShardState, args: PutArgs): (ShardState, Err) {
    if s.status != Serving then (s, ErrWrongGroup)
    else
      var (data, err) := DoPut(s.data, args);
      (s.(data := data), err)
  }

  function Freeze(s: ShardState, num: nat): (ShardState, FreezeReply) {
    if num == s.num && s.status == Frozen then (s, FreezeReply(OK, s.num, s.data))
    else if s.status != Serving || num <= s.num then (s, FreezeReply(ErrWrongGroup, s.num, EMPTY_STORE))
    else (s.(status := Frozen, num := num), FreezeReply(OK, num, s.data))
  }

  function Install(s: ShardState, num: nat, data: Store): (ShardState, Err) {
    if num == s.num && s.status == Serving then (s, OK)
    else if s.status != Absent || num <= s.num then (s, ErrWrongGroup)
    else (ShardState(data, Serving, num), OK)
  }

  function Delete(s: ShardState, num: nat): (ShardState, Err) {
    if num < s.num || (num == s.num && s.status == Absent) then (s, OK)
    else if num != s.num || s.status != Frozen then (s, ErrWrongGroup)
    else (ShardState(EMPTY_STORE, Absent, num), OK)
  }
}
