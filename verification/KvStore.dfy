/** The versioned key/value store: request and reply types, the single-copy conditional
    put, and the deduplicated store that every replica runs (values plus request table). */
module KvStore {

  datatype Option<+T> = None | Some(value: T)

  datatype Err = OK | ErrNoKey | ErrVersion | ErrMaybe | ErrWrongLeader | ErrWrongGroup | ErrStaleRequest

  datatype PutArgs = PutArgs(key: string, value: string, version: nat,
                             clientId: nat, sequence: nat, ack: nat)

  datatype Request = GetRequest(key: string) | PutRequest(args: PutArgs)

  datatype Reply = GetReply(value: string, version: nat, err: Err) | PutReply(err: Err)

  datatype Versioned = Versioned(value: string, version: nat)

  type Values = map<string, Versioned>

  datatype Session = Session(ack: nat, replies: map<nat, Err>)

  type Table = map<nat, Session>

  datatype Store = Store(values: Values, requests: Table)

  const EMPTY_STORE := Store(map[], map[])

  /** The version a key has in the eyes of a conditional put: 0 when it does not exist. */
  function VersionOf(values: Values, key: string): nat {
    if key in values then values[key].version else 0
  }

  function Read(values: Values, key: string): Reply {
    if key in values then GetReply(values[key].value, values[key].version, OK)
    else GetReply("", 0, ErrNoKey)
  }

  /** The single-copy conditional put. */
  function Write(values: Values, args: PutArgs): (Values, Err) {
    if args.key !in values then
      if args.version == 0 then (values[args.key := Versioned(args.value, 1)], OK)
      else (values, ErrNoKey)
    else if values[args.key].version != args.version then (values, ErrVersion)
    else (values[args.key := Versioned(args.value, args.version + 1)], OK)
  }

  /** The session of a client as `Table.Do` sees it: a fresh one when there is none. */
  function SessionOf(table: Table, client: nat): Session {
    if client in table then table[client] else Session(0, map[])
  }

  /** Raising the watermark drops every cached reply at or below it. */
  function Acknowledge(s: Session, ack: nat): Session {
    if ack > s.ack then Session(ack, map q | q in s.replies && q > ack :: s.replies[q]) else s
  }

  /** `Table.Do` around the conditional put. */
  function DoPut(st: Store, args: PutArgs): (Store, Err) {
    if args.clientId == 0 then
      var (values, err) := Write(st.values, args);
      (Store(values, st.requests), err)
    else if args.sequence == 0 || args.ack >= args.sequence then (st, ErrStaleRequest)
    else
      var session := Acknowledge(SessionOf(st.requests, args.clientId), args.ack);
      if args.sequence <= session.ack then
        (st.(requests := st.requests[args.clientId := session]), ErrStaleRequest)
      else if args.sequence in session.replies then
        (st.(requests := st.requests[args.clientId := session]), session.replies[args.sequence])
      else
        var (values, err) := Write(st.values, args);
        var session' := session.(replies := session.replies[args.sequence := err]);
        (Store(values, st.requests[args.clientId := session']), err)
  }

  /** `DoOp` of the replicated store. */
  function DoOp(st: Store, req: Request): (Store, Reply) {
    match req
    case GetRequest(key) => (st, Read(st.values, key))
    case PutRequest(args) =>
      var (st', err) := DoPut(st, args);
      (st', PutReply(err))
  }
}
