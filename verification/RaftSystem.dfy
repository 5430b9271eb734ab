/** The replicated store as a whole: every server runs a Raft node, its applier and the service;
    the network is the set of all messages ever sent, any of which may arrive late, repeatedly,
    out of order or never. */
module RaftSystem {
  import opened KvStore
  import opened RaftLog
  import opened RaftGroup
  import opened RaftNode

  /** A reply names the request it answers, as the calling goroutine knows it. A probe is an
      independent heartbeat. */
  datatype Message =
    | VoteCall(to: nat, vote: VoteArgs)
    | VoteReturn(to: nat, from: nat, vote: VoteArgs, voteReply: VoteReply)
    | AppendCall(to: nat, append: AppendArgs, probe: bool)
    | AppendReturn(to: nat, from: nat, append: AppendArgs, probe: bool, appendReply: AppendReply)
    | InstallCall(to: nat, install: InstallArgs)
    | InstallReturn(to: nat, from: nat, install: InstallArgs, replyTerm: nat)

  /** A `Submit` call waiting for its operation; the reply channel holds one answer. */
  datatype Waiter = Waiter(req: Request, started: bool, answer: Option<Reply>)

  /** The state machine glue: `epoch` tells incarnations of a server apart. */
  datatype Rsm = Rsm(epoch: nat, nextSequence: nat, waiters: map<OpId, Waiter>)

  /** `outbox` is what the applier has taken but not yet handed to the service; `applied` is the
      index of the last message the service took. */
  datatype Proc = Proc(node: Node, outbox: seq<ApplyMsg>, store: Store, applied: nat, rsm: Rsm)

  /** A `Submit` that returned OK. */
  datatype Result = Result(id: OpId, req: Request, reply: Reply)

  /** `registered`, `epochs` and `returned` only record what has happened. */
  datatype System = System(procs: seq<Proc>, net: set<Message>, registered: map<OpId, Request>,
                           epochs: set<(nat, nat)>, returned: set<Result>)

  datatype Step =
    | Timeout(i: nat)
    | Receive(i: nat, msg: Message)
    | Replicate(i: nat, peer: nat)
    | Probe(i: nat, peer: nat)
    | Register(i: nat, req: Request)
    | StartOp(i: nat, id: OpId)
    | Return(i: nat, id: OpId)
    | TakeBatch(i: nat)
    | Deliver(i: nat)
    | Compact(i: nat)
    | Crash(i: nat, epoch: nat)

  function RestoredStore(snapshot: Option<Store>): Store {
    if snapshot.Some? then snapshot.value else EMPTY_STORE
  }

  function BootedProc(me: nat, peers: nat, d: Disk, epoch: nat): Proc
    requires me < peers
  {
    Proc(Booted(me, peers, d), [], RestoredStore(d.snapshot), d.lastIncludedIndex, Rsm(epoch, 0, map[]))
  }

  ghost predicate Init(sys: System) {
    && |sys.procs| > 0
    && (forall i :: 0 <= i < |sys.procs| ==>
          sys.procs[i] == BootedProc(i, |sys.procs|, FRESH_DISK, sys.procs[i].rsm.epoch))
    && sys.net == {} && sys.registered == map[] && sys.returned == {}
    && forall i :: 0 <= i < |sys.procs| ==> (i, sys.procs[i].rsm.epoch) in sys.epochs
  }

  function Apply(st: Store, cmd: Command): Store {
    if cmd.Op? then DoOp(st, cmd.req).0 else st
  }

  /** The applier answers the waiter of exactly this operation, if it is still there and has no
      answer yet. */
  function Answered(rsm: Rsm, id: OpId, reply: Reply): Rsm {
    if id in rsm.waiters && rsm.waiters[id].answer.None?
    then rsm.(waiters := rsm.waiters[id := rsm.waiters[id].(answer := Some(reply))]) else rsm
  }

  /** The service takes one message from the applier. */
  function Consume(p: Proc): Proc
    requires p.outbox != []
  {
    match p.outbox[0]
    case CommandMsg(index, cmd) =>
      p.(outbox := p.outbox[1..], store := Apply(p.store, cmd), applied := index,
         rsm := if cmd.Op? then Answered(p.rsm, cmd.id, DoOp(p.store, cmd.req).1) else p.rsm)
    case SnapshotMsg(index, term, data) =>
      p.(outbox := p.outbox[1..], store := if data.Some? then data.value else p.store, applied := index)
  }

  function VoteCalls(nd: Node): set<Message> {
    set p: nat | p < nd.peers && p != nd.me :: VoteCall(p, VoteRequest(nd))
  }

  /** A server handles a message: its new node and the messages it sends. */
  function Handle(nd: Node, m: Message): (Node, set<Message>)
    requires m.VoteReturn? || m.AppendReturn? || m.InstallReturn? ==> m.from < nd.peers
  {
    match m
    case VoteCall(to, args) =>
      var (nd', reply) := HandleVote(nd, args);
      (nd', {VoteReturn(args.candidateId, nd.me, args, reply)})
    case VoteReturn(to, from, args, reply) => (HandleVoteReply(nd, from, args, reply), {})
    case AppendCall(to, args, probe) =>
      var (nd', reply) := HandleAppend(nd, args);
      (nd', {AppendReturn(args.leaderId, nd.me, args, probe, reply)})
    case AppendReturn(to, from, args, probe, reply) =>
      (if probe then HandleProbeReply(nd, reply) else HandleAppendReply(nd, from, args, reply), {})
    case InstallCall(to, args) =>
      var (nd', term) := HandleInstall(nd, args);
      (nd', {InstallReturn(args.leaderId, nd.me, args, term)})
    case InstallReturn(to, from, args, term) => (HandleInstallReply(nd, from, args, term), {})
  }

  /** What `Claim` needs to stay within the kept log. */
  predicate InBounds(nd: NodeData) {
    nd.lastIncludedIndex <= nd.lastApplied && nd.commitIndex <= LastIndex(nd)
  }

  /** Process `i` becomes `p` and sends `out`; the others stand still. */
  predicate Becomes(sys: System, sys': System, i: nat, p: Proc, out: set<Message>) {
    i < |sys.procs| && sys'.procs == sys.procs[i := p] && sys'.net == sys.net + out
  }

  /** Nothing is registered, returned or restarted. */
  predicate Quiet(sys: System, sys': System) {
    sys'.registered == sys.registered && sys'.epochs == sys.epochs && sys'.returned == sys.returned
  }

  /** A step of the Raft node, its applier or its snapshots. */
  predicate NodeStep(sys: System, sys': System, step: Step)
    requires step.i < |sys.procs|
  {
    var i := step.i;
    var p := sys.procs[i];
    var nd := p.node;
    match step
    case Timeout(_) =>
      && nd.role != Leader
      && var nd' := StartElection(nd);
         Becomes(sys, sys', i, p.(node := nd'), VoteCalls(nd'))
    case Receive(_, m) =>
      && m in sys.net && m.to == i
      && (m.VoteReturn? || m.AppendReturn? || m.InstallReturn? ==> m.from < nd.peers)
      && var (nd', out) := Handle(nd, m);
         Becomes(sys, sys', i, p.(node := nd'), out)
    case Replicate(_, peer) =>
      && nd.role == Leader && peer < nd.peers && peer != i
      && if SnapshotDue(nd, peer) then Becomes(sys, sys', i, p, {InstallCall(peer, InstallFor(nd))})
         else nd.nextIndex[peer] <= LastIndex(nd) + 1
              && Becomes(sys, sys', i, p, {AppendCall(peer, AppendFor(nd, peer), false)})
    case Probe(_, peer) =>
      && nd.role == Leader && peer < nd.peers && peer != i
      && Becomes(sys, sys', i, p, {AppendCall(peer, Heartbeat(nd), true)})
    case TakeBatch(_) =>
      && p.outbox == [] && CanClaim(nd) && InBounds(nd)
      && var (nd', batch) := Claim(nd);
         Becomes(sys, sys', i, p.(node := nd', outbox := batch), {})
    case Deliver(_) =>
      p.outbox != [] && Becomes(sys, sys', i, Consume(p), {})
    case Compact(_) =>
      Becomes(sys, sys', i, p.(node := TakeSnapshot(nd, p.applied, p.store)), {})
    case _ => false
  }

  /** `Submit` registers its waiter before it hands the operation to Raft. */
  predicate RegisterStep(sys: System, sys': System, i: nat, req: Request)
    requires i < |sys.procs|
  {
    var p := sys.procs[i];
    var id := OpId(i, p.rsm.epoch, p.rsm.nextSequence + 1);
    var rsm' := Rsm(p.rsm.epoch, p.rsm.nextSequence + 1, p.rsm.waiters[id := Waiter(req, false, None)]);
    sys' == sys.(procs := sys.procs[i := p.(rsm := rsm')], registered := sys.registered[id := req])
  }

  predicate StartStep(sys: System, sys': System, i: nat, id: OpId)
    requires i < |sys.procs|
  {
    var p := sys.procs[i];
    && id in p.rsm.waiters && !p.rsm.waiters[id].started
    && var w := p.rsm.waiters[id];
       var rsm' := p.rsm.(waiters := p.rsm.waiters[id := w.(started := true)]);
       Becomes(sys, sys', i, p.(node := Start(p.node, Op(id, w.req)), rsm := rsm'), {}) && Quiet(sys, sys')
  }

  /** `Submit` returns: OK with the answer, or `ErrWrongLeader` at any time. */
  predicate ReturnStep(sys: System, sys': System, i: nat, id: OpId)
    requires i < |sys.procs|
  {
    var p := sys.procs[i];
    && id in p.rsm.waiters
    && var w := p.rsm.waiters[id];
       var gone := sys.procs[i := p.(rsm := p.rsm.(waiters := p.rsm.waiters - {id}))];
       || sys' == sys.(procs := gone)
       || (w.answer.Some?
           && sys' == sys.(procs := gone, returned := sys.returned + {Result(id, w.req, w.answer.value)}))
  }

  /** A crash loses everything but the disk; the new incarnation draws a fresh epoch. */
  predicate CrashStep(sys: System, sys': System, i: nat, epoch: nat)
    requires i < |sys.procs|
  {
    var nd := sys.procs[i].node;
    && (i, epoch) !in sys.epochs
    && sys' == sys.(procs := sys.procs[i := BootedProc(nd.me, nd.peers, nd.disk, epoch)],
                    epochs := sys.epochs + {(i, epoch)})
  }

  predicate StepTo(sys: System, sys': System, step: Step) {
    && step.i < |sys.procs|
    && match step
       case Register(i, req) => RegisterStep(sys, sys', i, req)
       case StartOp(i, id) => StartStep(sys, sys', i, id)
       case Return(i, id) => ReturnStep(sys, sys', i, id)
       case Crash(i, epoch) => CrashStep(sys, sys', i, epoch)
       case _ => NodeStep(sys, sys', step) && Quiet(sys, sys')
  }

  ghost predicate Next(sys: System, sys': System) {
    exists step :: StepTo(sys, sys', step)
  }

  /** A finite run from an initial state. */
  ghost predicate IsRun(run: seq<System>) {
    && |run| > 0 && Init(run[0])
    && forall k :: 0 <= k < |run| - 1 ==> Next(run[k], run[k + 1])
  }
}
