/** The single-copy server and its clerk. A call may be lost, its reply may be lost, and its request
    may be executed long after the clerk gave up waiting and sent it again. */
module KvClerk {
  import opened KvStore
  import H = KvHistory

  /** What a clerk makes of a reply; None means it sends the request again. */
  function Verdict(err: Err, resent: bool): Option<Err> {
    match err
    case OK => Some(OK)
    case ErrNoKey => Some(ErrNoKey)
    case ErrVersion => Some(if resent then ErrMaybe else ErrVersion)
    case _ => None
  }

  /** One attempt: the request of a clerk's `Put` number `op`. */
  datatype Copy = Copy(op: nat, args: PutArgs)

  /** A `Put` in progress: `waiting` is the attempt the clerk is blocked on. */
  datatype Attempt = Attempt(args: PutArgs, resent: bool, waiting: Option<nat>)

  /** `net` holds attempts not executed yet and `replies` those that were. `effects` lists, in order,
      the puts that changed the store; `results` what the clerks returned. */
  datatype World = World(
    values: Values, net: map<nat, Copy>, replies: map<nat, (nat, Err)>, nextCopy: nat,
    puts: map<nat, Attempt>, effects: seq<nat>, results: map<nat, Err>)

  const EMPTY_WORLD := World(map[], map[], map[], 0, map[], [], map[])

  datatype Step =
    | Begin(op: nat, args: PutArgs)
    | Send(op: nat)
    | Execute(copy: nat)
    | Lose(copy: nat)
    | Timeout(op: nat)
    | Return(op: nat)

  function Begun(w: World, op: nat, args: PutArgs): World {
    w.(puts := w.puts[op := Attempt(args, false, None)])
  }

  function Executed(w: World, copy: nat): World
    requires copy in w.net
  {
    var c := w.net[copy];
    var (values, err) := Write(w.values, c.args);
    w.(values := values, net := w.net - {copy}, replies := w.replies[copy := (c.op, err)],
       effects := w.effects + if err == OK then [c.op] else [])
  }

  predicate StepTo(w: World, w': World, step: Step) {
    match step
    case Begin(op, args) => op !in w.puts && w' == Begun(w, op, args)
    case Send(op) =>
      && op in w.puts && w.puts[op].waiting.None? && op !in w.results
      && w' == w.(net := w.net[w.nextCopy := Copy(op, w.puts[op].args)], nextCopy := w.nextCopy + 1,
                  puts := w.puts[op := w.puts[op].(waiting := Some(w.nextCopy))])
    case Execute(copy) => copy in w.net && w' == Executed(w, copy)
    case Lose(copy) => copy in w.net && w' == w.(net := w.net - {copy})
    case Timeout(op) =>
      && op in w.puts && w.puts[op].waiting.Some? && op !in w.results
      && w' == w.(puts := w.puts[op := w.puts[op].(waiting := None, resent := true)])
    case Return(op) =>
      && op in w.puts && w.puts[op].waiting.Some? && op !in w.results && w.puts[op].waiting.value in w.replies
      && var verdict := Verdict(w.replies[w.puts[op].waiting.value].1, w.puts[op].resent);
         if verdict.Some? then w' == w.(results := w.results[op := verdict.value])
         else w' == w.(puts := w.puts[op := w.puts[op].(waiting := None, resent := true)])
  }

  // ----- invariant -----

  /** A put that took effect can never match the version again. */
  predicate Stale(values: Values, args: PutArgs) {
    args.key in values && args.version < values[args.key].version
  }

  predicate CopyOk(w: World, id: nat) {
    && id < w.nextCopy
    && (id in w.net ==>
          && id !in w.replies && w.net[id].op in w.puts && w.puts[w.net[id].op].args == w.net[id].args
          && Only(w, w.net[id].op, id))
    && (id in w.replies ==>
          && w.replies[id].0 in w.puts && Only(w, w.replies[id].0, id)
          && (w.replies[id].1 == OK ==> w.replies[id].0 in w.effects))
  }

  /** Until it is sent again, a put has the one attempt its clerk waits for. */
  predicate Only(w: World, op: nat, id: nat)
    requires op in w.puts
  {
    w.puts[op].resent || w.puts[op].waiting == Some(id)
  }

  predicate PutOk(w: World, op: nat)
    requires op in w.puts
  {
    var p := w.puts[op];
    && (op in w.effects ==> Stale(w.values, p.args))
    && (op in w.effects && !p.resent ==>
          p.waiting.Some? && p.waiting.value in w.replies && w.replies[p.waiting.value] == (op, OK))
    && (p.waiting.Some? ==> p.waiting.value < w.nextCopy)
    && (p.waiting.Some? && p.waiting.value in w.replies ==> w.replies[p.waiting.value].0 == op)
    && (p.waiting.Some? && p.waiting.value in w.net ==> w.net[p.waiting.value].op == op)
  }

  predicate ResultOk(w: World, op: nat) {
    && op in w.results && op in w.puts
    && (w.results[op] == OK ==> op in w.effects)
    && (w.results[op] == ErrVersion ==>
          !w.puts[op].resent && w.puts[op].waiting.Some? && w.puts[op].waiting.value in w.replies
          && w.replies[w.puts[op].waiting.value].1 == ErrVersion)
    && (w.results[op] == ErrMaybe ==> w.puts[op].resent)
    && (w.results[op] == ErrNoKey ==>
          w.puts[op].waiting.Some? && w.puts[op].waiting.value in w.replies
          && w.replies[w.puts[op].waiting.value].1 == ErrNoKey)
  }

  ghost predicate Inv(w: World) {
    && (forall id {:trigger CopyOk(w, id)} :: id in w.net || id in w.replies ==> CopyOk(w, id))
    && (forall op <- w.puts :: PutOk(w, op))
    && (forall op <- w.results :: ResultOk(w, op))
    && (forall i {:trigger w.effects[i]} :: 0 <= i < |w.effects| ==> w.effects[i] in w.puts)
    && (forall i, j :: 0 <= i < j < |w.effects| ==> w.effects[i] != w.effects[j])
  }

  lemma StaleStays(values: Values, args: PutArgs, other: PutArgs)
    requires Stale(values, args)
    ensures Stale(Write(values, other).0, args) && Write(values, args).1 != OK
  {
  }

  lemma EffectIsStale(values: Values, args: PutArgs)
    requires Write(values, args).1 == OK
    ensures Stale(Write(values, args).0, args) && !Stale(values, args)
  {
  }

  lemma SendKeeps(w: World, w': World, op: nat)
    requires Inv(w) && StepTo(w, w', Send(op))
    ensures Inv(w')
  {
    assert PutOk(w, op);
    assert w.nextCopy in w.net || w.nextCopy in w.replies ==> CopyOk(w, w.nextCopy);
    forall id | id in w'.net || id in w'.replies ensures CopyOk(w', id) {
      if id != w.nextCopy { assert CopyOk(w, id); }
    }
    forall o | o in w'.puts ensures PutOk(w', o) { assert PutOk(w, o); }
    forall o | o in w'.results ensures ResultOk(w', o) { assert ResultOk(w, o); }
  }

  lemma TimeoutKeeps(w: World, w': World, op: nat)
    requires Inv(w) && op in w.puts && op !in w.results
    requires w' == w.(puts := w.puts[op := w.puts[op].(waiting := None, resent := true)])
    ensures Inv(w')
  {
    forall id | id in w'.net || id in w'.replies ensures CopyOk(w', id) { assert CopyOk(w, id); }
    forall o | o in w'.puts ensures PutOk(w', o) { assert PutOk(w, o); }
    forall o | o in w'.results ensures ResultOk(w', o) { assert ResultOk(w, o); }
  }

  lemma ExecuteKeeps(w: World, copy: nat)
    requires Inv(w) && copy in w.net
    ensures Inv(Executed(w, copy))
  {
    var w' := Executed(w, copy);
    var c := w.net[copy];
    assert CopyOk(w, copy);
    assert PutOk(w, c.op);
    if Write(w.values, c.args).1 == OK { EffectIsStale(w.values, c.args); }
    forall id | id in w'.net || id in w'.replies ensures CopyOk(w', id) { assert CopyOk(w, id); }
    forall o | o in w'.puts ensures PutOk(w', o) { PutStaysOk(w, copy, o); }
    forall o | o in w'.results ensures ResultOk(w', o) { assert ResultOk(w, o); assert PutOk(w, o); }
  }

  lemma PutStaysOk(w: World, copy: nat, op: nat)
    requires Inv(w) && copy in w.net && op in w.puts
    ensures PutOk(Executed(w, copy), op)
  {
    var c := w.net[copy];
    assert CopyOk(w, copy);
    assert PutOk(w, op);
    if op in w.effects {
      StaleStays(w.values, w.puts[op].args, c.args);
    }
    if Write(w.values, c.args).1 == OK { EffectIsStale(w.values, c.args); }
  }

  lemma StepKeeps(w: World, w': World, step: Step)
    requires Inv(w) && StepTo(w, w', step)
    ensures Inv(w')
  {
    match step
    case Send(op) => SendKeeps(w, w', op);
    case Execute(copy) => ExecuteKeeps(w, copy);
    case Timeout(op) => TimeoutKeeps(w, w', op);
    case Begin(op, _) => BeginKeeps(w, w', op);
    case Lose(copy) => LoseKeeps(w, w', copy);
    case Return(op) => ReturnKeeps(w, w', op);
  }

  lemma BeginKeeps(w: World, w': World, op: nat)
    requires Inv(w) && op !in w.puts && op in w'.puts
    requires w' == w.(puts := w.puts[op := w'.puts[op]]) && w'.puts[op].waiting == None
    ensures Inv(w')
  {
    forall id | id in w'.net || id in w'.replies ensures CopyOk(w', id) { assert CopyOk(w, id); }
    forall o | o in w'.puts ensures PutOk(w', o) { if o != op { assert PutOk(w, o); } }
    forall o | o in w'.results ensures ResultOk(w', o) { assert ResultOk(w, o); }
  }

  lemma LoseKeeps(w: World, w': World, copy: nat)
    requires Inv(w) && StepTo(w, w', Lose(copy))
    ensures Inv(w')
  {
    forall id | id in w'.net || id in w'.replies ensures CopyOk(w', id) { assert CopyOk(w, id); }
    forall o | o in w'.puts ensures PutOk(w', o) { assert PutOk(w, o); }
    forall o | o in w'.results ensures ResultOk(w', o) { assert ResultOk(w, o); }
  }

  lemma ReturnKeeps(w: World, w': World, op: nat)
    requires Inv(w) && StepTo(w, w', Return(op))
    ensures Inv(w')
  {
    assert PutOk(w, op);
    assert CopyOk(w, w.puts[op].waiting.value);
    if op !in w'.results {
      TimeoutKeeps(w, w', op);
    } else {
      forall id | id in w'.net || id in w'.replies ensures CopyOk(w', id) { assert CopyOk(w, id); }
      forall o | o in w'.puts ensures PutOk(w', o) { assert PutOk(w, o); }
      forall o | o in w'.results ensures ResultOk(w', o) { if o != op { assert ResultOk(w, o); } }
    }
  }

  // ----- runs -----

  ghost predicate IsRun(run: seq<World>, steps: seq<Step>) {
    && |run| == |steps| + 1 && run[0] == EMPTY_WORLD
    && forall k :: 0 <= k < |steps| ==> StepTo(run[k], run[k + 1], steps[k])
  }

  lemma {:induction false} RunInv(run: seq<World>, steps: seq<Step>, k: nat)
    requires IsRun(run, steps) && k <= |steps|
    ensures Inv(run[k])
  {
    if k > 0 {
      RunInv(run, steps, k - 1);
      assert StepTo(run[k - 1], run[k - 1 + 1], steps[k - 1]);
      StepKeeps(run[k - 1], run[k], steps[k - 1]);
    }
  }

  lemma {:induction false} ResultsStay(run: seq<World>, steps: seq<Step>, j: nat, k: nat, op: nat)
    requires IsRun(run, steps) && j <= k <= |steps| && op in run[j].results && op in run[j].puts
    ensures op in run[k].results && run[k].results[op] == run[j].results[op]
    ensures op in run[k].puts && run[k].puts[op] == run[j].puts[op]
    decreases k
  {
    if j < k {
      ResultsStay(run, steps, j, k - 1, op);
      assert StepTo(run[k - 1], run[k - 1 + 1], steps[k - 1]);
    }
  }

  /** Every `Put` of a clerk takes effect at most once, however many attempts it makes and whenever
      they arrive. Once it has returned `OK` it has taken effect exactly once, for good; once it has
      returned `ErrVersion`, or `ErrNoKey` without having been sent again, it has not and never will. */
  lemma PutsTakeEffectOnce(run: seq<World>, steps: seq<Step>, j: nat, k: nat, op: nat)
    requires IsRun(run, steps) && j <= k <= |steps|
    ensures op in run[j].results ==> op in run[j].puts
    ensures multiset(run[k].effects)[op] <= 1
    ensures op in run[j].results && run[j].results[op] == OK ==> multiset(run[k].effects)[op] == 1
    ensures op in run[j].results && run[j].results[op] == ErrVersion ==> multiset(run[k].effects)[op] == 0
    ensures op in run[j].results && run[j].results[op] == ErrNoKey && !run[j].puts[op].resent ==>
              multiset(run[k].effects)[op] == 0
  {
    RunInv(run, steps, j);
    RunInv(run, steps, k);
    var w := run[k];
    NoDuplicates(w.effects, op);
    if op in run[j].results {
      assert ResultOk(run[j], op);
      ResultsStay(run, steps, j, k, op);
      assert ResultOk(w, op);
      assert PutOk(w, op);
    }
  }

  // ----- a put that has returned and may still take effect -----

  /** An attempt of the put is still in the network, and the key has not passed its version. */
  ghost predicate MayLand(w: World, op: nat) {
    exists id :: Pending(w, op, id)
  }

  predicate Pending(w: World, op: nat, id: nat) {
    id in w.net && w.net[id].op == op && VersionOf(w.values, w.net[id].args.key) <= w.net[id].args.version
  }

  lemma StaysUnable(w: World, w': World, step: Step, op: nat)
    requires Inv(w) && StepTo(w, w', step) && op in w.results && op !in w.effects && !MayLand(w, op)
    ensures op in w'.results && op !in w'.effects && !MayLand(w', op)
  {
    if step.Execute? {
      var c := w.net[step.copy];
      assert c.op == op ==> !Pending(w, op, step.copy);
    }
    assert ResultOk(w, op);
    forall id | id in w'.net && w'.net[id].op == op ensures !Pending(w', op, id) {
      assert !Pending(w, op, id);
    }
  }

  /** Without such an attempt a returned put that has not taken effect never will. */
  lemma {:induction false} NeverLands(run: seq<World>, steps: seq<Step>, j: nat, k: nat, op: nat)
    requires IsRun(run, steps) && j <= k <= |steps|
    requires op in run[j].results && op !in run[j].effects && !MayLand(run[j], op)
    ensures op in run[k].results && op !in run[k].effects && !MayLand(run[k], op)
    decreases k
  {
    if j < k {
      NeverLands(run, steps, j, k - 1, op);
      RunInv(run, steps, k - 1);
      assert StepTo(run[k - 1], run[k - 1 + 1], steps[k - 1]);
      StaysUnable(run[k - 1], run[k], steps[k - 1], op);
    }
  }

  lemma {:induction false} FreshOp(ops: set<nat>) returns (op: nat)
    ensures forall o <- ops :: o < op
  {
    if ops == {} {
      op := 0;
    } else {
      var x :| x in ops;
      op := FreshOp(ops - {x});
      if op <= x { op := x + 1; }
      assert forall o <- ops :: o == x || o in ops - {x};
    }
  }

  lemma Continue(run: seq<World>, steps: seq<Step>, w: World, step: Step) returns (run': seq<World>, steps': seq<Step>)
    requires IsRun(run, steps) && StepTo(run[|steps|], w, step)
    ensures IsRun(run', steps') && run' == run + [w] && steps' == steps + [step]
  {
    run', steps' := run + [w], steps + [step];
    forall k | 0 <= k < |steps'| ensures StepTo(run'[k], run'[k + 1], steps'[k]) {
      if k < |steps| { assert StepTo(run[k], run[k + 1], steps[k]); }
    }
  }

  /** Another client writes the key once. */
  lemma RaiseVersion(run: seq<World>, steps: seq<Step>, key: string) returns (run': seq<World>, steps': seq<Step>)
    requires IsRun(run, steps)
    ensures IsRun(run', steps') && run <= run'
    ensures var w, w' := run[|steps|], run'[|steps'|];
            && VersionOf(w'.values, key) == VersionOf(w.values, key) + 1
            && forall id <- w.net :: id in w'.net && w'.net[id] == w.net[id]
  {
    var w := run[|steps|];
    RunInv(run, steps, |steps|);
    var o := FreshOp(w.puts.Keys);
    var args := PutArgs(key, "", VersionOf(w.values, key), 0, 0, 0);
    var w1 := Begun(w, o, args);
    run', steps' := Continue(run, steps, w1, Begin(o, args));
    var w2 := w1.(net := w1.net[w1.nextCopy := Copy(o, args)], nextCopy := w1.nextCopy + 1,
                  puts := w1.puts[o := Attempt(args, false, Some(w1.nextCopy))]);
    assert o !in w.results by { assert o in w.results ==> ResultOk(w, o); }
    run', steps' := Continue(run', steps', w2, Send(o));
    assert w.nextCopy !in w.net by { assert w.nextCopy in w.net ==> CopyOk(w, w.nextCopy); }
    run', steps' := Continue(run', steps', Executed(w2, w1.nextCopy), Execute(w1.nextCopy));
  }

  lemma {:induction false} Raise(run: seq<World>, steps: seq<Step>, key: string, version: nat)
      returns (run': seq<World>, steps': seq<Step>)
    requires IsRun(run, steps) && VersionOf(run[|steps|].values, key) <= version
    ensures IsRun(run', steps') && run <= run'
    ensures var w, w' := run[|steps|], run'[|steps'|];
            && VersionOf(w'.values, key) == version
            && forall id <- w.net :: id in w'.net && w'.net[id] == w.net[id]
    decreases version - VersionOf(run[|steps|].values, key)
  {
    run', steps' := run, steps;
    if VersionOf(run[|steps|].values, key) < version {
      run', steps' := RaiseVersion(run, steps, key);
      run', steps' := Raise(run', steps', key, version);
    }
  }

  /** With such an attempt there is a continuation in which the put takes effect after all: others
      write the key until it has the put's version, and then the old attempt arrives. So `MayLand` is
      exactly the condition under which a put that returned without effect can still take effect. */
  lemma CanStillLand(run: seq<World>, steps: seq<Step>, op: nat) returns (run': seq<World>, steps': seq<Step>)
    requires IsRun(run, steps) && MayLand(run[|steps|], op)
    ensures IsRun(run', steps') && run <= run' && op in run'[|steps'|].effects
  {
    var w := run[|steps|];
    var id: nat :| Pending(w, op, id);
    run', steps' := Raise(run, steps, w.net[id].args.key, w.net[id].args.version);
    run', steps' := Continue(run', steps', Executed(run'[|steps'|], id), Execute(id));
  }

  /** A put of version 1 to a missing key, sent twice: the second attempt is answered `ErrNoKey`, the
      clerk returns that, and the first attempt takes effect later. */
  lemma NoKeyAndStillAnEffect() returns (run: seq<World>, steps: seq<Step>, j: nat, op: nat)
    ensures IsRun(run, steps) && j <= |steps|
    ensures op in run[j].results && run[j].results[op] == ErrNoKey
    ensures op !in run[j].effects && op in run[|steps|].effects
  {
    var args := PutArgs("k", "x", 1, 0, 0, 0);
    op := 0;
    var w0 := EMPTY_WORLD;
    var w1 := Begun(w0, 0, args);
    var w2 := w1.(net := map[0 := Copy(0, args)], nextCopy := 1, puts := map[0 := Attempt(args, false, Some(0))]);
    var w3 := w2.(puts := map[0 := Attempt(args, true, None)]);
    var w4 := w3.(net := w3.net[1 := Copy(0, args)], nextCopy := 2, puts := map[0 := Attempt(args, true, Some(1))]);
    var w5 := Executed(w4, 1);
    var w6 := w5.(results := map[0 := ErrNoKey]);
    run, steps := Continue([w0], [], w1, Begin(0, args));
    run, steps := Continue(run, steps, w2, Send(0));
    run, steps := Continue(run, steps, w3, Timeout(0));
    run, steps := Continue(run, steps, w4, Send(0));
    run, steps := Continue(run, steps, w5, Execute(1));
    run, steps := Continue(run, steps, w6, Return(0));
    j := |steps|;
    assert Pending(w6, 0, 0);
    run, steps := CanStillLand(run, steps, 0);
  }

  /** The store that executing the listed puts, and nothing else, one after the other leads to. */
  ghost function Replay(puts: map<nat, Attempt>, effects: seq<nat>): Values
    requires forall i {:trigger effects[i]} :: 0 <= i < |effects| ==> effects[i] in puts
  {
    if effects == [] then map[]
    else
      var before := effects[..|effects| - 1];
      assert forall i {:trigger before[i]} :: 0 <= i < |before| ==> before[i] == effects[i];
      Write(Replay(puts, before), puts[effects[|effects| - 1]].args).0
  }

  lemma {:induction false} ReplaySame(puts: map<nat, Attempt>, puts': map<nat, Attempt>, effects: seq<nat>)
    requires forall i {:trigger effects[i]} :: 0 <= i < |effects| ==>
               effects[i] in puts && effects[i] in puts' && puts'[effects[i]].args == puts[effects[i]].args
    ensures Replay(puts', effects) == Replay(puts, effects)
  {
    if effects != [] {
      var before := effects[..|effects| - 1];
      assert forall i {:trigger before[i]} :: 0 <= i < |before| ==> before[i] == effects[i];
      ReplaySame(puts, puts', before);
    }
  }

  ghost predicate Explained(w: World) {
    && (forall i {:trigger w.effects[i]} :: 0 <= i < |w.effects| ==> w.effects[i] in w.puts)
    && w.values == Replay(w.puts, w.effects)
  }

  lemma StaysExplained(w: World, w': World, step: Step)
    requires Inv(w) && Explained(w) && StepTo(w, w', step)
    ensures Explained(w')
  {
    if step.Execute? {
      var c := w.net[step.copy];
      assert CopyOk(w, step.copy);
      if Write(w.values, c.args).1 == OK {
        assert w'.effects[..|w'.effects| - 1] == w.effects;
      } else {
        assert w'.effects == w.effects;
      }
    } else {
      ReplaySame(w.puts, w'.puts, w.effects);
    }
  }

  /** The store is what the puts that took effect make it, in the order in which they did. */
  lemma {:induction false} EffectsMakeTheStore(run: seq<World>, steps: seq<Step>, k: nat)
    requires IsRun(run, steps) && k <= |steps|
    ensures Explained(run[k])
  {
    if k > 0 {
      EffectsMakeTheStore(run, steps, k - 1);
      RunInv(run, steps, k - 1);
      assert StepTo(run[k - 1], run[k - 1 + 1], steps[k - 1]);
      StaysExplained(run[k - 1], run[k], steps[k - 1]);
    }
  }

  /** The puts to `key` that took effect, in order. */
  ghost function EffectsOn(puts: map<nat, Attempt>, effects: seq<nat>, key: string): seq<PutArgs>
    requires forall i {:trigger effects[i]} :: 0 <= i < |effects| ==> effects[i] in puts
  {
    if effects == [] then []
    else
      var before, args := effects[..|effects| - 1], puts[effects[|effects| - 1]].args;
      assert forall i {:trigger before[i]} :: 0 <= i < |before| ==> before[i] == effects[i];
      EffectsOn(puts, before, key) + if args.key == key then [args] else []
  }

  lemma {:induction false} EffectsOnSame(puts: map<nat, Attempt>, puts': map<nat, Attempt>,
                                         effects: seq<nat>, key: string)
    requires forall i {:trigger effects[i]} :: 0 <= i < |effects| ==>
               effects[i] in puts && effects[i] in puts' && puts'[effects[i]].args == puts[effects[i]].args
    ensures EffectsOn(puts', effects, key) == EffectsOn(puts, effects, key)
  {
    if effects != [] {
      var before := effects[..|effects| - 1];
      assert forall i {:trigger before[i]} :: 0 <= i < |before| ==> before[i] == effects[i];
      EffectsOnSame(puts, puts', before, key);
    }
  }

  ghost predicate Told(w: World, key: string)
    requires forall i {:trigger w.effects[i]} :: 0 <= i < |w.effects| ==> w.effects[i] in w.puts
  {
    var on := EffectsOn(w.puts, w.effects, key);
    && (key in w.values <==> on != [])
    && (key in w.values ==> w.values[key] == Versioned(on[|on| - 1].value, |on|))
  }

  lemma EffectsOnNext(puts: map<nat, Attempt>, effects: seq<nat>, op: nat, key: string)
    requires op in puts && forall i {:trigger effects[i]} :: 0 <= i < |effects| ==> effects[i] in puts
    ensures EffectsOn(puts, effects + [op], key) ==
            EffectsOn(puts, effects, key) + if puts[op].args.key == key then [puts[op].args] else []
  {
    assert (effects + [op])[..|effects + [op]| - 1] == effects;
  }

  lemma ToldExecuted(w: World, copy: nat, key: string)
    requires copy in w.net && CopyOk(w, copy)
    requires forall i {:trigger w.effects[i]} :: 0 <= i < |w.effects| ==> w.effects[i] in w.puts
    requires Told(w, key) && Told(w, w.net[copy].args.key)
    ensures Told(Executed(w, copy), key)
  {
    var c := w.net[copy];
    H.WriteOutcome(w.values, c.args, EffectsOn(w.puts, w.effects, c.args.key));
    EffectsOnNext(w.puts, w.effects, c.op, key);
    assert w.effects + [] == w.effects;
  }

  lemma ToldNext(w: World, w': World, step: Step, key: string)
    requires Inv(w) && Inv(w') && StepTo(w, w', step) && Told(w, key)
    requires step.Execute? ==> Told(w, w.net[step.copy].args.key)
    ensures Told(w', key)
  {
    if step.Execute? {
      assert CopyOk(w, step.copy);
      ToldExecuted(w, step.copy, key);
    } else {
      EffectsOnSame(w.puts, w'.puts, w.effects, key);
    }
  }

  lemma {:induction false} ToldAt(run: seq<World>, steps: seq<Step>, k: nat, key: string)
    requires IsRun(run, steps) && k <= |steps|
    ensures Inv(run[k]) && Told(run[k], key)
  {
    RunInv(run, steps, k);
    if k > 0 {
      ToldAt(run, steps, k - 1, key);
      var step := steps[k - 1];
      assert StepTo(run[k - 1], run[k - 1 + 1], step);
      if step.Execute? { ToldAt(run, steps, k - 1, run[k - 1].net[step.copy].args.key); }
      ToldNext(run[k - 1], run[k], step, key);
    }
  }

  /** What the server answers, told by the puts that took effect: a get shows the last one to its key
      and their number, a put succeeds exactly if that number is its version. */
  lemma ServerAnswers(run: seq<World>, steps: seq<Step>, k: nat, args: PutArgs)
    requires IsRun(run, steps) && k <= |steps|
    ensures forall i {:trigger run[k].effects[i]} :: 0 <= i < |run[k].effects| ==> run[k].effects[i] in run[k].puts
    ensures var on := EffectsOn(run[k].puts, run[k].effects, args.key);
            && Read(run[k].values, args.key) == H.Shown(on)
            && Write(run[k].values, args).1 == H.Outcome(|on|, args.version)
  {
    ToldAt(run, steps, k, args.key);
    H.WriteOutcome(run[k].values, args, EffectsOn(run[k].puts, run[k].effects, args.key));
  }

  /** When a clerk that waits for an attempt gets its reply, its `Put` returns: `OK` and `ErrNoKey` as
      they are, a version mismatch as `ErrVersion` if this was the only attempt and as `ErrMaybe` if
      not. */
  lemma ReturnsWhatItHears(run: seq<World>, steps: seq<Step>, k: nat, op: nat)
    requires IsRun(run, steps) && k < |steps| && steps[k] == Return(op)
    ensures op in run[k].puts && run[k].puts[op].waiting.Some? && run[k].puts[op].waiting.value in run[k].replies
    ensures op in run[k + 1].results
    ensures var heard, result := run[k].replies[run[k].puts[op].waiting.value].1, run[k + 1].results[op];
            && heard in {OK, ErrNoKey, ErrVersion}
            && (result == OK <==> heard == OK)
            && (result == ErrNoKey <==> heard == ErrNoKey)
            && (result == ErrVersion <==> heard == ErrVersion && !run[k].puts[op].resent)
            && (result == ErrMaybe <==> heard == ErrVersion && run[k].puts[op].resent)
  {
    assert StepTo(run[k], run[k + 1], steps[k]);
    RepliesAreWrites(run, steps, k, run[k].puts[op].waiting.value);
  }

  lemma {:induction false} RepliesAreWrites(run: seq<World>, steps: seq<Step>, k: nat, id: nat)
    requires IsRun(run, steps) && k <= |steps| && id in run[k].replies
    ensures run[k].replies[id].1 in {OK, ErrNoKey, ErrVersion}
  {
    if k > 0 {
      assert StepTo(run[k - 1], run[k - 1 + 1], steps[k - 1]);
      if id in run[k - 1].replies && run[k - 1].replies[id] == run[k].replies[id] {
        RepliesAreWrites(run, steps, k - 1, id);
      }
    }
  }

  lemma {:induction false} NoDuplicates(s: seq<nat>, x: nat)
    requires forall i, j :: 0 <= i < j < |s| ==> s[i] != s[j]
    ensures multiset(s)[x] == if x in s then 1 else 0
  {
    if s != [] {
      var rest := s[..|s| - 1];
      NoDuplicates(rest, x);
      assert s == rest + [s[|s| - 1]];
    }
  }

  // ----- the server and the clerk's loop -----

  class KVServer {
    var data: Values

    constructor ()
      ensures data == map[]
    {
      data := map[];
    }

    method Get(key: string) returns (reply: Reply)
      ensures reply == Read(data, key)
    {
      if key !in data {
        return GetReply("", 0, ErrNoKey);
      }
      return GetReply(data[key].value, data[key].version, OK);
    }

    method Put(args: PutArgs) returns (err: Err)
      modifies this
      ensures (data, err) == Write(old(data), args)
    {
      if args.key !in data {
        if args.version == 0 {
          data := data[args.key := Versioned(args.value, 1)];
          return OK;
        }
        return ErrNoKey;
      }
      var item := data[args.key];
      if item.version != args.version {
        return ErrVersion;
      }
      data := data[args.key := Versioned(args.value, item.version + 1)];
      return OK;
    }
  }

  /** The clerk's loop over the outcomes of its calls, None for a call without a reply: it ends with
      the verdict on the first decisive reply, and only a reply to the very first call can make it
      return `ErrVersion`. */
  method ClerkPut(outcomes: seq<Option<Err>>) returns (result: Option<Err>, calls: nat)
    ensures calls <= |outcomes|
    ensures forall i :: 0 <= i < calls - 1 ==> outcomes[i].None? || Verdict(outcomes[i].value, true).None?
    ensures result.Some? ==> calls > 0 && outcomes[calls - 1].Some?
                             && result == Verdict(outcomes[calls - 1].value, calls > 1)
    ensures result.None? ==> calls == |outcomes|
                             && (forall o <- outcomes :: o.None? || Verdict(o.value, true).None?)
  {
    var resent := false;
    calls, result := 0, None;
    while calls < |outcomes|
      invariant calls <= |outcomes| && resent == (calls > 0)
      invariant forall i :: 0 <= i < calls ==> outcomes[i].None? || Verdict(outcomes[i].value, true).None?
    {
      var outcome := outcomes[calls];
      calls := calls + 1;
      if outcome.Some? {
        match outcome.value {
          case OK => return Some(OK), calls;
          case ErrNoKey => return Some(ErrNoKey), calls;
          case ErrVersion =>
            if resent {
              return Some(ErrMaybe), calls;
            }
            return Some(ErrVersion), calls;
          case _ =>
        }
      }
      resent := true;
    }
  }
}
