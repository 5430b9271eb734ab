/** A whole job: the coordinator, workers that crash, stall and repeat tasks, intermediate files,
    output files, and reports that arrive late or twice. */
module MrJob {
  import opened MrGroup
  import opened MrCoordinator

  /** `inputs[m]` is what Map makes of the m-th file. */
  datatype Job = Job(inputs: seq<seq<KeyValue>>, nReduce: nat, hash: string -> nat, reducef: Reduce)

  datatype Worker =
    | Free
    | Mapping(task: nat, r: nat)
    | Reducing(task: nat, m: nat, got: seq<KeyValue>)

  datatype System = System(
    coord: Coord, workers: seq<Worker>,
    files: map<(nat, nat), seq<KeyValue>>, outputs: map<nat, seq<Line>>, reports: set<(Kind, nat)>)

  datatype Step =
    | Ask(w: nat, expired: set<nat>, answered: bool)
    | WriteFile(w: nat)
    | MapDone(w: nat)
    | ReadFile(w: nat)
    | WriteOutput(w: nat, sorted: seq<KeyValue>)
    | Deliver(kind: Kind, id: nat)
    | Crash(w: nat)

  predicate JobOk(job: Job) {
    job.nReduce > 0
  }

  function PartOf(job: Job): Partitioner
    requires JobOk(job)
  {
    key => job.hash(key) % job.nReduce
  }

  ghost predicate Init(job: Job, sys: System) {
    && sys.coord == Coord(MapPhase, seq(|job.inputs|, _ => Idle), seq(job.nReduce, _ => Idle))
    && (forall w :: 0 <= w < |sys.workers| ==> sys.workers[w] == Free)
    && sys.files == map[] && sys.outputs == map[] && sys.reports == {}
  }

  ghost predicate StepTo(job: Job, sys: System, sys': System, step: Step)
    requires JobOk(job)
  {
    match step
    case Ask(w, expired, answered) =>
      && w < |sys.workers| && sys.workers[w] == Free
      && var (coord, kind, id) := OnRequest(sys.coord, expired);
         var task := if !answered then Free
                     else if kind == MapTask then Mapping(id, 0)
                     else if kind == ReduceTask then Reducing(id, 0, []) else Free;
         sys' == sys.(coord := coord, workers := sys.workers[w := task])
    case WriteFile(w) =>
      && w < |sys.workers| && sys.workers[w].Mapping?
      && var Mapping(t, r) := sys.workers[w];
         && r < job.nReduce && t < |job.inputs|
         && sys' == sys.(files := sys.files[(t, r) := Bucket(job.inputs[t], PartOf(job), r)],
                         workers := sys.workers[w := Mapping(t, r + 1)])
    case MapDone(w) =>
      && w < |sys.workers| && sys.workers[w].Mapping? && sys.workers[w].r == job.nReduce
      && sys' == sys.(reports := sys.reports + {(MapTask, sys.workers[w].task)}, workers := sys.workers[w := Free])
    case ReadFile(w) =>
      && w < |sys.workers| && sys.workers[w].Reducing?
      && var Reducing(t, m, got) := sys.workers[w];
         && m < |job.inputs| && (m, t) in sys.files
         && sys' == sys.(workers := sys.workers[w := Reducing(t, m + 1, got + sys.files[(m, t)])])
    case WriteOutput(w, sorted) =>
      && w < |sys.workers| && sys.workers[w].Reducing?
      && var Reducing(t, m, got) := sys.workers[w];
         && m == |job.inputs| && IsSortOf(sorted, got)
         && sys' == sys.(outputs := sys.outputs[t := Grouped(sorted, job.reducef, 0)],
                         reports := sys.reports + {(ReduceTask, t)}, workers := sys.workers[w := Free])
    case Deliver(kind, id) =>
      (kind, id) in sys.reports && sys' == sys.(coord := OnReport(sys.coord, kind, id))
    case Crash(w) => w < |sys.workers| && sys' == sys.(workers := sys.workers[w := Free])
  }

  ghost predicate Steps(job: Job, run: seq<System>, steps: seq<Step>, k: nat) {
    JobOk(job) && k + 1 < |run| && k < |steps| && StepTo(job, run[k], run[k + 1], steps[k])
  }

  ghost predicate IsRun(job: Job, run: seq<System>, steps: seq<Step>) {
    && JobOk(job) && |run| == |steps| + 1 && Init(job, run[0])
    && forall k: nat {:trigger Steps(job, run, steps, k)} :: k < |steps| ==> Steps(job, run, steps, k)
  }

  // ----- invariant -----

  /** What the reduce task `r` reads from the first `m` maps. */
  function Parts(job: Job, r: nat, m: nat): seq<KeyValue>
    requires JobOk(job) && m <= |job.inputs|
  {
    if m == 0 then [] else Parts(job, r, m - 1) + Bucket(job.inputs[m - 1], PartOf(job), r)
  }

  ghost predicate IsOutput(job: Job, r: nat, lines: seq<Line>)
    requires JobOk(job)
  {
    exists sorted :: IsSortOf(sorted, Parts(job, r, |job.inputs|)) && lines == Grouped(sorted, job.reducef, 0)
  }

  /** The files of the first `r` buckets of map task `t` exist. */
  predicate Mapped(sys: System, t: nat, r: nat) {
    forall p: nat :: p < r ==> (t, p) in sys.files
  }

  predicate WorkerOk(job: Job, sys: System, worker: Worker)
    requires JobOk(job)
  {
    match worker
    case Free => true
    case Mapping(t, r) => t < |job.inputs| && r <= job.nReduce && Mapped(sys, t, r)
    case Reducing(t, m, got) =>
      && AllDone(sys.coord.maps) && t < job.nReduce && m <= |job.inputs| && got == Parts(job, t, m)
  }

  ghost predicate TasksOk(job: Job, sys: System) {
    && CoordOk(sys.coord) && |sys.coord.maps| == |job.inputs| && |sys.coord.reduces| == job.nReduce
    && (forall t {:trigger sys.coord.maps[t]} ::
          0 <= t < |sys.coord.maps| && sys.coord.maps[t] == Completed ==> Mapped(sys, t, job.nReduce))
    && (forall t {:trigger sys.coord.reduces[t]} ::
          0 <= t < |sys.coord.reduces| && sys.coord.reduces[t] == Completed ==> t in sys.outputs)
  }

  ghost predicate FilesOk(job: Job, sys: System)
    requires JobOk(job)
  {
    && (forall t, p :: (t, p) in sys.files ==>
          t < |job.inputs| && p < job.nReduce && sys.files[(t, p)] == Bucket(job.inputs[t], PartOf(job), p))
    && (forall t <- sys.outputs :: IsOutput(job, t, sys.outputs[t]))
    && (forall t :: (MapTask, t) in sys.reports ==> Mapped(sys, t, job.nReduce))
    && (forall t :: (ReduceTask, t) in sys.reports ==> t in sys.outputs)
  }

  ghost predicate Inv(job: Job, sys: System)
    requires JobOk(job)
  {
    && TasksOk(job, sys) && FilesOk(job, sys)
    && forall w :: 0 <= w < |sys.workers| ==> WorkerOk(job, sys, sys.workers[w])
  }

  /** Nothing a worker relies on is ever taken away. */
  lemma WorkersStay(job: Job, sys: System, sys': System)
    requires JobOk(job) && (forall w :: 0 <= w < |sys.workers| ==> WorkerOk(job, sys, sys.workers[w]))
    requires Forward(sys.coord, sys'.coord) && sys.files.Keys <= sys'.files.Keys
    ensures forall w :: 0 <= w < |sys.workers| ==> WorkerOk(job, sys', sys.workers[w])
  {
    forall w | 0 <= w < |sys.workers| ensures WorkerOk(job, sys', sys.workers[w]) {
      assert WorkerOk(job, sys, sys.workers[w]);
    }
  }

  lemma TasksAfter(job: Job, sys: System, expired: set<nat>)
    requires TasksOk(job, sys)
    ensures TasksOk(job, sys.(coord := OnRequest(sys.coord, expired).0))
  {
    var sys' := sys.(coord := OnRequest(sys.coord, expired).0);
    RequestOk(sys.coord, expired);
    forall t | 0 <= t < |sys'.coord.maps| && sys'.coord.maps[t] == Completed ensures Mapped(sys', t, job.nReduce) {
      assert Mapped(sys, t, job.nReduce);
    }
  }

  lemma AskKeeps(job: Job, sys: System, sys': System, step: Step)
    requires JobOk(job) && Inv(job, sys) && step.Ask? && StepTo(job, sys, sys', step)
    ensures Inv(job, sys') && Forward(sys.coord, sys'.coord)
  {
    RequestOk(sys.coord, step.expired);
    TasksAfter(job, sys, step.expired);
    assert TasksOk(job, sys');
    FilesSame(job, sys, sys');
    WorkerMoves(job, sys, sys', step.w, sys'.workers[step.w]);
  }

  /** A report only ever completes a task whose files are there. */
  lemma ReportIsTrue(job: Job, sys: System, kind: Kind, id: nat)
    requires JobOk(job) && TasksOk(job, sys) && FilesOk(job, sys) && (kind, id) in sys.reports
    ensures TasksOk(job, sys.(coord := OnReport(sys.coord, kind, id)))
  {
    var sys' := sys.(coord := OnReport(sys.coord, kind, id));
    ReportKeeps(sys.coord, kind, id);
    forall t | 0 <= t < |sys'.coord.maps| && sys'.coord.maps[t] == Completed ensures Mapped(sys', t, job.nReduce) {
      assert Mapped(sys, t, job.nReduce);
    }
    forall t | 0 <= t < |sys'.coord.reduces| && sys'.coord.reduces[t] == Completed ensures t in sys'.outputs {
      assert t in sys.outputs;
    }
  }

  lemma DeliverKeeps(job: Job, sys: System, sys': System, step: Step)
    requires JobOk(job) && Inv(job, sys) && step.Deliver? && StepTo(job, sys, sys', step)
    ensures Inv(job, sys') && Forward(sys.coord, sys'.coord)
  {
    ReportKeeps(sys.coord, step.kind, step.id);
    ReportIsTrue(job, sys, step.kind, step.id);
    WorkersStay(job, sys, sys');
    assert forall t :: (MapTask, t) in sys'.reports ==> Mapped(sys, t, job.nReduce);
  }

  lemma TasksStay(job: Job, sys: System, sys': System)
    requires TasksOk(job, sys)
    requires sys'.coord == sys.coord && sys.files.Keys <= sys'.files.Keys && sys.outputs.Keys <= sys'.outputs.Keys
    ensures TasksOk(job, sys') && Forward(sys.coord, sys'.coord)
  {
    forall t | 0 <= t < |sys'.coord.maps| && sys'.coord.maps[t] == Completed ensures Mapped(sys', t, job.nReduce) {
      assert Mapped(sys, t, job.nReduce);
    }
  }

  /** Worker `w` goes on to `worker`; the others are where they were. */
  lemma WorkerMoves(job: Job, sys: System, sys': System, w: nat, worker: Worker)
    requires JobOk(job) && Inv(job, sys) && w < |sys.workers| && sys'.workers == sys.workers[w := worker]
    requires Forward(sys.coord, sys'.coord) && sys.files.Keys <= sys'.files.Keys && WorkerOk(job, sys', worker)
    ensures forall w :: 0 <= w < |sys'.workers| ==> WorkerOk(job, sys', sys'.workers[w])
  {
    WorkersStay(job, sys, sys');
  }

  lemma FileWritten(job: Job, sys: System, sys': System, t: nat, r: nat)
    requires JobOk(job) && FilesOk(job, sys) && t < |job.inputs| && r < job.nReduce
    requires sys'.files == sys.files[(t, r) := Bucket(job.inputs[t], PartOf(job), r)]
    requires sys'.outputs == sys.outputs && sys'.reports == sys.reports
    ensures FilesOk(job, sys')
  {
    forall t | (MapTask, t) in sys'.reports ensures Mapped(sys', t, job.nReduce) { assert Mapped(sys, t, job.nReduce); }
  }

  lemma WriteFileKeeps(job: Job, sys: System, sys': System, step: Step)
    requires JobOk(job) && Inv(job, sys) && step.WriteFile? && StepTo(job, sys, sys', step)
    ensures Inv(job, sys') && Forward(sys.coord, sys'.coord)
  {
    var worker := sys.workers[step.w];
    assert WorkerOk(job, sys, worker);
    TasksStay(job, sys, sys');
    FileWritten(job, sys, sys', worker.task, worker.r);
    WorkerMoves(job, sys, sys', step.w, Mapping(worker.task, worker.r + 1));
  }

  lemma WriteOutputKeeps(job: Job, sys: System, sys': System, step: Step)
    requires JobOk(job) && Inv(job, sys) && step.WriteOutput? && StepTo(job, sys, sys', step)
    ensures Inv(job, sys') && Forward(sys.coord, sys'.coord)
  {
    assert WorkerOk(job, sys, sys.workers[step.w]);
    assert IsOutput(job, sys.workers[step.w].task, Grouped(step.sorted, job.reducef, 0));
    TasksStay(job, sys, sys');
    WorkerMoves(job, sys, sys', step.w, Free);
    forall t | (MapTask, t) in sys'.reports ensures Mapped(sys', t, job.nReduce) { assert (MapTask, t) in sys.reports; }
  }

  lemma MapDoneKeeps(job: Job, sys: System, sys': System, step: Step)
    requires JobOk(job) && Inv(job, sys) && step.MapDone? && StepTo(job, sys, sys', step)
    ensures Inv(job, sys') && Forward(sys.coord, sys'.coord)
  {
    assert WorkerOk(job, sys, sys.workers[step.w]);
    TasksStay(job, sys, sys');
    WorkerMoves(job, sys, sys', step.w, Free);
    forall t | (ReduceTask, t) in sys'.reports ensures t in sys'.outputs { assert (ReduceTask, t) in sys.reports; }
  }

  lemma ReadKeeps(job: Job, sys: System, sys': System, step: Step)
    requires JobOk(job) && Inv(job, sys) && step.ReadFile? && StepTo(job, sys, sys', step)
    ensures Inv(job, sys') && Forward(sys.coord, sys'.coord)
  {
    var worker := sys.workers[step.w];
    assert WorkerOk(job, sys, worker);
    TasksStay(job, sys, sys');
    FilesSame(job, sys, sys');
    WorkerMoves(job, sys, sys', step.w,
                Reducing(worker.task, worker.m + 1, worker.got + sys.files[(worker.m, worker.task)]));
  }

  lemma CrashKeeps(job: Job, sys: System, sys': System, step: Step)
    requires JobOk(job) && Inv(job, sys) && step.Crash? && StepTo(job, sys, sys', step)
    ensures Inv(job, sys') && Forward(sys.coord, sys'.coord)
  {
    TasksStay(job, sys, sys');
    FilesSame(job, sys, sys');
    WorkerMoves(job, sys, sys', step.w, Free);
  }

  lemma FilesSame(job: Job, sys: System, sys': System)
    requires JobOk(job) && FilesOk(job, sys)
    requires sys'.files == sys.files && sys'.outputs == sys.outputs && sys'.reports == sys.reports
    ensures FilesOk(job, sys')
  {
    forall t | (MapTask, t) in sys'.reports ensures Mapped(sys', t, job.nReduce) { assert Mapped(sys, t, job.nReduce); }
  }

  lemma StepKeeps(job: Job, sys: System, sys': System, step: Step)
    requires JobOk(job) && Inv(job, sys) && StepTo(job, sys, sys', step)
    ensures Inv(job, sys') && Forward(sys.coord, sys'.coord)
  {
    match step
    case Ask(_, _, _) => AskKeeps(job, sys, sys', step);
    case Deliver(_, _) => DeliverKeeps(job, sys, sys', step);
    case WriteFile(_) => WriteFileKeeps(job, sys, sys', step);
    case WriteOutput(_, _) => WriteOutputKeeps(job, sys, sys', step);
    case MapDone(_) => MapDoneKeeps(job, sys, sys', step);
    case ReadFile(_) => ReadKeeps(job, sys, sys', step);
    case Crash(_) => CrashKeeps(job, sys, sys', step);
  }

  lemma {:induction false} RunInv(job: Job, run: seq<System>, steps: seq<Step>, k: nat)
    requires IsRun(job, run, steps) && k <= |steps|
    ensures Inv(job, run[k])
  {
    if k > 0 {
      RunInv(job, run, steps, k - 1);
      assert Steps(job, run, steps, k - 1);
      StepKeeps(job, run[k - 1], run[k], steps[k - 1]);
    }
  }

  lemma ForwardTrans(a: Coord, b: Coord, c: Coord)
    requires Forward(a, b) && Forward(b, c)
    ensures Forward(a, c)
  {
  }

  /** Completion is never undone and no phase is ever left for an earlier one. */
  lemma {:induction false} CompletionIsFinal(job: Job, run: seq<System>, steps: seq<Step>, j: nat, k: nat)
    requires IsRun(job, run, steps) && j <= k <= |steps|
    ensures Forward(run[j].coord, run[k].coord)
    decreases k
  {
    if j < k {
      CompletionIsFinal(job, run, steps, j, k - 1);
      RunInv(job, run, steps, k - 1);
      assert Steps(job, run, steps, k - 1);
      StepKeeps(job, run[k - 1], run[k], steps[k - 1]);
      ForwardTrans(run[j].coord, run[k - 1].coord, run[k].coord);
    }
  }

  /** A worker is given a reduce task only when every map task is complete, and it finds every
      intermediate file it opens, with that map task's bucket in it. */
  lemma ReduceFindsItsFiles(job: Job, run: seq<System>, steps: seq<Step>, k: nat, w: nat)
    requires IsRun(job, run, steps) && k <= |steps| && w < |run[k].workers| && run[k].workers[w].Reducing?
    ensures AllDone(run[k].coord.maps)
    ensures forall m: nat :: m < |job.inputs| ==>
              var t := run[k].workers[w].task;
              (m, t) in run[k].files && run[k].files[(m, t)] == Bucket(job.inputs[m], PartOf(job), t)
  {
    RunInv(job, run, steps, k);
    assert WorkerOk(job, run[k], run[k].workers[w]);
    forall m: nat | m < |job.inputs| ensures (m, run[k].workers[w].task) in run[k].files {
      assert run[k].coord.maps[m] == Completed;
    }
  }

  // ----- the sequential program -----

  /** Everything Map produced, in one place, as the sequential program keeps it. */
  function Joined(inputs: seq<seq<KeyValue>>): seq<KeyValue> {
    if inputs == [] then [] else Joined(inputs[..|inputs| - 1]) + inputs[|inputs| - 1]
  }

  lemma {:induction false} PartsValues(job: Job, r: nat, m: nat, key: string)
    requires JobOk(job) && m <= |job.inputs|
    ensures ValuesOf(Parts(job, r, m), key) ==
            if PartOf(job)(key) == r then ValuesOf(Joined(job.inputs[..m]), key) else []
    ensures HasKey(Parts(job, r, m), key) <==> HasKey(Joined(job.inputs[..m]), key) && PartOf(job)(key) == r
  {
    if m > 0 {
      PartsValues(job, r, m - 1, key);
      var input := job.inputs[m - 1];
      assert job.inputs[..m][..m - 1] == job.inputs[..m - 1];
      assert Joined(job.inputs[..m]) == Joined(job.inputs[..m - 1]) + input;
      BucketValues(input, PartOf(job), r, key);
      ValuesSplit(Parts(job, r, m - 1), Bucket(input, PartOf(job), r), key);
      ValuesSplit(Joined(job.inputs[..m - 1]), input, key);
      KeySplit(Parts(job, r, m - 1), Bucket(input, PartOf(job), r), key);
      KeySplit(Joined(job.inputs[..m - 1]), input, key);
    }
  }

  /** `lines` has `line` once if it is the line of a key of partition `r`, and otherwise not at all. */
  ghost predicate LineOk(job: Job, r: nat, lines: seq<Line>, line: Line)
    requires JobOk(job)
  {
    multiset(lines)[line] ==
      if PartOf(job)(line.key) == r && IsLineOf(Joined(job.inputs), job.reducef, line) then 1 else 0
  }

  lemma PartsLine(job: Job, r: nat, line: Line)
    requires JobOk(job)
    ensures IsLineOf(Parts(job, r, |job.inputs|), job.reducef, line) <==>
            PartOf(job)(line.key) == r && IsLineOf(Joined(job.inputs), job.reducef, line)
  {
    PartsValues(job, r, |job.inputs|, line.key);
    assert job.inputs[..|job.inputs|] == job.inputs;
  }

  lemma OutputLines(job: Job, r: nat, lines: seq<Line>, line: Line)
    requires JobOk(job) && IsOutput(job, r, lines) && OrderFree(job.reducef)
    ensures LineOk(job, r, lines, line)
  {
    var parts := Parts(job, r, |job.inputs|);
    var sorted :| IsSortOf(sorted, parts) && lines == Grouped(sorted, job.reducef, 0);
    SortedLines(sorted, parts, job.reducef, line);
    PartsLine(job, r, line);
  }

  predicate AllWritten(outputs: map<nat, seq<Line>>, n: nat) {
    forall r: nat :: r < n ==> r in outputs
  }

  /** The output files one after the other. */
  function Written(outputs: map<nat, seq<Line>>, n: nat): seq<Line>
    requires AllWritten(outputs, n)
  {
    if n == 0 then [] else Written(outputs, n - 1) + outputs[n - 1]
  }

  lemma {:induction false} WrittenLines(job: Job, outputs: map<nat, seq<Line>>, n: nat, line: Line)
    requires JobOk(job) && AllWritten(outputs, n)
    requires forall r: nat {:trigger LineOk(job, r, outputs[r], line)} :: r < n ==> LineOk(job, r, outputs[r], line)
    ensures multiset(Written(outputs, n))[line] ==
            if PartOf(job)(line.key) < n && IsLineOf(Joined(job.inputs), job.reducef, line) then 1 else 0
  {
    if n > 0 {
      WrittenLines(job, outputs, n - 1, line);
      assert LineOk(job, n - 1, outputs[n - 1], line);
      assert Written(outputs, n) == Written(outputs, n - 1) + outputs[n - 1];
    }
  }

  /** MapReduce equals its sequential version: when the coordinator declares the job done, the lines
      of all output files together are a permutation of the sequential program's lines, however
      either of them sorted equal keys. */
  lemma JobEqualsSequential(job: Job, run: seq<System>, steps: seq<Step>, k: nat, sorted: seq<KeyValue>)
    requires IsRun(job, run, steps) && k <= |steps| && run[k].coord.phase == DonePhase
    requires OrderFree(job.reducef) && IsSortOf(sorted, Joined(job.inputs))
    ensures AllWritten(run[k].outputs, job.nReduce)
    ensures multiset(Written(run[k].outputs, job.nReduce)) == multiset(Grouped(sorted, job.reducef, 0))
  {
    DoneIsWritten(job, run, steps, k);
    forall line
      ensures multiset(Written(run[k].outputs, job.nReduce))[line] == multiset(Grouped(sorted, job.reducef, 0))[line]
    {
      forall r: nat | r < job.nReduce ensures LineOk(job, r, run[k].outputs[r], line) {
        OutputLines(job, r, run[k].outputs[r], line);
      }
      WrittenLines(job, run[k].outputs, job.nReduce, line);
      SortedLines(sorted, Joined(job.inputs), job.reducef, line);
    }
  }

  lemma DoneIsWritten(job: Job, run: seq<System>, steps: seq<Step>, k: nat)
    requires IsRun(job, run, steps) && k <= |steps| && run[k].coord.phase == DonePhase
    ensures AllWritten(run[k].outputs, job.nReduce)
    ensures forall r: nat :: r < job.nReduce ==> IsOutput(job, r, run[k].outputs[r])
  {
    RunInv(job, run, steps, k);
    forall r: nat | r < job.nReduce ensures r in run[k].outputs {
      assert run[k].coord.reduces[r] == Completed;
    }
  }

  /** Each key is in exactly one partition: the one its hash picks. */
  lemma OnePartitionPerKey(job: Job, run: seq<System>, steps: seq<Step>, k: nat, r: nat, line: Line)
    requires IsRun(job, run, steps) && k <= |steps| && run[k].coord.phase == DonePhase && OrderFree(job.reducef)
    requires r < job.nReduce
    ensures r in run[k].outputs
    ensures line in run[k].outputs[r] <==>
            r == job.hash(line.key) % job.nReduce && IsLineOf(Joined(job.inputs), job.reducef, line)
  {
    DoneIsWritten(job, run, steps, k);
    OutputLines(job, r, run[k].outputs[r], line);
  }
}
