/** A job is never stuck: as long as there is a worker, every run can go on until the job is done. */
module MrProgress {
  import opened MrGroup
  import opened MrCoordinator
  import opened MrJob

  // ----- sorting is always possible -----

  lemma {:induction false} AtMostTotal(a: string, b: string)
    ensures AtMost(a, b) || AtMost(b, a)
  {
    if a != [] && b != [] { AtMostTotal(a[1..], b[1..]); }
  }

  lemma {:induction false} AtMostTrans(a: string, b: string, c: string)
    requires AtMost(a, b) && AtMost(b, c)
    ensures AtMost(a, c)
  {
    if a != [] && b != [] && c != [] && a[0] == b[0] == c[0] { AtMostTrans(a[1..], b[1..], c[1..]); }
  }

  lemma {:induction false} Inserted(s: seq<KeyValue>, kv: KeyValue) returns (r: seq<KeyValue>)
    requires SortedByKey(s)
    ensures IsSortOf(r, s + [kv])
  {
    if s == [] || AtMost(s[|s| - 1].key, kv.key) {
      r := s + [kv];
      forall i | 0 <= i < |s| ensures AtMost(s[i].key, kv.key) {
        if i < |s| - 1 { AtMostTrans(s[i].key, s[|s| - 1].key, kv.key); }
      }
    } else {
      var last := s[|s| - 1];
      AtMostTotal(last.key, kv.key);
      assert s == s[..|s| - 1] + [last];
      var front := Inserted(s[..|s| - 1], kv);
      r := front + [last];
      assert multiset(r) == multiset(s + [kv]);
      forall i | 0 <= i < |front| ensures AtMost(front[i].key, last.key) {
        assert front[i] in multiset(front);
        assert front[i] in s[..|s| - 1] || front[i] == kv;
      }
    }
  }

  lemma {:induction false} CanSort(s: seq<KeyValue>) returns (r: seq<KeyValue>)
    ensures IsSortOf(r, s)
  {
    if s == [] {
      r := [];
    } else {
      var front := CanSort(s[..|s| - 1]);
      r := Inserted(front, s[|s| - 1]);
      assert s == s[..|s| - 1] + [s[|s| - 1]];
    }
  }

  // ----- continuations -----

  ghost predicate PathBetween(job: Job, run: seq<System>, steps: seq<Step>, a: System, b: System) {
    && JobOk(job) && |run| == |steps| + 1 && run[0] == a && run[|steps|] == b
    && forall k: nat {:trigger Steps(job, run, steps, k)} :: k < |steps| ==> Steps(job, run, steps, k)
  }

  ghost predicate Leads(job: Job, a: System, b: System) {
    exists run, steps :: PathBetween(job, run, steps, a, b)
  }

  lemma LeadsRefl(job: Job, a: System)
    requires JobOk(job)
    ensures Leads(job, a, a)
  {
    assert PathBetween(job, [a], [], a, a);
  }

  lemma PathsJoin(job: Job, run: seq<System>, steps: seq<Step>, a: System, b: System,
                  run': seq<System>, steps': seq<Step>, c: System)
    requires PathBetween(job, run, steps, a, b) && PathBetween(job, run', steps', b, c)
    ensures PathBetween(job, run + run'[1..], steps + steps', a, c)
  {
    var r, s := run + run'[1..], steps + steps';
    forall k: nat | k < |s| ensures Steps(job, r, s, k) {
      if k < |steps| {
        assert Steps(job, run, steps, k);
      } else {
        assert Steps(job, run', steps', k - |steps|);
      }
    }
  }

  lemma LeadsTrans(job: Job, a: System, b: System, c: System)
    requires Leads(job, a, b) && Leads(job, b, c)
    ensures Leads(job, a, c)
  {
    var run, steps :| PathBetween(job, run, steps, a, b);
    var run', steps' :| PathBetween(job, run', steps', b, c);
    PathsJoin(job, run, steps, a, b, run', steps', c);
  }

  lemma StepLeads(job: Job, sys: System, sys': System, step: Step)
    requires JobOk(job) && Inv(job, sys) && StepTo(job, sys, sys', step)
    ensures Leads(job, sys, sys') && Inv(job, sys')
  {
    assert Steps(job, [sys, sys'], [step], 0);
    assert PathBetween(job, [sys, sys'], [step], sys, sys');
    StepKeeps(job, sys, sys', step);
  }

  // ----- one worker finishes what it has -----

  /** Worker `w` has become free and its report of task (kind, id) is on its way; the coordinator has not
      noticed anything. */
  predicate Reported(sys: System, sys': System, w: nat, kind: Kind, id: nat) {
    && w < |sys.workers| && sys'.workers == sys.workers[w := Free]
    && sys'.coord == sys.coord && (kind, id) in sys'.reports
  }

  lemma {:induction false} MapsToTheEnd(job: Job, sys: System, w: nat) returns (sys': System)
    requires JobOk(job) && Inv(job, sys) && w < |sys.workers| && sys.workers[w].Mapping?
    ensures Leads(job, sys, sys') && Inv(job, sys') && Reported(sys, sys', w, MapTask, sys.workers[w].task)
    decreases job.nReduce - sys.workers[w].r
  {
    assert WorkerOk(job, sys, sys.workers[w]);
    var Mapping(t, r) := sys.workers[w];
    if r == job.nReduce {
      sys' := sys.(reports := sys.reports + {(MapTask, t)}, workers := sys.workers[w := Free]);
      StepLeads(job, sys, sys', MapDone(w));
    } else {
      var sys1 := sys.(files := sys.files[(t, r) := Bucket(job.inputs[t], PartOf(job), r)],
                       workers := sys.workers[w := Mapping(t, r + 1)]);
      StepLeads(job, sys, sys1, WriteFile(w));
      sys' := MapsToTheEnd(job, sys1, w);
      LeadsTrans(job, sys, sys1, sys');
    }
  }

  lemma {:induction false} ReducesToTheEnd(job: Job, sys: System, w: nat) returns (sys': System)
    requires JobOk(job) && Inv(job, sys) && w < |sys.workers| && sys.workers[w].Reducing?
    ensures Leads(job, sys, sys') && Inv(job, sys') && Reported(sys, sys', w, ReduceTask, sys.workers[w].task)
    decreases |job.inputs| - sys.workers[w].m
  {
    assert WorkerOk(job, sys, sys.workers[w]);
    var Reducing(t, m, got) := sys.workers[w];
    if m == |job.inputs| {
      var sorted := CanSort(got);
      sys' := sys.(outputs := sys.outputs[t := Grouped(sorted, job.reducef, 0)],
                   reports := sys.reports + {(ReduceTask, t)}, workers := sys.workers[w := Free]);
      StepLeads(job, sys, sys', WriteOutput(w, sorted));
    } else {
      assert sys.coord.maps[m] == Completed;
      assert Mapped(sys, m, job.nReduce);
      var sys1 := sys.(workers := sys.workers[w := Reducing(t, m + 1, got + sys.files[(m, t)])]);
      StepLeads(job, sys, sys1, ReadFile(w));
      sys' := ReducesToTheEnd(job, sys1, w);
      LeadsTrans(job, sys, sys1, sys');
    }
  }

  lemma FreesUp(job: Job, sys: System, w: nat) returns (sys': System)
    requires JobOk(job) && Inv(job, sys) && w < |sys.workers|
    ensures Leads(job, sys, sys') && Inv(job, sys')
    ensures sys'.workers == sys.workers[w := Free] && sys'.coord == sys.coord
  {
    match sys.workers[w]
    case Free => sys' := sys; LeadsRefl(job, sys);
    case Mapping(_, _) => sys' := MapsToTheEnd(job, sys, w);
    case Reducing(_, _, _) => sys' := ReducesToTheEnd(job, sys, w);
  }

  // ----- one more task -----

  /** The tasks that are not complete. */
  function Open(tasks: seq<Status>): set<nat> {
    set i: nat | i < |tasks| && tasks[i] != Completed
  }

  predicate Over(c: Coord) {
    AllDone(c.maps) && AllDone(c.reduces)
  }

  /** One task more is complete. */
  predicate Nearer(c: Coord, c': Coord) {
    || Open(c'.maps) < Open(c.maps)
    || (Open(c'.maps) == Open(c.maps) && Open(c'.reduces) < Open(c.reduces))
  }

  /** Any free worker that asks when everything in progress counts as expired gets a task. */
  lemma TaskToHandOut(c: Coord, expired: set<nat>)
    requires CoordOk(c) && !Over(c) && Open(c.maps) + Open(c.reduces) <= expired
    ensures OnRequest(c, expired).1 == MapTask || OnRequest(c, expired).1 == ReduceTask
  {
    RequestExactly(c, expired);
    var tasks := Current(c).1;
    var i: nat :| i < |tasks| && tasks[i] != Completed;
    assert i in Open(tasks) && Available(tasks, expired, i);
  }

  /** Handing out a task and completing it brings the job nearer to its end. */
  lemma CompletedOne(c: Coord, expired: set<nat>)
    requires CoordOk(c) && OnRequest(c, expired).1 in {MapTask, ReduceTask}
    ensures var (c1, kind, id) := OnRequest(c, expired); Nearer(c, OnReport(c1, kind, id))
  {
    RequestExactly(c, expired);
    RequestOk(c, expired);
    var (c1, kind, id) := OnRequest(c, expired);
    var c2 := OnReport(c1, kind, id);
    if kind == MapTask {
      assert id in Open(c.maps) && id !in Open(c2.maps);
      assert Open(c2.maps) <= Open(c.maps);
    } else {
      assert id in Open(c.reduces) && id !in Open(c2.reduces);
      assert Open(c2.maps) == Open(c.maps) && Open(c2.reduces) <= Open(c.reduces);
    }
  }

  lemma Asks(job: Job, sys: System, w: nat) returns (sys': System, expired: set<nat>)
    requires JobOk(job) && Inv(job, sys) && w < |sys.workers| && sys.workers[w] == Free && !Over(sys.coord)
    ensures Leads(job, sys, sys') && Inv(job, sys')
    ensures var (coord, kind, id) := OnRequest(sys.coord, expired);
            && sys'.coord == coord && kind in {MapTask, ReduceTask}
            && sys'.workers == sys.workers[w := if kind == MapTask then Mapping(id, 0) else Reducing(id, 0, [])]
  {
    expired := Open(sys.coord.maps) + Open(sys.coord.reduces);
    TaskToHandOut(sys.coord, expired);
    var (coord, kind, id) := OnRequest(sys.coord, expired);
    var task := if kind == MapTask then Mapping(id, 0) else Reducing(id, 0, []);
    sys' := sys.(coord := coord, workers := sys.workers[w := task]);
    StepLeads(job, sys, sys', Ask(w, expired, true));
  }

  lemma DoesOne(job: Job, sys: System, w: nat) returns (sys': System)
    requires JobOk(job) && Inv(job, sys) && w < |sys.workers| && sys.workers[w] == Free && !Over(sys.coord)
    ensures Leads(job, sys, sys') && Inv(job, sys') && sys'.workers == sys.workers && Nearer(sys.coord, sys'.coord)
  {
    var sys1, expired := Asks(job, sys, w);
    CompletedOne(sys.coord, expired);
    var (coord, kind, id) := OnRequest(sys.coord, expired);
    var sys2;
    if kind == MapTask { sys2 := MapsToTheEnd(job, sys1, w); } else { sys2 := ReducesToTheEnd(job, sys1, w); }
    sys' := sys2.(coord := OnReport(sys2.coord, kind, id));
    StepLeads(job, sys2, sys', Deliver(kind, id));
    LeadsTrans(job, sys, sys1, sys2);
    LeadsTrans(job, sys, sys2, sys');
  }

  lemma {:induction false} DoesAll(job: Job, sys: System, w: nat) returns (sys': System)
    requires JobOk(job) && Inv(job, sys) && w < |sys.workers| && sys.workers[w] == Free
    ensures Leads(job, sys, sys') && Inv(job, sys') && sys'.workers == sys.workers && Over(sys'.coord)
    decreases Open(sys.coord.maps), Open(sys.coord.reduces)
  {
    if Over(sys.coord) {
      sys' := sys;
      LeadsRefl(job, sys);
    } else {
      var sys1 := DoesOne(job, sys, w);
      sys' := DoesAll(job, sys1, w);
      LeadsTrans(job, sys, sys1, sys');
    }
  }

  lemma Finishes(job: Job, sys: System, w: nat) returns (sys': System)
    requires JobOk(job) && Inv(job, sys) && w < |sys.workers|
    ensures Leads(job, sys, sys') && sys'.coord.phase == DonePhase
  {
    var sys1 := FreesUp(job, sys, w);
    var sys2 := DoesAll(job, sys1, w);
    RequestExactly(sys2.coord, {});
    RequestOk(sys2.coord, {});
    sys' := sys2.(coord := OnRequest(sys2.coord, {}).0, workers := sys2.workers[w := Free]);
    StepLeads(job, sys2, sys', Ask(w, {}, true));
    LeadsTrans(job, sys, sys1, sys2);
    LeadsTrans(job, sys, sys2, sys');
  }

  /** Whatever has crashed, stalled or been reported late or twice in a run, any one worker can bring the
      job to its end. */
  lemma JobCanFinish(job: Job, run: seq<System>, steps: seq<Step>, w: nat)
    returns (more: seq<System>, moreSteps: seq<Step>)
    requires IsRun(job, run, steps) && w < |run[|steps|].workers|
    ensures IsRun(job, run + more, steps + moreSteps) && (run + more)[|steps + moreSteps|].coord.phase == DonePhase
  {
    RunInv(job, run, steps, |steps|);
    var end := Finishes(job, run[|steps|], w);
    var path, pathSteps :| PathBetween(job, path, pathSteps, run[|steps|], end);
    more, moreSteps := path[1..], pathSteps;
    assert PathBetween(job, run, steps, run[0], run[|steps|]);
    PathsJoin(job, run, steps, run[0], run[|steps|], path, pathSteps, end);
  }
}
