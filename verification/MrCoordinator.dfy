/** The coordinator: two rounds of tasks, handed out again when they time out. */
module MrCoordinator {
  import opened KvStore

  datatype Status = Idle | InProgress | Completed

  datatype Phase = MapPhase | ReducePhase | DonePhase

  datatype Kind = MapTask | ReduceTask | WaitTask | ExitTask

  datatype Coord = Coord(phase: Phase, maps: seq<Status>, reduces: seq<Status>)

  predicate AllDone(tasks: seq<Status>) {
    forall i :: 0 <= i < |tasks| ==> tasks[i] == Completed
  }

  /** Idle, or in progress for too long. */
  predicate Available(tasks: seq<Status>, expired: set<nat>, i: nat) {
    i < |tasks| && (tasks[i] == Idle || (tasks[i] == InProgress && i in expired))
  }

  /** The first available task from `i` on. */
  function Pick(tasks: seq<Status>, expired: set<nat>, i: nat): (pick: Option<nat>)
    requires i <= |tasks|
    ensures pick.Some? ==> i <= pick.value && Available(tasks, expired, pick.value)
    ensures forall k :: i <= k < (if pick.Some? then pick.value else |tasks|) ==> !Available(tasks, expired, k)
    decreases |tasks| - i
  {
    if i == |tasks| then None
    else if Available(tasks, expired, i) then Some(i)
    else Pick(tasks, expired, i + 1)
  }

  function HandOut(tasks: seq<Status>, pick: Option<nat>): seq<Status>
    requires pick.Some? ==> pick.value < |tasks|
  {
    if pick.Some? then tasks[pick.value := InProgress] else tasks
  }

  /** The new state, the kind of task handed out, and which. */
  function OnRequest(c: Coord, expired: set<nat>): (Coord, Kind, nat) {
    var phase := if c.phase == MapPhase && AllDone(c.maps) then ReducePhase else c.phase;
    if phase == MapPhase then
      var pick := Pick(c.maps, expired, 0);
      (c.(maps := HandOut(c.maps, pick)), if pick.Some? then MapTask else WaitTask,
       if pick.Some? then pick.value else 0)
    else if phase == ReducePhase && !AllDone(c.reduces) then
      var pick := Pick(c.reduces, expired, 0);
      (Coord(phase, c.maps, HandOut(c.reduces, pick)), if pick.Some? then ReduceTask else WaitTask,
       if pick.Some? then pick.value else 0)
    else (c.(phase := DonePhase), ExitTask, 0)
  }

  function Finish(tasks: seq<Status>, id: nat): seq<Status>
    requires id < |tasks|
  {
    if tasks[id] == InProgress then tasks[id := Completed] else tasks
  }

  function OnReport(c: Coord, kind: Kind, id: int): Coord {
    match kind
    case MapTask =>
      if !(0 <= id < |c.maps|) || c.phase != MapPhase then c
      else
        var maps := Finish(c.maps, id);
        Coord(if AllDone(maps) then ReducePhase else MapPhase, maps, c.reduces)
    case ReduceTask =>
      if !(0 <= id < |c.reduces|) || c.phase != ReducePhase then c
      else
        var reduces := Finish(c.reduces, id);
        Coord(if AllDone(reduces) then DonePhase else ReducePhase, c.maps, reduces)
    case _ => c
  }

  // ----- what requests and reports keep -----

  /** No reduce task is touched before all maps are complete, and the job is done only when all
      tasks are. */
  predicate CoordOk(c: Coord) {
    && (c.phase != MapPhase ==> AllDone(c.maps))
    && (c.phase == MapPhase ==> forall i :: 0 <= i < |c.reduces| ==> c.reduces[i] == Idle)
    && (c.phase == DonePhase ==> AllDone(c.reduces))
  }

  /** Completed tasks stay completed and the phases only advance. */
  predicate Forward(c: Coord, c': Coord) {
    && |c'.maps| == |c.maps| && |c'.reduces| == |c.reduces|
    && (forall i :: 0 <= i < |c.maps| && c.maps[i] == Completed ==> c'.maps[i] == Completed)
    && (forall i :: 0 <= i < |c.reduces| && c.reduces[i] == Completed ==> c'.reduces[i] == Completed)
    && (c.phase == DonePhase ==> c'.phase == DonePhase)
    && (c.phase == ReducePhase ==> c'.phase != MapPhase)
  }

  /** A reduce task is handed out only when every map task is complete; what is handed out was not
      complete itself; a worker is told to exit only when the whole job is done. */
  lemma RequestOk(c: Coord, expired: set<nat>)
    requires CoordOk(c)
    ensures var (c', kind, id) := OnRequest(c, expired);
            && CoordOk(c') && Forward(c, c')
            && (kind == MapTask ==> id < |c.maps| && c.maps[id] != Completed && c'.maps[id] == InProgress)
            && (kind == ReduceTask ==>
                  AllDone(c'.maps) && id < |c.reduces| && c.reduces[id] != Completed && c'.reduces[id] == InProgress)
            && (kind == ExitTask <==> c'.phase == DonePhase)
  {
  }

  /** The tasks that are being handed out. */
  function Current(c: Coord): (Kind, seq<Status>) {
    if c.phase == MapPhase && !AllDone(c.maps) then (MapTask, c.maps) else (ReduceTask, c.reduces)
  }

  /** A worker is told to wait exactly when the job is not over and no task of the current round is idle
      or expired; otherwise, until the job is over, it gets the lowest such task, and only that task's
      status changes. */
  lemma RequestExactly(c: Coord, expired: set<nat>)
    requires CoordOk(c)
    ensures var (c', kind, id) := OnRequest(c, expired);
            var (round, tasks) := Current(c);
            && (kind == ExitTask <==> AllDone(c.maps) && AllDone(c.reduces))
            && (kind == WaitTask <==> kind != ExitTask && forall i: nat :: !Available(tasks, expired, i))
            && (kind == WaitTask || kind == ExitTask ==> c'.maps == c.maps && c'.reduces == c.reduces)
            && (kind != WaitTask && kind != ExitTask ==>
                  && kind == round && Available(tasks, expired, id)
                  && (forall i: nat :: i < id ==> !Available(tasks, expired, i))
                  && Current(c') == (round, tasks[id := InProgress])
                  && c' == Coord(c'.phase, if round == MapTask then c'.maps else c.maps,
                                 if round == MapTask then c.reduces else c'.reduces))
  {
    var (round, tasks) := Current(c);
    var pick := Pick(tasks, expired, 0);
    if pick.Some? {
      assert tasks[pick.value := InProgress][pick.value] != Completed;
    } else {
      forall i: nat ensures !Available(tasks, expired, i) {}
    }
  }

  /** A report changes one task at most: the reported one, of the current phase, from in progress to
      complete. */
  predicate Completes(tasks: seq<Status>, tasks': seq<Status>, id: int, now: bool) {
    && |tasks'| == |tasks|
    && forall i :: 0 <= i < |tasks| && tasks'[i] != tasks[i] ==>
         now && i == id && tasks[i] == InProgress && tasks'[i] == Completed
  }

  lemma ReportKeeps(c: Coord, kind: Kind, id: int)
    requires CoordOk(c)
    ensures CoordOk(OnReport(c, kind, id)) && Forward(c, OnReport(c, kind, id))
    ensures Completes(c.maps, OnReport(c, kind, id).maps, id, kind == MapTask && c.phase == MapPhase)
    ensures Completes(c.reduces, OnReport(c, kind, id).reduces, id, kind == ReduceTask && c.phase == ReducePhase)
    ensures kind == MapTask && c.phase == MapPhase && 0 <= id < |c.maps| && c.maps[id] == InProgress ==>
              OnReport(c, kind, id).maps[id] == Completed
    ensures kind == ReduceTask && c.phase == ReducePhase && 0 <= id < |c.reduces| && c.reduces[id] == InProgress ==>
              OnReport(c, kind, id).reduces[id] == Completed
  {
  }

  // ----- the object -----

  class Coordinator {
    var phase: Phase
    const mapTasks: array<Status>
    const reduceTasks: array<Status>

    ghost predicate Valid()
      reads this
    {
      mapTasks != reduceTasks
    }

    ghost function View(): Coord
      reads this, mapTasks, reduceTasks
    {
      Coord(phase, mapTasks[..], reduceTasks[..])
    }

    constructor (nMap: nat, nReduce: nat)
      ensures Valid() && fresh(mapTasks) && fresh(reduceTasks)
      ensures View() == Coord(MapPhase, seq(nMap, _ => Idle), seq(nReduce, _ => Idle)) && CoordOk(View())
    {
      phase := MapPhase;
      var ms := new Status[nMap](_ => Idle);
      var rs := new Status[nReduce](_ => Idle);
      mapTasks, reduceTasks := ms, rs;
      new;
      assert mapTasks[..] == seq(nMap, _ => Idle) && reduceTasks[..] == seq(nReduce, _ => Idle);
    }

    static method AllCompleted(tasks: array<Status>) returns (done: bool)
      ensures done == AllDone(tasks[..])
    {
      for i := 0 to tasks.Length
        invariant forall k :: 0 <= k < i ==> tasks[k] == Completed
      {
        if tasks[i] != Completed {
          return false;
        }
      }
      return true;
    }

    /** Scans for the first available task and hands it out. */
    static method Assign(tasks: array<Status>, expired: set<nat>) returns (pick: Option<nat>)
      modifies tasks
      ensures pick == Pick(old(tasks[..]), expired, 0) && tasks[..] == HandOut(old(tasks[..]), pick)
    {
      for i := 0 to tasks.Length
        invariant tasks[..] == old(tasks[..]) && Pick(tasks[..], expired, i) == Pick(tasks[..], expired, 0)
      {
        if tasks[i] == Idle || (tasks[i] == InProgress && i in expired) {
          tasks[i] := InProgress;
          return Some(i);
        }
      }
      return None;
    }

    /** `expired` are the tasks that have been in progress for more than ten seconds. */
    method RequestTask(expired: set<nat>) returns (kind: Kind, id: nat)
      requires Valid()
      modifies this`phase, mapTasks, reduceTasks
      ensures (View(), kind, id) == OnRequest(old(View()), expired)
    {
      if phase == MapPhase {
        var done := AllCompleted(mapTasks);
        if done {
          phase := ReducePhase;
        } else {
          var pick := Assign(mapTasks, expired);
          if pick.Some? {
            return MapTask, pick.value;
          }
          return WaitTask, 0;
        }
      }
      if phase == ReducePhase {
        var done := AllCompleted(reduceTasks);
        if done {
          phase := DonePhase;
          return ExitTask, 0;
        }
        var pick := Assign(reduceTasks, expired);
        if pick.Some? {
          return ReduceTask, pick.value;
        }
        return WaitTask, 0;
      }
      return ExitTask, 0;
    }

    method ReportTask(kind: Kind, id: int)
      requires Valid()
      modifies this`phase, mapTasks, reduceTasks
      ensures View() == OnReport(old(View()), kind, id)
    {
      match kind
      case MapTask =>
        if id < 0 || id >= mapTasks.Length {
          return;
        }
        if phase == MapPhase && mapTasks[id] == InProgress {
          mapTasks[id] := Completed;
        }
        if phase == MapPhase {
          var done := AllCompleted(mapTasks);
          if done {
            phase := ReducePhase;
          }
        }
      case ReduceTask =>
        if id < 0 || id >= reduceTasks.Length {
          return;
        }
        if phase == ReducePhase && reduceTasks[id] == InProgress {
          reduceTasks[id] := Completed;
        }
        if phase == ReducePhase {
          var done := AllCompleted(reduceTasks);
          if done {
            phase := DonePhase;
          }
        }
      case _ =>
    }
  }
}
