/** The coordinator of mr/coordinator.go: which task a worker gets, timeouts, completions. */
module MrCoordinator {

  datatype TaskState = Unassigned | Executing | Done

  datatype Phase = MapPhase | ReducePhase | Finished

  /** Map tasks come first, then reduce tasks. */
  datatype Coord = Coord(tasks: seq<TaskState>, phase: Phase)

  datatype Task = MapTask(id: nat) | ReduceTask(id: nat, keyHash: nat) | WaitTask | DoneTask

  predicate AllDone(tasks: seq<TaskState>, lo: nat, hi: nat)
    requires hi <= |tasks|
  {
    forall i :: lo <= i < hi ==> tasks[i] == Done
  }

  /** The first unassigned task of [lo, hi), or hi. */
  function FirstFree(tasks: seq<TaskState>, lo: nat, hi: nat): (i: nat)
    requires lo <= hi <= |tasks|
    ensures lo <= i <= hi && (i < hi ==> tasks[i] == Unassigned)
    ensures forall j :: lo <= j < i ==> tasks[j] != Unassigned
    decreases hi - lo
  {
    if lo == hi || tasks[lo] == Unassigned then lo else FirstFree(tasks, lo + 1, hi)
  }

  function Assign(c: Coord, i: nat): Coord
    requires i < |c.tasks|
  {
    c.(tasks := c.tasks[i := Executing])
  }

  function DispatchReduce(c: Coord, m: nat): (Coord, Task)
    requires m <= |c.tasks|
  {
    var n := |c.tasks|;
    var i := FirstFree(c.tasks, m, n);
    if i < n then (Assign(c, i), ReduceTask(i, i - m))
    else if AllDone(c.tasks, m, n) then (c.(phase := Finished), DoneTask)
    else (c, WaitTask)
  }

  /** GetTask() with m map tasks. */
  function Dispatch(c: Coord, m: nat): (Coord, Task)
    requires m <= |c.tasks|
  {
    match c.phase
    case MapPhase =>
      var i := FirstFree(c.tasks, 0, m);
      if i < m then (Assign(c, i), MapTask(i))
      else if AllDone(c.tasks, 0, m) then DispatchReduce(c.(phase := ReducePhase), m)
      else (c, WaitTask)
    case ReducePhase => DispatchReduce(c, m)
    case Finished => (c, DoneTask)
  }

  function Timeout(c: Coord, id: nat): Coord
    requires id < |c.tasks|
  {
    if c.tasks[id] == Executing then c.(tasks := c.tasks[id := Unassigned]) else c
  }

  function Complete(c: Coord, id: nat): Coord
    requires id < |c.tasks|
  {
    if c.tasks[id] == Executing then c.(tasks := c.tasks[id := Done]) else c
  }

  class Coordinator {
    const files: seq<string>
    const nReduce: nat
    const taskStates: array<TaskState>
    var state: Phase

    ghost predicate Valid() { taskStates.Length == |files| + nReduce }

    ghost function View(): Coord
      reads this, taskStates
    {
      Coord(taskStates[..], state)
    }

    constructor (files: seq<string>, nReduce: nat)
      ensures Valid() && this.files == files && this.nReduce == nReduce && fresh(taskStates)
      ensures View() == Coord(seq(|files| + nReduce, _ => Unassigned), MapPhase)
    {
      this.files, this.nReduce, state := files, nReduce, MapPhase;
      taskStates := new TaskState[|files| + nReduce](_ => Unassigned);
    }

    method GetTask() returns (task: Task)
      requires Valid()
      modifies this, taskStates
      ensures Valid() && (View(), task) == Dispatch(old(View()), |files|)
    {
      if state == MapPhase {
        var i, allDone := Scan(0, |files|);
        if i < |files| {
          taskStates[i] := Executing;
          return MapTask(i);
        }
        if allDone { state := ReducePhase; }
      }
      if state == ReducePhase {
        var i, allDone := Scan(|files|, taskStates.Length);
        if i < taskStates.Length {
          taskStates[i] := Executing;
          return ReduceTask(i, i - |files|);
        }
        if allDone { state := Finished; }
      }
      return if state == Finished then DoneTask else WaitTask;
    }

    /** The scan of one phase: stops at the first unassigned task. */
    method Scan(lo: nat, hi: nat) returns (i: nat, allDone: bool)
      requires lo <= hi <= taskStates.Length
      ensures i == FirstFree(taskStates[..], lo, hi)
      ensures i == hi ==> (allDone <==> AllDone(taskStates[..], lo, hi))
    {
      i, allDone := lo, true;
      while i < hi
        invariant lo <= i <= hi
        invariant FirstFree(taskStates[..], lo, hi) == FirstFree(taskStates[..], i, hi)
        invariant allDone <==> forall j :: lo <= j < i ==> taskStates[j] == Done
      {
        if taskStates[i] != Done { allDone := false; }
        if taskStates[i] == Unassigned { return; }
        i := i + 1;
      }
    }

    method Timer(id: nat)
      requires Valid() && id < taskStates.Length
      modifies taskStates
      ensures Valid() && View() == Timeout(old(View()), id)
    {
      if taskStates[id] == Executing { taskStates[id] := Unassigned; }
    }

    method CompleteTask(id: nat)
      requires Valid() && id < taskStates.Length
      modifies taskStates
      ensures Valid() && View() == Complete(old(View()), id)
    {
      if taskStates[id] == Executing { taskStates[id] := Done; }
    }

    method IsDone() returns (done: bool)
      ensures done <==> View().phase == Finished
    {
      return state == Finished;
    }
  }
}
