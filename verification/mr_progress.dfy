/**
 What the coordinator does, exactly, and that a job can always be finished: from every state of every
 run, whatever workers have crashed or hang, one worker can bring the job to its end.
 */
module MrProgress {
  import opened MrWorker
  import opened MrCoordinator
  import opened MrRun

  // ---------------------------------------------------------------- the coordinator's rules

  /** i is the first unassigned task of [lo, hi). */
  predicate FirstUnassigned(tasks: seq<TaskState>, lo: nat, hi: nat, i: nat)
    requires hi <= |tasks|
  {
    lo <= i < hi && tasks[i] == Unassigned && forall k :: lo <= k < i ==> tasks[k] != Unassigned
  }

  predicate NoneUnassigned(tasks: seq<TaskState>, lo: nat, hi: nat)
    requires hi <= |tasks|
  {
    forall k :: lo <= k < hi ==> tasks[k] != Unassigned
  }

  /** The phase a request for a task is served in: map tasks first, then reduce tasks, then nothing. */
  function Serving(c: Coord, m: nat): Phase
    requires m <= |c.tasks|
  {
    if c.phase == MapPhase && !AllDone(c.tasks, 0, m) then MapPhase
    else if c.phase != Finished && !AllDone(c.tasks, m, |c.tasks|) then ReducePhase
    else Finished
  }

  /** GetTask hands out the first unassigned task of the phase, which starts executing; with none left, the caller waits. */
  lemma DispatchRule(c: Coord, m: nat, i: nat)
    requires m <= |c.tasks|
    ensures var (d, t) := Dispatch(c, m);
            var n := |c.tasks|;
            && d.phase == Serving(c, m)
            && (Serving(c, m) == MapPhase && FirstUnassigned(c.tasks, 0, m, i) ==>
                  t == MapTask(i) && d.tasks == c.tasks[i := Executing])
            && (Serving(c, m) == MapPhase && NoneUnassigned(c.tasks, 0, m) ==> t == WaitTask && d.tasks == c.tasks)
            && (Serving(c, m) == ReducePhase && FirstUnassigned(c.tasks, m, n, i) ==>
                  t == ReduceTask(i, i - m) && d.tasks == c.tasks[i := Executing])
            && (Serving(c, m) == ReducePhase && NoneUnassigned(c.tasks, m, n) ==> t == WaitTask && d.tasks == c.tasks)
            && (Serving(c, m) == Finished ==> t == DoneTask && d.tasks == c.tasks)
  {
  }

  /** A timeout gives an executing task back and touches nothing else; a completion marks an executing task done. */
  lemma TimerRule(c: Coord, id: nat)
    requires id < |c.tasks|
    ensures var (t, d) := (Timeout(c, id), Complete(c, id));
            && t.phase == c.phase == d.phase && |t.tasks| == |c.tasks| == |d.tasks|
            && (forall k :: 0 <= k < |c.tasks| && k != id ==> t.tasks[k] == c.tasks[k] == d.tasks[k])
            && t.tasks[id] == (if c.tasks[id] == Executing then Unassigned else c.tasks[id])
            && d.tasks[id] == (if c.tasks[id] == Executing then Done else c.tasks[id])
  {
  }

  // ---------------------------------------------------------------- sorting and reducing can always be done

  lemma {:induction false} InsertSorted(x: KeyValue, s: seq<KeyValue>) returns (t: seq<KeyValue>)
    requires Sorted(s)
    ensures Sorted(t) && multiset(t) == multiset(s) + multiset{x}
  {
    if s == [] || !Less(s[0].key, x.key) {
      t := [x] + s;
      forall i, j | 0 <= i < j < |t|
        ensures !Less(t[j].key, t[i].key)
      {
        if i == 0 && j > 1 { NotLess(x.key, s[0].key, s[j - 1].key); }
      }
    } else {
      var rest := InsertSorted(x, s[1..]);
      t := [s[0]] + rest;
      assert s == [s[0]] + s[1..];
      forall i, j | 0 <= i < j < |t|
        ensures !Less(t[j].key, t[i].key)
      {
        if i == 0 {
          assert rest[j - 1] in multiset(rest);
          HeadIsLeast(x, s, rest[j - 1]);
        }
      }
    }
  }

  lemma HeadIsLeast(x: KeyValue, s: seq<KeyValue>, y: KeyValue)
    requires s != [] && Sorted(s) && Less(s[0].key, x.key) && y in multiset(s[1..]) + multiset{x}
    ensures !Less(y.key, s[0].key)
  {
    LessIsOrder(s[0].key, x.key, x.key);
    if y != x {
      assert y in s[1..];
      var k :| 0 <= k < |s[1..]| && s[1..][k] == y;
      assert s[k + 1] == y;
    }
  }

  /** a is not above b, b not above c. */
  lemma NotLess(a: string, b: string, c: string)
    requires !Less(b, a) && !Less(c, b)
    ensures !Less(c, a)
  {
    LessIsOrder(c, a, b);
    LessIsOrder(a, b, c);
    LessIsOrder(b, c, a);
  }

  lemma {:induction false} SortedExists(s: seq<KeyValue>) returns (t: seq<KeyValue>)
    ensures Sorted(t) && multiset(t) == multiset(s)
  {
    if s == [] {
      t := [];
    } else {
      var n := |s| - 1;
      t := SortedExists(s[..n]);
      t := InsertSorted(s[n], t);
      assert s == s[..n] + [s[n]];
    }
  }

  lemma {:induction false} RunEnds(kvs: seq<KeyValue>, i: nat, k: nat) returns (j: nat)
    requires i < k <= |kvs| && forall x :: i <= x < k ==> kvs[x].key == kvs[i].key
    ensures i < j <= |kvs| && (forall x :: i <= x < j ==> kvs[x].key == kvs[i].key)
    ensures j < |kvs| ==> kvs[j].key != kvs[i].key
    decreases |kvs| - k
  {
    if k < |kvs| && kvs[k].key == kvs[i].key { j := RunEnds(kvs, i, k + 1); } else { j := k; }
  }

  lemma {:induction false} ReductionExists(kvs: seq<KeyValue>, f: Reducer, out: seq<Line>, i: nat) returns (all: seq<Line>)
    requires Sorted(kvs) && ReducedTo(kvs, f, out, i)
    ensures IsReduction(kvs, f, all)
    decreases |kvs| - i
  {
    if i == |kvs| {
      all := out;
      assert kvs[..i] == kvs;
    } else {
      var j := RunEnds(kvs, i, i + 1);
      RunReduced(kvs, f, out, i, j);
      all := ReductionExists(kvs, f, out + [Line(kvs[i].key, f(kvs[i].key, Values(kvs[i..j], kvs[i].key)))], j);
    }
  }

  // ---------------------------------------------------------------- steps of one worker

  function Last(tr: seq<World>): World
    requires tr != []
  {
    tr[|tr| - 1]
  }

  ghost predicate Sized(j: Job, s: World) {
    j.nReduce > 0 && |s.coord.tasks| == |j.files| + j.nReduce
  }

  lemma Take(j: Job, tr: seq<World>, e: Step) returns (tr': seq<World>)
    requires Run(j, tr) && Enabled(j, Last(tr), e)
    ensures Run(j, tr') && tr <= tr' && Last(tr') == Next(j, Last(tr), e)
  {
    tr' := tr + [Next(j, Last(tr), e)];
    forall n | 0 <= n < |tr'| - 1
      ensures Steps(j, tr'[n], tr'[n + 1])
    {
      if n < |tr| - 1 { assert tr'[n] == tr[n] && tr'[n + 1] == tr[n + 1]; }
    }
  }

  /** No task is executing: all are done or waiting to be handed out. */
  ghost predicate NoneRuns(s: World) {
    forall k :: 0 <= k < |s.coord.tasks| ==> s.coord.tasks[k] != Executing
  }

  /** All hanging tasks time out. */
  lemma {:induction false} AllTimeOut(j: Job, tr: seq<World>, k: nat) returns (tr': seq<World>)
    requires Run(j, tr) && Sized(j, Last(tr)) && k <= |Last(tr).coord.tasks|
    requires forall i :: 0 <= i < k ==> Last(tr).coord.tasks[i] != Executing
    ensures Run(j, tr') && tr <= tr' && Sized(j, Last(tr')) && NoneRuns(Last(tr'))
    ensures Last(tr').workers == Last(tr).workers
    decreases |Last(tr).coord.tasks| - k
  {
    if k == |Last(tr).coord.tasks| {
      tr' := tr;
    } else {
      var a := Take(j, tr, Timer(k));
      tr' := AllTimeOut(j, a, k + 1);
    }
  }

  /** A mapper writes its remaining buckets and reports. */
  lemma {:induction false} Writes(j: Job, tr: seq<World>, w: nat, x: nat, y: nat) returns (tr': seq<World>)
    requires Run(j, tr) && Sized(j, Last(tr)) && x < |j.files| && y <= j.nReduce && At(Last(tr), w) == Mapping(x, y)
    ensures Run(j, tr') && tr <= tr' && Last(tr').coord == Complete(Last(tr).coord, x) && At(Last(tr'), w) == Idle
    decreases j.nReduce - y
  {
    var a := Take(j, tr, WriteBucket(w));
    if y < j.nReduce {
      tr' := Writes(j, a, w, x, y + 1);
    } else {
      assert At(Last(a), w) == Finishing(x);
      tr' := Take(j, a, Finish(w));
    }
  }

  /** A reducer reads its remaining files. */
  lemma {:induction false} Reads(j: Job, tr: seq<World>, w: nat, y: nat, todo: set<int>, seen: set<int>, got: seq<KeyValue>)
    returns (tr': seq<World>, seen': set<int>, got': seq<KeyValue>)
    requires Run(j, tr) && Sized(j, Last(tr)) && At(Last(tr), w) == Gathering(y, todo, seen, got)
    requires forall x :: x in todo ==> (x, y) in Last(tr).parts
    ensures Run(j, tr') && tr <= tr' && Last(tr').coord == Last(tr).coord
    ensures At(Last(tr'), w) == Gathering(y, {}, seen', got')
    decreases todo
  {
    if todo == {} {
      tr', seen', got' := tr, seen, got;
    } else {
      Sums.SomeMember(todo);
      var x :| x in todo;
      var a := Take(j, tr, ReadPart(w, x));
      tr', seen', got' := Reads(j, a, w, y, todo - {x}, seen + {x}, got + Last(tr).parts[(x, y)]);
    }
  }

  /** A reducer does its task from beginning to end. */
  lemma Reduces(j: Job, tr: seq<World>, w: nat, y: nat) returns (tr': seq<World>)
    requires Run(j, tr) && Sized(j, Last(tr)) && y < j.nReduce && At(Last(tr), w) == Reducing(y)
    ensures Run(j, tr') && tr <= tr' && Last(tr').coord == Complete(Last(tr).coord, |j.files| + y) && At(Last(tr'), w) == Idle
  {
    var s := Last(tr);
    var a := Take(j, tr, Glob(w));
    var todo := set p | p in s.parts && p.1 == y :: p.0;
    assert At(Last(a), w) == Gathering(y, todo, {}, []);
    var b, seen, got := Reads(j, a, w, y, todo, {}, []);
    var sorted := SortedExists(got);
    var out := ReductionExists(sorted, j.reducef, [], 0);
    var c := Take(j, b, WriteOutput(w, sorted, out));
    assert At(Last(c), w) == Finishing(|j.files| + y);
    tr' := Take(j, c, Finish(w));
  }

  // ---------------------------------------------------------------- the whole job

  function Waiting(tasks: seq<TaskState>): nat {
    if tasks == [] then 0 else Waiting(tasks[1..]) + (if tasks[0] == Unassigned then 1 else 0)
  }

  lemma {:induction false} WaitingFalls(tasks: seq<TaskState>, i: nat)
    requires i < |tasks| && tasks[i] == Unassigned
    ensures Waiting(tasks[i := Done]) == Waiting(tasks) - 1
  {
    if i > 0 {
      WaitingFalls(tasks[1..], i - 1);
      assert tasks[i := Done][1..] == tasks[1..][i - 1 := Done];
    } else {
      assert tasks[0 := Done][1..] == tasks[1..];
    }
  }

  /** A free worker asks for a task and does it. */
  lemma OneTask(j: Job, tr: seq<World>, w: nat) returns (tr': seq<World>)
    requires Run(j, tr) && Sized(j, Last(tr)) && NoneRuns(Last(tr)) && At(Last(tr), w) == Idle
    requires Serving(Last(tr).coord, |j.files|) != Finished
    ensures Run(j, tr') && tr <= tr' && Sized(j, Last(tr')) && NoneRuns(Last(tr')) && At(Last(tr'), w) == Idle
    ensures Waiting(Last(tr').coord.tasks) < Waiting(Last(tr).coord.tasks)
  {
    var c := Last(tr).coord;
    var m := |j.files|;
    var (lo, hi) := if Serving(c, m) == MapPhase then (0, m) else (m, |c.tasks|);
    var i := FirstFree(c.tasks, lo, hi);
    assert FirstUnassigned(c.tasks, lo, hi, i);
    DispatchRule(c, m, i);
    var a := Take(j, tr, Ask(w, true));
    if Serving(c, m) == MapPhase {
      assert At(Last(a), w) == Mapping(i, 0);
      tr' := Writes(j, a, w, i, 0);
    } else {
      assert At(Last(a), w) == Reducing(i - m);
      tr' := Reduces(j, a, w, i - m);
    }
    assert Last(tr').coord.tasks == c.tasks[i := Done];
    WaitingFalls(c.tasks, i);
  }

  lemma {:induction false} AllTasks(j: Job, tr: seq<World>, w: nat) returns (tr': seq<World>)
    requires Run(j, tr) && Sized(j, Last(tr)) && NoneRuns(Last(tr)) && At(Last(tr), w) == Idle
    ensures Run(j, tr') && tr <= tr' && Last(tr').coord.phase == Finished
    decreases Waiting(Last(tr).coord.tasks)
  {
    if Serving(Last(tr).coord, |j.files|) == Finished {
      DispatchRule(Last(tr).coord, |j.files|, 0);
      tr' := Take(j, tr, Ask(w, true));
    } else {
      var a := OneTask(j, tr, w);
      tr' := AllTasks(j, a, w);
    }
  }

  lemma {:induction false} RunSized(j: Job, tr: seq<World>, n: nat)
    requires Run(j, tr) && n < |tr| && j.nReduce > 0
    ensures Sized(j, tr[n])
  {
    if n > 0 {
      RunSized(j, tr, n - 1);
      assert Steps(j, tr[n - 1], tr[n]);
      var e :| Enabled(j, tr[n - 1], e) && tr[n] == Next(j, tr[n - 1], e);
    }
  }

  /** Whatever has happened, the job can be finished: hanging tasks time out and worker w, started afresh, does the rest. */
  lemma JobCanFinish(j: Job, tr: seq<World>, w: nat) returns (tr': seq<World>)
    requires Run(j, tr) && j.nReduce > 0
    ensures Run(j, tr') && tr <= tr' && Last(tr').coord.phase == Finished
  {
    RunSized(j, tr, |tr| - 1);
    var a := AllTimeOut(j, tr, 0);
    var b := Take(j, a, Crash(w));
    tr' := AllTasks(j, b, w);
  }
}
