/**
 Runs of the MapReduce system: any number of workers, each crashing at any point, tasks timing out
 and being executed twice, replies getting lost. A finished job has the sequential program's output.
 */
module MrRun {
  import opened Sums
  import opened MrWorker
  import opened MrCoordinator

  datatype Job = Job(
    files: seq<string>,
    read: string -> string,
    mapf: (string, string) -> seq<KeyValue>,
    reducef: Reducer,
    hash: string -> nat,
    nReduce: nat)

  /** The reducer does not care in which order it gets the values. */
  ghost predicate Insensitive(f: Reducer) {
    forall k, v, w :: multiset(v) == multiset(w) ==> f(k, v) == f(k, w)
  }

  function Mapped(j: Job, x: nat): seq<KeyValue>
    requires x < |j.files|
  {
    j.mapf(j.files[x], j.read(j.files[x]))
  }

  /** What mrsequential accumulates from the first n files. */
  function Intermediate(j: Job, n: nat): seq<KeyValue>
    requires n <= |j.files|
  {
    if n == 0 then [] else Intermediate(j, n - 1) + Mapped(j, n - 1)
  }

  function All(j: Job): seq<KeyValue> { Intermediate(j, |j.files|) }

  /** The sequential program's loop over its input files. */
  method Accumulate(j: Job) returns (intermediate: seq<KeyValue>)
    ensures intermediate == All(j)
  {
    intermediate := [];
    var x := 0;
    while x < |j.files|
      invariant 0 <= x <= |j.files| && intermediate == Intermediate(j, x)
    {
      intermediate := intermediate + j.mapf(j.files[x], j.read(j.files[x]));
      x := x + 1;
    }
  }

  /** File mr-x-y. */
  function Part(j: Job, x: nat, y: nat): seq<KeyValue>
    requires x < |j.files| && j.nReduce > 0
  {
    Bucket(j.hash, j.nReduce, Mapped(j, x), y)
  }

  /** Where a worker is. */
  datatype Pc =
    | Idle
    | Mapping(x: nat, y: nat)
    | Reducing(y: nat)
    | Gathering(y: nat, todo: set<int>, seen: set<int>, got: seq<KeyValue>)
    | Finishing(id: nat)

  datatype World = World(
    coord: Coord,
    parts: map<(int, nat), seq<KeyValue>>,
    outs: map<nat, seq<Line>>,
    workers: map<nat, Pc>)

  datatype Step =
    | Ask(w: nat, heard: bool)
    | WriteBucket(w: nat)
    | Glob(w: nat)
    | ReadPart(w: nat, x: int)
    | WriteOutput(w: nat, sorted: seq<KeyValue>, out: seq<Line>)
    | Finish(w: nat)
    | Timer(id: nat)
    | Crash(w: nat)

  function At(s: World, w: nat): Pc { if w in s.workers then s.workers[w] else Idle }

  function Go(s: World, w: nat, pc: Pc): World { s.(workers := s.workers[w := pc]) }

  function Begin(t: Task): Pc {
    match t
    case MapTask(id) => Mapping(id, 0)
    case ReduceTask(_, y) => Reducing(y)
    case _ => Idle
  }

  ghost predicate Enabled(j: Job, s: World, e: Step) {
    j.nReduce > 0 && |s.coord.tasks| == |j.files| + j.nReduce &&
    match e
    case Ask(w, _) => At(s, w).Idle?
    case WriteBucket(w) => At(s, w).Mapping? && At(s, w).x < |j.files|
    case Glob(w) => At(s, w).Reducing?
    case ReadPart(w, x) => At(s, w).Gathering? && x in At(s, w).todo && (x, At(s, w).y) in s.parts
    case WriteOutput(w, sorted, out) =>
      && At(s, w).Gathering? && At(s, w).todo == {}
      && multiset(sorted) == multiset(At(s, w).got) && Sorted(sorted) && IsReduction(sorted, j.reducef, out)
    case Finish(w) => At(s, w).Finishing? && At(s, w).id < |s.coord.tasks|
    case Timer(id) => id < |s.coord.tasks|
    case Crash(w) => true
  }

  ghost function Next(j: Job, s: World, e: Step): World
    requires Enabled(j, s, e)
  {
    match e
    case Ask(w, heard) =>
      var (c, t) := Dispatch(s.coord, |j.files|);
      Go(s.(coord := c), w, if heard then Begin(t) else Idle)
    case WriteBucket(w) =>
      var pc := At(s, w);
      if pc.y < j.nReduce then
        var s' := if Part(j, pc.x, pc.y) == [] then s else s.(parts := s.parts[(pc.x, pc.y) := Part(j, pc.x, pc.y)]);
        Go(s', w, Mapping(pc.x, pc.y + 1))
      else Go(s, w, Finishing(pc.x))
    case Glob(w) =>
      var y := At(s, w).y;
      Go(s, w, Gathering(y, set p | p in s.parts && p.1 == y :: p.0, {}, []))
    case ReadPart(w, x) =>
      var pc := At(s, w);
      Go(s, w, Gathering(pc.y, pc.todo - {x}, pc.seen + {x}, pc.got + s.parts[(x, pc.y)]))
    case WriteOutput(w, _, out) =>
      var y := At(s, w).y;
      Go(s.(outs := s.outs[y := out]), w, Finishing(|j.files| + y))
    case Finish(w) => Go(s.(coord := Complete(s.coord, At(s, w).id)), w, Idle)
    case Timer(id) => s.(coord := Timeout(s.coord, id))
    case Crash(w) => Go(s, w, Idle)
  }

  ghost predicate Steps(j: Job, s: World, s': World) {
    exists e :: Enabled(j, s, e) && s' == Next(j, s, e)
  }

  ghost predicate Run(j: Job, tr: seq<World>) {
    && tr != []
    && tr[0] == World(Coord(seq(|j.files| + j.nReduce, _ => Unassigned), MapPhase), map[], map[], map[])
    && forall n :: 0 <= n < |tr| - 1 ==> Steps(j, tr[n], tr[n + 1])
  }

  // ---------------------------------------------------------------- counting pairs

  /** How often pair p occurs in file mr-x-y. */
  ghost function Share(j: Job, y: nat, p: KeyValue): int -> nat
    requires j.nReduce > 0
  {
    x => if 0 <= x < |j.files| then multiset(Part(j, x, y))[p] else 0
  }

  ghost function Below(S: set<int>, n: nat): set<int> { set x | x in S && x < n }

  /** Files that hold everything for task y hold each of its pairs as often as the whole does, and nothing else. */
  lemma {:induction false} PartsAreAll(j: Job, y: nat, p: KeyValue, S: set<int>, n: nat)
    requires j.nReduce > 0 && n <= |j.files|
    requires forall x: nat :: x < n && x !in S ==> Part(j, x, y) == []
    requires forall x :: x in S ==> x >= 0
    ensures Sum(Share(j, y, p), Below(S, n))
         == if IndexOf(j.hash, p.key, j.nReduce) == y then multiset(Intermediate(j, n))[p] else 0
  {
    var f := Share(j, y, p);
    if n == 0 {
      assert Below(S, 0) == {};
    } else {
      var x := n - 1;
      PartsAreAll(j, y, p, S, x);
      BucketCount(j.hash, j.nReduce, Mapped(j, x), y, p);
      if x in S {
        assert Below(S, n) - {x} == Below(S, x);
        SumTake(f, Below(S, n), x);
      } else {
        assert Below(S, n) == Below(S, x);
      }
    }
  }

  /** What a reduce task has read agrees with the whole on every key that belongs to it. */
  ghost predicate HoldsAll(j: Job, y: nat, got: seq<KeyValue>)
    requires j.nReduce > 0
  {
    forall p :: multiset(got)[p] == if IndexOf(j.hash, p.key, j.nReduce) == y then multiset(All(j))[p] else 0
  }

  /** The lines file mr-out-y must have. */
  ghost predicate OutputOk(j: Job, y: nat, out: seq<Line>)
    requires j.nReduce > 0
  {
    && (forall a, b :: 0 <= a < b < |out| ==> Less(out[a].key, out[b].key))
    && (forall a :: 0 <= a < |out| ==>
          && IndexOf(j.hash, out[a].key, j.nReduce) == y && HasKey(All(j), out[a].key)
          && out[a].output == j.reducef(out[a].key, Values(All(j), out[a].key)))
    && (forall k :: HasKey(All(j), k) && IndexOf(j.hash, k, j.nReduce) == y ==> Printed(out, k))
  }

  lemma KeyOccurs(s: seq<KeyValue>, k: string)
    ensures HasKey(s, k) <==> exists v :: multiset(s)[KeyValue(k, v)] > 0
  {
    if HasKey(s, k) {
      var i :| 0 <= i < |s| && s[i].key == k;
      assert s[i] in multiset(s) && s[i] == KeyValue(k, s[i].value);
    }
    if v :| multiset(s)[KeyValue(k, v)] > 0 {
      assert KeyValue(k, v) in s;
      var i :| 0 <= i < |s| && s[i] == KeyValue(k, v);
    }
  }

  lemma SameCountsSameKeys(s: seq<KeyValue>, t: seq<KeyValue>, k: string)
    requires forall v :: multiset(s)[KeyValue(k, v)] == multiset(t)[KeyValue(k, v)]
    ensures HasKey(s, k) <==> HasKey(t, k)
  {
    KeyOccurs(s, k);
    KeyOccurs(t, k);
    if HasKey(s, k) {
      var v :| multiset(s)[KeyValue(k, v)] > 0;
      assert multiset(t)[KeyValue(k, v)] > 0;
    }
    if HasKey(t, k) {
      var v :| multiset(t)[KeyValue(k, v)] > 0;
      assert multiset(s)[KeyValue(k, v)] > 0;
    }
  }

  lemma OwnKey(j: Job, y: nat, sorted: seq<KeyValue>, k: string)
    requires j.nReduce > 0 && HoldsAll(j, y, sorted) && HasKey(sorted, k)
    ensures IndexOf(j.hash, k, j.nReduce) == y
  {
    KeyOccurs(sorted, k);
    var v :| multiset(sorted)[KeyValue(k, v)] > 0;
  }

  /** For a key that belongs to reduce task y, what was read and the whole have the same values up to order. */
  lemma OwnValues(j: Job, y: nat, sorted: seq<KeyValue>, k: string)
    requires j.nReduce > 0 && HoldsAll(j, y, sorted) && IndexOf(j.hash, k, j.nReduce) == y
    ensures HasKey(sorted, k) <==> HasKey(All(j), k)
    ensures multiset(Values(sorted, k)) == multiset(Values(All(j), k))
  {
    forall v
      ensures multiset(sorted)[KeyValue(k, v)] == multiset(All(j))[KeyValue(k, v)]
    {
      assert IndexOf(j.hash, KeyValue(k, v).key, j.nReduce) == y;
    }
    SameCountsSameKeys(sorted, All(j), k);
    SamePairsSameValues(sorted, All(j), k);
  }

  lemma ReductionOk(j: Job, y: nat, sorted: seq<KeyValue>, out: seq<Line>)
    requires j.nReduce > 0 && Insensitive(j.reducef) && HoldsAll(j, y, sorted) && IsReduction(sorted, j.reducef, out)
    ensures OutputOk(j, y, out)
  {
    forall a | 0 <= a < |out|
      ensures IndexOf(j.hash, out[a].key, j.nReduce) == y && HasKey(All(j), out[a].key)
      ensures out[a].output == j.reducef(out[a].key, Values(All(j), out[a].key))
    {
      OwnKey(j, y, sorted, out[a].key);
      OwnValues(j, y, sorted, out[a].key);
    }
    forall k | HasKey(All(j), k) && IndexOf(j.hash, k, j.nReduce) == y
      ensures Printed(out, k)
    {
      OwnValues(j, y, sorted, k);
      var i :| 0 <= i < |sorted| && sorted[i].key == k;
    }
  }

  // ---------------------------------------------------------------- invariant

  /** Map task x has written all its nonempty files below y. */
  ghost predicate Written(j: Job, s: World, x: nat, y: nat)
    requires j.nReduce > 0 && x < |j.files|
  {
    forall z: nat :: z < y && z < j.nReduce && Part(j, x, z) != [] ==> (x, z) in s.parts
  }

  ghost predicate MapsDone(j: Job, s: World)
    requires j.nReduce > 0
  {
    forall x: nat :: x < |j.files| ==> Written(j, s, x, j.nReduce)
  }

  ghost predicate GatheringOk(j: Job, s: World, y: nat, todo: set<int>, seen: set<int>, got: seq<KeyValue>)
    requires j.nReduce > 0
  {
    && todo !! seen
    && (forall x :: x in todo + seen ==> 0 <= x < |j.files|)
    && (forall x :: x in todo ==> (x, y) in s.parts)
    && (forall x: nat :: x < |j.files| && x !in todo + seen ==> Part(j, x, y) == [])
    && (forall p :: multiset(got)[p] == Sum(Share(j, y, p), seen))
  }

  ghost predicate PcOk(j: Job, s: World, pc: Pc)
    requires j.nReduce > 0
  {
    match pc
    case Idle => true
    case Mapping(x, y) => x < |j.files| && Written(j, s, x, y)
    case Reducing(y) => y < j.nReduce && MapsDone(j, s)
    case Gathering(y, todo, seen, got) => y < j.nReduce && GatheringOk(j, s, y, todo, seen, got)
    case Finishing(id) =>
      if id < |j.files| then Written(j, s, id, j.nReduce)
      else id < |j.files| + j.nReduce && id - |j.files| in s.outs
  }

  ghost predicate Ok(j: Job, s: World) {
    j.nReduce > 0 && |s.coord.tasks| == |j.files| + j.nReduce
    && (forall x: int, y: nat :: (x, y) in s.parts ==>
          0 <= x < |j.files| && y < j.nReduce && s.parts[(x, y)] == Part(j, x, y))
    && (forall y :: y in s.outs ==> OutputOk(j, y, s.outs[y]))
    && (forall x: nat :: x < |j.files| && s.coord.tasks[x] == Done ==> Written(j, s, x, j.nReduce))
    && (forall y: nat :: y < j.nReduce && s.coord.tasks[|j.files| + y] == Done ==> y in s.outs)
    && (s.coord.phase != MapPhase ==> MapsDone(j, s))
    && (s.coord.phase == Finished ==> forall y: nat :: y < j.nReduce ==> y in s.outs)
    && (forall w :: w in s.workers ==> PcOk(j, s, s.workers[w]))
  }

  // ---------------------------------------------------------------- steps

  /** Files and outputs only appear. */
  ghost predicate Grows(s: World, s': World) {
    && s.parts.Keys <= s'.parts.Keys && s.outs.Keys <= s'.outs.Keys
  }

  /** A finished reduce phase keeps no new files away: todo and seen stay complete. */
  lemma PcStays(j: Job, s: World, s': World, pc: Pc)
    requires j.nReduce > 0 && Grows(s, s') && PcOk(j, s, pc)
    ensures PcOk(j, s', pc)
  {
    match pc
    case Mapping(x, y) => assert Written(j, s', x, y);
    case Reducing(y) => MapsStay(j, s, s');
    case _ =>
  }

  lemma MapsStay(j: Job, s: World, s': World)
    requires j.nReduce > 0 && Grows(s, s') && MapsDone(j, s)
    ensures MapsDone(j, s')
  {
    forall x: nat | x < |j.files|
      ensures Written(j, s', x, j.nReduce)
    {
      assert Written(j, s, x, j.nReduce);
    }
  }

  lemma WorkersStay(j: Job, s: World, s': World, w: nat, pc: Pc)
    requires Ok(j, s) && Grows(s, s') && s'.workers == s.workers[w := pc] && PcOk(j, s', pc)
    ensures forall v :: v in s'.workers ==> PcOk(j, s', s'.workers[v])
  {
    forall v | v in s'.workers
      ensures PcOk(j, s', s'.workers[v])
    {
      if v != w { PcStays(j, s, s', s.workers[v]); }
    }
  }

  /** A worker's own move. */
  lemma GoKeeps(j: Job, s: World, w: nat, pc: Pc)
    requires Ok(j, s) && PcOk(j, s, pc)
    ensures Ok(j, Go(s, w, pc))
  {
    var s' := Go(s, w, pc);
    PcStays(j, s, s', pc);
    WorkersStay(j, s, s', w, pc);
    if s.coord.phase != MapPhase { MapsStay(j, s, s'); }
    forall x: nat | x < |j.files| && s'.coord.tasks[x] == Done
      ensures Written(j, s', x, j.nReduce)
    {
      assert Written(j, s, x, j.nReduce);
    }
  }

  /** A change of the coordinator that marks nothing done without its files, and enters no phase early. */
  lemma CoordKeeps(j: Job, s: World, c: Coord)
    requires Ok(j, s) && |c.tasks| == |s.coord.tasks|
    requires forall x: nat :: x < |j.files| && c.tasks[x] == Done ==> Written(j, s, x, j.nReduce)
    requires forall y: nat :: y < j.nReduce && c.tasks[|j.files| + y] == Done ==> y in s.outs
    requires c.phase == s.coord.phase || (c.phase != MapPhase && AllDone(c.tasks, 0, |j.files|))
             || (c.phase != MapPhase && s.coord.phase != MapPhase)
    requires c.phase == Finished ==> s.coord.phase == Finished || AllDone(c.tasks, |j.files|, |c.tasks|)
    ensures Ok(j, s.(coord := c))
  {
    var s' := s.(coord := c);
    if c.phase != MapPhase {
      forall x: nat | x < |j.files|
        ensures Written(j, s', x, j.nReduce)
      {
        assert Written(j, s, x, j.nReduce);
      }
    }
    if c.phase == Finished {
      forall y: nat | y < j.nReduce
        ensures y in s'.outs
      {
        if s.coord.phase != Finished { assert c.tasks[|j.files| + y] == Done; }
      }
    }
    forall x: nat | x < |j.files| && c.tasks[x] == Done
      ensures Written(j, s', x, j.nReduce)
    {
      assert Written(j, s, x, j.nReduce);
    }
    forall w | w in s'.workers
      ensures PcOk(j, s', s'.workers[w])
    {
      PcStays(j, s, s', s.workers[w]);
    }
  }

  /** What GetTask does to tasks and phase. */
  lemma DispatchMeans(c: Coord, m: nat)
    requires m <= |c.tasks|
    ensures var (d, t) := Dispatch(c, m);
            && |d.tasks| == |c.tasks|
            && (forall i :: 0 <= i < |c.tasks| && d.tasks[i] == Done ==> c.tasks[i] == Done)
            && (d.phase != c.phase && c.phase == MapPhase ==> AllDone(c.tasks, 0, m) && AllDone(d.tasks, 0, m))
            && (d.phase == MapPhase ==> c.phase == MapPhase)
            && (d.phase == Finished ==> c.phase == Finished || AllDone(d.tasks, m, |d.tasks|))
            && (t.MapTask? ==> t.id < m)
            && (t.ReduceTask? ==> d.phase != MapPhase && m <= t.id < |c.tasks| && t.keyHash == t.id - m)
  {
  }

  lemma AskKeeps(j: Job, s: World, w: nat, heard: bool)
    requires Ok(j, s) && Enabled(j, s, Ask(w, heard))
    ensures Ok(j, Next(j, s, Ask(w, heard)))
  {
    var (c, t) := Dispatch(s.coord, |j.files|);
    DispatchMeans(s.coord, |j.files|);
    CoordKeeps(j, s, c);
    var s1 := s.(coord := c);
    GoKeeps(j, s1, w, if heard then Begin(t) else Idle);
  }

  /** A finished worker marks its task done only after its files are there. */
  lemma FinishKeeps(j: Job, s: World, w: nat)
    requires Ok(j, s) && Enabled(j, s, Finish(w))
    ensures Ok(j, Next(j, s, Finish(w)))
  {
    assert PcOk(j, s, s.workers[w]);
    CoordKeeps(j, s, Complete(s.coord, At(s, w).id));
    GoKeeps(j, s.(coord := Complete(s.coord, At(s, w).id)), w, Idle);
  }

  lemma WriteBucketKeeps(j: Job, s: World, w: nat)
    requires Ok(j, s) && Enabled(j, s, WriteBucket(w))
    ensures Ok(j, Next(j, s, WriteBucket(w)))
  {
    var pc := s.workers[w];
    assert PcOk(j, s, pc);
    if pc.y >= j.nReduce {
      GoKeeps(j, s, w, Finishing(pc.x));
    } else {
      BucketWritten(j, s, Next(j, s, WriteBucket(w)), w, pc.x, pc.y);
    }
  }

  lemma BucketWritten(j: Job, s: World, s': World, w: nat, x: nat, y: nat)
    requires Ok(j, s) && x < |j.files| && y < j.nReduce && Written(j, s, x, y)
    requires var parts := if Part(j, x, y) == [] then s.parts else s.parts[(x, y) := Part(j, x, y)];
             s' == Go(s.(parts := parts), w, Mapping(x, y + 1))
    ensures Ok(j, s')
  {
    PartsKeep(j, s, s'.parts);
    var s1 := s.(parts := s'.parts);
    assert Written(j, s1, x, y + 1);
    GoKeeps(j, s1, w, Mapping(x, y + 1));
  }

  lemma PartsKeep(j: Job, s: World, parts: map<(int, nat), seq<KeyValue>>)
    requires Ok(j, s) && s.parts.Keys <= parts.Keys
    requires forall x: int, y: nat :: (x, y) in parts ==>
               0 <= x < |j.files| && y < j.nReduce && parts[(x, y)] == Part(j, x, y)
    ensures Ok(j, s.(parts := parts))
  {
    var s' := s.(parts := parts);
    forall w | w in s'.workers
      ensures PcOk(j, s', s'.workers[w])
    {
      PcStays(j, s, s', s.workers[w]);
    }
    if s.coord.phase != MapPhase { MapsStay(j, s, s'); }
    forall x: nat | x < |j.files| && s'.coord.tasks[x] == Done
      ensures Written(j, s', x, j.nReduce)
    {
      assert Written(j, s, x, j.nReduce);
    }
  }

  lemma GlobKeeps(j: Job, s: World, w: nat)
    requires Ok(j, s) && Enabled(j, s, Glob(w))
    ensures Ok(j, Next(j, s, Glob(w)))
  {
    var y := s.workers[w].y;
    assert PcOk(j, s, s.workers[w]);
    var todo := set p | p in s.parts && p.1 == y :: p.0;
    forall x | x in todo
      ensures (x, y) in s.parts
    {
    }
    forall x: nat | x < |j.files| && x !in todo
      ensures Part(j, x, y) == []
    {
      assert Written(j, s, x, j.nReduce);
      assert (x, y) !in s.parts;
    }
    GoKeeps(j, s, w, Gathering(y, todo, {}, []));
  }

  lemma ReadPartKeeps(j: Job, s: World, w: nat, x: int)
    requires Ok(j, s) && Enabled(j, s, ReadPart(w, x))
    ensures Ok(j, Next(j, s, ReadPart(w, x)))
  {
    var pc := s.workers[w];
    assert PcOk(j, s, pc);
    var got := pc.got + s.parts[(x, pc.y)];
    var seen := pc.seen + {x};
    forall p
      ensures multiset(got)[p] == Sum(Share(j, pc.y, p), seen)
    {
      SumTake(Share(j, pc.y, p), seen, x);
      assert seen - {x} == pc.seen;
    }
    assert pc.todo - {x} + seen == pc.todo + pc.seen;
    GoKeeps(j, s, w, Gathering(pc.y, pc.todo - {x}, seen, got));
  }

  /** With nothing left to read, everything that belongs to reduce task y has been read. */
  lemma AllRead(j: Job, s: World, y: nat, seen: set<int>, got: seq<KeyValue>, sorted: seq<KeyValue>)
    requires j.nReduce > 0 && GatheringOk(j, s, y, {}, seen, got) && multiset(sorted) == multiset(got)
    ensures HoldsAll(j, y, sorted)
  {
    assert {} + seen == seen;
    BelowAll(seen, |j.files|);
    forall p
      ensures multiset(sorted)[p] == if IndexOf(j.hash, p.key, j.nReduce) == y then multiset(All(j))[p] else 0
    {
      PartsAreAll(j, y, p, seen, |j.files|);
    }
  }

  lemma BelowAll(S: set<int>, n: nat)
    requires forall x :: x in S ==> x < n
    ensures Below(S, n) == S
  {
  }

  lemma WriteOutputKeeps(j: Job, s: World, w: nat, sorted: seq<KeyValue>, out: seq<Line>)
    requires Ok(j, s) && Enabled(j, s, WriteOutput(w, sorted, out)) && Insensitive(j.reducef)
    ensures Ok(j, Next(j, s, WriteOutput(w, sorted, out)))
  {
    var pc := s.workers[w];
    OutputGood(j, s, w, sorted, out);
    OutputWritten(j, s, Next(j, s, WriteOutput(w, sorted, out)), w, pc.y, out);
  }

  lemma OutputGood(j: Job, s: World, w: nat, sorted: seq<KeyValue>, out: seq<Line>)
    requires Ok(j, s) && Enabled(j, s, WriteOutput(w, sorted, out)) && Insensitive(j.reducef)
    ensures OutputOk(j, s.workers[w].y, out) && s.workers[w].y < j.nReduce
  {
    assert PcOk(j, s, s.workers[w]);
    ReducedAll(j, s, s.workers[w], sorted, out);
  }

  lemma ReducedAll(j: Job, s: World, pc: Pc, sorted: seq<KeyValue>, out: seq<Line>)
    requires j.nReduce > 0 && PcOk(j, s, pc) && pc.Gathering? && pc.todo == {}
    requires multiset(sorted) == multiset(pc.got) && IsReduction(sorted, j.reducef, out) && Insensitive(j.reducef)
    ensures OutputOk(j, pc.y, out)
  {
    AllRead(j, s, pc.y, pc.seen, pc.got, sorted);
    ReductionOk(j, pc.y, sorted, out);
  }

  lemma OutputWritten(j: Job, s: World, s': World, w: nat, y: nat, out: seq<Line>)
    requires Ok(j, s) && OutputOk(j, y, out) && y < j.nReduce
    requires s' == Go(s.(outs := s.outs[y := out]), w, Finishing(|j.files| + y))
    ensures Ok(j, s')
  {
    OutsKeep(j, s, y, out);
    GoKeeps(j, s.(outs := s.outs[y := out]), w, Finishing(|j.files| + y));
  }

  lemma OutsKeep(j: Job, s: World, y: nat, out: seq<Line>)
    requires Ok(j, s) && OutputOk(j, y, out)
    ensures Ok(j, s.(outs := s.outs[y := out]))
  {
    var s' := s.(outs := s.outs[y := out]);
    forall w | w in s'.workers
      ensures PcOk(j, s', s'.workers[w])
    {
      PcStays(j, s, s', s.workers[w]);
    }
    if s.coord.phase != MapPhase { MapsStay(j, s, s'); }
    forall x: nat | x < |j.files| && s'.coord.tasks[x] == Done
      ensures Written(j, s', x, j.nReduce)
    {
      assert Written(j, s, x, j.nReduce);
    }
  }

  lemma StepKeeps(j: Job, s: World, e: Step)
    requires Ok(j, s) && Enabled(j, s, e) && Insensitive(j.reducef)
    ensures Ok(j, Next(j, s, e))
  {
    match e
    case Ask(w, heard) => AskKeeps(j, s, w, heard);
    case WriteBucket(w) => WriteBucketKeeps(j, s, w);
    case Glob(w) => GlobKeeps(j, s, w);
    case ReadPart(w, x) => ReadPartKeeps(j, s, w, x);
    case WriteOutput(w, sorted, out) => WriteOutputKeeps(j, s, w, sorted, out);
    case Finish(w) => FinishKeeps(j, s, w);
    case Timer(id) => CoordKeeps(j, s, Timeout(s.coord, id));
    case Crash(w) => GoKeeps(j, s, w, Idle);
  }

  lemma {:induction false} RunOk(j: Job, tr: seq<World>, n: nat)
    requires Run(j, tr) && n < |tr| && j.nReduce > 0 && Insensitive(j.reducef)
    ensures Ok(j, tr[n])
  {
    if n > 0 {
      RunOk(j, tr, n - 1);
      assert Steps(j, tr[n - 1], tr[n]);
      var e :| Enabled(j, tr[n - 1], e) && tr[n] == Next(j, tr[n - 1], e);
      StepKeeps(j, tr[n - 1], e);
    }
  }

  // ---------------------------------------------------------------- theorem

  /** Line l is printed by some reduce task. */
  ghost predicate InSome(j: Job, s: World, l: Line) {
    exists y :: y in s.outs && y < j.nReduce && l in s.outs[y]
  }

  /** Lines a of file y and b of file z have the same key. */
  ghost predicate SameKey(s: World, y: nat, a: nat, z: nat, b: nat) {
    && y in s.outs && z in s.outs && a < |s.outs[y]| && b < |s.outs[z]|
    && s.outs[y][a].key == s.outs[z][b].key
  }

  /**
   When the coordinator is finished, the reduce files together have exactly the lines of the
   sequential program's output, each in one file and once.
   */
  lemma FinishedMeansSequential(j: Job, tr: seq<World>, n: nat, sorted: seq<KeyValue>, out: seq<Line>)
    requires Run(j, tr) && n < |tr| && j.nReduce > 0 && Insensitive(j.reducef)
    requires tr[n].coord.phase == Finished
    requires multiset(sorted) == multiset(All(j)) && Sorted(sorted) && IsReduction(sorted, j.reducef, out)
    ensures forall y: nat :: y < j.nReduce ==> y in tr[n].outs
    ensures forall l :: l in out <==> InSome(j, tr[n], l)
    ensures forall y: nat, a: nat, z: nat, b: nat :: SameKey(tr[n], y, a, z, b) ==> y == z && a == b
  {
    RunOk(j, tr, n);
    var s := tr[n];
    forall l
      ensures l in out <==> InSome(j, s, l)
    {
      LineInBoth(j, s, sorted, out, l);
    }
    forall y: nat, a: nat, z: nat, b: nat | SameKey(s, y, a, z, b)
      ensures y == z && a == b
    {
      assert OutputOk(j, y, s.outs[y]) && OutputOk(j, z, s.outs[z]);
      LessIsOrder(s.outs[y][a].key, s.outs[y][a].key, "");
    }
  }

  lemma LineInBoth(j: Job, s: World, sorted: seq<KeyValue>, out: seq<Line>, l: Line)
    requires Ok(j, s) && s.coord.phase == Finished && Insensitive(j.reducef)
    requires multiset(sorted) == multiset(All(j)) && Sorted(sorted) && IsReduction(sorted, j.reducef, out)
    ensures l in out <==> InSome(j, s, l)
  {
    var k := l.key;
    var y := IndexOf(j.hash, k, j.nReduce);
    assert y in s.outs && OutputOk(j, y, s.outs[y]);
    SameCountsSameKeys(sorted, All(j), k);
    SamePairsSameValues(sorted, All(j), k);
    if l in out {
      assert HasKey(All(j), k) && Printed(s.outs[y], k);
      var a :| 0 <= a < |s.outs[y]| && s.outs[y][a].key == k;
      assert s.outs[y][a] == l;
    }
    if InSome(j, s, l) {
      var z :| z in s.outs && z < j.nReduce && l in s.outs[z];
      assert OutputOk(j, z, s.outs[z]);
      var i :| 0 <= i < |sorted| && sorted[i].key == k;
      assert Printed(out, sorted[i].key);
      var a :| 0 <= a < |out| && out[a].key == k;
      assert out[a] == l;
    }
  }
}
