/**
 doRecovery reads CurConfig and NewConfig one after the other (shardctrler.go:81-86). From every
 fresh system there is a run in which another controller finishes one change and begins the next in
 between, and the recovering controller stops in Fatalf.
 */
module ShardTorn {
  import opened ShardGroup
  import opened ShardCore
  import opened KvServer
  import opened ShardRun

  /** A configuration with everything on Gid1. */
  function OnFirst(num: nat): (c: Config)
    ensures AllOnFirst(c)
  {
    Config(num, seq(NSHARDS, _ => GID1))
  }

  function Last(tr: seq<World>): World
    requires tr != []
  {
    tr[|tr| - 1]
  }

  /** tr, going on with step e. */
  lemma Take(tr: seq<World>, e: Step) returns (tr': seq<World>)
    requires Run(tr) && Enabled(Last(tr), e)
    ensures Run(tr') && tr'[0] == tr[0] && Last(tr') == Next(Last(tr), e) && tr <= tr' && |tr'| == |tr| + 1
  {
    tr' := tr + [Next(Last(tr), e)];
    forall n | 0 <= n < |tr'| - 1
      ensures Steps(tr'[n], tr'[n + 1])
    {
      if n < |tr| - 1 { assert tr'[n] == tr[n] && tr'[n + 1] == tr[n + 1]; }
    }
  }

  /** Both keys, and where controllers 0 and 1 are. */
  ghost predicate Stands(w: World, cur: Cell, new_: Cell, a: Pc, b: Pc) {
    w.curCell == cur && w.newCell == new_ && At(w, 0) == a && At(w, 1) == b
  }

  /** A change that moves no shard: the controller walks through the rest of the loop. */
  lemma {:induction false} Walks(tr: seq<World>, v: nat, c: Config, d: Config, s: nat, cur: Cell, new_: Cell, a: Pc)
    returns (tr': seq<World>)
    requires Run(tr) && AllOnFirst(c) && AllOnFirst(d) && s <= NSHARDS
    requires Stands(Last(tr), cur, new_, a, Moving(v, c, d, s, ToFreeze))
    ensures Run(tr') && tr'[0] == tr[0] && Stands(Last(tr'), cur, new_, a, CurPut(v, d, true))
    decreases NSHARDS - s
  {
    tr' := Take(tr, Walk(1));
    if s < NSHARDS {
      tr' := Walks(tr', v, c, d, s + 1, cur, new_, a);
    }
  }

  /** Controller 1 sets up config 1, controller 0 begins to recover and reads CurConfig at version 1. */
  lemma Begins(w: World) returns (tr: seq<World>)
    requires ShardRun.Start(w)
    ensures Run(tr) && tr[0] == w
    ensures Last(tr).curCell == Cell(OnFirst(1), 1) && Last(tr).newCell.version == 0
    ensures At(Last(tr), 0) == RecoverNew(OnFirst(1), 1) && At(Last(tr), 1) == Idle
  {
    tr := Take([w], InitConfig(1, OnFirst(1)));
    tr := Take(tr, Rpc(1, Answered));
    tr := Take(tr, InitController(0));
    tr := Take(tr, Rpc(0, Answered));
  }

  /** Controller 1 carries out a whole change to config 2. */
  lemma FinishesOne(tr: seq<World>, a: Pc) returns (tr': seq<World>)
    requires Run(tr) && Last(tr).curCell == Cell(OnFirst(1), 1) && Last(tr).newCell.version == 0
    requires At(Last(tr), 0) == a && At(Last(tr), 1) == Idle
    ensures Run(tr') && tr'[0] == tr[0]
    ensures Stands(Last(tr'), Cell(OnFirst(2), 2), Cell(OnFirst(2), 1), a, Idle)
  {
    tr' := Take(tr, ChangeConfigTo(1, OnFirst(2)));
    tr' := Take(tr', Rpc(1, Answered));
    tr' := Take(tr', Rpc(1, Answered));
    tr' := Walks(tr', 1, OnFirst(1), OnFirst(2), 0, Cell(OnFirst(1), 1), Cell(OnFirst(2), 1), a);
    tr' := Take(tr', Rpc(1, Answered));
  }

  /** Then it writes NewConfig for config 3. */
  lemma BeginsNext(tr: seq<World>, a: Pc) returns (tr': seq<World>)
    requires Run(tr) && Stands(Last(tr), Cell(OnFirst(2), 2), Cell(OnFirst(2), 1), a, Idle)
    ensures Run(tr') && tr'[0] == tr[0]
    ensures At(Last(tr'), 0) == a && Last(tr').newCell == Cell(OnFirst(3), 2)
  {
    tr' := Take(tr, ChangeConfigTo(1, OnFirst(3)));
    tr' := Take(tr', Rpc(1, Answered));
    tr' := Take(tr', Rpc(1, Answered));
  }

  /** Controller 0 now reads NewConfig at version 2 against CurConfig at version 1. */
  lemma RecoveryCanTear(w: World) returns (tr: seq<World>)
    requires ShardRun.Start(w)
    ensures Run(tr) && tr[0] == w && At(Last(tr), 0) == Fatal(TornRecovery)
  {
    var a := RecoverNew(OnFirst(1), 1);
    tr := Begins(w);
    tr := FinishesOne(tr, a);
    tr := BeginsNext(tr, a);
    tr := Take(tr, Rpc(0, Answered));
  }

  /** For every hash function and every set of groups with Gid1 there is a run that ends that way. */
  lemma TornRunExists(h: string -> nat, gids: set<nat>) returns (tr: seq<World>)
    requires GID1 in gids
    ensures Run(tr) && tr[0].core.hash == h && tr[0].core.groups.Keys == gids
    ensures At(Last(tr), 0) == Fatal(TornRecovery)
  {
    var w := FreshSystem(h, gids);
    tr := RecoveryCanTear(w);
  }

  /** Fresh systems exist, with any hash function and any set of groups that has Gid1. */
  lemma FreshSystem(h: string -> nat, gids: set<nat>) returns (w: World)
    requires GID1 in gids
    ensures ShardRun.Start(w) && w.core.hash == h && w.core.groups.Keys == gids
  {
    var all := map s: nat | s in Below(NSHARDS) :: ValidShard;
    var groups := map x: nat | x in gids :: if x == GID1 then Group(map[], all, map[]) else Group(map[], map[], map[]);
    w := World(Core(h, [OnFirst(0)], 0, groups, map[]), Cell(OnFirst(0), 0), Cell(OnFirst(0), 0), [], [], map[], {}, {}, false);
  }

  function Below(n: nat): (r: set<nat>)
    ensures forall s: nat :: s in r <==> s < n
  {
    if n == 0 then {} else Below(n - 1) + {n - 1}
  }
}
