/**
 changConfig as the program runs it, on the group objects, when nobody interferes: Freeze, Install
 and Delete for each shard that changes hands, in shard order.
 */
module ShardMove {
  import opened Kv
  import opened ShardGroup
  import opened ShardCore

  /** Round cur has begun and all groups it names exist. */
  ghost predicate Begun(k: Core) {
    && 0 < k.cur && |k.chain| == k.cur + 2
    && forall s: nat :: s < NSHARDS ==> k.chain[k.cur].shards[s] in k.groups && k.chain[k.cur + 1].shards[s] in k.groups
  }

  ghost predicate UnderWay(k: Core) { CoreOk(k) && Begun(k) }

  ghost function Contents(k: Core, s: nat): Table
    requires Moves(k, k.cur, s) && From(k, k.cur, s) in k.groups
  {
    DoFreeze(k.hash, k.groups[From(k, k.cur, s)], s, Fence(k, k.cur)).1.state
  }

  /** The three messages for shard s, one after the other. */
  ghost function MoveShard(k: Core, s: nat): Core
    requires Moves(k, k.cur, s) && From(k, k.cur, s) in k.groups && To(k, k.cur, s) in k.groups
  {
    Delete(Install(Freeze(k, k.cur, s), k.cur, s, Contents(k, s)), k.cur, s)
  }

  /** None of the three messages stops its group. */
  ghost predicate Harmless(k: Core, s: nat)
    requires Moves(k, k.cur, s) && From(k, k.cur, s) in k.groups && To(k, k.cur, s) in k.groups
  {
    var d := Freeze(k, k.cur, s);
    var e := Install(d, k.cur, s, Contents(k, s));
    && !DoInstall(d.groups[To(k, k.cur, s)], s, Contents(k, s), Fence(k, k.cur)).1
    && !DoDelete(e.hash, e.groups[From(k, k.cur, s)], s, Fence(k, k.cur)).1
  }

  /** Shard s is moved if it changes hands. */
  ghost function Handled(k: Core, s: nat): (d: Core)
    requires Begun(k) && s < NSHARDS
    ensures Begun(d) && d.chain == k.chain && d.cur == k.cur && d.groups.Keys == k.groups.Keys && d.hash == k.hash && d.spec == k.spec
  {
    if Moves(k, k.cur, s) then MoveShard(k, s) else k
  }

  /** The loop over shards, up to s. */
  ghost function MoveAll(k: Core, s: nat): (d: Core)
    requires s <= NSHARDS && Begun(k)
    ensures Begun(d) && d.chain == k.chain && d.cur == k.cur && d.groups.Keys == k.groups.Keys && d.hash == k.hash && d.spec == k.spec
  {
    if s == 0 then k else Handled(MoveAll(k, s - 1), s - 1)
  }

  lemma MoveShardDone(k: Core, s: nat)
    requires CoreOk(k) && Moves(k, k.cur, s) && From(k, k.cur, s) in k.groups && To(k, k.cur, s) in k.groups
    ensures CoreOk(MoveShard(k, s)) && Done(MoveShard(k, s), k.cur, s)
    ensures forall z: nat :: Done(k, k.cur, z) ==> Done(MoveShard(k, s), k.cur, z)
    ensures Harmless(k, s)
  {
    var v := k.cur;
    FreezeKeeps(k, v, s);
    var d := Freeze(k, v, s);
    InstallKeeps(d, v, s, Contents(k, s));
    var e := Install(d, v, s, Contents(k, s));
    DeleteKeeps(e, v, s);
  }

  ghost predicate DoneTo(k: Core, s: nat) {
    forall z: nat :: z < s ==> Done(k, k.cur, z)
  }

  lemma HandledDone(k: Core, s: nat)
    requires UnderWay(k) && s < NSHARDS && DoneTo(k, s)
    ensures CoreOk(Handled(k, s)) && DoneTo(Handled(k, s), s + 1)
  {
    if Moves(k, k.cur, s) { MoveShardDone(k, s); }
  }

  /** After the loop every shard is through, nothing clients should see has changed, and CurConfig may be written. */
  lemma {:induction false} MoveAllDone(k: Core, s: nat)
    requires s <= NSHARDS && UnderWay(k)
    ensures CoreOk(MoveAll(k, s)) && DoneTo(MoveAll(k, s), s)
  {
    if s > 0 {
      MoveAllDone(k, s - 1);
      HandledDone(MoveAll(k, s - 1), s - 1);
    }
  }

  ghost predicate HarmlessTurn(k: Core, s: nat)
    requires Begun(k) && s < NSHARDS
  {
    Moves(k, k.cur, s) ==> Harmless(k, s)
  }

  /** Turn i of the loop leads from one core to the next and stops nobody. */
  ghost predicate Turned(cores: seq<Core>, k: Core, i: nat) {
    && i < NSHARDS && i + 1 < |cores| && Begun(cores[i]) && HarmlessTurn(cores[i], i)
    && cores[i + 1] == Handled(cores[i], i)
    && cores[i].hash == k.hash && cores[i].chain == k.chain && cores[i].cur == k.cur
  }

  lemma TurnIsHarmless(k: Core, s: nat)
    requires UnderWay(k) && s < NSHARDS
    ensures HarmlessTurn(MoveAll(k, s), s) && MoveAll(k, s + 1) == Handled(MoveAll(k, s), s)
  {
    MoveAllDone(k, s);
    HandledHarmless(MoveAll(k, s), s);
  }

  lemma HandledHarmless(k: Core, s: nat)
    requires UnderWay(k) && s < NSHARDS
    ensures HarmlessTurn(k, s)
  {
    if Moves(k, k.cur, s) { MoveShardDone(k, s); }
  }

  lemma IsTurn(cores: seq<Core>, k: Core, i: nat)
    requires UnderWay(k) && i < NSHARDS && i + 1 < |cores|
    requires cores[i] == MoveAll(k, i) && cores[i + 1] == MoveAll(k, i + 1)
    ensures Turned(cores, k, i)
  {
    TurnIsHarmless(k, i);
  }

  /** The cores the loop passes through. */
  ghost function Played(k: Core): (cores: seq<Core>)
    requires Begun(k)
    ensures |cores| == NSHARDS + 1
  {
    seq(NSHARDS + 1, i requires 0 <= i <= NSHARDS => MoveAll(k, i))
  }

  lemma AllTurned(k: Core)
    requires UnderWay(k)
    ensures forall i: nat :: i < NSHARDS ==> Turned(Played(k), k, i)
  {
    forall i: nat | i < NSHARDS
      ensures Turned(Played(k), k, i)
    {
      IsTurn(Played(k), k, i);
    }
  }

  /** A controller alone puts the new config in force: every shard is served, whole, by the group it names. */
  lemma SoloChangeTakesForce(k: Core, s: nat)
    requires UnderWay(k) && s < NSHARDS
    ensures var d := MoveAll(k, NSHARDS);
            var x := k.chain[k.cur + 1].shards[s];
            && CoreOk(Commit(d)) && d.spec == k.spec && x in d.groups
            && St(d.groups[x], s) == ValidShard && Pack(k.hash, d.groups[x].table, s) == Pack(k.hash, k.spec, s)
            && forall y :: y in d.groups && y != x ==> St(d.groups[y], s) == NoShard && Pack(k.hash, d.groups[y].table, s) == map[]
  {
    MoveAllDone(k, NSHARDS);
    var d := MoveAll(k, NSHARDS);
    CommitKeeps(d);
    NoRoundAllSettled(Commit(d), s);
    forall y | y in d.groups && y != k.chain[k.cur + 1].shards[s]
      ensures St(d.groups[y], s) == NoShard && Pack(k.hash, d.groups[y].table, s) == map[]
    {
      assert Clean(Commit(d), y, s);
    }
  }

  // ---------------------------------------------------------------- on the objects

  /** The objects are distinct and hold what the core says. */
  ghost predicate Mirrors(groups: map<nat, Server>, k: Core)
    reads groups.Values
  {
    && groups.Keys == k.groups.Keys
    && (forall x, y :: x in groups && y in groups && x != y ==> groups[x] != groups[y])
    && forall x :: x in groups ==> groups[x].View() == k.groups[x]
  }

  method FreezeAt(groups: map<nat, Server>, h: string -> nat, s: nat, gid: nat, num: nat, ghost k: Core)
    returns (data: Table)
    requires Mirrors(groups, k) && h == k.hash && Moves(k, k.cur, s)
    requires gid == From(k, k.cur, s) && gid in groups && num == Fence(k, k.cur)
    modifies groups.Values
    ensures Mirrors(groups, Freeze(k, k.cur, s)) && data == Contents(k, s)
  {
    var r := groups[gid].FreezeShard(h, s, num);
    data := r.state;
  }

  method InstallAt(groups: map<nat, Server>, s: nat, gid: nat, data: Table, num: nat, ghost k: Core)
    returns (fatal: bool)
    requires Mirrors(groups, k) && Moves(k, k.cur, s)
    requires gid == To(k, k.cur, s) && gid in groups && num == Fence(k, k.cur)
    modifies groups.Values
    ensures Mirrors(groups, Install(k, k.cur, s, data)) && fatal == DoInstall(k.groups[gid], s, data, num).1
  {
    fatal := groups[gid].InstallShard(s, data, num);
  }

  method DeleteAt(groups: map<nat, Server>, h: string -> nat, s: nat, gid: nat, num: nat, ghost k: Core)
    returns (fatal: bool)
    requires Mirrors(groups, k) && h == k.hash && Moves(k, k.cur, s)
    requires gid == From(k, k.cur, s) && gid in groups && num == Fence(k, k.cur)
    modifies groups.Values
    ensures Mirrors(groups, Delete(k, k.cur, s)) && fatal == DoDelete(h, k.groups[gid], s, num).1
  {
    fatal := groups[gid].DeleteShard(h, s, num);
  }

  method FreezeThenInstall(groups: map<nat, Server>, h: string -> nat, s: nat, from: nat, into: nat, num: nat, ghost k: Core)
    returns (fatal: bool)
    requires Mirrors(groups, k) && h == k.hash && Moves(k, k.cur, s)
    requires from == From(k, k.cur, s) && into == To(k, k.cur, s) && num == Fence(k, k.cur)
    requires from in groups && into in groups
    modifies groups.Values
    ensures var d := Freeze(k, k.cur, s);
            && Mirrors(groups, Install(d, k.cur, s, Contents(k, s)))
            && fatal == DoInstall(d.groups[into], s, Contents(k, s), num).1
  {
    var data := FreezeAt(groups, h, s, from, num, k);
    fatal := InstallAt(groups, s, into, data, num, Freeze(k, k.cur, s));
  }

  /** One shard's Freeze, Install and Delete. */
  method MoveOne(groups: map<nat, Server>, h: string -> nat, s: nat, from: nat, into: nat, num: nat, ghost k: Core)
    returns (fatal: bool)
    requires Mirrors(groups, k) && h == k.hash && Moves(k, k.cur, s)
    requires from == From(k, k.cur, s) && into == To(k, k.cur, s) && num == Fence(k, k.cur)
    requires from in groups && into in groups
    modifies groups.Values
    ensures Mirrors(groups, MoveShard(k, s)) && fatal == !Harmless(k, s)
  {
    fatal := FreezeThenInstall(groups, h, s, from, into, num, k);
    var f := DeleteAt(groups, h, s, from, num, Install(Freeze(k, k.cur, s), k.cur, s, Contents(k, s)));
    fatal := fatal || f;
  }

  /** One turn of the loop over shards. */
  method Turn(groups: map<nat, Server>, h: string -> nat, cur: Config, cfg: Config, s: nat, ghost k: Core)
    returns (fatal: bool)
    requires Begun(k) && Mirrors(groups, k) && h == k.hash && cur == k.chain[k.cur] && cfg == k.chain[k.cur + 1]
    requires s < NSHARDS
    modifies groups.Values
    ensures Mirrors(groups, Handled(k, s)) && fatal == !HarmlessTurn(k, s)
  {
    fatal := false;
    if cur.shards[s] != cfg.shards[s] {
      fatal := MoveOne(groups, h, s, cur.shards[s], cfg.shards[s], cfg.num, k);
    }
  }

  /** The loop of changConfig: no group stops, and the objects end where the core does. */
  method ChangConfig(groups: map<nat, Server>, h: string -> nat, cur: Config, cfg: Config, ghost k: Core)
    returns (fatal: bool)
    requires UnderWay(k) && Mirrors(groups, k) && h == k.hash && cur == k.chain[k.cur] && cfg == k.chain[k.cur + 1]
    modifies groups.Values
    ensures !fatal && Mirrors(groups, MoveAll(k, NSHARDS))
  {
    AllTurned(k);
    fatal := MoveShards(groups, h, cur, cfg, k, Played(k));
  }

  method MoveShards(groups: map<nat, Server>, h: string -> nat, cur: Config, cfg: Config, ghost k: Core, ghost cores: seq<Core>)
    returns (fatal: bool)
    requires |cores| == NSHARDS + 1 && Mirrors(groups, cores[0]) && Begun(k)
    requires h == k.hash && cur == k.chain[k.cur] && cfg == k.chain[k.cur + 1]
    requires forall i: nat :: i < NSHARDS ==> Turned(cores, k, i)
    modifies groups.Values
    ensures !fatal && Mirrors(groups, cores[NSHARDS])
  {
    fatal := false;
    var s: nat := 0;
    while s < NSHARDS
      invariant s <= NSHARDS && !fatal && Mirrors(groups, cores[s])
    {
      assert Turned(cores, k, s);
      fatal := Turn(groups, h, cur, cfg, s, cores[s]);
      s := s + 1;
    }
  }
}
