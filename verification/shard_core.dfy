/**
 Where the shards are. `chain[v]` is the configuration CurConfig holds at version v (chain[0]
 stands for the time before InitConfig, when Gid1 has everything); round v changes chain[v] into
 chain[v + 1]. `spec` is the one table a client should believe it is talking to.
 */
module ShardCore {
  import opened Kv
  import opened ShardGroup

  type Assignment = a: seq<nat> | |a| == NSHARDS witness seq(NSHARDS, _ => 0)

  /** A configuration; a group's servers are fixed by its gid. */
  datatype Config = Config(num: nat, shards: Assignment)

  const GID1: nat := 1

  datatype Core = Core(hash: string -> nat, chain: seq<Config>, cur: nat, groups: map<nat, Group>, spec: Table)

  ghost predicate AllOnFirst(c: Config) {
    forall s :: 0 <= s < NSHARDS ==> c.shards[s] == GID1
  }

  ghost predicate ChainOk(k: Core) {
    && k.cur < |k.chain| <= k.cur + 2
    && (k.cur == 0 ==> |k.chain| == 1)
    && k.chain[0].num == 0 && AllOnFirst(k.chain[0]) && (|k.chain| > 1 ==> AllOnFirst(k.chain[1]))
    && (forall i, j :: 1 <= i < j < |k.chain| ==> k.chain[i].num < k.chain[j].num)
  }

  ghost predicate Round(k: Core, v: nat) { 1 <= v < |k.chain| - 1 }

  ghost predicate Moves(k: Core, v: nat, s: nat) {
    Round(k, v) && s < NSHARDS && k.chain[v].shards[s] != k.chain[v + 1].shards[s]
  }

  ghost function From(k: Core, v: nat, s: nat): nat
    requires Moves(k, v, s)
  {
    k.chain[v].shards[s]
  }

  ghost function To(k: Core, v: nat, s: nat): nat
    requires Moves(k, v, s)
  {
    k.chain[v + 1].shards[s]
  }

  /** The config number that fences round v. */
  ghost function Fence(k: Core, v: nat): nat
    requires Round(k, v)
  {
    k.chain[v + 1].num
  }

  ghost function NumAt(k: Core, x: nat, s: nat): nat {
    if x in k.groups then Num(k.groups[x], s) else 0
  }

  ghost function Wanted(k: Core, s: nat): Table { Pack(k.hash, k.spec, s) }

  ghost function Has(k: Core, x: nat, s: nat): Table
    requires x in k.groups
  {
    Pack(k.hash, k.groups[x].table, s)
  }

  // ---------------------------------------------------------------- the four phases of a shard

  ghost predicate Clean(k: Core, x: nat, s: nat)
    requires x in k.groups && k.cur < |k.chain|
  {
    St(k.groups[x], s) == NoShard && Has(k, x, s) == map[] && Num(k.groups[x], s) <= k.chain[k.cur].num
  }

  ghost predicate OthersClean(k: Core, s: nat, a: nat, b: nat)
    requires k.cur < |k.chain|
  {
    forall x :: x in k.groups && x != a && x != b ==> Clean(k, x, s)
  }

  /** The one group that owns the shard serves it. */
  ghost predicate Settled(k: Core, s: nat) {
    k.cur < |k.chain| && s < NSHARDS &&
    var g := k.chain[k.cur].shards[s];
    && g in k.groups && St(k.groups[g], s) == ValidShard && Has(k, g, s) == Wanted(k, s)
    && Num(k.groups[g], s) <= k.chain[k.cur].num && OthersClean(k, s, g, g)
  }

  /** The old owner has frozen it for round cur, nobody serves it. */
  ghost predicate Frozen(k: Core, s: nat) {
    k.cur < |k.chain| && Moves(k, k.cur, s) &&
    var g := From(k, k.cur, s);
    && g in k.groups && St(k.groups[g], s) == FrozenShard && Has(k, g, s) == Wanted(k, s)
    && Num(k.groups[g], s) == Fence(k, k.cur) && OthersClean(k, s, g, g)
  }

  ghost predicate Arrived(k: Core, s: nat)
    requires k.cur < |k.chain| && Moves(k, k.cur, s)
  {
    var (g, h) := (From(k, k.cur, s), To(k, k.cur, s));
    && g in k.groups && Num(k.groups[g], s) == Fence(k, k.cur)
    && h in k.groups && St(k.groups[h], s) == ValidShard && Has(k, h, s) == Wanted(k, s)
    && Num(k.groups[h], s) == Fence(k, k.cur) && OthersClean(k, s, g, h)
  }

  /** The new owner serves it, the old one still has its frozen copy. */
  ghost predicate Copied(k: Core, s: nat) {
    k.cur < |k.chain| && Moves(k, k.cur, s) && Arrived(k, s)
    && St(k.groups[From(k, k.cur, s)], s) == FrozenShard
  }

  /** The new owner serves it, the old one has nothing left. */
  ghost predicate Moved(k: Core, s: nat) {
    k.cur < |k.chain| && Moves(k, k.cur, s) && Arrived(k, s)
    && St(k.groups[From(k, k.cur, s)], s) == NoShard && Has(k, From(k, k.cur, s), s) == map[]
  }

  ghost predicate PhaseOk(k: Core, s: nat) {
    Settled(k, s) || Frozen(k, s) || Copied(k, s) || Moved(k, s)
  }

  // ---------------------------------------------------------------- what messages may rely on

  /** The new owner has installed the shard for round v, so no later Install of that round acts. */
  ghost predicate Fenced(k: Core, v: nat, s: nat) {
    Moves(k, v, s) && NumAt(k, To(k, v, s), s) >= Fence(k, v)
  }

  /** The old owner's number is past round v, or it stands there with nothing. */
  ghost predicate Gone(k: Core, v: nat, s: nat) {
    Moves(k, v, s) &&
    var g := From(k, v, s);
    g in k.groups && (Num(k.groups[g], s) > Fence(k, v) || (Num(k.groups[g], s) == Fence(k, v) && St(k.groups[g], s) == NoShard))
  }

  ghost predicate Past(k: Core, v: nat, s: nat) {
    Fenced(k, v, s) && Gone(k, v, s)
  }

  /** Round v has nothing left to do for shard s. */
  ghost predicate Done(k: Core, v: nat, s: nat) {
    Round(k, v) && (v < k.cur || (v == k.cur && (Moves(k, v, s) ==> Moved(k, s))))
  }

  /** Data that an Install of round v may carry: the frozen contents, or anything once it is fenced off. */
  ghost predicate Carries(k: Core, v: nat, s: nat, data: Table) {
    Fenced(k, v, s) || (v == k.cur && Frozen(k, s) && data == Wanted(k, s))
  }

  ghost predicate CoreOk(k: Core) {
    && ChainOk(k)
    && (forall s: nat :: s < NSHARDS ==> PhaseOk(k, s))
    && (forall v: nat, s: nat :: v < k.cur && Moves(k, v, s) ==> Past(k, v, s))
  }

  /** What every step leaves true. */
  ghost predicate Stable(k: Core, d: Core) {
    && d.hash == k.hash && k.chain <= d.chain && k.cur <= d.cur
    && (forall v: nat, s: nat :: Fenced(k, v, s) ==> Fenced(d, v, s))
    && (forall v: nat, s: nat :: Done(k, v, s) ==> Done(d, v, s))
    && (forall v: nat, s: nat, data :: Carries(k, v, s, data) ==> Carries(d, v, s, data))
  }

  // ---------------------------------------------------------------- steps

  ghost function Put(k: Core, x: nat, g: Group): Core { k.(groups := k.groups[x := g]) }

  /** A message of round v reaching the group it names. */
  ghost function Freeze(k: Core, v: nat, s: nat): Core
    requires Moves(k, v, s) && From(k, v, s) in k.groups
  {
    var g := From(k, v, s);
    Put(k, g, DoFreeze(k.hash, k.groups[g], s, Fence(k, v)).0)
  }

  ghost function Install(k: Core, v: nat, s: nat, data: Table): Core
    requires Moves(k, v, s) && To(k, v, s) in k.groups
  {
    var g := To(k, v, s);
    Put(k, g, DoInstall(k.groups[g], s, data, Fence(k, v)).0)
  }

  ghost function Delete(k: Core, v: nat, s: nat): Core
    requires Moves(k, v, s) && From(k, v, s) in k.groups
  {
    var g := From(k, v, s);
    Put(k, g, DoDelete(k.hash, k.groups[g], s, Fence(k, v)).0)
  }

  /** A client's operation reaching group x; the believed table follows what the group accepts. */
  ghost function Client(k: Core, x: nat, req: Request): Core
    requires x in k.groups
  {
    var (g, r) := DoClient(k.hash, k.groups[x], req);
    var d := Put(k, x, g);
    if r.err == ErrWrongGroup then d else d.(spec := DoOp(k.spec, req).0)
  }

  /** NewConfig is written at version cur - 1: round cur begins. */
  ghost function Propose(k: Core, c: Config): Core { k.(chain := k.chain + [c]) }

  /** CurConfig is written at version cur: round cur ends. */
  ghost function Commit(k: Core): Core { k.(cur := k.cur + 1) }

  // ---------------------------------------------------------------- shards a step does not touch

  ghost predicate SameAt(k: Core, d: Core, x: nat, s: nat) {
    && x in k.groups && x in d.groups
    && St(d.groups[x], s) == St(k.groups[x], s) && Num(d.groups[x], s) == Num(k.groups[x], s)
    && Has(d, x, s) == Has(k, x, s)
  }

  /** d is k as far as shard s is concerned. */
  ghost predicate SameShard(k: Core, d: Core, s: nat) {
    && d.hash == k.hash && d.chain == k.chain && d.cur == k.cur && d.groups.Keys == k.groups.Keys
    && Wanted(d, s) == Wanted(k, s)
    && forall x :: x in k.groups ==> SameAt(k, d, x, s)
  }

  lemma SameOthers(k: Core, d: Core, s: nat, a: nat, b: nat)
    requires SameShard(k, d, s) && k.cur < |k.chain|
    ensures OthersClean(k, s, a, b) <==> OthersClean(d, s, a, b)
  {
    assert forall x :: x in k.groups ==> SameAt(k, d, x, s);
    if OthersClean(k, s, a, b) {
      forall x | x in d.groups && x != a && x != b
        ensures Clean(d, x, s)
      {
        assert Clean(k, x, s) && SameAt(k, d, x, s);
      }
    }
    if OthersClean(d, s, a, b) {
      forall x | x in k.groups && x != a && x != b
        ensures Clean(k, x, s)
      {
        assert Clean(d, x, s) && SameAt(k, d, x, s);
      }
    }
  }

  lemma SamePhases(k: Core, d: Core, s: nat)
    requires SameShard(k, d, s) && k.cur < |k.chain| && s < NSHARDS
    ensures (Settled(k, s) <==> Settled(d, s)) && (Frozen(k, s) <==> Frozen(d, s))
    ensures (Copied(k, s) <==> Copied(d, s)) && (Moved(k, s) <==> Moved(d, s))
  {
    var g := k.chain[k.cur].shards[s];
    SameOthers(k, d, s, g, g);
    assert g in k.groups ==> SameAt(k, d, g, s);
    if Moves(k, k.cur, s) {
      var h := To(k, k.cur, s);
      SameOthers(k, d, s, g, h);
      assert h in k.groups ==> SameAt(k, d, h, s);
    }
  }

  lemma SameHistory(k: Core, d: Core, v: nat, s: nat)
    requires SameShard(k, d, s) && Moves(k, v, s)
    ensures (Fenced(k, v, s) <==> Fenced(d, v, s)) && (Gone(k, v, s) <==> Gone(d, v, s))
  {
    assert From(k, v, s) in k.groups ==> SameAt(k, d, From(k, v, s), s);
    assert To(k, v, s) in k.groups ==> SameAt(k, d, To(k, v, s), s);
  }

  /** What a step must show for a shard it does touch. */
  ghost predicate KeptAt(k: Core, d: Core, s: nat) {
    && PhaseOk(d, s)
    && (forall v: nat :: Moves(k, v, s) && v < k.cur ==> Past(d, v, s))
    && (forall v: nat :: Fenced(k, v, s) ==> Fenced(d, v, s))
    && (Moved(k, s) ==> Moved(d, s))
    && (Frozen(k, s) ==> (Frozen(d, s) && Wanted(d, s) == Wanted(k, s)) || Fenced(d, k.cur, s))
  }

  lemma UntouchedKept(k: Core, d: Core, s: nat)
    requires CoreOk(k) && s < NSHARDS && SameShard(k, d, s)
    ensures KeptAt(k, d, s)
  {
    SamePhases(k, d, s);
    assert PhaseOk(k, s);
    forall v: nat | Moves(k, v, s)
      ensures (Fenced(k, v, s) <==> Fenced(d, v, s)) && (Gone(k, v, s) <==> Gone(d, v, s))
    {
      SameHistory(k, d, v, s);
    }
  }

  /** A step within a round is fine when it is fine for each shard. */
  lemma AllKept(k: Core, d: Core)
    requires CoreOk(k) && d.hash == k.hash && d.chain == k.chain && d.cur == k.cur
    requires forall s: nat :: s < NSHARDS ==> KeptAt(k, d, s)
    ensures CoreOk(d) && Stable(k, d)
  {
    forall v: nat, s: nat | v < d.cur && Moves(d, v, s)
      ensures Past(d, v, s)
    {
      assert KeptAt(k, d, s) && Moves(k, v, s);
    }
    forall v: nat, s: nat, data | Carries(k, v, s, data)
      ensures Carries(d, v, s, data)
    {
      assert KeptAt(k, d, s);
    }
    forall v: nat, s: nat | Done(k, v, s)
      ensures Done(d, v, s)
    {
      if v == k.cur && Moves(k, v, s) { assert KeptAt(k, d, s); }
    }
    forall v: nat, s: nat | Fenced(k, v, s)
      ensures Fenced(d, v, s)
    {
      assert KeptAt(k, d, s);
    }
    forall s: nat | s < NSHARDS
      ensures PhaseOk(d, s)
    {
      assert KeptAt(k, d, s);
    }
  }

  // ---------------------------------------------------------------- one message, one shard

  /** d differs from k only in what group x says about shard s. */
  ghost predicate OnlyAt(k: Core, d: Core, x: nat, s: nat) {
    && x in k.groups && x in d.groups && d == Put(k, x, d.groups[x])
    && forall z: nat :: z < NSHARDS && z != s ==> SameAt(k, d, x, z)
  }

  lemma OnlyAtSame(k: Core, d: Core, x: nat, s: nat, z: nat)
    requires OnlyAt(k, d, x, s) && z < NSHARDS && z != s
    ensures SameShard(k, d, z)
  {
    assert SameAt(k, d, x, z);
  }

  lemma OneShardKept(k: Core, d: Core, x: nat, s: nat)
    requires CoreOk(k) && OnlyAt(k, d, x, s) && s < NSHARDS && KeptAt(k, d, s)
    ensures CoreOk(d) && Stable(k, d)
  {
    forall z: nat | z < NSHARDS
      ensures KeptAt(k, d, z)
    {
      if z != s {
        OnlyAtSame(k, d, x, s, z);
        UntouchedKept(k, d, z);
      }
    }
    AllKept(k, d);
  }

  lemma FreezeLocal(k: Core, v: nat, s: nat)
    requires Moves(k, v, s) && From(k, v, s) in k.groups
    ensures OnlyAt(k, Freeze(k, v, s), From(k, v, s), s)
  {
  }

  lemma InstallLocal(k: Core, v: nat, s: nat, data: Table)
    requires Moves(k, v, s) && To(k, v, s) in k.groups
    requires forall key :: key in data ==> ShardOf(k.hash, key) == s
    ensures OnlyAt(k, Install(k, v, s, data), To(k, v, s), s)
  {
    var x := To(k, v, s);
    var d := Install(k, v, s, data);
    forall z: nat | z < NSHARDS && z != s
      ensures SameAt(k, d, x, z)
    {
      assert Has(d, x, z) == Has(k, x, z);
    }
  }

  lemma DeleteLocal(k: Core, v: nat, s: nat)
    requires Moves(k, v, s) && From(k, v, s) in k.groups
    ensures OnlyAt(k, Delete(k, v, s), From(k, v, s), s)
  {
    var x := From(k, v, s);
    var d := Delete(k, v, s);
    forall z: nat | z < NSHARDS && z != s
      ensures SameAt(k, d, x, z)
    {
      assert Has(d, x, z) == Has(k, x, z);
    }
  }

  /** Group x moving to the number of the current round disturbs no earlier round. */
  lemma PastStays(k: Core, d: Core, x: nat, s: nat, v: nat)
    requires ChainOk(k) && Past(k, v, s) && v < k.cur && Round(k, k.cur)
    requires x in k.groups && x in d.groups && d == Put(k, x, d.groups[x])
    requires Num(k.groups[x], s) <= Num(d.groups[x], s) == Fence(k, k.cur)
    ensures Past(d, v, s)
  {
  }

  lemma CurrentKept(k: Core, d: Core, x: nat, s: nat)
    requires CoreOk(k) && OnlyAt(k, d, x, s) && Moves(k, k.cur, s)
    requires Num(k.groups[x], s) <= Num(d.groups[x], s) == Fence(k, k.cur)
    requires PhaseOk(d, s) && (Moved(k, s) ==> Moved(d, s))
    requires Frozen(k, s) ==> Fenced(d, k.cur, s)
    ensures KeptAt(k, d, s)
  {
    forall v: nat | Moves(k, v, s) && v < k.cur
      ensures Past(d, v, s)
    {
      PastStays(k, d, x, s, v);
    }
  }

  lemma FreezeSettled(k: Core, s: nat)
    requires Settled(k, s) && Moves(k, k.cur, s) && ChainOk(k)
    ensures From(k, k.cur, s) in k.groups && Frozen(Freeze(k, k.cur, s), s)
    ensures Num(k.groups[From(k, k.cur, s)], s) < Fence(k, k.cur)
  {
    var d := Freeze(k, k.cur, s);
    var g := From(k, k.cur, s);
    forall x | x in d.groups && x != g
      ensures Clean(d, x, s)
    {
      assert Clean(k, x, s);
    }
  }

  /** A Freeze that finds the shard already frozen, gone, or beyond its round changes nothing of it. */
  lemma FreezeIdle(k: Core, v: nat, s: nat)
    requires Moves(k, v, s) && From(k, v, s) in k.groups
    requires var g := k.groups[From(k, v, s)];
             Fence(k, v) < Num(g, s) || (Num(g, s) == Fence(k, v) && St(g, s) != ValidShard)
    ensures SameShard(k, Freeze(k, v, s), s)
  {
  }

  lemma FreezeKeeps(k: Core, v: nat, s: nat)
    requires CoreOk(k) && Moves(k, v, s) && v <= k.cur && From(k, v, s) in k.groups
    ensures CoreOk(Freeze(k, v, s)) && Stable(k, Freeze(k, v, s))
    ensures Carries(Freeze(k, v, s), v, s, DoFreeze(k.hash, k.groups[From(k, v, s)], s, Fence(k, v)).1.state)
  {
    var d := Freeze(k, v, s);
    FreezeLocal(k, v, s);
    assert PhaseOk(k, s);
    if v == k.cur && Settled(k, s) {
      FreezeSettled(k, s);
      CurrentKept(k, d, From(k, v, s), s);
    } else {
      if v < k.cur { assert Past(k, v, s); }
      FreezeIdle(k, v, s);
      UntouchedKept(k, d, s);
      FreezeCarries(k, v, s);
    }
    OneShardKept(k, d, From(k, v, s), s);
  }

  lemma FreezeCarries(k: Core, v: nat, s: nat)
    requires CoreOk(k) && Moves(k, v, s) && v <= k.cur && From(k, v, s) in k.groups && SameShard(k, Freeze(k, v, s), s)
    requires v < k.cur || !Settled(k, s)
    ensures Carries(Freeze(k, v, s), v, s, DoFreeze(k.hash, k.groups[From(k, v, s)], s, Fence(k, v)).1.state)
  {
    var d := Freeze(k, v, s);
    SameHistory(k, d, v, s);
    SamePhases(k, d, s);
    assert PhaseOk(k, s);
    if v < k.cur { assert Past(k, v, s); }
  }

  // ---------------------------------------------------------------- Install

  lemma InstallFrozen(k: Core, s: nat, data: Table)
    requires ChainOk(k) && Frozen(k, s) && data == Wanted(k, s) && To(k, k.cur, s) in k.groups
    ensures var d := Install(k, k.cur, s, data);
            Copied(d, s) && !DoInstall(k.groups[To(k, k.cur, s)], s, data, Fence(k, k.cur)).1
  {
    var d := Install(k, k.cur, s, data);
    var (g, h) := (From(k, k.cur, s), To(k, k.cur, s));
    assert Clean(k, h, s);
    MoveRoundTrip(k.hash, k.spec, k.groups[h].table, s, s);
    forall x | x in d.groups && x != g && x != h
      ensures Clean(d, x, s)
    {
      assert Clean(k, x, s);
    }
  }

  lemma InstallKeeps(k: Core, v: nat, s: nat, data: Table)
    requires CoreOk(k) && Moves(k, v, s) && v <= k.cur && To(k, v, s) in k.groups && Carries(k, v, s, data)
    ensures CoreOk(Install(k, v, s, data)) && Stable(k, Install(k, v, s, data))
    ensures Fenced(Install(k, v, s, data), v, s)
    ensures !DoInstall(k.groups[To(k, v, s)], s, data, Fence(k, v)).1
  {
    var d := Install(k, v, s, data);
    if Fenced(k, v, s) {
      assert d.groups == k.groups && d == k;
    } else {
      InstallFrozen(k, s, data);
      InstallLocal(k, v, s, data);
      assert Clean(k, To(k, v, s), s);
      CurrentKept(k, d, To(k, v, s), s);
      OneShardKept(k, d, To(k, v, s), s);
    }
  }

  // ---------------------------------------------------------------- Delete

  lemma DeleteCopied(k: Core, s: nat)
    requires ChainOk(k) && Copied(k, s)
    ensures Moved(Delete(k, k.cur, s), s)
  {
    var d := Delete(k, k.cur, s);
    var (g, h) := (From(k, k.cur, s), To(k, k.cur, s));
    forall x | x in d.groups && x != g && x != h
      ensures Clean(d, x, s)
    {
      assert Clean(k, x, s);
    }
  }

  lemma DeleteIdle(k: Core, v: nat, s: nat)
    requires Moves(k, v, s) && From(k, v, s) in k.groups
    requires var g := k.groups[From(k, v, s)];
             Fence(k, v) < Num(g, s) || (Num(g, s) == Fence(k, v) && St(g, s) == NoShard)
    ensures SameShard(k, Delete(k, v, s), s)
  {
  }

  lemma DeleteKeeps(k: Core, v: nat, s: nat)
    requires CoreOk(k) && Moves(k, v, s) && v <= k.cur && From(k, v, s) in k.groups && Fenced(k, v, s)
    ensures CoreOk(Delete(k, v, s)) && Stable(k, Delete(k, v, s))
    ensures Done(Delete(k, v, s), v, s)
    ensures !DoDelete(k.hash, k.groups[From(k, v, s)], s, Fence(k, v)).1
  {
    var d := Delete(k, v, s);
    DeleteLocal(k, v, s);
    assert PhaseOk(k, s);
    if v == k.cur && Copied(k, s) {
      DeleteCopied(k, s);
      CurrentKept(k, d, From(k, v, s), s);
    } else {
      if v < k.cur { assert Past(k, v, s); } else { FencedArrived(k, s); }
      DeleteIdle(k, v, s);
      UntouchedKept(k, d, s);
      SamePhases(k, d, s);
    }
    OneShardKept(k, d, From(k, v, s), s);
  }

  /** In the current round, being fenced off means the shard has arrived. */
  lemma FencedArrived(k: Core, s: nat)
    requires ChainOk(k) && PhaseOk(k, s) && Fenced(k, k.cur, s)
    ensures Copied(k, s) || Moved(k, s)
  {
    var h := To(k, k.cur, s);
    assert !Clean(k, h, s);
  }

  // ---------------------------------------------------------------- clients

  /** An operation sees and changes only the shard of its key. */
  lemma OperationIsLocal(h: string -> nat, t: Table, u: Table, req: Request)
    requires Pack(h, t, ShardOf(h, req.key)) == Pack(h, u, ShardOf(h, req.key))
    ensures DoOp(t, req).1 == DoOp(u, req).1
    ensures Pack(h, DoOp(t, req).0, ShardOf(h, req.key)) == Pack(h, DoOp(u, req).0, ShardOf(h, req.key))
    ensures forall z: nat :: z != ShardOf(h, req.key) ==> Pack(h, DoOp(t, req).0, z) == Pack(h, t, z)
  {
    var s := ShardOf(h, req.key);
    assert req.key in t <==> req.key in Pack(h, t, s);
    assert req.key in u <==> req.key in Pack(h, u, s);
    if req.key in t { assert t[req.key] == Pack(h, t, s)[req.key] == Pack(h, u, s)[req.key]; }
    var (t', u') := (DoOp(t, req).0, DoOp(u, req).0);
    forall k
      ensures k in Pack(h, t', s) <==> k in Pack(h, u', s)
      ensures k in Pack(h, t', s) ==> Pack(h, t', s)[k] == Pack(h, u', s)[k]
    {
      assert k in Pack(h, t, s) <==> k in Pack(h, u, s);
    }
    assert Pack(h, t', s) == Pack(h, u', s);
  }

  /** A group that serves the shard has exactly the believed contents. */
  lemma ServerHasIt(k: Core, x: nat, s: nat)
    requires PhaseOk(k, s) && x in k.groups && St(k.groups[x], s) == ValidShard
    ensures Has(k, x, s) == Wanted(k, s)
    ensures Settled(k, s) || Copied(k, s) || Moved(k, s)
    ensures x == if Settled(k, s) then k.chain[k.cur].shards[s] else To(k, k.cur, s)
  {
    assert !Clean(k, x, s);
  }

  lemma ClientReply(k: Core, x: nat, req: Request)
    requires x in k.groups && St(k.groups[x], ShardOf(k.hash, req.key)) == ValidShard
    requires Has(k, x, ShardOf(k.hash, req.key)) == Wanted(k, ShardOf(k.hash, req.key))
    ensures var d, s := Client(k, x, req), ShardOf(k.hash, req.key);
            && x in d.groups && d == k.(groups := k.groups[x := k.groups[x].(table := d.groups[x].table)], spec := d.spec)
            && Has(d, x, s) == Wanted(d, s)
            && DoClient(k.hash, k.groups[x], req).1 == DoOp(k.spec, req).1
  {
    OperationIsLocal(k.hash, k.groups[x].table, k.spec, req);
  }

  lemma ClientServed(k: Core, x: nat, req: Request)
    requires CoreOk(k) && x in k.groups && St(k.groups[x], ShardOf(k.hash, req.key)) == ValidShard
    ensures KeptAt(k, Client(k, x, req), ShardOf(k.hash, req.key))
    ensures DoClient(k.hash, k.groups[x], req).1 == DoOp(k.spec, req).1
  {
    var s := ShardOf(k.hash, req.key);
    assert PhaseOk(k, s);
    ServerHasIt(k, x, s);
    ClientReply(k, x, req);
    ServedKept(k, Client(k, x, req), x, s);
  }

  lemma ServedKept(k: Core, d: Core, x: nat, s: nat)
    requires CoreOk(k) && s < NSHARDS
    requires x in k.groups && St(k.groups[x], s) == ValidShard && (Settled(k, s) || Copied(k, s) || Moved(k, s))
    requires x == if Settled(k, s) then k.chain[k.cur].shards[s] else To(k, k.cur, s)
    requires x in d.groups && d == k.(groups := k.groups[x := k.groups[x].(table := d.groups[x].table)], spec := d.spec)
    requires Has(d, x, s) == Wanted(d, s)
    ensures KeptAt(k, d, s)
  {
    ServedPhase(k, d, x, s);
    forall v: nat | Moves(k, v, s) && v < k.cur
      ensures Past(d, v, s)
    {
      assert Past(k, v, s);
    }
  }

  /** d is k but for the contents of a group that serves shard s, and of the believed table. */
  lemma ServedPhase(k: Core, d: Core, x: nat, s: nat)
    requires x in k.groups && St(k.groups[x], s) == ValidShard && (Settled(k, s) || Copied(k, s) || Moved(k, s))
    requires x == if Settled(k, s) then k.chain[k.cur].shards[s] else To(k, k.cur, s)
    requires x in d.groups && d == k.(groups := k.groups[x := k.groups[x].(table := d.groups[x].table)], spec := d.spec)
    requires Has(d, x, s) == Wanted(d, s)
    ensures Settled(k, s) ==> Settled(d, s)
    ensures Copied(k, s) ==> Copied(d, s)
    ensures Moved(k, s) ==> Moved(d, s)
  {
    forall z | z in k.groups && z != x && Clean(k, z, s)
      ensures Clean(d, z, s)
    {
    }
    var g := k.chain[k.cur].shards[s];
    if Settled(k, s) {
      assert OthersClean(d, s, g, g);
    } else {
      assert OthersClean(d, s, g, x);
      assert SameAt(k, d, g, s);
    }
  }

  lemma ClientElsewhere(k: Core, x: nat, req: Request, z: nat)
    requires x in k.groups && z != ShardOf(k.hash, req.key)
    ensures SameShard(k, Client(k, x, req), z)
  {
    OperationIsLocal(k.hash, k.groups[x].table, k.groups[x].table, req);
    OperationIsLocal(k.hash, k.spec, k.spec, req);
    assert SameAt(k, Client(k, x, req), x, z);
  }

  lemma ClientKeeps(k: Core, x: nat, req: Request)
    requires CoreOk(k) && x in k.groups
    ensures CoreOk(Client(k, x, req)) && Stable(k, Client(k, x, req))
    ensures var r := DoClient(k.hash, k.groups[x], req).1;
            r.err != ErrWrongGroup ==> r == DoOp(k.spec, req).1
    ensures Client(k, x, req).spec != k.spec ==>
              req.PutArgs? && DoOp(k.spec, req).1 == PutReply(OK) && Client(k, x, req).spec == DoOp(k.spec, req).0
  {
    var d := Client(k, x, req);
    var s := ShardOf(k.hash, req.key);
    if St(k.groups[x], s) == ValidShard {
      ClientServed(k, x, req);
      forall z: nat | z < NSHARDS
        ensures KeptAt(k, d, z)
      {
        if z != s {
          ClientElsewhere(k, x, req, z);
          UntouchedKept(k, d, z);
        }
      }
      AllKept(k, d);
    } else {
      assert d.groups == k.groups && d == k;
    }
  }

  // ---------------------------------------------------------------- the two config keys

  /** With no round under way every shard is settled. */
  lemma NoRoundAllSettled(k: Core, s: nat)
    requires CoreOk(k) && |k.chain| == k.cur + 1 && s < NSHARDS
    ensures Settled(k, s)
  {
    assert PhaseOk(k, s);
  }

  lemma ProposeKeeps(k: Core, c: Config)
    requires CoreOk(k) && 0 < k.cur && |k.chain| == k.cur + 1 && c.num > k.chain[k.cur].num
    ensures CoreOk(Propose(k, c)) && Stable(k, Propose(k, c))
  {
    var d := Propose(k, c);
    forall s: nat | s < NSHARDS
      ensures PhaseOk(d, s)
    {
      NoRoundAllSettled(k, s);
      SettledThere(k, d, s);
    }
    forall v: nat, s: nat | v < d.cur && Moves(d, v, s)
      ensures Past(d, v, s)
    {
      assert Past(k, v, s);
    }
    forall v: nat, s: nat | Done(k, v, s)
      ensures Done(d, v, s)
    {
    }
  }

  lemma SettledThere(k: Core, d: Core, s: nat)
    requires Settled(k, s) && k.chain <= d.chain && d == k.(chain := d.chain)
    ensures Settled(d, s)
  {
    forall x | x in d.groups && x != k.chain[k.cur].shards[s]
      ensures Clean(d, x, s)
    {
      assert Clean(k, x, s);
    }
  }

  lemma CommitSettles(k: Core, s: nat)
    requires CoreOk(k) && |k.chain| == k.cur + 2 && 0 < k.cur && s < NSHARDS && Done(k, k.cur, s)
    ensures Settled(Commit(k), s)
  {
    var d := Commit(k);
    assert PhaseOk(k, s);
    assert k.chain[k.cur].num < k.chain[k.cur + 1].num;
    forall x | x in d.groups && x != d.chain[d.cur].shards[s]
      ensures Clean(d, x, s)
    {
      assert x != k.chain[k.cur].shards[s] ==> Clean(k, x, s);
    }
  }

  lemma CommitKeeps(k: Core)
    requires CoreOk(k) && |k.chain| == k.cur + 2 && 0 < k.cur
    requires forall s: nat :: s < NSHARDS ==> Done(k, k.cur, s)
    ensures CoreOk(Commit(k)) && Stable(k, Commit(k))
  {
    var d := Commit(k);
    forall s: nat | s < NSHARDS
      ensures PhaseOk(d, s)
    {
      assert Done(k, k.cur, s);
      CommitSettles(k, s);
    }
    forall v: nat, s: nat | v < d.cur && Moves(d, v, s)
      ensures Past(d, v, s)
    {
      if v < k.cur { assert Past(k, v, s); } else { assert Done(k, k.cur, s); }
    }
    forall v: nat, s: nat, data | Carries(k, v, s, data)
      ensures Carries(d, v, s, data)
    {
      assert Done(k, k.cur, s);
    }
  }

  /** InitConfig's write: the first configuration has everything on Gid1. */
  lemma BootKeeps(k: Core, c: Config)
    requires CoreOk(k) && k.cur == 0 && AllOnFirst(c)
    ensures var d := k.(chain := k.chain + [c], cur := 1); CoreOk(d) && Stable(k, d)
  {
    var d := k.(chain := k.chain + [c], cur := 1);
    forall s: nat | s < NSHARDS
      ensures PhaseOk(d, s)
    {
      NoRoundAllSettled(k, s);
      var g := GID1;
      assert k.chain[0].shards[s] == g && c.shards[s] == g;
      forall x | x in d.groups && x != g
        ensures Clean(d, x, s)
      {
        assert Clean(k, x, s);
      }
      assert Settled(d, s);
    }
  }
}
