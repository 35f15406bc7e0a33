/**
 The replicated state machine of one shardgrp (shardgrp/server.go): a key/value table, the state
 of each shard, and for each shard the highest config number seen. Functions on values first, then
 the object that the server updates in place.
 */
module ShardGroup {
  import opened Kv

  const NSHARDS: nat := 12

  /** Key2Shard with the hash function as a parameter. */
  function ShardOf(h: string -> nat, key: string): (s: nat)
    ensures s < NSHARDS
  {
    h(key) % NSHARDS
  }

  datatype ShardState = NoShard | ValidShard | FrozenShard

  datatype Group = Group(table: Table, shards: map<nat, ShardState>, nums: map<nat, nat>)

  function St(g: Group, s: nat): ShardState { if s in g.shards then g.shards[s] else NoShard }

  function Num(g: Group, s: nat): nat { if s in g.nums then g.nums[s] else 0 }

  function WithState(g: Group, s: nat, st: ShardState): Group { g.(shards := g.shards[s := st]) }

  function WithNum(g: Group, s: nat, num: nat): Group { g.(nums := g.nums[s := num]) }

  /** The keys of shard s, as packShardData collects them. */
  function Pack(h: string -> nat, t: Table, s: nat): Table {
    map k | k in t && ShardOf(h, k) == s :: t[k]
  }

  /** The table without the keys of shard s. */
  function Drop(h: string -> nat, t: Table, s: nat): Table {
    map k | k in t && ShardOf(h, k) != s :: t[k]
  }

  function WrongGroup(req: Request): Reply {
    match req
    case GetArgs(_) => GetReply("", 0, ErrWrongGroup)
    case PutArgs(_, _, _) => PutReply(ErrWrongGroup)
  }

  function DoClient(h: string -> nat, g: Group, req: Request): (Group, Reply) {
    if St(g, ShardOf(h, req.key)) != ValidShard then (g, WrongGroup(req))
    else
      var (t, r) := DoOp(g.table, req);
      (g.(table := t), r)
  }

  datatype FreezeReply = FreezeReply(state: Table, num: nat, err: Err)

  function DoFreeze(h: string -> nat, g: Group, s: nat, num: nat): (Group, FreezeReply) {
    if num < Num(g, s) then (g, FreezeReply(map[], Num(g, s), OK))
    else
      var g := WithNum(g, s, num);
      if St(g, s) == NoShard then (g, FreezeReply(map[], num, ErrWrongGroup))
      else (WithState(g, s, FrozenShard), FreezeReply(Pack(h, g.table, s), num, OK))
  }

  /** The flag tells that the server stopped in Fatalf. */
  function DoInstall(g: Group, s: nat, state: Table, num: nat): (Group, bool) {
    if num <= Num(g, s) then (g, false)
    else
      var g := WithNum(g, s, num);
      if St(g, s) == FrozenShard then (g, true)
      else (WithState(g.(table := g.table + state), s, ValidShard), false)
  }

  function DoDelete(h: string -> nat, g: Group, s: nat, num: nat): (Group, bool) {
    if num < Num(g, s) then (g, false)
    else
      var g := WithNum(g, s, num);
      if St(g, s) == NoShard then (g, false)
      else if St(g, s) == ValidShard then (g, true)
      else (WithState(g.(table := Drop(h, g.table, s)), s, NoShard), false)
  }

  /** What moves from one group to another arrives whole and disturbs no other shard. */
  lemma MoveRoundTrip(h: string -> nat, t: Table, u: Table, s: nat, x: nat)
    requires Pack(h, u, s) == map[]
    ensures Pack(h, u + Pack(h, t, s), s) == Pack(h, t, s)
    ensures x != s ==> Pack(h, u + Pack(h, t, s), x) == Pack(h, u, x)
    ensures Pack(h, Drop(h, t, s), s) == map[]
    ensures x != s ==> Pack(h, Drop(h, t, s), x) == Pack(h, t, x)
    ensures Drop(h, u + Pack(h, t, s), s) == u
  {
    assert forall k :: k in u ==> ShardOf(h, k) != s by {
      forall k | k in u
        ensures ShardOf(h, k) != s
      {
        assert ShardOf(h, k) == s ==> k in Pack(h, u, s);
      }
    }
  }

  /** A table is what its shards hold. */
  lemma PacksDetermine(h: string -> nat, t: Table, u: Table)
    requires forall s :: 0 <= s < NSHARDS ==> Pack(h, t, s) == Pack(h, u, s)
    ensures t == u
  {
    forall k
      ensures k in t <==> k in u
      ensures k in t ==> t[k] == u[k]
    {
      var s := ShardOf(h, k);
      assert k in t <==> k in Pack(h, t, s);
      assert k in u <==> k in Pack(h, u, s);
    }
  }

  /** The server object: the same state machine, updated in place. */
  class Server {
    var table: Table
    var shards: map<nat, ShardState>
    var shardsNums: map<nat, nat>

    ghost function View(): Group
      reads this
    {
      Group(table, shards, shardsNums)
    }

    /** shardsNums[s], which Go reads as 0 when absent. */
    function Seen(s: nat): nat
      reads this
    {
      if s in shardsNums then shardsNums[s] else 0
    }

    /** A new server; group `first` starts with all the shards. */
    constructor (gid: nat, first: nat)
      ensures forall s :: 0 <= s < NSHARDS ==> St(View(), s) == (if gid == first then ValidShard else NoShard)
      ensures table == map[] && forall s :: Num(View(), s) == 0
    {
      var held: map<nat, ShardState>, nums: map<nat, nat> := map[], map[];
      var i: nat := 0;
      while i < NSHARDS
        invariant i <= NSHARDS
        invariant forall s :: s in nums <==> 0 <= s < i
        invariant forall s :: s in nums ==> nums[s] == 0
        invariant forall s :: s in held <==> gid == first && 0 <= s < i
        invariant forall s :: s in held ==> held[s] == ValidShard
      {
        if gid == first { held := held[i := ValidShard]; }
        nums := nums[i := 0];
        i := i + 1;
      }
      table, shards, shardsNums := map[], held, nums;
    }

    method Get(h: string -> nat, key: string) returns (r: Reply)
      ensures (View(), r) == DoClient(h, View(), GetArgs(key))
    {
      if ShardOf(h, key) !in shards || shards[ShardOf(h, key)] != ValidShard {
        return GetReply("", 0, ErrWrongGroup);
      }
      if key in table {
        return GetReply(table[key].value, table[key].version, OK);
      }
      return GetReply("", 0, ErrNoKey);
    }

    method Put(h: string -> nat, key: string, value: string, version: nat) returns (r: Reply)
      modifies this
      ensures (View(), r) == DoClient(h, old(View()), PutArgs(key, value, version))
    {
      if ShardOf(h, key) !in shards || shards[ShardOf(h, key)] != ValidShard {
        return PutReply(ErrWrongGroup);
      }
      if key in table {
        if table[key].version == version {
          table := table[key := VersionedValue(value, version + 1)];
          return PutReply(OK);
        }
        return PutReply(ErrVersion);
      }
      if version == 0 {
        table := table[key := VersionedValue(value, 1)];
        return PutReply(OK);
      }
      return PutReply(ErrNoKey);
    }

    method PackShardData(h: string -> nat, s: nat) returns (data: Table)
      ensures data == Pack(h, table, s)
    {
      data := map[];
      var todo := table.Keys;
      while todo != {}
        invariant todo <= table.Keys
        invariant forall k :: k in data <==> k in table && k !in todo && ShardOf(h, k) == s
        invariant forall k :: k in data ==> data[k] == table[k]
      {
        var k :| k in todo;
        if ShardOf(h, k) == s {
          data := data[k := table[k]];
        }
        todo := todo - {k};
      }
    }

    method UnpackShardData(data: Table)
      modifies this`table
      ensures table == old(table) + data
    {
      var todo := data.Keys;
      while todo != {}
        invariant todo <= data.Keys
        invariant forall k :: k in table <==> k in old(table) || (k in data && k !in todo)
        invariant forall k :: k in table ==> table[k] == if k in data && k !in todo then data[k] else old(table)[k]
      {
        var k :| k in todo;
        table := table[k := data[k]];
        todo := todo - {k};
      }
    }

    method DeleteKeys(h: string -> nat, s: nat)
      modifies this`table
      ensures table == Drop(h, old(table), s)
    {
      var todo := table.Keys;
      while todo != {}
        invariant todo <= old(table).Keys
        invariant forall k :: k in table <==> k in old(table) && (k in todo || ShardOf(h, k) != s)
        invariant forall k :: k in table ==> table[k] == old(table)[k]
      {
        var k :| k in todo;
        if ShardOf(h, k) == s {
          table := table - {k};
        }
        todo := todo - {k};
      }
    }

    method FreezeShard(h: string -> nat, s: nat, num: nat) returns (r: FreezeReply)
      modifies this
      ensures (View(), r) == DoFreeze(h, old(View()), s, num)
    {
      if num < Seen(s) {
        return FreezeReply(map[], Seen(s), OK);
      }
      shardsNums := shardsNums[s := num];
      if s !in shards || shards[s] == NoShard {
        return FreezeReply(map[], num, ErrWrongGroup);
      }
      if shards[s] != FrozenShard {
        shards := shards[s := FrozenShard];
      } else {
        assert shards == shards[s := FrozenShard];
      }
      var data := PackShardData(h, s);
      return FreezeReply(data, num, OK);
    }

    method InstallShard(s: nat, state: Table, num: nat) returns (fatal: bool)
      modifies this
      ensures (View(), fatal) == DoInstall(old(View()), s, state, num)
    {
      if num <= Seen(s) {
        return false;
      }
      shardsNums := shardsNums[s := num];
      if s in shards && shards[s] == FrozenShard {
        return true;
      }
      UnpackShardData(state);
      shards := shards[s := ValidShard];
      return false;
    }

    method DeleteShard(h: string -> nat, s: nat, num: nat) returns (fatal: bool)
      modifies this
      ensures (View(), fatal) == DoDelete(h, old(View()), s, num)
    {
      if num < Seen(s) {
        return false;
      }
      shardsNums := shardsNums[s := num];
      if s !in shards || shards[s] == NoShard {
        return false;
      }
      if shards[s] == ValidShard {
        return true;
      }
      DeleteKeys(h, s);
      shards := shards[s := NoShard];
      return false;
    }
  }
}
