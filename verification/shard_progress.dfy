/**
 Controllers get their work done: from every state of every run an idle controller can carry out a
 change, or recover the one another controller left behind, whatever state the groups are in and
 whatever messages are still about.
 */
module ShardProgress {
  import opened Kv
  import opened ShardGroup
  import opened ShardCore
  import opened KvServer
  import opened ShardRun
  import opened ShardSafe
  import opened ShardTorn

  /** The two keys and the groups that exist are as they were. */
  ghost predicate SameKeys(w: World, w': World) {
    w'.curCell == w.curCell && w'.newCell == w.newCell && w'.core.groups.Keys == w.core.groups.Keys
  }

  /** One message of changConfig: sent, executed by its group, answered. */
  lemma RoundTrip(tr: seq<World>, i: nat) returns (tr': seq<World>, data: Table)
    requires Run(tr) && HasWork(At(Last(tr), i)) && Wants(At(Last(tr), i)).gid in Last(tr).core.groups
    ensures Run(tr') && tr <= tr' && SameKeys(Last(tr), Last(tr'))
    ensures At(Last(tr'), i) == Received(At(Last(tr), i), data)
  {
    var m := Wants(At(Last(tr), i));
    var a := Take(tr, Send(i));
    data := Handle(Last(a), m).1;
    var b := Take(a, Deliver(m));
    tr' := Take(b, Receive(i, Response(m, data)));
  }

  /** Freeze, Install and Delete for one shard, or nothing for a shard that stays. */
  lemma OneShard(tr: seq<World>, i: nat, v: nat, was: Config, cfg: Config, s: nat) returns (tr': seq<World>)
    requires Run(tr) && s < NSHARDS && At(Last(tr), i) == Moving(v, was, cfg, s, ToFreeze)
    requires was.shards[s] in Last(tr).core.groups && cfg.shards[s] in Last(tr).core.groups
    ensures Run(tr') && tr <= tr' && SameKeys(Last(tr), Last(tr'))
    ensures At(Last(tr'), i) == Moving(v, was, cfg, s + 1, ToFreeze)
  {
    if was.shards[s] == cfg.shards[s] {
      tr' := Take(tr, Walk(i));
    } else {
      var a, data := RoundTrip(tr, i);
      assert At(Last(a), i) == Moving(v, was, cfg, s, ToInstall(data));
      var b, d := RoundTrip(a, i);
      assert At(Last(b), i) == Moving(v, was, cfg, s, ToDelete);
      var e;
      tr', e := RoundTrip(b, i);
    }
  }

  lemma {:induction false} AllShards(tr: seq<World>, i: nat, v: nat, was: Config, cfg: Config, s: nat) returns (tr': seq<World>)
    requires Run(tr) && s <= NSHARDS && At(Last(tr), i) == Moving(v, was, cfg, s, ToFreeze)
    requires Placed(Last(tr).core, was) && Placed(Last(tr).core, cfg)
    ensures Run(tr') && tr <= tr' && SameKeys(Last(tr), Last(tr'))
    ensures At(Last(tr'), i) == Moving(v, was, cfg, NSHARDS, ToFreeze)
    decreases NSHARDS - s
  {
    if s == NSHARDS {
      tr' := tr;
    } else {
      var a := OneShard(tr, i, v, was, cfg, s);
      tr' := AllShards(a, i, v, was, cfg, s + 1);
    }
  }

  /** A controller that has begun to move shards can finish and write CurConfig. */
  lemma MoverFinishes(tr: seq<World>, i: nat, v: nat, was: Config, cfg: Config) returns (tr': seq<World>)
    requires Run(tr) && At(Last(tr), i) == Moving(v, was, cfg, 0, ToFreeze) && v > 0
    requires Last(tr).curCell.version == v
    requires Placed(Last(tr).core, was) && Placed(Last(tr).core, cfg)
    ensures Run(tr') && tr <= tr' && Last(tr').newCell == Last(tr).newCell
    ensures Last(tr').curCell == Cell(cfg, v + 1) && At(Last(tr'), i) == Idle
  {
    var a := AllShards(tr, i, v, was, cfg, 0);
    var b := Take(a, Walk(i));
    assert At(Last(b), i) == CurPut(v, cfg, true);
    tr' := Take(b, Rpc(i, Answered));
  }

  /** The groups that CurConfig names exist. */
  lemma OwnersExist(tr: seq<World>)
    requires Run(tr) && Last(tr).curCell.version > 0
    ensures Placed(Last(tr).core, Last(tr).curCell.cfg)
  {
    RunOk(tr, |tr| - 1);
    var k := Last(tr).core;
    forall z: nat | z < NSHARDS
      ensures k.chain[k.cur].shards[z] in k.groups
    {
      assert PhaseOk(k, z);
    }
  }

  /**
   A change is pending and controller i is idle: it can recover. The run goes on with InitController
   and ends with the pending config in force.
   */
  lemma RecoveryFinishes(tr: seq<World>, i: nat) returns (tr': seq<World>)
    requires Run(tr) && At(Last(tr), i) == Idle
    requires Last(tr).newCell.version == Last(tr).curCell.version > 0 && Placed(Last(tr).core, Last(tr).newCell.cfg)
    ensures Run(tr') && tr <= tr' && |tr'| > |tr| && tr'[|tr|] == Next(Last(tr), InitController(i))
    ensures Last(tr').curCell == Cell(Last(tr).newCell.cfg, Last(tr).curCell.version + 1)
    ensures Last(tr').newCell == Last(tr).newCell && At(Last(tr'), i) == Idle
  {
    OwnersExist(tr);
    var w := Last(tr);
    var a := Take(tr, InitController(i));
    var b := Take(a, Rpc(i, Answered));
    assert At(Last(b), i) == RecoverNew(w.curCell.cfg, w.curCell.version);
    var c := Take(b, Rpc(i, Answered));
    assert At(Last(c), i) == StartMoving(w.curCell.version, w.curCell.cfg, w.newCell.cfg);
    tr' := MoverFinishes(c, i, w.curCell.version, w.curCell.cfg, w.newCell.cfg);
    assert tr'[|tr|] == a[|tr|];
  }

  /** Also when the recovering controller had crashed in the middle of whatever it was doing. */
  lemma RecoveryAfterCrash(tr: seq<World>, i: nat) returns (tr': seq<World>)
    requires Run(tr)
    requires Last(tr).newCell.version == Last(tr).curCell.version > 0 && Placed(Last(tr).core, Last(tr).newCell.cfg)
    ensures Run(tr') && tr <= tr' && |tr'| > |tr| + 1 && tr'[|tr|] == Next(Last(tr), Crash(i))
    ensures tr'[|tr| + 1] == Next(tr'[|tr|], InitController(i))
    ensures Last(tr').curCell == Cell(Last(tr).newCell.cfg, Last(tr).curCell.version + 1) && Last(tr').newCell == Last(tr).newCell
  {
    var a := Take(tr, Crash(i));
    tr' := RecoveryFinishes(a, i);
    assert tr'[|tr|] == a[|tr|];
  }

  lemma StepKeepsGroups(w: World, e: Step)
    requires Enabled(w, e)
    ensures Next(w, e).core.groups.Keys == w.core.groups.Keys
  {
  }

  /** No step makes or removes a group. */
  lemma {:induction false} GroupsStay(tr: seq<World>, m: nat, n: nat)
    requires Run(tr) && m <= n < |tr|
    ensures tr[n].core.groups.Keys == tr[m].core.groups.Keys
    decreases n - m
  {
    if m < n {
      GroupsStay(tr, m, n - 1);
      assert Steps(tr[n - 1], tr[n]);
      var e :| Enabled(tr[n - 1], e) && tr[n] == Next(tr[n - 1], e);
      StepKeepsGroups(tr[n - 1], e);
    }
  }

  /** So a pending change can come into force if and only if the groups it names exist. */
  lemma RecoverableExactly(tr: seq<World>)
    requires Run(tr) && Last(tr).newCell.version == Last(tr).curCell.version > 0
    ensures var (w, c) := (Last(tr), Cell(Last(tr).newCell.cfg, Last(tr).curCell.version + 1));
            Placed(w.core, w.newCell.cfg) <==> exists tr' :: Run(tr') && tr <= tr' && Last(tr').curCell == c
  {
    var (w, c) := (Last(tr), Cell(Last(tr).newCell.cfg, Last(tr).curCell.version + 1));
    if Placed(w.core, w.newCell.cfg) {
      var tr' := RecoveryAfterCrash(tr, 0);
    }
    forall tr' | Run(tr') && tr <= tr' && Last(tr').curCell == c
      ensures Placed(w.core, w.newCell.cfg)
    {
      OwnersExist(tr');
      GroupsStay(tr', |tr| - 1, |tr'| - 1);
    }
  }

  /** No change is pending and controller i is idle: it can bring in any config with a higher number. */
  lemma ChangeFinishes(tr: seq<World>, i: nat, cfg: Config) returns (tr': seq<World>)
    requires Run(tr) && At(Last(tr), i) == Idle
    requires Last(tr).newCell.version < Last(tr).curCell.version && cfg.num > Last(tr).curCell.cfg.num
    requires Placed(Last(tr).core, cfg)
    ensures Run(tr') && tr <= tr' && |tr'| > |tr| && tr'[|tr|] == Next(Last(tr), ChangeConfigTo(i, cfg))
    ensures Last(tr').curCell == Cell(cfg, Last(tr).curCell.version + 1) && Last(tr').newCell.cfg == cfg
    ensures At(Last(tr'), i) == Idle
  {
    OwnersExist(tr);
    ConfigChain(tr, |tr| - 1);
    var w := Last(tr);
    var a := Take(tr, ChangeConfigTo(i, cfg));
    var b := Take(a, Rpc(i, Answered));
    assert At(Last(b), i) == NewPut(cfg, w.curCell.cfg, w.curCell.version - 1, true);
    var c := Take(b, Rpc(i, Answered));
    assert At(Last(c), i) == StartMoving(w.curCell.version, w.curCell.cfg, cfg);
    tr' := MoverFinishes(c, i, w.curCell.version, w.curCell.cfg, cfg);
    assert tr'[|tr|] == a[|tr|];
  }

  /** Then every shard is served by the group it names and by no other. */
  lemma RecoveredIsServed(tr: seq<World>, i: nat, s: nat) returns (tr': seq<World>)
    requires Run(tr) && At(Last(tr), i) == Idle && s < NSHARDS
    requires Last(tr).newCell.version == Last(tr).curCell.version > 0 && Placed(Last(tr).core, Last(tr).newCell.cfg)
    ensures Run(tr') && tr <= tr'
    ensures var (k, x) := (Last(tr').core, Last(tr).newCell.cfg.shards[s]);
            x in k.groups && forall y :: y in k.groups ==> (St(k.groups[y], s) == ValidShard <==> y == x)
  {
    tr' := RecoveryFinishes(tr, i);
    ConfigsAreInForce(tr', |tr'| - 1, s);
  }
}
