/**
 The calls of clients as a timed history, with shards moving under any interleaving of controllers:
 the sharded store is linearizable against the model of models1, because every run of it is, for its
 clients, a run of one kvsrv server.
 */
module ShardLinear {
  import opened Kv
  import opened ShardCore
  import opened ShardRun
  import opened ShardSafe
  import KvModel
  import KvHistory

  /** A sharded store, its clients' calls, and the replies of accepted operations on their way back. */
  datatype Timed = Timed(world: World, calls: KvModel.History, held: map<nat, Reply>, clock: nat)

  /** `Serve` is one operation reaching a group; a client whose operation is refused may try any group again. */
  datatype Event =
    | Call(id: nat, req: Request)
    | Serve(id: nat, gid: nat)
    | Return(id: nat)
    | Inner(e: Step)

  ghost predicate Can(w: Timed, m: Event) {
    match m
    case Call(id, _) => id !in w.calls
    case Serve(id, gid) => id in w.calls && w.calls[id].done.None? && id !in w.held && gid in w.world.core.groups
    case Return(id) => id in w.calls && id in w.held
    case Inner(e) => !e.Operate? && Enabled(w.world, e)
  }

  function Called(h: KvModel.History, id: nat, req: Request, at: nat): KvModel.History {
    h[id := KvModel.Call(req, at, KvServer.None)]
  }

  function Returned(h: KvModel.History, id: nat, at: nat, out: Reply): KvModel.History
    requires id in h
  {
    h[id := h[id].(done := KvServer.Some(KvModel.Completion(at, out)))]
  }

  function Hold(held: map<nat, Reply>, id: nat, r: Reply): map<nat, Reply> { held[id := r] }

  ghost function Do(w: Timed, m: Event): Timed
    requires Can(w, m)
  {
    match m
    case Call(id, req) => w.(calls := Called(w.calls, id, req, w.clock), clock := w.clock + 1)
    case Serve(id, gid) =>
      var req := w.calls[id].req;
      var r := ReplyOf(w.world, gid, req);
      w.(world := ShardRun.Next(w.world, Operate(gid, req)),
         held := if r.err == ErrWrongGroup then w.held else Hold(w.held, id, r))
    case Return(id) =>
      w.(calls := Returned(w.calls, id, w.clock, w.held[id]), held := w.held - {id}, clock := w.clock + 1)
    case Inner(e) => w.(world := ShardRun.Next(w.world, e))
  }

  ghost predicate Moves(w: Timed, w': Timed) {
    exists m :: Can(w, m) && w' == Do(w, m)
  }

  ghost predicate TimedRun(tr: seq<Timed>) {
    && tr != [] && ShardRun.Start(tr[0].world) && tr[0].calls == map[] && tr[0].held == map[] && tr[0].clock == 0
    && forall i :: 0 <= i < |tr| - 1 ==> Moves(tr[i], tr[i + 1])
  }

  // ---------------------------------------------------------------- one server as the abstraction

  function ProgressOf(w: Timed, id: nat): KvHistory.Progress {
    if id in w.held then KvHistory.Replied(w.held[id]) else KvHistory.Sending(true)
  }

  /** k is a kvsrv with the believed table and the same calls, at the same stage. */
  ghost predicate Shows(w: Timed, k: KvHistory.World) {
    && Ok(w.world)
    && k.table == w.world.core.spec && k.calls == w.calls && k.clock == w.clock
    && (forall id :: id in w.held ==> id in w.calls && w.calls[id].done.None?)
    && (forall id :: id in k.busy <==> id in w.calls && w.calls[id].done.None?)
    && (forall id :: id in k.busy ==> k.busy[id] == ProgressOf(w, id))
  }

  /** What k does when the sharded store does m. */
  ghost function Shadow(w: Timed, k: KvHistory.World, m: Event): KvHistory.World
    requires Can(w, m) && Shows(w, k)
  {
    match m
    case Call(id, req) => KvHistory.Do(k, KvHistory.Invoke(id, req))
    case Serve(id, gid) =>
      if ReplyOf(w.world, gid, w.calls[id].req).err == ErrWrongGroup then k
      else KvHistory.Do(k, KvHistory.Try(id, KvServer.Answered))
    case Return(id) => KvHistory.Do(k, KvHistory.Return(id))
    case Inner(_) => k
  }

  lemma ServeIsOne(w: World, gid: nat, req: Request)
    requires Ok(w) && gid in w.core.groups
    ensures var r := ReplyOf(w, gid, req);
            var s := ShardRun.Next(w, Operate(gid, req)).core.spec;
            if r.err == ErrWrongGroup then s == w.core.spec else r == DoOp(w.core.spec, req).1 && s == DoOp(w.core.spec, req).0
  {
    ClientKeeps(w.core, gid, req);
  }

  /** The server's own part of an answered first attempt. */
  lemma FirstTry(k: KvHistory.World, id: nat)
    requires id in k.calls && id in k.busy && k.busy[id] == KvHistory.Sending(true)
    ensures KvHistory.Can(k, KvHistory.Try(id, KvServer.Answered))
    ensures var k' := KvHistory.Do(k, KvHistory.Try(id, KvServer.Answered));
            && k'.table == DoOp(k.table, k.calls[id].req).0 && k'.calls == k.calls && k'.clock == k.clock
            && k'.busy == k.busy[id := KvHistory.Replied(DoOp(k.table, k.calls[id].req).1)]
  {
  }

  lemma CallShows(w: Timed, k: KvHistory.World, id: nat, req: Request)
    requires Shows(w, k) && Can(w, Call(id, req))
    ensures Shows(Do(w, Call(id, req)), Shadow(w, k, Call(id, req)))
  {
  }

  lemma ReturnShows(w: Timed, k: KvHistory.World, id: nat)
    requires Shows(w, k) && Can(w, Return(id))
    ensures Shows(Do(w, Return(id)), Shadow(w, k, Return(id)))
  {
  }

  /** Only the world and the table behind it move. */
  lemma WorldShows(w: Timed, k: KvHistory.World, world: World)
    requires Shows(w, k) && Ok(world) && world.core.spec == k.table
    ensures Shows(w.(world := world), k)
  {
  }

  /** An operation is accepted, and its reply is on the way. */
  lemma AcceptedShows(w: Timed, k: KvHistory.World, k': KvHistory.World, id: nat, out: Reply)
    requires Shows(w, k) && id in w.calls && w.calls[id].done.None? && id !in w.held
    requires k'.table == k.table && k'.calls == k.calls && k'.clock == k.clock
    requires k'.busy == k.busy[id := KvHistory.Replied(out)]
    ensures Shows(w.(held := Hold(w.held, id, out)), k')
  {
  }

  lemma ServeShows(w: Timed, k: KvHistory.World, id: nat, gid: nat)
    requires Shows(w, k) && Can(w, Serve(id, gid))
    ensures Shows(Do(w, Serve(id, gid)), Shadow(w, k, Serve(id, gid)))
  {
    var req := w.calls[id].req;
    var world := ShardRun.Next(w.world, Operate(gid, req));
    StepKeeps(w.world, Operate(gid, req));
    ServeIsOne(w.world, gid, req);
    if ReplyOf(w.world, gid, req).err == ErrWrongGroup {
      WorldShows(w, k, world);
    } else {
      FirstTry(k, id);
      var k1 := k.(table := world.core.spec);
      var w1 := w.(world := world);
      TableShows(w, k, world);
      AcceptedShows(w1, k1, Shadow(w, k, Serve(id, gid)), id, ReplyOf(w.world, gid, req));
    }
  }

  lemma TableShows(w: Timed, k: KvHistory.World, world: World)
    requires Shows(w, k) && Ok(world)
    ensures Shows(w.(world := world), k.(table := world.core.spec))
  {
  }

  lemma InnerShows(w: Timed, k: KvHistory.World, e: Step)
    requires Shows(w, k) && Can(w, Inner(e))
    ensures Shows(Do(w, Inner(e)), k)
  {
    StepKeeps(w.world, e);
    OthersKeepTable(w.world, e);
    WorldShows(w, k, ShardRun.Next(w.world, e));
  }

  lemma EventShows(w: Timed, k: KvHistory.World, m: Event)
    requires Shows(w, k) && Can(w, m)
    ensures Shows(Do(w, m), Shadow(w, k, m))
    ensures Shadow(w, k, m) == k || KvHistory.Moves(k, Shadow(w, k, m))
  {
    match m
    case Call(id, req) =>
      CallShows(w, k, id, req);
      assert KvHistory.Can(k, KvHistory.Invoke(id, req));
    case Serve(id, gid) =>
      ServeShows(w, k, id, gid);
      FirstTry(k, id);
    case Return(id) =>
      ReturnShows(w, k, id);
      assert KvHistory.Can(k, KvHistory.Return(id));
    case Inner(e) => InnerShows(w, k, e);
  }

  /** Every run of the sharded store shows its clients a run of one server. */
  lemma {:induction false} RunShows(tr: seq<Timed>, n: nat) returns (ks: seq<KvHistory.World>)
    requires TimedRun(tr) && n < |tr|
    ensures KvHistory.Run(ks) && Shows(tr[n], ks[|ks| - 1])
  {
    if n == 0 {
      StartOk(tr[0].world);
      ks := [KvHistory.Start()];
    } else {
      ks := RunShows(tr, n - 1);
      var k := ks[|ks| - 1];
      assert Moves(tr[n - 1], tr[n]);
      var m :| Can(tr[n - 1], m) && tr[n] == Do(tr[n - 1], m);
      EventShows(tr[n - 1], k, m);
      var k' := Shadow(tr[n - 1], k, m);
      if k' != k {
        ks := Longer(ks, k');
      }
    }
  }

  lemma Longer(ks: seq<KvHistory.World>, k: KvHistory.World) returns (ks': seq<KvHistory.World>)
    requires KvHistory.Run(ks) && KvHistory.Moves(ks[|ks| - 1], k)
    ensures KvHistory.Run(ks') && ks'[|ks'| - 1] == k
  {
    ks' := ks + [k];
    forall i | 0 <= i < |ks'| - 1
      ensures KvHistory.Moves(ks'[i], ks'[i + 1])
    {
      if i < |ks| - 1 { assert ks'[i] == ks[i] && ks'[i + 1] == ks[i + 1]; }
    }
  }

  // ---------------------------------------------------------------- theorems

  /** Under any movement of shards, clients' histories are linearizable if and only if no Put was answered ErrNoKey. */
  lemma ShardsAreLinearizable(tr: seq<Timed>, n: nat)
    requires TimedRun(tr) && n < |tr|
    ensures KvModel.Linearizable(tr[n].calls) <==> KvHistory.NoMissingKeyPut(tr[n].calls)
  {
    var ks := RunShows(tr, n);
    KvHistory.HistoriesLinearizable(ks, |ks| - 1);
  }

  /** One Put at version 1 on an absent key of a fresh store is answered ErrNoKey. */
  lemma MissingKeyHappens(w: World) returns (tr: seq<Timed>)
    requires ShardRun.Start(w)
    ensures TimedRun(tr) && tr[0].world == w && !KvModel.Linearizable(tr[|tr| - 1].calls)
  {
    var req := PutArgs("k", "v", 1);
    var a := Timed(w, map[], map[], 0);
    var b := Do(a, Call(0, req));
    var c := Do(b, Serve(0, GID1));
    assert ReplyOf(b.world, GID1, req) == PutReply(ErrNoKey);
    var d := Do(c, Return(0));
    tr := [a, b, c, d];
    assert Moves(a, b) && Moves(b, c) && Moves(c, d);
    ShardsAreLinearizable(tr, 3);
    assert KvHistory.Completed(d.calls, 0, PutReply(ErrNoKey));
  }
}
