/** What every run of the sharded store keeps, and the theorems that follow. */
module ShardSafe {
  import opened Kv
  import opened ShardGroup
  import opened ShardCore
  import opened KvServer
  import opened ShardRun

  // ---------------------------------------------------------------- invariant

  /** The two keys hold the last configs of the chain, and both logs are the chain. */
  ghost predicate CellsOk(w: World) {
    var k := w.core;
    && k.cur < |k.chain|
    && w.curLog == k.chain[1..k.cur + 1] && w.curCell.version == k.cur
    && (k.cur > 0 ==> w.curCell.cfg == k.chain[k.cur])
    && w.newLog == (if k.cur == 0 then [] else k.chain[2..]) && w.newCell.version == |w.newLog|
    && (w.newLog != [] ==> w.newCell.cfg == k.chain[|k.chain| - 1])
  }

  ghost predicate MsgOk(k: Core, m: Message) {
    Moves(k, m.round, m.s) && m.round <= k.cur && m.num == Fence(k, m.round) &&
    match m
    case FreezeMsg(gid, s, _, v) => gid == From(k, v, s)
    case InstallMsg(gid, s, data, _, v) => gid == To(k, v, s) && Carries(k, v, s, data)
    case DeleteMsg(gid, s, _, v) => gid == From(k, v, s) && Fenced(k, v, s)
  }

  ghost predicate ResponseOk(k: Core, r: Response) {
    MsgOk(k, r.msg) &&
    match r.msg
    case FreezeMsg(_, s, _, v) => Carries(k, v, s, r.data)
    case InstallMsg(_, s, _, _, v) => Fenced(k, v, s)
    case DeleteMsg(_, s, _, v) => Done(k, v, s)
  }

  ghost predicate OnRound(k: Core, v: nat, was: Config, cfg: Config) {
    Round(k, v) && v <= k.cur && was == k.chain[v] && cfg == k.chain[v + 1]
  }

  /** Shards below s are through with round v. */
  ghost predicate DoneBelow(k: Core, v: nat, s: nat) {
    forall z: nat :: z < s ==> Done(k, v, z)
  }

  ghost predicate StageOk(k: Core, v: nat, s: nat, stage: Stage) {
    match stage
    case ToFreeze => true
    case ToInstall(data) => s < NSHARDS && Moves(k, v, s) && Carries(k, v, s, data)
    case ToDelete => s < NSHARDS && Fenced(k, v, s)
  }

  ghost predicate PcOk(k: Core, pc: Pc) {
    match pc
    case InitPut(cfg, _) => AllOnFirst(cfg)
    case NewPut(cfg, was, ver, _) => ver + 1 <= k.cur < |k.chain| && was == k.chain[ver + 1] && cfg.num > was.num
    case NewBack(cfg, was, ver) => ver + 1 <= k.cur < |k.chain| && ver + 3 <= |k.chain|
    case Moving(v, was, cfg, s, stage) => OnRound(k, v, was, cfg) && s <= NSHARDS && DoneBelow(k, v, s) && StageOk(k, v, s, stage)
    case CurPut(v, cfg, _) => Round(k, v) && v <= k.cur && cfg == k.chain[v + 1] && DoneBelow(k, v, NSHARDS)
    case RecoverNew(was, v) => 1 <= v <= k.cur < |k.chain| && was == k.chain[v]
    case Fatal(cause) => cause != UnknownReply
    case _ => true
  }

  ghost predicate Ok(w: World) {
    && CoreOk(w.core) && CellsOk(w) && !w.halted
    && (forall m :: m in w.sent ==> MsgOk(w.core, m))
    && (forall r :: r in w.responses ==> ResponseOk(w.core, r))
    && (forall i :: i in w.ctl ==> PcOk(w.core, w.ctl[i]))
  }

  // ---------------------------------------------------------------- carrying the invariant over a step

  lemma MsgStays(k: Core, d: Core, m: Message)
    requires MsgOk(k, m) && Stable(k, d)
    ensures MsgOk(d, m)
  {
  }

  lemma ResponseStays(k: Core, d: Core, r: Response)
    requires ResponseOk(k, r) && Stable(k, d)
    ensures ResponseOk(d, r)
  {
    MsgStays(k, d, r.msg);
  }

  lemma PcStays(k: Core, d: Core, pc: Pc)
    requires PcOk(k, pc) && Stable(k, d) && d.cur < |d.chain|
    ensures PcOk(d, pc)
  {
    if pc.Moving? || pc.CurPut? {
      forall z: nat | Done(k, pc.v, z)
        ensures Done(d, pc.v, z)
      {
      }
    }
  }

  /** A step is safe if the core stays sound and what is new is sound. */
  lemma Carried(w: World, w': World)
    requires Ok(w) && CoreOk(w'.core) && Stable(w.core, w'.core) && CellsOk(w') && !w'.halted
    requires forall m :: m in w'.sent && m !in w.sent ==> MsgOk(w'.core, m)
    requires forall r :: r in w'.responses && r !in w.responses ==> ResponseOk(w'.core, r)
    requires forall i :: i in w'.ctl && (i in w.ctl ==> w'.ctl[i] != w.ctl[i]) ==> PcOk(w'.core, w'.ctl[i])
    ensures Ok(w')
  {
    forall m | m in w'.sent
      ensures MsgOk(w'.core, m)
    {
      if m in w.sent { MsgStays(w.core, w'.core, m); }
    }
    forall r | r in w'.responses
      ensures ResponseOk(w'.core, r)
    {
      if r in w.responses { ResponseStays(w.core, w'.core, r); }
    }
    forall i | i in w'.ctl
      ensures PcOk(w'.core, w'.ctl[i])
    {
      if i in w.ctl && w'.ctl[i] == w.ctl[i] { PcStays(w.core, w'.core, w.ctl[i]); }
    }
  }

  lemma StableSelf(k: Core)
    ensures Stable(k, k)
  {
  }

  /** A step that only moves one controller. */
  lemma GoKeeps(w: World, i: nat, pc: Pc)
    requires Ok(w) && PcOk(w.core, pc)
    ensures Ok(Go(w, i, pc))
  {
    StableSelf(w.core);
    Carried(w, Go(w, i, pc));
  }

  // ---------------------------------------------------------------- groups

  lemma HandleMatches(w: World, m: Message)
    requires MsgOk(w.core, m) && m.gid in w.core.groups
    ensures var k, v, s := w.core, m.round, m.s;
            var (g, data, fatal) := Handle(w, m);
            match m
            case FreezeMsg(_, _, _, _) => Put(k, m.gid, g) == Freeze(k, v, s) && !fatal
                                          && data == DoFreeze(k.hash, k.groups[From(k, v, s)], s, Fence(k, v)).1.state
            case InstallMsg(_, _, d, _, _) => Put(k, m.gid, g) == Install(k, v, s, d)
                                          && fatal == DoInstall(k.groups[To(k, v, s)], s, d, Fence(k, v)).1
            case DeleteMsg(_, _, _, _) => Put(k, m.gid, g) == Delete(k, v, s)
                                          && fatal == DoDelete(k.hash, k.groups[From(k, v, s)], s, Fence(k, v)).1
  {
  }

  lemma DeliverCore(w: World, m: Message)
    requires CoreOk(w.core) && MsgOk(w.core, m) && m.gid in w.core.groups
    ensures var (g, data, fatal) := Handle(w, m);
            && !fatal && CoreOk(Put(w.core, m.gid, g)) && Stable(w.core, Put(w.core, m.gid, g))
            && ResponseOk(Put(w.core, m.gid, g), Response(m, data))
  {
    var (g, data, fatal) := Handle(w, m);
    HandleMatches(w, m);
    match m {
      case FreezeMsg(_, s, _, v) => FreezeKeeps(w.core, v, s);
      case InstallMsg(_, s, d, _, v) => InstallKeeps(w.core, v, s, d);
      case DeleteMsg(_, s, _, v) => DeleteKeeps(w.core, v, s);
    }
    MsgStays(w.core, Put(w.core, m.gid, g), m);
  }

  lemma DeliverKeeps(w: World, m: Message)
    requires Ok(w) && Enabled(w, Deliver(m))
    ensures Ok(Next(w, Deliver(m)))
  {
    DeliverCore(w, m);
    Carried(w, Next(w, Deliver(m)));
  }

  lemma OperateKeeps(w: World, gid: nat, req: Request)
    requires Ok(w) && Enabled(w, Operate(gid, req))
    ensures Ok(Next(w, Operate(gid, req)))
  {
    ClientKeeps(w.core, gid, req);
    Carried(w, Next(w, Operate(gid, req)));
  }

  // ---------------------------------------------------------------- controllers

  lemma SendKeeps(w: World, i: nat)
    requires Ok(w) && Enabled(w, Send(i))
    ensures Ok(Next(w, Send(i)))
  {
    assert PcOk(w.core, w.ctl[i]);
    StableSelf(w.core);
    Carried(w, Next(w, Send(i)));
  }

  lemma ReceiveKeeps(w: World, i: nat, r: Response)
    requires Ok(w) && Enabled(w, Receive(i, r))
    ensures Ok(Next(w, Receive(i, r)))
  {
    assert PcOk(w.core, w.ctl[i]) && ResponseOk(w.core, r);
    GoKeeps(w, i, Received(At(w, i), r.data));
  }

  lemma WalkKeeps(w: World, i: nat)
    requires Ok(w) && Enabled(w, Walk(i))
    ensures Ok(Next(w, Walk(i)))
  {
    var pc := w.ctl[i];
    var k := w.core;
    assert PcOk(k, pc);
    if pc.s < NSHARDS {
      assert !Moves(k, pc.v, pc.s);
      assert Done(k, pc.v, pc.s);
      assert pc.stage == ToFreeze;
    }
    GoKeeps(w, i, Walked(pc));
  }

  /** What the executed Put does, and that the controller may go on as it does. */
  ghost predicate PutKeeps(w: World, pc: Pc)
    requires Puts(pc)
  {
    var w' := Execute(w, pc);
    && CoreOk(w'.core) && Stable(w.core, w'.core) && CellsOk(w')
    && PcOk(w'.core, Resend(pc)) && PcOk(w'.core, AfterPut(pc, Executed(w, pc)))
  }

  lemma InitPutKeeps(w: World, pc: Pc)
    requires CoreOk(w.core) && CellsOk(w) && pc.InitPut? && PcOk(w.core, pc)
    ensures PutKeeps(w, pc)
  {
    if Executed(w, pc) == OK {
      BootKeeps(w.core, pc.cfg);
    } else {
      StableSelf(w.core);
    }
  }

  /** NewConfig at version v - 1 is written only while CurConfig stands at v: a new round begins. */
  lemma NewPutWins(w: World, pc: Pc)
    requires CoreOk(w.core) && CellsOk(w) && pc.NewPut? && PcOk(w.core, pc) && Executed(w, pc) == OK
    ensures pc.ver + 1 == w.core.cur && |w.core.chain| == w.core.cur + 1
    ensures CellsOk(Execute(w, pc))
    ensures PcOk(Propose(w.core, pc.cfg), Resend(pc)) && PcOk(Propose(w.core, pc.cfg), AfterPut(pc, OK))
  {
  }

  lemma NewPutLoses(w: World, pc: Pc)
    requires CoreOk(w.core) && CellsOk(w) && pc.NewPut? && PcOk(w.core, pc) && Executed(w, pc) != OK
    ensures PcOk(w.core, Resend(pc)) && PcOk(w.core, AfterPut(pc, Executed(w, pc)))
  {
  }

  lemma NewPutKeeps(w: World, pc: Pc)
    requires CoreOk(w.core) && CellsOk(w) && pc.NewPut? && PcOk(w.core, pc)
    ensures PutKeeps(w, pc)
  {
    if Executed(w, pc) == OK {
      NewPutWins(w, pc);
      ProposeKeeps(w.core, pc.cfg);
    } else {
      NewPutLoses(w, pc);
      StableSelf(w.core);
    }
  }

  lemma CurPutKeeps(w: World, pc: Pc)
    requires CoreOk(w.core) && CellsOk(w) && pc.CurPut? && PcOk(w.core, pc)
    ensures PutKeeps(w, pc)
  {
    var k := w.core;
    if Executed(w, pc) == OK {
      assert pc.v == k.cur;
      forall s: nat | s < NSHARDS
        ensures Done(k, k.cur, s)
      {
      }
      CommitKeeps(k);
      var w' := Execute(w, pc);
      assert k.chain[1..k.cur + 2] == k.chain[1..k.cur + 1] + [k.chain[k.cur + 1]];
    } else {
      StableSelf(k);
    }
  }

  lemma AskedKeeps(w: World, i: nat, fate: Fate)
    requires Ok(w) && Enabled(w, Rpc(i, fate))
    ensures Ok(Next(w, Rpc(i, fate)))
  {
    var pc := w.ctl[i];
    assert PcOk(w.core, pc);
    if Puts(pc) {
      match pc {
        case InitPut(_, _) => InitPutKeeps(w, pc);
        case NewPut(_, _, _, _) => NewPutKeeps(w, pc);
        case CurPut(_, _, _) => CurPutKeeps(w, pc);
      }
      PutStep(w, i, fate);
    } else if fate == Answered {
      GetKeeps(w, pc);
      GoKeeps(w, i, AfterGet(w, pc));
    }
  }

  lemma ExecuteShape(w: World, pc: Pc)
    requires Puts(pc)
    ensures var w' := Execute(w, pc);
            && w'.ctl == w.ctl && w'.sent == w.sent && w'.responses == w.responses && w'.halted == w.halted
            && w'.core.spec == w.core.spec
  {
  }

  lemma PutStep(w: World, i: nat, fate: Fate)
    requires Ok(w) && i in w.ctl && Puts(w.ctl[i]) && PutKeeps(w, w.ctl[i])
    ensures Ok(Asked(w, i, fate))
  {
    if fate == RequestLost {
      assert PcOk(w.core, w.ctl[i]);
      GoKeeps(w, i, Resend(w.ctl[i]));
    } else {
      var pc := w.ctl[i];
      ExecuteShape(w, pc);
      Carried(w, Execute(w, pc));
      GoKeeps(Execute(w, pc), i, if fate == ReplyLost then Resend(pc) else AfterPut(pc, Executed(w, pc)));
    }
  }

  lemma GetKeeps(w: World, pc: Pc)
    requires CoreOk(w.core) && CellsOk(w) && Asks(pc) && !Puts(pc) && PcOk(w.core, pc)
    ensures PcOk(w.core, AfterGet(w, pc))
  {
  }

  lemma StepKeeps(w: World, e: Step)
    requires Ok(w) && Enabled(w, e)
    ensures Ok(Next(w, e))
  {
    match e
    case Operate(gid, req) => OperateKeeps(w, gid, req);
    case Deliver(m) => DeliverKeeps(w, m);
    case InitConfig(i, cfg) => GoKeeps(w, i, InitPut(cfg, true));
    case ChangeConfigTo(i, cfg) => GoKeeps(w, i, ChangeGet(cfg));
    case InitController(i) => GoKeeps(w, i, RecoverCur);
    case Crash(i) => GoKeeps(w, i, Idle);
    case Rpc(i, fate) => AskedKeeps(w, i, fate);
    case Walk(i) => WalkKeeps(w, i);
    case Send(i) => SendKeeps(w, i);
    case Receive(i, r) => ReceiveKeeps(w, i, r);
  }

  lemma StartOk(w: World)
    requires Start(w)
    ensures Ok(w)
  {
    var k := w.core;
    forall s: nat | s < NSHARDS
      ensures PhaseOk(k, s)
    {
      forall x | x in k.groups && x != GID1
        ensures Clean(k, x, s)
      {
      }
      assert Settled(k, s);
    }
  }

  lemma {:induction false} RunOk(tr: seq<World>, n: nat)
    requires Run(tr) && n < |tr|
    ensures Ok(tr[n])
  {
    if n == 0 {
      StartOk(tr[0]);
    } else {
      RunOk(tr, n - 1);
      assert Steps(tr[n - 1], tr[n]);
      var e :| Enabled(tr[n - 1], e) && tr[n] == Next(tr[n - 1], e);
      StepKeeps(tr[n - 1], e);
    }
  }

  // ---------------------------------------------------------------- theorems

  /** At most one group serves a shard, and what it serves is the believed table. */
  lemma OneGroupServes(tr: seq<World>, n: nat, s: nat, x: nat, y: nat)
    requires Run(tr) && n < |tr| && s < NSHARDS
    requires x in tr[n].core.groups && y in tr[n].core.groups
    requires St(tr[n].core.groups[x], s) == ValidShard && St(tr[n].core.groups[y], s) == ValidShard
    ensures x == y
    ensures Pack(tr[n].core.hash, tr[n].core.groups[x].table, s) == Pack(tr[n].core.hash, tr[n].core.spec, s)
  {
    RunOk(tr, n);
    assert PhaseOk(tr[n].core, s);
    ServerHasIt(tr[n].core, x, s);
    ServerHasIt(tr[n].core, y, s);
  }

  /** Nothing is lost: at every moment some group holds, valid or frozen, all of the shard's contents. */
  lemma NothingLost(tr: seq<World>, n: nat, s: nat)
    requires Run(tr) && n < |tr| && s < NSHARDS
    ensures exists x :: x in tr[n].core.groups && St(tr[n].core.groups[x], s) != NoShard
                     && Pack(tr[n].core.hash, tr[n].core.groups[x].table, s) == Pack(tr[n].core.hash, tr[n].core.spec, s)
  {
    RunOk(tr, n);
    var k := tr[n].core;
    assert PhaseOk(k, s);
    var x := if Settled(k, s) || Frozen(k, s) then k.chain[k.cur].shards[s] else To(k, k.cur, s);
    assert x in k.groups && St(k.groups[x], s) != NoShard && Has(k, x, s) == Wanted(k, s);
  }

  /** No group ever stops in one of its Fatalf branches, no controller on an unknown reply of a config Put. */
  lemma NobodyHalts(tr: seq<World>, n: nat)
    requires Run(tr) && n < |tr|
    ensures !tr[n].halted
    ensures forall i :: i in tr[n].ctl ==> tr[n].ctl[i] != Fatal(UnknownReply)
  {
    RunOk(tr, n);
    forall i | i in tr[n].ctl
      ensures tr[n].ctl[i] != Fatal(UnknownReply)
    {
      assert PcOk(tr[n].core, tr[n].ctl[i]);
    }
  }

  /** The reply a client gets from group gid. */
  ghost function ReplyOf(w: World, gid: nat, req: Request): Reply
    requires gid in w.core.groups
  {
    DoClient(w.core.hash, w.core.groups[gid], req).1
  }

  /** Clients talk to one table: a group that answers answers as the believed table does. */
  lemma OneTable(tr: seq<World>, n: nat, gid: nat, req: Request)
    requires Run(tr) && n < |tr| && gid in tr[n].core.groups && ReplyOf(tr[n], gid, req).err != ErrWrongGroup
    ensures ReplyOf(tr[n], gid, req) == DoOp(tr[n].core.spec, req).1
    ensures Next(tr[n], Operate(gid, req)).core.spec == DoOp(tr[n].core.spec, req).0
  {
    RunOk(tr, n);
    ClientKeeps(tr[n].core, gid, req);
  }

  /** A successful Put by some client. */
  ghost predicate SomePut(w: World, w': World) {
    exists gid: nat, req: Request :: gid in w.core.groups && req.PutArgs? && ReplyOf(w, gid, req) == PutReply(OK)
                    && w' == Next(w, Operate(gid, req)) && w'.core.spec == DoOp(w.core.spec, req).0
  }

  lemma OthersKeepTable(w: World, e: Step)
    requires Enabled(w, e) && !e.Operate?
    ensures Next(w, e).core.spec == w.core.spec
  {
    if e.Rpc? && Puts(At(w, e.i)) { ExecuteShape(w, At(w, e.i)); }
  }

  lemma OperateOrKeep(w: World, gid: nat, req: Request)
    requires CoreOk(w.core) && Enabled(w, Operate(gid, req))
    ensures var w' := Next(w, Operate(gid, req)); w'.core.spec == w.core.spec || SomePut(w, w')
  {
    var w' := Next(w, Operate(gid, req));
    ClientKeeps(w.core, gid, req);
    if w'.core.spec != w.core.spec { assert ReplyOf(w, gid, req) == PutReply(OK); }
  }

  /** And nothing but a client's successful Put ever changes it, least of all a move. */
  lemma OnlyPutsChangeIt(tr: seq<World>, n: nat)
    requires Run(tr) && n + 1 < |tr|
    ensures tr[n + 1].core.spec == tr[n].core.spec || SomePut(tr[n], tr[n + 1])
  {
    RunOk(tr, n);
    assert Steps(tr[n], tr[n + 1]);
    var e :| Enabled(tr[n], e) && tr[n + 1] == Next(tr[n], e);
    if e.Operate? { OperateOrKeep(tr[n], e.gid, e.req); } else { OthersKeepTable(tr[n], e); }
  }

  /**
   The two keys in step: CurConfig is one version ahead of NewConfig or level with it, what
   CurConfig takes at version v + 1 is what NewConfig took at version v, and config numbers rise.
   */
  lemma ConfigChain(tr: seq<World>, n: nat)
    requires Run(tr) && n < |tr|
    ensures var cur, new_ := tr[n].curLog, tr[n].newLog;
            && tr[n].curCell.version == |cur| && tr[n].newCell.version == |new_|
            && (cur == [] ==> new_ == []) && (cur != [] ==> |cur| - 1 <= |new_| <= |cur|)
            && (forall v: nat :: 1 <= v < |cur| ==> cur[v] == new_[v - 1])
            && (forall v: nat, u: nat :: v < u < |cur| ==> cur[v].num < cur[u].num)
            && (|new_| == |cur| > 0 ==> new_[|new_| - 1].num > cur[|cur| - 1].num)
  {
    RunOk(tr, n);
  }

  /** Every controller moving shards moves them from CurConfig at its version to NewConfig at the same version. */
  lemma MoversHavePairs(tr: seq<World>, n: nat, i: nat)
    requires Run(tr) && n < |tr| && i in tr[n].ctl && tr[n].ctl[i].Moving?
    ensures var pc := tr[n].ctl[i];
            && 1 <= pc.v <= |tr[n].curLog| && pc.v <= |tr[n].newLog|
            && pc.was == tr[n].curLog[pc.v - 1] && pc.cfg == tr[n].newLog[pc.v - 1]
  {
    RunOk(tr, n);
    assert PcOk(tr[n].core, tr[n].ctl[i]);
  }

  /** putOnce: reading back after ErrMaybe never yields true, so true means the Put itself took effect. */
  lemma PutOnceTrueMeansApplied(tr: seq<World>, n: nat, i: nat)
    requires Run(tr) && n < |tr| && i in tr[n].ctl && tr[n].ctl[i].NewBack?
    ensures AfterGet(tr[n], tr[n].ctl[i]) == Idle
  {
    RunOk(tr, n);
    assert PcOk(tr[n].core, tr[n].ctl[i]);
  }

  /** doRecovery stops in Fatalf exactly when NewConfig has moved past the CurConfig version it read first. */
  lemma RecoveryIsTornExactly(tr: seq<World>, n: nat, i: nat)
    requires Run(tr) && n < |tr| && i in tr[n].ctl && tr[n].ctl[i].RecoverNew?
    ensures AfterGet(tr[n], tr[n].ctl[i]) == Fatal(TornRecovery) <==> tr[n].newCell.version > tr[n].ctl[i].v
  {
    RunOk(tr, n);
    assert PcOk(tr[n].core, tr[n].ctl[i]);
  }

  /**
   The answered read of NewConfig, in full: level with the CurConfig version read first, the
   controller moves from that config to the one it read; below it, there is nothing to recover; above
   it, it stops. Nothing else changes.
   */
  lemma RecoveryDoesExactly(tr: seq<World>, n: nat, i: nat)
    requires Run(tr) && n < |tr| && i in tr[n].ctl && tr[n].ctl[i].RecoverNew?
    ensures var (w, pc) := (tr[n], tr[n].ctl[i]);
            var w' := Next(w, Rpc(i, KvServer.Answered));
            && i in w'.ctl && w' == w.(ctl := w.ctl[i := w'.ctl[i]])
            && (w'.ctl[i] == Moving(pc.v, pc.was, w.newCell.cfg, 0, ToFreeze) <==> w.newCell.version == pc.v)
            && (w'.ctl[i] == Idle <==> w.newCell.version < pc.v)
            && (w'.ctl[i] == Fatal(TornRecovery) <==> w.newCell.version > pc.v)
            && 1 <= pc.v <= |w.curLog| && pc.was == w.curLog[pc.v - 1]
  {
    RunOk(tr, n);
    assert PcOk(tr[n].core, tr[n].ctl[i]);
  }

  /** When CurConfig is written, every shard the new config places is served by the group it names. */
  lemma ConfigsAreInForce(tr: seq<World>, n: nat, s: nat)
    requires Run(tr) && n < |tr| && s < NSHARDS && tr[n].curCell.version > 0
    requires tr[n].newCell.version < tr[n].curCell.version
    ensures var (k, x) := (tr[n].core, tr[n].curCell.cfg.shards[s]);
            x in k.groups && forall y :: y in k.groups ==> (St(k.groups[y], s) == ValidShard <==> y == x)
  {
    RunOk(tr, n);
    var k := tr[n].core;
    NoRoundAllSettled(k, s);
    forall y | y in k.groups && y != k.chain[k.cur].shards[s]
      ensures St(k.groups[y], s) != ValidShard
    {
      assert Clean(k, y, s);
    }
  }

  ghost predicate Placed(k: Core, c: Config) {
    forall z: nat :: z < NSHARDS ==> c.shards[z] in k.groups
  }

  /** What the groups that c names hold of the first s shards, in one table. */
  ghost function Together(k: Core, c: Config, s: nat): Table
    requires Placed(k, c) && s <= NSHARDS
  {
    if s == 0 then map[] else Together(k, c, s - 1) + Pack(k.hash, k.groups[c.shards[s - 1]].table, s - 1)
  }

  lemma {:induction false} TogetherHolds(k: Core, c: Config, s: nat, z: nat)
    requires Placed(k, c) && s <= NSHARDS && z < NSHARDS
    ensures Pack(k.hash, Together(k, c, s), z) == if z < s then Pack(k.hash, k.groups[c.shards[z]].table, z) else map[]
  {
    if s > 0 {
      TogetherHolds(k, c, s - 1, z);
      TogetherHolds(k, c, s - 1, s - 1);
      MoveRoundTrip(k.hash, k.groups[c.shards[s - 1]].table, Together(k, c, s - 1), s - 1, z);
    }
  }

  lemma TogetherIsSpec(k: Core, c: Config, n: nat)
    requires Placed(k, c) && n == NSHARDS
    requires forall s: nat :: s < NSHARDS ==> Pack(k.hash, k.groups[c.shards[s]].table, s) == Wanted(k, s)
    ensures Together(k, c, n) == k.spec
  {
    forall z | 0 <= z < NSHARDS
      ensures Pack(k.hash, Together(k, c, n), z) == Pack(k.hash, k.spec, z)
    {
      TogetherHolds(k, c, n, z);
    }
    PacksDetermine(k.hash, Together(k, c, n), k.spec);
  }

  /** With no change under way, the groups CurConfig names hold the believed table between them: no key more, none less. */
  lemma GroupsHoldTheTable(tr: seq<World>, n: nat)
    requires Run(tr) && n < |tr| && tr[n].curCell.version > 0 && tr[n].newCell.version < tr[n].curCell.version
    ensures Placed(tr[n].core, tr[n].curCell.cfg)
    ensures Together(tr[n].core, tr[n].curCell.cfg, NSHARDS) == tr[n].core.spec
  {
    RunOk(tr, n);
    var k := tr[n].core;
    forall s: nat | s < NSHARDS
      ensures k.chain[k.cur].shards[s] in k.groups
      ensures Has(k, k.chain[k.cur].shards[s], s) == Wanted(k, s)
    {
      NoRoundAllSettled(k, s);
    }
    TogetherIsSpec(k, tr[n].curCell.cfg, NSHARDS);
  }
}
