/**
 What each operation of shardgrp and of the controller does, exactly: every field of the state
 afterwards and every reply, without naming how it is computed.
 */
module ShardRules {
  import opened Kv
  import opened ShardGroup
  import opened ShardCore
  import opened KvServer
  import opened ShardRun

  // ---------------------------------------------------------------- one group

  /** Shard s apart, states and numbers are the same; shard s has seen num. */
  ghost predicate OnlyShard(g: Group, g': Group, s: nat, num: nat) {
    && (forall x: nat :: x != s ==> St(g', x) == St(g, x) && Num(g', x) == Num(g, x))
    && Num(g', s) == num
  }

  /** A client is served exactly for a valid shard, by the group's table; otherwise nothing changes. */
  lemma ClientRule(h: string -> nat, g: Group, req: Request)
    ensures var (g', r) := DoClient(h, g, req);
            && g' == g.(table := g'.table)
            && (St(g, ShardOf(h, req.key)) == ValidShard ==> (g'.table, r) == DoOp(g.table, req))
            && (St(g, ShardOf(h, req.key)) != ValidShard ==>
                  g' == g && r == if req.GetArgs? then GetReply("", 0, ErrWrongGroup) else PutReply(ErrWrongGroup))
  {
  }

  /** Freeze: a lower number is ignored; otherwise the number is seen, and a shard that is here is frozen and shown. */
  lemma FreezeRule(h: string -> nat, g: Group, s: nat, num: nat)
    ensures var (g', r) := DoFreeze(h, g, s, num);
            && (num < Num(g, s) ==> g' == g && r == FreezeReply(map[], Num(g, s), OK))
            && (num >= Num(g, s) ==>
                  && g'.table == g.table && OnlyShard(g, g', s, num)
                  && (St(g, s) == NoShard ==> St(g', s) == NoShard && r == FreezeReply(map[], num, ErrWrongGroup))
                  && (St(g, s) != NoShard ==> St(g', s) == FrozenShard && r == FreezeReply(r.state, num, OK))
                  && (St(g, s) != NoShard ==>
                        && (forall k :: k in r.state <==> k in g.table && ShardOf(h, k) == s)
                        && forall k :: k in r.state ==> r.state[k] == g.table[k]))
  {
  }

  /** Install: only a higher number acts; it stops at a frozen shard and otherwise makes the shard valid with the data on top. */
  lemma InstallRule(g: Group, s: nat, state: Table, num: nat)
    ensures var (g', fatal) := DoInstall(g, s, state, num);
            && (fatal <==> num > Num(g, s) && St(g, s) == FrozenShard)
            && (num <= Num(g, s) ==> g' == g)
            && (num > Num(g, s) ==> OnlyShard(g, g', s, num))
            && (num > Num(g, s) && !fatal ==>
                  && St(g', s) == ValidShard
                  && (forall k :: k in g'.table <==> k in g.table || k in state)
                  && forall k :: k in g'.table ==> g'.table[k] == if k in state then state[k] else g.table[k])
  {
  }

  /** Delete: a lower number is ignored; it stops at a valid shard; a frozen shard goes with all its keys. */
  lemma DeleteRule(h: string -> nat, g: Group, s: nat, num: nat)
    ensures var (g', fatal) := DoDelete(h, g, s, num);
            && (fatal <==> num >= Num(g, s) && St(g, s) == ValidShard)
            && (num < Num(g, s) ==> g' == g)
            && (num >= Num(g, s) ==> OnlyShard(g, g', s, num))
            && (num >= Num(g, s) && St(g, s) == NoShard ==> g'.table == g.table && St(g', s) == NoShard)
            && (num >= Num(g, s) && St(g, s) == FrozenShard ==>
                  && St(g', s) == NoShard
                  && (forall k :: k in g'.table <==> k in g.table && ShardOf(h, k) != s)
                  && forall k :: k in g'.table ==> g'.table[k] == g.table[k])
  {
  }

  // ---------------------------------------------------------------- the config keys

  /** A config key takes a config exactly at its version, or at 0 when it does not exist. */
  lemma CellRule(c: Cell, cfg: Config, version: nat)
    ensures var (c', e) := CasPut(c, cfg, version);
            && (e == OK <==> c.version == version)
            && (e == ErrVersion <==> c.version > 0 && c.version != version)
            && (e == ErrNoKey <==> c.version == 0 && version > 0)
            && c' == (if c.version == version then Cell(cfg, version + 1) else c)
  {
  }

  /** The key, the config and the version that a Put of a controller is about. */
  function Target(w: World, pc: Pc): Cell
    requires Puts(pc)
  {
    if pc.NewPut? then w.newCell else w.curCell
  }

  function Named(pc: Pc): nat
    requires Puts(pc)
  {
    match pc
    case InitPut(_, _) => 0
    case NewPut(_, _, ver, _) => ver
    case CurPut(v, _, _) => v
  }

  /** What a controller goes on to when its Put took effect, was refused at once, and was refused on a resend. */
  function Won(pc: Pc): Pc
    requires Puts(pc)
  {
    match pc
    case InitPut(_, _) => Idle
    case NewPut(cfg, was, ver, _) => Moving(ver + 1, was, cfg, 0, ToFreeze)
    case CurPut(_, _, _) => Idle
  }

  function Lost(pc: Pc): Pc
    requires Puts(pc)
  {
    match pc
    case InitPut(_, _) => Fatal(InitFailed)
    case NewPut(_, _, _, _) => Idle
    case CurPut(_, _, _) => Idle
  }

  function InDoubt(pc: Pc): Pc
    requires Puts(pc)
  {
    match pc
    case InitPut(cfg, _) => InitBack(cfg)
    case NewPut(cfg, was, ver, _) => NewBack(cfg, was, ver)
    case CurPut(v, cfg, _) => CurBack(v, cfg)
  }

  /** One attempt of a controller's Put: its own key changes exactly when the versions match and the request arrives. */
  lemma PutStepRule(w: World, i: nat, fate: Fate)
    requires Puts(At(w, i))
    ensures Enabled(w, Rpc(i, fate))
    ensures var pc := At(w, i);
            var w' := Next(w, Rpc(i, fate));
            var hit := fate != RequestLost && Target(w, pc).version == Named(pc);
            && w'.newCell == (if hit && pc.NewPut? then Cell(pc.cfg, Named(pc) + 1) else w.newCell)
            && w'.curCell == (if hit && !pc.NewPut? then Cell(pc.cfg, Named(pc) + 1) else w.curCell)
            && w'.core.groups == w.core.groups && w'.sent == w.sent && w'.responses == w.responses
            && (forall j :: j != i ==> At(w', j) == At(w, j))
            && (fate != Answered ==> At(w', i) == pc.(first := false))
            && (fate == Answered && Target(w, pc).version == Named(pc) ==> At(w', i) == Won(pc))
            && (fate == Answered && Target(w, pc).version != Named(pc) && Target(w, pc).version > 0 ==>
                  At(w', i) == if pc.first then Lost(pc) else InDoubt(pc))
            && (fate == Answered && Target(w, pc).version == 0 < Named(pc) ==> At(w', i) == Fatal(UnknownReply))
  {
  }

  /** One answered read of a controller. */
  lemma GetStepRule(w: World, i: nat)
    requires Asks(At(w, i)) && !Puts(At(w, i))
    ensures var pc := At(w, i);
            var w' := Next(w, Rpc(i, Answered));
            && w' == w.(ctl := w.ctl[i := At(w', i)])
            && (pc.ChangeGet? ==>
                  At(w', i) ==
                  if w.curCell.version == 0 then Fatal(NoConfig)
                  else if pc.cfg.num > w.curCell.cfg.num then NewPut(pc.cfg, w.curCell.cfg, w.curCell.version - 1, true)
                  else Idle)
            && (pc.RecoverCur? ==>
                  At(w', i) == if w.curCell.version == 0 then Fatal(NoConfig) else RecoverNew(w.curCell.cfg, w.curCell.version))
            && (pc.InitBack? ==> At(w', i) == Fatal(InitFailed))
            && (pc.NewBack? ==>
                  At(w', i) == if w.newCell == Cell(pc.cfg, pc.ver) && pc.ver > 0
                               then Moving(pc.ver + 1, pc.was, pc.cfg, 0, ToFreeze) else Idle)
            && (pc.CurBack? ==> At(w', i) == Idle)
            && (pc.RecoverNew? ==>
                  At(w', i) ==
                  if w.newCell.version == 0 then Idle
                  else if w.newCell.version == pc.v then Moving(pc.v, pc.was, w.newCell.cfg, 0, ToFreeze)
                  else if w.newCell.version + 1 != pc.v then Fatal(TornRecovery)
                  else if w.newCell.cfg.num == pc.was.num then Idle
                  else Moving(pc.v, pc.was, w.newCell.cfg, 0, ToFreeze))
  {
  }

  // ---------------------------------------------------------------- moving shards

  /** A controller passes over a shard that stays, and writes CurConfig after the last one. */
  lemma WalkRule(w: World, i: nat)
    requires Enabled(w, Walk(i))
    ensures var pc := At(w, i);
            var w' := Next(w, Walk(i));
            && w' == w.(ctl := w.ctl[i := At(w', i)])
            && (pc.s < NSHARDS ==> pc.was.shards[pc.s] == pc.cfg.shards[pc.s] && At(w', i) == pc.(s := pc.s + 1))
            && (pc.s >= NSHARDS ==> At(w', i) == CurPut(pc.v, pc.cfg, true))
  {
  }

  /** For a shard that moves: Freeze at the old owner, Install of what it showed at the new one, Delete at the old one, then the next shard. */
  lemma MoveRule(w: World, i: nat)
    requires HasWork(At(w, i))
    ensures Enabled(w, Send(i))
    ensures var pc := At(w, i);
            var (from, into, num) := (pc.was.shards[pc.s], pc.cfg.shards[pc.s], pc.cfg.num);
            var m := match pc.stage
                     case ToFreeze => FreezeMsg(from, pc.s, num, pc.v)
                     case ToInstall(data) => InstallMsg(into, pc.s, data, num, pc.v)
                     case ToDelete => DeleteMsg(from, pc.s, num, pc.v);
            && Next(w, Send(i)) == w.(sent := w.sent + {m})
            && forall r :: r in w.responses && r.msg == m ==>
                 && Enabled(w, Receive(i, r))
                 && Next(w, Receive(i, r)) == w.(ctl := w.ctl[i := match pc.stage
                      case ToFreeze => pc.(stage := ToInstall(r.data))
                      case ToInstall(_) => pc.(stage := ToDelete)
                      case ToDelete => pc.(s := pc.s + 1, stage := ToFreeze)])
  {
  }

  /** A group executes a message it names, and only then is there a response, with the frozen contents for a Freeze. */
  lemma DeliverRule(w: World, m: Message)
    requires Enabled(w, Deliver(m))
    ensures var g := w.core.groups[m.gid];
            var w' := Next(w, Deliver(m));
            && w'.core == w.core.(groups := w.core.groups[m.gid := w'.core.groups[m.gid]])
            && w'.ctl == w.ctl && w'.curCell == w.curCell && w'.newCell == w.newCell && w'.sent == w.sent
            && match m
               case FreezeMsg(_, s, num, _) =>
                 var (g', r) := DoFreeze(w.core.hash, g, s, num);
                 w'.core.groups[m.gid] == g' && w'.responses == w.responses + {Response(m, r.state)} && w'.halted == w.halted
               case InstallMsg(_, s, data, num, _) =>
                 var (g', f) := DoInstall(g, s, data, num);
                 w'.core.groups[m.gid] == g' && w'.responses == w.responses + {Response(m, map[])} && w'.halted == (w.halted || f)
               case DeleteMsg(_, s, num, _) =>
                 var (g', f) := DoDelete(w.core.hash, g, s, num);
                 w'.core.groups[m.gid] == g' && w'.responses == w.responses + {Response(m, map[])} && w'.halted == (w.halted || f)
  {
  }
}
