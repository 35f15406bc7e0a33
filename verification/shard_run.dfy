/**
 Runs of the whole sharded store: clients, groups, and any number of controllers that start,
 crash, recover and race each other. Config reads and writes go to two compare-and-swap keys over a
 network that loses requests and replies; messages to groups may be delayed, repeated and reordered
 at will.
 */
module ShardRun {
  import opened Kv
  import opened ShardGroup
  import opened ShardCore
  import opened KvServer

  /** A config key of the kvsrv; version 0 means that it does not exist. */
  datatype Cell = Cell(cfg: Config, version: nat)

  function CasPut(c: Cell, cfg: Config, version: nat): (Cell, Err) {
    if c.version > 0 then
      if c.version == version then (Cell(cfg, version + 1), OK) else (c, ErrVersion)
    else if version == 0 then (Cell(cfg, 1), OK)
    else (c, ErrNoKey)
  }

  /** `round` is no part of the message; it records which config change sent it. */
  datatype Message =
    | FreezeMsg(gid: nat, s: nat, num: nat, round: nat)
    | InstallMsg(gid: nat, s: nat, data: Table, num: nat, round: nat)
    | DeleteMsg(gid: nat, s: nat, num: nat, round: nat)

  datatype Response = Response(msg: Message, data: Table)

  datatype Stage = ToFreeze | ToInstall(data: Table) | ToDelete

  datatype Cause = InitFailed | NoConfig | TornRecovery | UnknownReply

  /** Where a controller is. */
  datatype Pc =
    | Idle
    | InitPut(cfg: Config, first: bool)
    | InitBack(cfg: Config)
    | ChangeGet(cfg: Config)
    | NewPut(cfg: Config, was: Config, ver: nat, first: bool)
    | NewBack(cfg: Config, was: Config, ver: nat)
    | Moving(v: nat, was: Config, cfg: Config, s: nat, stage: Stage)
    | CurPut(v: nat, cfg: Config, first: bool)
    | CurBack(v: nat, cfg: Config)
    | RecoverCur
    | RecoverNew(was: Config, v: nat)
    | Fatal(cause: Cause)

  datatype World = World(
    core: Core,
    curCell: Cell,
    newCell: Cell,
    curLog: seq<Config>,
    newLog: seq<Config>,
    ctl: map<nat, Pc>,
    sent: set<Message>,
    responses: set<Response>,
    halted: bool)

  datatype Step =
    | Operate(gid: nat, req: Request)
    | Deliver(m: Message)
    | InitConfig(i: nat, cfg: Config)
    | ChangeConfigTo(i: nat, cfg: Config)
    | InitController(i: nat)
    | Crash(i: nat)
    | Rpc(i: nat, fate: Fate)
    | Walk(i: nat)
    | Send(i: nat)
    | Receive(i: nat, r: Response)

  function At(w: World, i: nat): Pc { if i in w.ctl then w.ctl[i] else Idle }

  function Go(w: World, i: nat, pc: Pc): World { w.(ctl := w.ctl[i := pc]) }

  // ---------------------------------------------------------------- controllers and the config keys

  /** What the clerk returns for a Put: an ErrVersion on a resend becomes ErrMaybe. */
  function PutResult(first: bool, e: Err): Err { if e == ErrVersion && !first then ErrMaybe else e }

  predicate Asks(pc: Pc) {
    pc.InitPut? || pc.InitBack? || pc.ChangeGet? || pc.NewPut? || pc.NewBack? || pc.CurPut? || pc.CurBack?
    || pc.RecoverCur? || pc.RecoverNew?
  }

  predicate Puts(pc: Pc) { pc.InitPut? || pc.NewPut? || pc.CurPut? }

  /** The error with which the server executes the pending Put. */
  function Executed(w: World, pc: Pc): Err
    requires Puts(pc)
  {
    match pc
    case InitPut(cfg, _) => CasPut(w.curCell, cfg, 0).1
    case NewPut(cfg, _, ver, _) => CasPut(w.newCell, cfg, ver).1
    case CurPut(v, cfg, _) => CasPut(w.curCell, cfg, v).1
  }

  /** The server executes the pending Put. */
  ghost function Execute(w: World, pc: Pc): World
    requires Puts(pc)
  {
    if Executed(w, pc) != OK then w
    else
      match pc
      case InitPut(cfg, _) =>
        w.(curCell := CasPut(w.curCell, cfg, 0).0, curLog := w.curLog + [cfg],
           core := w.core.(chain := w.core.chain + [cfg], cur := 1))
      case NewPut(cfg, _, ver, _) =>
        w.(newCell := CasPut(w.newCell, cfg, ver).0, newLog := w.newLog + [cfg], core := Propose(w.core, cfg))
      case CurPut(v, cfg, _) =>
        w.(curCell := CasPut(w.curCell, cfg, v).0, curLog := w.curLog + [cfg], core := Commit(w.core))
  }

  function Resend(pc: Pc): Pc
    requires Puts(pc)
  {
    match pc
    case InitPut(cfg, _) => InitPut(cfg, false)
    case NewPut(cfg, was, ver, _) => NewPut(cfg, was, ver, false)
    case CurPut(v, cfg, _) => CurPut(v, cfg, false)
  }

  function StartMoving(v: nat, was: Config, cfg: Config): Pc { Moving(v, was, cfg, 0, ToFreeze) }

  /** putOnce and its callers, once the Put is answered. */
  function AfterPut(pc: Pc, e: Err): Pc
    requires Puts(pc)
  {
    match PutResult(pc.first, e)
    case OK =>
      (match pc
       case InitPut(_, _) => Idle
       case NewPut(cfg, was, ver, _) => StartMoving(ver + 1, was, cfg)
       case CurPut(_, _, _) => Idle)
    case ErrVersion => if pc.InitPut? then Fatal(InitFailed) else Idle
    case ErrMaybe =>
      (match pc
       case InitPut(cfg, _) => InitBack(cfg)
       case NewPut(cfg, was, ver, _) => NewBack(cfg, was, ver)
       case CurPut(v, cfg, _) => CurBack(v, cfg))
    case _ => Fatal(UnknownReply)
  }

  /** What a controller does with the config it reads. */
  function AfterGet(w: World, pc: Pc): Pc
    requires Asks(pc) && !Puts(pc)
  {
    match pc
    case InitBack(cfg) => if w.curCell == Cell(cfg, 0) && w.curCell.version > 0 then Idle else Fatal(InitFailed)
    case ChangeGet(cfg) =>
      if w.curCell.version == 0 then Fatal(NoConfig)
      else if cfg.num <= w.curCell.cfg.num then Idle
      else NewPut(cfg, w.curCell.cfg, w.curCell.version - 1, true)
    case NewBack(cfg, was, ver) =>
      if w.newCell.version > 0 && w.newCell.cfg == cfg && w.newCell.version == ver
      then StartMoving(ver + 1, was, cfg) else Idle
    case CurBack(_, _) => Idle
    case RecoverCur =>
      if w.curCell.version == 0 then Fatal(NoConfig) else RecoverNew(w.curCell.cfg, w.curCell.version)
    case RecoverNew(was, v) =>
      if w.newCell.version == 0 then Idle
      else if v - w.newCell.version == 1 && was.num == w.newCell.cfg.num then Idle
      else if v - w.newCell.version != 1 && v - w.newCell.version != 0 then Fatal(TornRecovery)
      else StartMoving(v, was, w.newCell.cfg)
  }

  ghost function Asked(w: World, i: nat, fate: Fate): World
    requires Asks(At(w, i))
  {
    var pc := At(w, i);
    if Puts(pc) then
      match fate
      case RequestLost => Go(w, i, Resend(pc))
      case ReplyLost => Go(Execute(w, pc), i, Resend(pc))
      case Answered => Go(Execute(w, pc), i, AfterPut(pc, Executed(w, pc)))
    else if fate == Answered then Go(w, i, AfterGet(w, pc))
    else w
  }

  // ---------------------------------------------------------------- moving shards

  /** The message the loop of changConfig has reached. */
  function Wants(pc: Pc): Message
    requires pc.Moving? && pc.s < NSHARDS
  {
    match pc.stage
    case ToFreeze => FreezeMsg(pc.was.shards[pc.s], pc.s, pc.cfg.num, pc.v)
    case ToInstall(data) => InstallMsg(pc.cfg.shards[pc.s], pc.s, data, pc.cfg.num, pc.v)
    case ToDelete => DeleteMsg(pc.was.shards[pc.s], pc.s, pc.cfg.num, pc.v)
  }

  predicate HasWork(pc: Pc) {
    pc.Moving? && pc.s < NSHARDS && pc.was.shards[pc.s] != pc.cfg.shards[pc.s]
  }

  function Received(pc: Pc, data: Table): Pc
    requires HasWork(pc)
  {
    match pc.stage
    case ToFreeze => pc.(stage := ToInstall(data))
    case ToInstall(_) => pc.(stage := ToDelete)
    case ToDelete => pc.(s := pc.s + 1, stage := ToFreeze)
  }

  function Walked(pc: Pc): Pc
    requires pc.Moving?
  {
    if pc.s < NSHARDS then pc.(s := pc.s + 1) else CurPut(pc.v, pc.cfg, true)
  }

  /** A group executes a message: its new state, the data it answers, whether it stops in Fatalf. */
  ghost function Handle(w: World, m: Message): (Group, Table, bool)
    requires m.gid in w.core.groups
  {
    var g := w.core.groups[m.gid];
    match m
    case FreezeMsg(_, s, num, _) =>
      var (g', r) := DoFreeze(w.core.hash, g, s, num);
      (g', r.state, false)
    case InstallMsg(_, s, data, num, _) =>
      var (g', fatal) := DoInstall(g, s, data, num);
      (g', map[], fatal)
    case DeleteMsg(_, s, num, _) =>
      var (g', fatal) := DoDelete(w.core.hash, g, s, num);
      (g', map[], fatal)
  }

  // ---------------------------------------------------------------- steps

  ghost predicate Enabled(w: World, e: Step) {
    match e
    case Operate(gid, _) => gid in w.core.groups
    case Deliver(m) => m in w.sent && m.gid in w.core.groups
    case InitConfig(i, cfg) => At(w, i) == Idle && AllOnFirst(cfg)
    case ChangeConfigTo(i, _) => At(w, i) == Idle
    case InitController(i) => At(w, i) == Idle
    case Crash(_) => true
    case Rpc(i, _) => Asks(At(w, i))
    case Walk(i) => At(w, i).Moving? && !HasWork(At(w, i))
    case Send(i) => HasWork(At(w, i))
    case Receive(i, r) => HasWork(At(w, i)) && r in w.responses && r.msg == Wants(At(w, i))
  }

  ghost function Next(w: World, e: Step): World
    requires Enabled(w, e)
  {
    match e
    case Operate(gid, req) => w.(core := Client(w.core, gid, req))
    case Deliver(m) =>
      var (g, data, fatal) := Handle(w, m);
      w.(core := Put(w.core, m.gid, g), responses := w.responses + {Response(m, data)}, halted := w.halted || fatal)
    case InitConfig(i, cfg) => Go(w, i, InitPut(cfg, true))
    case ChangeConfigTo(i, cfg) => Go(w, i, ChangeGet(cfg))
    case InitController(i) => Go(w, i, RecoverCur)
    case Crash(i) => Go(w, i, Idle)
    case Rpc(i, fate) => Asked(w, i, fate)
    case Walk(i) => Go(w, i, Walked(At(w, i)))
    case Send(i) => w.(sent := w.sent + {Wants(At(w, i))})
    case Receive(i, r) => Go(w, i, Received(At(w, i), r.data))
  }

  ghost predicate Steps(w: World, w': World) {
    exists e :: Enabled(w, e) && w' == Next(w, e)
  }

  /** Fresh groups: Gid1 serves every shard, no config key exists, no controller is at work. */
  ghost predicate Start(w: World) {
    && |w.core.chain| == 1 && w.core.chain[0].num == 0 && AllOnFirst(w.core.chain[0])
    && w.core.cur == 0 && w.core.spec == map[] && GID1 in w.core.groups
    && (forall x, s: nat :: x in w.core.groups && s < NSHARDS ==>
          && Num(w.core.groups[x], s) == 0 && w.core.groups[x].table == map[]
          && St(w.core.groups[x], s) == if x == GID1 then ValidShard else NoShard)
    && w.curCell.version == 0 && w.newCell.version == 0 && w.curLog == [] && w.newLog == []
    && w.ctl == map[] && w.sent == {} && w.responses == {} && !w.halted
  }

  ghost predicate Run(tr: seq<World>) {
    && tr != [] && Start(tr[0])
    && forall n :: 0 <= n < |tr| - 1 ==> Steps(tr[n], tr[n + 1])
  }
}
