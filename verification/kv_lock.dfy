/**
 The lock of kvsrv1/lock: any number of clients with distinct nonempty ids, each inside Acquire,
 holding, inside Release, or outside, over a network that loses requests and replies. Every other
 key of the server changes freely.
 */
module KvLock {
  import opened Kv
  import opened KvServer

  datatype Pc =
    | Outside
    | AcqGet
    | AcqPut(version: nat, first: bool)
    | Held
    | RelGet
    | RelPut(version: nat, first: bool)
    | Fatal

  // ---------------------------------------------------------------- what a client does with an answer

  function AfterAcqGet(id: string, r: Reply): Pc {
    if r.GetReply? && r.err == ErrNoKey then AcqPut(0, true)
    else if r.GetReply? && r.err == OK then
      if r.value == "" then AcqPut(r.version, true)
      else if r.value == id then Held
      else AcqGet
    else Fatal
  }

  function AfterAcqPut(r: Reply): Pc {
    if r == PutReply(OK) then Held
    else if r == PutReply(ErrVersion) || r == PutReply(ErrMaybe) then AcqGet
    else Fatal
  }

  function AfterRelGet(id: string, r: Reply): Pc {
    if r.GetReply? && r.err == OK then
      if r.value != id then Outside else RelPut(r.version, true)
    else if r.GetReply? && r.err == ErrNoKey then Outside
    else Fatal
  }

  function AfterRelPut(r: Reply): Pc {
    if r == PutReply(OK) then Outside
    else if r == PutReply(ErrMaybe) then RelGet
    else Fatal
  }

  // ---------------------------------------------------------------- all clients at once

  datatype World = World(table: Table, clients: map<string, Pc>)

  datatype Move =
    | CallAcquire(id: string)
    | CallRelease(id: string)
    | Rpc(id: string, fate: Fate)
    | Elsewhere(req: Request)

  /** The request a client is sending. */
  function Wants(name: string, id: string, pc: Pc): Request
    requires !pc.Outside? && !pc.Held? && !pc.Fatal?
  {
    match pc
    case AcqGet => GetArgs(name)
    case RelGet => GetArgs(name)
    case AcqPut(version, _) => PutArgs(name, id, version)
    case RelPut(version, _) => PutArgs(name, "", version)
  }

  function After(id: string, pc: Pc, r: Reply): Pc
    requires !pc.Outside? && !pc.Held? && !pc.Fatal?
  {
    match pc
    case AcqGet => AfterAcqGet(id, r)
    case RelGet => AfterRelGet(id, r)
    case AcqPut(_, first) => AfterAcqPut(ClerkResult(first, r))
    case RelPut(_, first) => AfterRelPut(ClerkResult(first, r))
  }

  /** After an attempt without an answer. */
  function Again(pc: Pc): Pc {
    match pc
    case AcqPut(v, _) => AcqPut(v, false)
    case RelPut(v, _) => RelPut(v, false)
    case _ => pc
  }

  predicate Can(name: string, w: World, m: Move) {
    match m
    case CallAcquire(id) => id in w.clients && (w.clients[id].Outside? || w.clients[id].Held?)
    case CallRelease(id) => id in w.clients && (w.clients[id].Outside? || w.clients[id].Held?)
    case Rpc(id, _) => id in w.clients && !w.clients[id].Outside? && !w.clients[id].Held? && !w.clients[id].Fatal?
    case Elsewhere(req) => req.key != name
  }

  function Turn(w: World, id: string, pc: Pc): World {
    w.(clients := w.clients[id := pc])
  }

  function Do(name: string, w: World, m: Move): World
    requires Can(name, w, m)
  {
    match m
    case CallAcquire(id) => Turn(w, id, AcqGet)
    case CallRelease(id) => Turn(w, id, RelGet)
    case Rpc(id, fate) =>
      var pc := w.clients[id];
      var (t, r) := DoOp(w.table, Wants(name, id, pc));
      (match fate
       case RequestLost => Turn(w, id, Again(pc))
       case ReplyLost => Turn(w.(table := t), id, Again(pc))
       case Answered => Turn(w.(table := t), id, After(id, pc, r)))
    case Elsewhere(req) => w.(table := DoOp(w.table, req).0)
  }

  ghost predicate Moves(name: string, w: World, w': World) {
    exists m :: Can(name, w, m) && w' == Do(name, w, m)
  }

  ghost predicate Run(name: string, tr: seq<World>) {
    && tr != []
    && "" !in tr[0].clients && Owner(name, tr[0].table) == ""
    && (name in tr[0].table ==> tr[0].table[name].version > 0)
    && (forall id :: id in tr[0].clients ==> tr[0].clients[id] == Outside)
    && forall i :: 0 <= i < |tr| - 1 ==> Moves(name, tr[i], tr[i + 1])
  }

  // ---------------------------------------------------------------- invariant

  function Owner(name: string, t: Table): string { if name in t then t[name].value else "" }
  function Version(name: string, t: Table): nat { if name in t then t[name].version else 0 }

  ghost predicate ClientOk(name: string, t: Table, id: string, pc: Pc) {
    match pc
    case Outside => Owner(name, t) != id
    case Held => Owner(name, t) == id
    case AcqPut(v, _) => v <= Version(name, t) && (v == Version(name, t) ==> Owner(name, t) == "")
    case RelPut(v, first) =>
      && 0 < v <= Version(name, t)
      && (v == Version(name, t) ==> Owner(name, t) == id)
      && (first ==> v == Version(name, t))
    case Fatal => false
    case _ => true
  }

  ghost predicate Ok(name: string, w: World) {
    && "" !in w.clients
    && (name in w.table ==> w.table[name].version > 0)
    && (Owner(name, w.table) != "" ==> Owner(name, w.table) in w.clients)
    && forall id :: id in w.clients ==> ClientOk(name, w.table, id, w.clients[id])
  }

  lemma OwnTurn(name: string, w: World, id: string, fate: Fate)
    requires Ok(name, w) && Can(name, w, Rpc(id, fate))
    ensures var w' := Do(name, w, Rpc(id, fate));
            && ClientOk(name, w'.table, id, w'.clients[id])
            && (name in w'.table ==> w'.table[name].version > 0)
            && Owner(name, w'.table) in {Owner(name, w.table), id, ""}
  {
    assert ClientOk(name, w.table, id, w.clients[id]);
  }

  /** Nobody but x can touch the lock entry while x holds it or is releasing it. */
  lemma OtherTurn(name: string, w: World, id: string, fate: Fate, x: string)
    requires Ok(name, w) && Can(name, w, Rpc(id, fate)) && x in w.clients && x != id
    ensures ClientOk(name, Do(name, w, Rpc(id, fate)).table, x, w.clients[x])
  {
    assert ClientOk(name, w.table, id, w.clients[id]) && ClientOk(name, w.table, x, w.clients[x]);
  }

  lemma MoveKeeps(name: string, w: World, m: Move)
    requires Ok(name, w) && Can(name, w, m)
    ensures Ok(name, Do(name, w, m))
  {
    var w' := Do(name, w, m);
    if m.Rpc? {
      OwnTurn(name, w, m.id, m.fate);
      forall x | x in w'.clients
        ensures ClientOk(name, w'.table, x, w'.clients[x])
      {
        if x != m.id { OtherTurn(name, w, m.id, m.fate, x); }
      }
    }
  }

  lemma {:induction false} RunOk(name: string, tr: seq<World>, n: nat)
    requires Run(name, tr) && n < |tr|
    ensures Ok(name, tr[n])
  {
    if n > 0 {
      RunOk(name, tr, n - 1);
      assert Moves(name, tr[n - 1], tr[n]);
      var m :| Can(name, tr[n - 1], m) && tr[n] == Do(name, tr[n - 1], m);
      MoveKeeps(name, tr[n - 1], m);
    }
  }

  // ---------------------------------------------------------------- theorems

  /** Two clients never hold the lock at once. */
  lemma MutualExclusion(name: string, tr: seq<World>, n: nat, a: string, b: string)
    requires Run(name, tr) && n < |tr| && a in tr[n].clients && b in tr[n].clients
    requires tr[n].clients[a].Held? && tr[n].clients[b].Held?
    ensures a == b
  {
    RunOk(name, tr, n);
    assert ClientOk(name, tr[n].table, a, Held) && ClientOk(name, tr[n].table, b, Held);
  }

  /** No client ever reaches a Fatalf; a client outside is not the stored owner. */
  lemma NeverFatal(name: string, tr: seq<World>, n: nat, id: string)
    requires Run(name, tr) && n < |tr| && id in tr[n].clients
    ensures !tr[n].clients[id].Fatal?
    ensures tr[n].clients[id].Outside? ==> Owner(name, tr[n].table) != id
    ensures tr[n].clients[id].Held? ==> Owner(name, tr[n].table) == id
  {
    RunOk(name, tr, n);
    assert ClientOk(name, tr[n].table, id, tr[n].clients[id]);
  }

  /** While a client holds the lock or has only begun to release it, no other client's step changes the entry. */
  lemma OnlyTheHolder(name: string, tr: seq<World>, n: nat, id: string)
    requires Run(name, tr) && n + 1 < |tr| && id in tr[n].clients
    requires tr[n].clients[id].Held? || (tr[n].clients[id].RelPut? && tr[n].clients[id].first)
    ensures id in tr[n + 1].clients
    ensures tr[n + 1].clients[id] == tr[n].clients[id] ==>
              && name in tr[n].table && name in tr[n + 1].table
              && tr[n + 1].table[name] == tr[n].table[name]
  {
    var w, w' := tr[n], tr[n + 1];
    RunOk(name, tr, n);
    assert Moves(name, w, w');
    var m :| Can(name, w, m) && w' == Do(name, w, m);
    assert ClientOk(name, w.table, id, w.clients[id]);
    if m.Rpc? { assert ClientOk(name, w.table, m.id, w.clients[m.id]); }
  }

  /** So the lock entry is the same at both ends of any stretch during which one client holds it. */
  lemma {:induction false} HeldThroughout(name: string, tr: seq<World>, m: nat, n: nat, id: string)
    requires Run(name, tr) && m <= n < |tr|
    requires forall i :: m <= i <= n ==> id in tr[i].clients && tr[i].clients[id].Held?
    ensures name in tr[m].table && name in tr[n].table && tr[n].table[name] == tr[m].table[name]
    decreases n - m
  {
    RunOk(name, tr, m);
    assert ClientOk(name, tr[m].table, id, Held);
    if m < n {
      HeldThroughout(name, tr, m, n - 1, id);
      OnlyTheHolder(name, tr, n - 1, id);
    }
  }

  // ---------------------------------------------------------------- the program's own loops

  /** One turn of the retry loop: the attempts of its Get and of its Put. */
  datatype Round = Round(get: seq<Attempt>, put: seq<Attempt>)

  lemma {:induction false} GetIsCurrent(t: Table, key: string, first: bool, net: seq<Attempt>)
    ensures var o := Calls(t, GetArgs(key), first, net);
            o.result.Some? ==> o.result.value == DoGet(o.table, key)
    decreases |net|
  {
    if net != [] { GetIsCurrent(DoAll(t, net[0].before), key, false, net[1..]); }
  }

  lemma {:induction false} KeysStay(t: Table, key: string, rs: seq<Request>)
    requires key in t
    ensures key in DoAll(t, rs)
    decreases |rs|
  {
    if rs != [] { KeysStay(DoOp(t, rs[0]).0, key, rs[1..]); }
  }

  /** A Put on a key that exists, or at version 0, is never answered ErrNoKey; OK leaves its value in place. */
  lemma {:induction false} PutFindsKey(t: Table, req: Request, first: bool, net: seq<Attempt>)
    requires req.PutArgs? && (req.key in t || req.version == 0)
    ensures var o := Calls(t, req, first, net);
            && (o.result.None? || o.result.value in {PutReply(OK), PutReply(ErrVersion), PutReply(ErrMaybe)})
            && (o.result == Some(PutReply(OK)) ==> req.key in o.table && o.table[req.key].value == req.value)
    decreases |net|
  {
    if net != [] {
      if req.key in t { KeysStay(t, req.key, net[0].before); }
      var t := DoAll(t, net[0].before);
      PutFindsKey(t, req, false, net[1..]);
      PutFindsKey(DoOp(t, req).0, req, false, net[1..]);
    }
  }

  /** Somebody else's Put on the key was executed before one of the attempts. */
  predicate Disturbed(key: string, net: seq<Attempt>) {
    exists i, j :: 0 <= i < |net| && 0 <= j < |net[i].before| && net[i].before[j].PutArgs? && net[i].before[j].key == key
  }

  lemma {:induction false} QuietEntry(t: Table, key: string, rs: seq<Request>)
    requires forall j :: 0 <= j < |rs| ==> !(rs[j].PutArgs? && rs[j].key == key)
    ensures key in t <==> key in DoAll(t, rs)
    ensures key in t ==> DoAll(t, rs)[key] == t[key]
    decreases |rs|
  {
    if rs != [] { QuietEntry(DoOp(t, rs[0]).0, key, rs[1..]); }
  }

  /** An undisturbed Put at the current version is not answered ErrVersion at once. */
  lemma QuietPut(t: Table, req: Request, net: seq<Attempt>)
    requires TakesEffect(t, req) && !Disturbed(req.key, net)
    ensures Calls(t, req, true, net).result != Some(PutReply(ErrVersion))
  {
    if net != [] {
      QuietEntry(t, req.key, net[0].before);
      PutResultMeans(t, req, true, net);
    }
  }

  /** Acquire as recursion over its rounds: the table it leaves and where the client then is. */
  function AcquireOf(t: Table, name: string, id: string, rounds: seq<Round>): (Table, Pc)
    decreases |rounds|
  {
    if rounds == [] then (t, AcqGet)
    else
      var g := Calls(t, GetArgs(name), true, rounds[0].get);
      if g.result.None? then (g.table, AcqGet)
      else
        var pc := AfterAcqGet(id, g.result.value);
        if pc.AcqPut? then
          var p := Calls(g.table, PutArgs(name, id, pc.version), true, rounds[0].put);
          if p.result.None? then (p.table, pc)
          else if AfterAcqPut(p.result.value).AcqGet? then AcquireOf(p.table, name, id, rounds[1..])
          else (p.table, AfterAcqPut(p.result.value))
        else if pc.AcqGet? then AcquireOf(g.table, name, id, rounds[1..])
        else (g.table, pc)
  }

  function ReleaseOf(t: Table, name: string, id: string, rounds: seq<Round>): (Table, Pc)
    decreases |rounds|
  {
    if rounds == [] then (t, RelGet)
    else
      var g := Calls(t, GetArgs(name), true, rounds[0].get);
      if g.result.None? then (g.table, RelGet)
      else
        var pc := AfterRelGet(id, g.result.value);
        if pc.RelPut? then
          var p := Calls(g.table, PutArgs(name, "", pc.version), true, rounds[0].put);
          if p.result.None? then (p.table, pc)
          else if AfterRelPut(p.result.value).RelGet? then ReleaseOf(p.table, name, id, rounds[1..])
          else (p.table, AfterRelPut(p.result.value))
        else (g.table, pc)
  }

  /** Lock.Acquire: Held only with its own id stored, and no Fatalf, whatever the others do. */
  method Acquire(kv: Server, name: string, id: string, rounds: seq<Round>) returns (pc: Pc)
    modifies kv
    ensures (kv.table, pc) == AcquireOf(old(kv.table), name, id, rounds)
    ensures pc.Held? ==> name in kv.table && kv.table[name].value == id
    ensures !pc.Fatal?
  {
    var n := 0;
    while n < |rounds|
      invariant 0 <= n <= |rounds|
      invariant AcquireOf(old(kv.table), name, id, rounds) == AcquireOf(kv.table, name, id, rounds[n..])
    {
      assert rounds[n..][0] == rounds[n] && rounds[n..][1..] == rounds[n + 1..];
      pc := AcqGet;
      ghost var t := kv.table;
      var got := ClerkCall(kv, GetArgs(name), rounds[n].get);
      GetIsCurrent(t, name, true, rounds[n].get);
      if got.None? { return; }
      pc := AfterAcqGet(id, got.value);
      if pc.Held? { return; }
      if pc.AcqPut? {
        t := kv.table;
        var req := PutArgs(name, id, pc.version);
        var put := ClerkCall(kv, req, rounds[n].put);
        PutFindsKey(t, req, true, rounds[n].put);
        if put.None? { return; }
        pc := AfterAcqPut(put.value);
        if pc.Held? { return; }
      }
      n := n + 1;
    }
    pc := AcqGet;
  }

  /** Lock.Release: afterwards the stored value is not the caller's id; Fatalf only if another client wrote the key. */
  method Release(kv: Server, name: string, id: string, rounds: seq<Round>) returns (pc: Pc)
    requires id != ""
    modifies kv
    ensures (kv.table, pc) == ReleaseOf(old(kv.table), name, id, rounds)
    ensures pc.Outside? ==> Owner(name, kv.table) != id
    ensures pc.Fatal? ==> exists n :: 0 <= n < |rounds| && Disturbed(name, rounds[n].put)
  {
    var n := 0;
    while n < |rounds|
      invariant 0 <= n <= |rounds|
      invariant ReleaseOf(old(kv.table), name, id, rounds) == ReleaseOf(kv.table, name, id, rounds[n..])
    {
      assert rounds[n..][0] == rounds[n] && rounds[n..][1..] == rounds[n + 1..];
      pc := RelGet;
      ghost var t := kv.table;
      var got := ClerkCall(kv, GetArgs(name), rounds[n].get);
      GetIsCurrent(t, name, true, rounds[n].get);
      if got.None? { return; }
      pc := AfterRelGet(id, got.value);
      if pc.Outside? { return; }
      t := kv.table;
      var req := PutArgs(name, "", pc.version);
      var put := ClerkCall(kv, req, rounds[n].put);
      PutFindsKey(t, req, true, rounds[n].put);
      if put.None? { return; }
      pc := AfterRelPut(put.value);
      if pc.Fatal? && !Disturbed(name, rounds[n].put) { QuietPut(t, req, rounds[n].put); }
      if !pc.RelGet? { return; }
      n := n + 1;
    }
    pc := RelGet;
  }

  /** A round in which both requests are answered at once and nobody interferes. */
  function Clear(): Round { Round([Attempt([], Answered)], [Attempt([], Answered)]) }

  lemma ClearCall(t: Table, req: Request, net: seq<Attempt>)
    requires net == [Attempt([], Answered)]
    ensures Calls(t, req, true, net).table == DoOp(t, req).0 && Calls(t, req, true, net).result == Some(DoOp(t, req).1)
  {
  }

  /** In a clear round Acquire takes a free lock, finds its own, and waits for somebody else's. */
  lemma AcquireRule(t: Table, name: string, id: string, rounds: seq<Round>)
    requires rounds != [] && rounds[0] == Clear() && id != ""
    ensures Owner(name, t) == "" ==>
              AcquireOf(t, name, id, rounds) == (t[name := VersionedValue(id, Version(name, t) + 1)], Held)
    ensures Owner(name, t) == id ==> AcquireOf(t, name, id, rounds) == (t, Held)
    ensures Owner(name, t) !in {"", id} ==> AcquireOf(t, name, id, rounds) == AcquireOf(t, name, id, rounds[1..])
  {
    ClearCall(t, GetArgs(name), rounds[0].get);
    ClearCall(t, PutArgs(name, id, Version(name, t)), rounds[0].put);
  }

  /** In a clear round Release frees its own lock and leaves any other alone. */
  lemma ReleaseRule(t: Table, name: string, id: string, rounds: seq<Round>)
    requires rounds != [] && rounds[0] == Clear() && id != ""
    ensures Owner(name, t) == id ==>
              ReleaseOf(t, name, id, rounds) == (t[name := VersionedValue("", Version(name, t) + 1)], Outside)
    ensures Owner(name, t) != id ==> ReleaseOf(t, name, id, rounds) == (t, Outside)
  {
    ClearCall(t, GetArgs(name), rounds[0].get);
    ClearCall(t, PutArgs(name, "", Version(name, t)), rounds[0].put);
  }

  // ---------------------------------------------------------------- what each answer leads to

  /** An answered Get goes by the stored entry: an own or a free lock, or somebody else's. */
  lemma GetRule(name: string, w: World, id: string)
    requires Can(name, w, Rpc(id, Answered)) && id != "" && (w.clients[id].AcqGet? || w.clients[id].RelGet?)
    ensures var (t, pc) := (w.table, w.clients[id]);
            var w' := Do(name, w, Rpc(id, Answered));
            && w' == w.(clients := w.clients[id := w'.clients[id]])
            && (pc.AcqGet? && name !in t ==> w'.clients[id] == AcqPut(0, true))
            && (pc.AcqGet? && name in t && t[name].value == "" ==> w'.clients[id] == AcqPut(t[name].version, true))
            && (pc.AcqGet? && name in t && t[name].value == id ==> w'.clients[id] == Held)
            && (pc.AcqGet? && name in t && t[name].value !in {"", id} ==> w'.clients[id] == AcqGet)
            && (pc.RelGet? && (name !in t || t[name].value != id) ==> w'.clients[id] == Outside)
            && (pc.RelGet? && name in t && t[name].value == id ==> w'.clients[id] == RelPut(t[name].version, true))
  {
  }

  /** The version a Put of the lock names is the stored one. */
  predicate Meets(name: string, t: Table, v: nat) { if name in t then t[name].version == v else v == 0 }

  /**
   An attempt of a Put changes the entry exactly when it arrives at the version it names, and an
   answer leads: to holding or being outside if it did; back to reading if it did not and an earlier
   attempt may have, or the client is acquiring; to Fatalf otherwise.
   */
  lemma PutRule(name: string, w: World, id: string, fate: Fate)
    requires Can(name, w, Rpc(id, fate)) && (w.clients[id].AcqPut? || w.clients[id].RelPut?)
    ensures var (t, pc) := (w.table, w.clients[id]);
            var w' := Do(name, w, Rpc(id, fate));
            var hit := Meets(name, t, pc.version);
            && w'.clients == w.clients[id := w'.clients[id]]
            && w'.table == (if hit && fate != RequestLost
                            then t[name := VersionedValue(if pc.AcqPut? then id else "", pc.version + 1)] else t)
            && (fate != Answered ==> w'.clients[id] == pc.(first := false))
            && (fate == Answered && hit ==> w'.clients[id] == if pc.AcqPut? then Held else Outside)
            && (fate == Answered && !hit && name !in t ==> w'.clients[id] == Fatal)
            && (fate == Answered && !hit && name in t && pc.AcqPut? ==> w'.clients[id] == AcqGet)
            && (fate == Answered && !hit && name in t && pc.RelPut? ==> w'.clients[id] == if pc.first then Fatal else RelGet)
  {
  }

  // ---------------------------------------------------------------- and can be reached

  lemma Extend(name: string, tr: seq<World>, m: Move) returns (tr': seq<World>)
    requires Run(name, tr) && Can(name, tr[|tr| - 1], m)
    ensures Run(name, tr') && tr <= tr' && |tr'| == |tr| + 1 && tr'[|tr|] == Do(name, tr[|tr| - 1], m)
  {
    tr' := tr + [Do(name, tr[|tr| - 1], m)];
    forall i | 0 <= i < |tr'| - 1
      ensures Moves(name, tr'[i], tr'[i + 1])
    {
      if i < |tr| - 1 { assert tr'[i] == tr[i] && tr'[i + 1] == tr[i + 1]; }
    }
  }

  /** From every state of every run in which the lock is free, a client outside can come to hold it. */
  lemma FreeLockCanBeTaken(name: string, tr: seq<World>, id: string) returns (tr': seq<World>)
    requires Run(name, tr) && id in tr[|tr| - 1].clients && tr[|tr| - 1].clients[id].Outside?
    requires Owner(name, tr[|tr| - 1].table) == ""
    ensures Run(name, tr') && tr <= tr' && id in tr'[|tr'| - 1].clients && tr'[|tr'| - 1].clients[id].Held?
  {
    RunOk(name, tr, |tr| - 1);
    var a := Extend(name, tr, CallAcquire(id));
    var b := Extend(name, a, Rpc(id, Answered));
    tr' := Extend(name, b, Rpc(id, Answered));
  }

  /** And a client that holds it can leave it free. */
  lemma HeldLockCanBeFreed(name: string, tr: seq<World>, id: string) returns (tr': seq<World>)
    requires Run(name, tr) && id in tr[|tr| - 1].clients && tr[|tr| - 1].clients[id].Held?
    ensures Run(name, tr') && tr <= tr' && id in tr'[|tr'| - 1].clients && tr'[|tr'| - 1].clients[id].Outside?
    ensures Owner(name, tr'[|tr'| - 1].table) == ""
  {
    RunOk(name, tr, |tr| - 1);
    assert ClientOk(name, tr[|tr| - 1].table, id, Held);
    var a := Extend(name, tr, CallRelease(id));
    var b := Extend(name, a, Rpc(id, Answered));
    tr' := Extend(name, b, Rpc(id, Answered));
  }

  /** A client whose Put took effect unheard holds the lock as soon as it reads it back. */
  lemma UnheardPutIsFound(name: string, tr: seq<World>, id: string) returns (tr': seq<World>)
    requires Run(name, tr) && id in tr[|tr| - 1].clients && tr[|tr| - 1].clients[id].AcqPut?
    requires Meets(name, tr[|tr| - 1].table, tr[|tr| - 1].clients[id].version)
    ensures Run(name, tr') && tr <= tr' && |tr'| == |tr| + 3
    ensures tr'[|tr|] == Do(name, tr[|tr| - 1], Rpc(id, ReplyLost))
    ensures id in tr'[|tr'| - 1].clients && tr'[|tr'| - 1].clients[id].Held?
  {
    RunOk(name, tr, |tr| - 1);
    var a := Extend(name, tr, Rpc(id, ReplyLost));
    var b := Extend(name, a, Rpc(id, Answered));
    tr' := Extend(name, b, Rpc(id, Answered));
    assert tr'[|tr|] == a[|tr|];
  }
}
