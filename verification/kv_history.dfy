/**
 Any number of clerks calling one kvsrv1 server over a network that loses requests and replies.
 The table, the calls and their progress are the system; `lin`, `stamps`, `pos` and `applied` only
 record when each operation took its place in the order.
 */
module KvHistory {
  import opened Kv
  import opened KvServer
  import opened KvModel

  datatype Progress = Sending(first: bool) | Replied(out: Reply)

  datatype World = World(
    table: Table,
    calls: History,
    busy: map<nat, Progress>,
    clock: nat,
    lin: seq<Entry>,
    stamps: seq<nat>,
    pos: map<nat, nat>,
    applied: seq<nat>)

  datatype Move =
    | Invoke(id: nat, req: Request)
    | Try(id: nat, fate: Fate)
    | Return(id: nat)

  ghost predicate Can(w: World, m: Move) {
    match m
    case Invoke(id, _) => id !in w.calls
    case Try(id, _) => id in w.calls && id in w.busy && w.busy[id].Sending?
    case Return(id) => id in w.calls && id in w.busy && w.busy[id].Replied?
  }

  function Placed(pos: map<nat, nat>, id: nat, i: nat): map<nat, nat> { pos[id := i] }

  /** Operation id takes the next place in the order. */
  function Place(w: World, e: Entry): World {
    w.(lin := w.lin + [e], stamps := w.stamps + [w.clock], pos := Placed(w.pos, e.id, |w.lin|))
  }

  /** The server executes one attempt; `out` is what the clerk will make of the reply, if it gets it. */
  function Executed(w: World, id: nat, req: Request, out: Reply, heard: bool): World {
    var w' := w.(table := DoOp(w.table, req).0);
    if TakesEffect(w.table, req) then
      Place(w'.(applied := w.applied + [id]), Entry(id, req, if heard then out else PutReply(ErrMaybe)))
    else if heard && id !in w.pos && out != PutReply(ErrNoKey) then Place(w', Entry(id, req, out))
    else w'
  }

  function Progressed(busy: map<nat, Progress>, id: nat, p: Progress): map<nat, Progress> { busy[id := p] }

  function Tried(w: World, id: nat, fate: Fate): World
    requires id in w.calls && id in w.busy && w.busy[id].Sending?
  {
    var req := w.calls[id].req;
    var out := ClerkResult(w.busy[id].first, DoOp(w.table, req).1);
    match fate
    case RequestLost => w.(busy := Progressed(w.busy, id, Sending(false)))
    case ReplyLost => Executed(w, id, req, out, false).(busy := Progressed(w.busy, id, Sending(false)))
    case Answered => Executed(w, id, req, out, true).(busy := Progressed(w.busy, id, Replied(out)))
  }

  function Recorded(h: History, id: nat, c: Call): History { h[id := c] }

  ghost function Do(w: World, m: Move): World
    requires Can(w, m)
  {
    match m
    case Invoke(id, req) =>
      w.(calls := Recorded(w.calls, id, Call(req, w.clock, None)),
         busy := Progressed(w.busy, id, Sending(true)), clock := w.clock + 1)
    case Try(id, fate) => Tried(w, id, fate)
    case Return(id) =>
      w.(calls := Recorded(w.calls, id, w.calls[id].(done := Some(Completion(w.clock, w.busy[id].out)))),
         busy := w.busy - {id}, clock := w.clock + 1)
  }

  function Start(): World { World(map[], map[], map[], 0, [], [], map[], []) }

  ghost predicate Moves(w: World, w': World) {
    exists m :: Can(w, m) && w' == Do(w, m)
  }

  ghost predicate Run(tr: seq<World>) {
    && tr != [] && tr[0] == Start()
    && forall i :: 0 <= i < |tr| - 1 ==> Moves(tr[i], tr[i + 1])
  }

  // ---------------------------------------------------------------- invariant

  /** What the model sees of a table: an absent key reads as ("", 0). */
  function Seen(t: Table, k: string): KvState {
    if k in t then KvState(t[k].value, t[k].version) else Init()
  }

  /** A Get's version and error are the model state's too, which models1 does not ask. */
  predicate ReadsAt(l: seq<Entry>, i: nat)
    requires i < |l|
  {
    var st := StateOf(l[..i], l[i].req.key);
    l[i].req.GetArgs? ==> l[i].out == GetReply(st.value, st.version, if st.version == 0 then ErrNoKey else OK)
  }

  predicate ReadsExactly(l: seq<Entry>) {
    forall i: nat :: i < |l| ==> ReadsAt(l, i)
  }

  ghost predicate TableOk(w: World) {
    && (forall k :: k in w.table ==> w.table[k].version > 0)
    && (forall k :: Seen(w.table, k) == StateOf(w.lin, k))
    && Legal(w.lin) && ReadsExactly(w.lin)
  }

  ghost predicate PlacesOk(w: World) {
    && |w.stamps| == |w.lin|
    && (forall i: nat :: i < |w.lin| ==> w.lin[i].id in w.pos && w.pos[w.lin[i].id] == i)
    && (forall id :: id in w.pos ==> id in w.calls && w.pos[id] < |w.lin| && w.lin[w.pos[id]].id == id)
    && (forall i: nat :: i < |w.lin| ==> w.stamps[i] <= w.clock)
    && (forall i: nat, j: nat :: i < j < |w.lin| ==> w.stamps[i] <= w.stamps[j])
  }

  /** Operation id sits in the order with this result. */
  predicate At(w: World, id: nat, out: Reply) {
    id in w.pos && w.pos[id] < |w.lin| && w.lin[w.pos[id]].out == out
  }

  /** The clerk of id holds, or has returned, out. */
  ghost predicate Settled(w: World, id: nat, out: Reply) {
    && id in w.calls && (out.PutReply? <==> w.calls[id].req.PutArgs?)
    && (out != PutReply(ErrNoKey) ==> At(w, id, out))
    && (out == PutReply(OK) ==> id in w.applied)
    && (out == PutReply(ErrVersion) || out == PutReply(ErrNoKey) ==> id !in w.applied)
  }

  ghost predicate CallOk(w: World, id: nat)
    requires id in w.calls
  {
    var c := w.calls[id];
    && c.start < w.clock
    && (id in w.pos && w.pos[id] < |w.lin| && w.pos[id] < |w.stamps| ==>
          && w.lin[w.pos[id]].req == c.req && c.start < w.stamps[w.pos[id]]
          && (c.done.Some? ==> w.stamps[w.pos[id]] <= c.done.value.at))
    && (c.done.Some? ==> id !in w.busy && Settled(w, id, c.done.value.out))
    && (id in w.busy && w.busy[id].Replied? ==> Settled(w, id, w.busy[id].out))
    && (id in w.busy && w.busy[id].Sending? ==>
          && (id in w.pos ==> !w.busy[id].first && id in w.applied && At(w, id, PutReply(ErrMaybe)))
          && (id in w.applied ==> id in w.pos))
    && (id in w.applied ==> Passed(w.table, c.req))
  }

  /** How many applied operations wrote key k. */
  function Writes(w: World, s: seq<nat>, k: string): nat {
    if s == [] then 0
    else Writes(w, s[..|s| - 1], k) +
         (if s[|s| - 1] in w.calls && w.calls[s[|s| - 1]].req.key == k then 1 else 0)
  }

  ghost predicate CountsOk(w: World) {
    && (forall i :: 0 <= i < |w.applied| ==> w.applied[i] in w.calls)
    && (forall i, j :: 0 <= i < j < |w.applied| ==> w.applied[i] != w.applied[j])
    && (forall k :: Seen(w.table, k).version == Writes(w, w.applied, k))
  }

  ghost predicate Ok(w: World) {
    && TableOk(w) && PlacesOk(w) && CountsOk(w)
    && (forall id :: id in w.calls ==> CallOk(w, id))
  }

  // ---------------------------------------------------------------- the order obeys the model

  lemma LegalMore(l: seq<Entry>, e: Entry)
    requires Legal(l) && Step(StateOf(l, e.req.key), e.req, e.out).0
    ensures Legal(l + [e])
    ensures forall k :: StateOf(l + [e], k) == if k == e.req.key then Step(StateOf(l, k), e.req, e.out).1 else StateOf(l, k)
  {
    var r := l + [e];
    assert r[..|l|] == l;
    forall i: nat | i < |r|
      ensures LegalAt(r, i)
    {
      if i < |l| {
        assert LegalAt(l, i);
        assert r[..i] == l[..i];
      }
    }
  }

  lemma ReadsMore(l: seq<Entry>, e: Entry)
    requires ReadsExactly(l) && ReadsAt(l + [e], |l|)
    ensures ReadsExactly(l + [e])
  {
    var r := l + [e];
    forall i: nat | i < |r|
      ensures ReadsAt(r, i)
    {
      if i < |l| {
        assert ReadsAt(l, i);
        assert r[..i] == l[..i];
      }
    }
  }

  /** A write that takes effect is a legal next entry, and the model state follows the table. */
  lemma HitTable(w: World, e: Entry)
    requires TableOk(w) && TakesEffect(w.table, e.req) && e.out in {PutReply(OK), PutReply(ErrMaybe)}
    ensures TableOk(Place(w.(table := DoOp(w.table, e.req).0), e))
  {
    var t := DoOp(w.table, e.req).0;
    assert Seen(w.table, e.req.key) == StateOf(w.lin, e.req.key);
    LegalMore(w.lin, e);
    ReadsMore(w.lin, e);
    forall k
      ensures Seen(t, k) == StateOf(w.lin + [e], k)
    {
      assert Seen(w.table, k) == StateOf(w.lin, k);
    }
  }

  /** So is a read, or a write the server refused for its version. */
  lemma MissTable(w: World, e: Entry, first: bool)
    requires TableOk(w) && !TakesEffect(w.table, e.req)
    requires e.out == ClerkResult(first, DoOp(w.table, e.req).1) && e.out != PutReply(ErrNoKey)
    ensures TableOk(Place(w, e))
  {
    assert Seen(w.table, e.req.key) == StateOf(w.lin, e.req.key);
    LegalMore(w.lin, e);
    assert (w.lin + [e])[..|w.lin|] == w.lin;
    ReadsMore(w.lin, e);
    forall k
      ensures Seen(w.table, k) == StateOf(w.lin + [e], k)
    {
      assert Seen(w.table, k) == StateOf(w.lin, k);
    }
  }

  lemma TableOnly(w: World, w': World)
    requires TableOk(w) && w'.table == w.table && w'.lin == w.lin
    ensures TableOk(w')
  {
  }

  lemma ExecutedTable(w: World, id: nat, req: Request, first: bool, heard: bool)
    requires TableOk(w)
    ensures TableOk(Executed(w, id, req, ClerkResult(first, DoOp(w.table, req).1), heard))
  {
    var out := ClerkResult(first, DoOp(w.table, req).1);
    var w' := Executed(w, id, req, out, heard);
    if TakesEffect(w.table, req) {
      var e := Entry(id, req, if heard then out else PutReply(ErrMaybe));
      HitTable(w, e);
      TableOnly(Place(w.(table := DoOp(w.table, req).0), e), w');
    } else if heard && id !in w.pos && out != PutReply(ErrNoKey) {
      MissTable(w, Entry(id, req, out), first);
      TableOnly(Place(w, Entry(id, req, out)), w');
    }
  }

  lemma {:induction false} WritesSame(w: World, w': World, s: seq<nat>, k: string)
    requires forall i :: 0 <= i < |s| ==> s[i] in w.calls && s[i] in w'.calls && w'.calls[s[i]].req == w.calls[s[i]].req
    ensures Writes(w', s, k) == Writes(w, s, k)
  {
    if s != [] { WritesSame(w, w', s[..|s| - 1], k); }
  }

  lemma CountsSame(w: World, w': World)
    requires CountsOk(w) && w'.applied == w.applied && w'.table == w.table
    requires forall id :: id in w.calls ==> id in w'.calls && w'.calls[id].req == w.calls[id].req
    ensures CountsOk(w')
  {
    forall k
      ensures Seen(w'.table, k).version == Writes(w', w'.applied, k)
    {
      WritesSame(w, w', w.applied, k);
      assert Seen(w.table, k).version == Writes(w, w.applied, k);
    }
  }

  lemma CountsMore(w: World, w': World, id: nat)
    requires CountsOk(w) && id in w.calls && id !in w.applied && TakesEffect(w.table, w.calls[id].req)
    requires w'.applied == w.applied + [id] && w'.calls == w.calls && w'.table == DoOp(w.table, w.calls[id].req).0
    ensures CountsOk(w')
  {
    assert w'.applied[..|w.applied|] == w.applied;
    forall k
      ensures Seen(w'.table, k).version == Writes(w', w'.applied, k)
    {
      WritesSame(w, w', w.applied, k);
      assert Seen(w.table, k).version == Writes(w, w.applied, k);
    }
  }

  lemma ExecutedCounts(w: World, id: nat, fate: Fate)
    requires CountsOk(w) && id in w.calls && id in w.busy && w.busy[id].Sending? && CallOk(w, id)
    ensures CountsOk(Tried(w, id, fate))
  {
    if fate != RequestLost && TakesEffect(w.table, w.calls[id].req) {
      CountsMore(w, Tried(w, id, fate), id);
    } else {
      CountsSame(w, Tried(w, id, fate));
    }
  }

  lemma PlacePlaces(w: World, e: Entry)
    requires PlacesOk(w) && e.id in w.calls && e.id !in w.pos
    ensures PlacesOk(Place(w, e))
  {
  }

  lemma PlacesOnly(w: World, w': World)
    requires PlacesOk(w)
    requires w' == w.(table := w'.table, busy := w'.busy, applied := w'.applied)
    ensures PlacesOk(w')
  {
  }

  lemma TriedPlaces(w: World, id: nat, fate: Fate)
    requires PlacesOk(w) && id in w.calls && id in w.busy && w.busy[id].Sending? && CallOk(w, id)
    ensures PlacesOk(Tried(w, id, fate))
  {
    var w' := Tried(w, id, fate);
    if w'.lin != w.lin {
      var e := w'.lin[|w.lin|];
      PlacePlaces(w, e);
      PlacesOnly(Place(w, e), w');
    } else {
      PlacesOnly(w, w');
    }
  }

  lemma TriedOthers(w: World, id: nat, fate: Fate, x: nat)
    requires PlacesOk(w) && id in w.calls && id in w.busy && w.busy[id].Sending? && CallOk(w, id)
    requires x in w.calls && CallOk(w, x) && x != id
    ensures CallOk(Tried(w, id, fate), x)
  {
    TriedShape(w, id, fate, x);
    CallStays(w, Tried(w, id, fate), x);
  }

  /** What w and w' have in common for operation x. */
  predicate SameFor(w: World, w': World, x: nat) {
    && x in w.calls && w'.calls == w.calls && w'.clock == w.clock && w.lin <= w'.lin && w.stamps <= w'.stamps
    && (x in w'.pos <==> x in w.pos) && (x in w.pos ==> w'.pos[x] == w.pos[x])
    && (x in w'.busy <==> x in w.busy) && (x in w.busy ==> w'.busy[x] == w.busy[x])
    && (x in w'.applied <==> x in w.applied)
    && (Passed(w.table, w.calls[x].req) ==> Passed(w'.table, w.calls[x].req))
  }

  lemma TriedShape(w: World, id: nat, fate: Fate, x: nat)
    requires id in w.calls && id in w.busy && w.busy[id].Sending? && x in w.calls && x != id
    ensures SameFor(w, Tried(w, id, fate), x)
  {
  }

  lemma CallStays(w: World, w': World, x: nat)
    requires PlacesOk(w) && SameFor(w, w', x) && CallOk(w, x)
    ensures CallOk(w', x)
  {
  }

  lemma TriedOwn(w: World, id: nat, fate: Fate)
    requires PlacesOk(w) && id in w.calls && id in w.busy && w.busy[id].Sending? && CallOk(w, id)
    ensures CallOk(Tried(w, id, fate), id)
  {
    match fate
    case RequestLost =>
    case ReplyLost => MutedOwn(w, id);
    case Answered => HeardOwn(w, id);
  }

  lemma MutedOwn(w: World, id: nat)
    requires PlacesOk(w) && id in w.calls && id in w.busy && w.busy[id].Sending? && CallOk(w, id)
    ensures CallOk(Tried(w, id, ReplyLost), id)
  {
  }

  lemma HeardOwn(w: World, id: nat)
    requires PlacesOk(w) && id in w.calls && id in w.busy && w.busy[id].Sending? && CallOk(w, id)
    ensures CallOk(Tried(w, id, Answered), id)
  {
  }

  lemma TryKeeps(w: World, id: nat, fate: Fate)
    requires Ok(w) && Can(w, Try(id, fate))
    ensures Ok(Tried(w, id, fate))
  {
    var w' := Tried(w, id, fate);
    if fate != RequestLost {
      ExecutedTable(w, id, w.calls[id].req, w.busy[id].first, fate == Answered);
    }
    ExecutedCounts(w, id, fate);
    TriedPlaces(w, id, fate);
    forall x | x in w'.calls
      ensures CallOk(w', x)
    {
      if x == id { TriedOwn(w, id, fate); } else { TriedOthers(w, id, fate, x); }
    }
  }

  lemma InvokeKeeps(w: World, id: nat, req: Request)
    requires Ok(w) && Can(w, Invoke(id, req))
    ensures Ok(Do(w, Invoke(id, req)))
  {
    var w' := Do(w, Invoke(id, req));
    CountsSame(w, w');
    forall x | x in w'.calls
      ensures CallOk(w', x)
    {
      if x != id { assert CallOk(w, x); }
    }
  }

  lemma ReturnKeeps(w: World, id: nat)
    requires Ok(w) && Can(w, Return(id))
    ensures Ok(Do(w, Return(id)))
  {
    var w' := Do(w, Return(id));
    CountsSame(w, w');
    forall x | x in w'.calls
      ensures CallOk(w', x)
    {
      assert CallOk(w, x);
    }
  }

  lemma {:induction false} RunOk(tr: seq<World>, n: nat)
    requires Run(tr) && n < |tr|
    ensures Ok(tr[n])
  {
    if n > 0 {
      RunOk(tr, n - 1);
      assert Moves(tr[n - 1], tr[n]);
      var m :| Can(tr[n - 1], m) && tr[n] == Do(tr[n - 1], m);
      match m
      case Invoke(id, req) => InvokeKeeps(tr[n - 1], id, req);
      case Try(id, fate) => TryKeeps(tr[n - 1], id, fate);
      case Return(id) => ReturnKeeps(tr[n - 1], id);
    }
  }

  // ---------------------------------------------------------------- theorems

  ghost predicate Completed(h: History, id: nat, out: Reply) {
    id in h && h[id].done.Some? && h[id].done.value.out == out
  }

  ghost predicate NoMissingKeyPut(h: History) {
    forall id :: !Completed(h, id, PutReply(ErrNoKey))
  }

  lemma OrderLinearizes(w: World)
    requires Ok(w) && NoMissingKeyPut(w.calls)
    ensures Linearizes(w.calls, w.lin)
  {
    forall i | 0 <= i < |w.lin|
      ensures Belongs(w.calls, w.lin[i])
    {
      assert CallOk(w, w.lin[i].id);
      assert !Completed(w.calls, w.lin[i].id, PutReply(ErrNoKey));
    }
    forall id | id in w.calls && w.calls[id].done.Some?
      ensures Lists(w.lin, id)
    {
      assert CallOk(w, id);
      assert !Completed(w.calls, id, PutReply(ErrNoKey));
      assert w.lin[w.pos[id]].id == id;
    }
    forall i: nat, j: nat | i < |w.lin| && j < |w.lin| && EndsBefore(w.calls, w.lin[i].id, w.lin[j].id)
      ensures i < j
    {
      assert CallOk(w, w.lin[i].id) && CallOk(w, w.lin[j].id);
    }
  }

  /** The model has no transition for a Put answered ErrNoKey. */
  lemma MissingKeyRefused(h: History, l: seq<Entry>, id: nat)
    requires Linearizes(h, l) && id in h && h[id].done.Some? && h[id].req.PutArgs?
    ensures h[id].done.value.out != PutReply(ErrNoKey)
  {
    assert Lists(l, id);
    var i: nat :| i < |l| && l[i].id == id;
    assert Belongs(h, l[i]) && LegalAt(l, i);
  }

  lemma GoodHistory(w: World)
    requires Ok(w)
    ensures Linearizable(w.calls) <==> NoMissingKeyPut(w.calls)
  {
    if NoMissingKeyPut(w.calls) {
      OrderLinearizes(w);
    } else {
      var id :| Completed(w.calls, id, PutReply(ErrNoKey));
      assert CallOk(w, id);
      forall l | Linearizes(w.calls, l)
        ensures false
      {
        MissingKeyRefused(w.calls, l, id);
      }
    }
  }

  /** A history of concurrent clerks is linearizable exactly when no Put came back ErrNoKey. */
  lemma HistoriesLinearizable(tr: seq<World>, n: nat)
    requires Run(tr) && n < |tr|
    ensures Linearizable(tr[n].calls) <==> NoMissingKeyPut(tr[n].calls)
  {
    RunOk(tr, n);
    GoodHistory(tr[n]);
  }

  /** And then reads can also be placed so that their versions and errors are exact. */
  lemma ReadsAreExact(tr: seq<World>, n: nat)
    requires Run(tr) && n < |tr| && NoMissingKeyPut(tr[n].calls)
    ensures exists l :: Linearizes(tr[n].calls, l) && ReadsExactly(l)
  {
    RunOk(tr, n);
    OrderLinearizes(tr[n]);
  }

  /** The checker of models1, which looks at each key on its own, accepts exactly those histories. */
  lemma CheckerAccepts(tr: seq<World>, n: nat)
    requires Run(tr) && n < |tr|
    ensures (forall k :: Linearizable(OfKey(tr[n].calls, k))) <==> NoMissingKeyPut(tr[n].calls)
  {
    RunOk(tr, n);
    var h := tr[n].calls;
    if NoMissingKeyPut(h) {
      OrderLinearizes(tr[n]);
      forall k
        ensures Linearizable(OfKey(h, k))
      {
        PartitionLinearizable(h, k);
      }
    } else {
      var id :| Completed(h, id, PutReply(ErrNoKey));
      assert CallOk(tr[n], id);
      var k := h[id].req.key;
      forall l | Linearizes(OfKey(h, k), l)
        ensures false
      {
        MissingKeyRefused(OfKey(h, k), l, id);
      }
      assert !Linearizable(OfKey(h, k));
    }
  }

  /** How often operation id took effect. */
  function Times(s: seq<nat>, id: nat): nat {
    if s == [] then 0 else Times(s[..|s| - 1], id) + (if s[|s| - 1] == id then 1 else 0)
  }

  lemma {:induction false} TimesOnce(s: seq<nat>, id: nat)
    requires forall i, j :: 0 <= i < j < |s| ==> s[i] != s[j]
    ensures Times(s, id) == if id in s then 1 else 0
  {
    if s != [] { TimesOnce(s[..|s| - 1], id); }
  }

  /** OK: took effect exactly once. ErrVersion, ErrNoKey: never. Otherwise, or still pending: at most once. */
  lemma ResultsMean(tr: seq<World>, n: nat, id: nat)
    requires Run(tr) && n < |tr|
    ensures Times(tr[n].applied, id) <= 1
    ensures Completed(tr[n].calls, id, PutReply(OK)) ==> Times(tr[n].applied, id) == 1
    ensures Completed(tr[n].calls, id, PutReply(ErrVersion)) ==> Times(tr[n].applied, id) == 0
    ensures Completed(tr[n].calls, id, PutReply(ErrNoKey)) ==> Times(tr[n].applied, id) == 0
  {
    RunOk(tr, n);
    TimesOnce(tr[n].applied, id);
    assert id in tr[n].calls ==> CallOk(tr[n], id);
  }

  /** The version of a key is the number of Puts that took effect on it. */
  lemma VersionsCountWrites(tr: seq<World>, n: nat, k: string)
    requires Run(tr) && n < |tr|
    ensures Writes(tr[n], tr[n].applied, k) == if k in tr[n].table then tr[n].table[k].version else 0
  {
    RunOk(tr, n);
    assert Seen(tr[n].table, k).version == Writes(tr[n], tr[n].applied, k);
  }
}
