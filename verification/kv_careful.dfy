/**
 What a caller must do for the history to stay linearizable: name version 0 or an existing key in
 every Put. One careless Put is enough to lose it.
 */
module KvCareful {
  import opened Kv
  import opened KvServer
  import opened KvModel
  import opened KvHistory

  /** A Put names version 0 or a key that exists when it is called. */
  ghost predicate Careful(w: World, m: Move) {
    m.Invoke? && m.req.PutArgs? ==> m.req.version == 0 || m.req.key in w.table
  }

  ghost predicate CarefulStep(w: World, w': World) {
    exists m :: Can(w, m) && Careful(w, m) && w' == Do(w, m)
  }

  /** Every step from position n on is careful. */
  ghost predicate CarefulFrom(tr: seq<World>, n: nat) {
    forall i :: n <= i < |tr| - 1 ==> CarefulStep(tr[i], tr[i + 1])
  }

  ghost predicate CarefulRun(tr: seq<World>) {
    tr != [] && tr[0] == Start() && CarefulFrom(tr, 0)
  }

  lemma CarefulIsRun(tr: seq<World>)
    requires CarefulRun(tr)
    ensures Run(tr)
  {
    forall i | 0 <= i < |tr| - 1
      ensures Moves(tr[i], tr[i + 1])
    {
      assert CarefulStep(tr[i], tr[i + 1]);
    }
  }

  /** Nobody has got or can get ErrNoKey for a Put. */
  ghost predicate Finds(w: World, id: nat)
    requires id in w.calls
  {
    var c := w.calls[id];
    && (c.done.Some? ==> c.done.value.out != PutReply(ErrNoKey))
    && (id in w.busy ==>
          && (w.busy[id].Replied? ==> w.busy[id].out != PutReply(ErrNoKey))
          && (c.req.PutArgs? ==> c.req.version == 0 || c.req.key in w.table))
  }

  ghost predicate AllFind(w: World) {
    forall id :: id in w.calls ==> Finds(w, id)
  }

  lemma CarefulKeeps(w: World, m: Move)
    requires AllFind(w) && Can(w, m) && Careful(w, m)
    ensures AllFind(Do(w, m))
  {
    var w' := Do(w, m);
    forall id | id in w'.calls
      ensures Finds(w', id)
    {
      if id in w.calls { FindsStays(w, m, id); }
    }
  }

  lemma FindsStays(w: World, m: Move, id: nat)
    requires id in w.calls && Finds(w, id) && Can(w, m)
    ensures id in Do(w, m).calls && Finds(Do(w, m), id)
  {
    if m.Try? { TryShape(w, m.id, m.fate); }
  }

  /** An attempt moves only its own call on, and no key disappears. */
  lemma TryShape(w: World, id: nat, fate: Fate)
    requires Can(w, Try(id, fate))
    ensures var w' := Tried(w, id, fate);
            && w'.calls == w.calls && w.table.Keys <= w'.table.Keys
            && w'.busy.Keys == w.busy.Keys && (forall x :: x in w.busy && x != id ==> w'.busy[x] == w.busy[x])
            && (w'.busy[id].Replied? ==> w'.busy[id].out == ClerkResult(w.busy[id].first, DoOp(w.table, w.calls[id].req).1))
  {
  }

  lemma {:induction false} CarefulFinds(tr: seq<World>, n: nat)
    requires CarefulRun(tr) && n < |tr|
    ensures AllFind(tr[n])
  {
    if n > 0 {
      CarefulFinds(tr, n - 1);
      assert CarefulStep(tr[n - 1], tr[n]);
      var m :| Can(tr[n - 1], m) && Careful(tr[n - 1], m) && tr[n] == Do(tr[n - 1], m);
      CarefulKeeps(tr[n - 1], m);
    }
  }

  /** Careful callers always get a linearizable history. */
  lemma CarefulIsLinearizable(tr: seq<World>, n: nat)
    requires CarefulRun(tr) && n < |tr|
    ensures Linearizable(tr[n].calls)
  {
    CarefulIsRun(tr);
    CarefulFinds(tr, n);
    assert forall id :: id in tr[n].calls ==> Finds(tr[n], id);
    HistoriesLinearizable(tr, n);
  }

  // ---------------------------------------------------------------- one careless Put

  /** A careless Put, answered and returned: three states after w. */
  lemma CarelessSteps(w: World, id: nat, req: Request) returns (x: World, y: World, z: World)
    requires Can(w, Invoke(id, req)) && !Careful(w, Invoke(id, req))
    ensures x == Do(w, Invoke(id, req)) && CarefulStep(x, y) && CarefulStep(y, z)
    ensures Completed(z.calls, id, PutReply(ErrNoKey)) && z.calls[id].req.PutArgs?
  {
    x := Do(w, Invoke(id, req));
    assert Can(x, Try(id, Answered)) && Careful(x, Try(id, Answered));
    y := Do(x, Try(id, Answered));
    assert Can(y, Return(id)) && Careful(y, Return(id));
    z := Do(y, Return(id));
  }

  /** Whatever went before, a careless Put has a continuation, itself careful, whose history is not linearizable. */
  lemma CarelessBreaks(tr: seq<World>, id: nat, req: Request) returns (rest: seq<World>)
    requires tr != [] && Can(tr[|tr| - 1], Invoke(id, req)) && !Careful(tr[|tr| - 1], Invoke(id, req))
    ensures Continues(tr, id, req, rest) && !Linearizable(Final(tr, rest).calls)
  {
    var w := tr[|tr| - 1];
    var x, y, z := CarelessSteps(w, id, req);
    rest := [x, y, z];
    forall l | Linearizes(z.calls, l)
      ensures false
    {
      MissingKeyRefused(z.calls, l, id);
    }
    var all := tr + rest;
    assert all[|tr|] == x && all[|tr| + 1] == y && all[|tr| + 2] == z;
  }

  /** rest goes on from tr with this call and careful steps. */
  ghost predicate Continues(tr: seq<World>, id: nat, req: Request, rest: seq<World>)
    requires tr != [] && Can(tr[|tr| - 1], Invoke(id, req))
  {
    rest != [] && rest[0] == Do(tr[|tr| - 1], Invoke(id, req)) && CarefulFrom(tr + rest, |tr|)
  }

  ghost function Final(tr: seq<World>, rest: seq<World>): World
    requires rest != []
  {
    rest[|rest| - 1]
  }

  /** One clerk, one Put at version 1 on an absent key: a run with a completed ErrNoKey. */
  lemma MissingKeyRun() returns (tr: seq<World>)
    ensures Run(tr) && !NoMissingKeyPut(tr[|tr| - 1].calls) && !Linearizable(tr[|tr| - 1].calls)
  {
    var req := PutArgs("k", "v", 1);
    var x, y, z := CarelessSteps(Start(), 0, req);
    tr := [Start(), x, y, z];
    assert Moves(Start(), x) && Moves(x, y) && Moves(y, z);
    assert !NoMissingKeyPut(z.calls);
    HistoriesLinearizable(tr, 3);
  }

  lemma CarefulContinues(tr: seq<World>, id: nat, req: Request, rest: seq<World>)
    requires CarefulRun(tr) && Can(tr[|tr| - 1], Invoke(id, req)) && Careful(tr[|tr| - 1], Invoke(id, req))
    requires Continues(tr, id, req, rest)
    ensures CarefulRun(tr + rest)
  {
    var all := tr + rest;
    forall i | 0 <= i < |all| - 1
      ensures CarefulStep(all[i], all[i + 1])
    {
      if i < |tr| - 1 {
        assert CarefulStep(tr[i], tr[i + 1]);
      } else if i == |tr| - 1 {
        assert all[i] == tr[|tr| - 1] && all[i + 1] == rest[0];
      }
    }
  }

  /**
   After careful calls, the next call keeps every careful continuation linearizable if and only if
   it is careful itself.
   */
  lemma CarefulExactly(tr: seq<World>, id: nat, req: Request)
    requires CarefulRun(tr) && Can(tr[|tr| - 1], Invoke(id, req))
    ensures (forall rest :: Continues(tr, id, req, rest) ==> Linearizable(Final(tr, rest).calls))
            <==> Careful(tr[|tr| - 1], Invoke(id, req))
  {
    if Careful(tr[|tr| - 1], Invoke(id, req)) {
      forall rest | Continues(tr, id, req, rest)
        ensures Linearizable(Final(tr, rest).calls)
      {
        CarefulContinues(tr, id, req, rest);
        CarefulIsLinearizable(tr + rest, |tr + rest| - 1);
      }
    } else {
      var rest := CarelessBreaks(tr, id, req);
    }
  }
}
