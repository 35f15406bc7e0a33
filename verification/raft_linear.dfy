/**
 The calls of Submit as a timed history: kvraft1 over raft1 is linearizable against the model of
 models1 in every guarded run, unless a Put came back ErrNoKey.
 */
module RaftLinear {
  import opened Kv
  import opened RaftCore
  import opened RaftPeer
  import opened RaftRun
  import opened RaftInv
  import opened RaftSubmit
  import opened RaftTwoLeaders
  import opened RaftTwoApplied
  import KvServer
  import KvModel
  import KvHistory

  // ---------------------------------------------------------------- the history of a store

  /** A store, when its operations were asked, and when they were first answered. */
  datatype Timed = Timed(store: Store, calls: KvModel.History, clock: nat)

  ghost predicate Answers(s: Store, m: Move)
  {
    CanMove(s, m) && m.Inner? && m.e.ReadOne? && Answered(s, m.e.i) != {}
  }

  /** What the reader answers. */
  ghost function AnswerOf(s: Store, m: Move): (a: Answer)
    requires Answers(s, m)
    ensures Answered(s, m.e.i) == {a}
  {
    var v := s.raft.svc[m.e.i];
    var msg := v.queue[0];
    Answer(msg.op.id, msg.index, Execute(v.table, msg.op).1)
  }

  /** The operation a leader takes on. */
  ghost predicate Asks(s: Store, m: Move) {
    CanMove(s, m) && m.Ask? && s.raft.nodes[m.i].role == Leader
  }

  function Asked(h: KvModel.History, id: nat, req: Request, at: nat): KvModel.History {
    h[id := KvModel.Call(req, at, KvServer.None)]
  }

  function Done(h: KvModel.History, a: Answer, at: nat): KvModel.History {
    if a.id in h && h[a.id].done.None?
    then h[a.id := h[a.id].(done := KvServer.Some(KvModel.Completion(at, a.reply)))]
    else h
  }

  ghost function Advance(w: Timed, m: Move): Timed
    requires CanMove(w.store, m)
  {
    var s' := MoveTo(w.store, m);
    if Asks(w.store, m) then Timed(s', Asked(w.calls, m.id, m.req, w.clock), w.clock + 1)
    else if Answers(w.store, m) then Timed(s', Done(w.calls, AnswerOf(w.store, m), w.clock), w.clock + 1)
    else w.(store := s')
  }

  ghost predicate Advances(w: Timed, w': Timed) {
    exists m :: CanMove(w.store, m) && w' == Advance(w, m)
  }

  ghost predicate TimedRun(n: nat, tr: seq<Timed>) {
    && tr != [] && tr[0] == Timed(Store(Init(n), seq(n, _ => map[]), map[], {}), map[], 0)
    && (forall k :: 0 <= k < |tr| ==> Guarded(tr[k].store.raft))
    && forall k :: 0 <= k < |tr| - 1 ==> Advances(tr[k], tr[k + 1])
  }

  // ---------------------------------------------------------------- invariant

  ghost predicate CallOk(w: Timed, id: nat) {
    && id in w.calls && id in w.store.asked
    && w.calls[id].req == w.store.asked[id].req && w.calls[id].start < w.clock
    && (w.calls[id].done.Some? ==>
          && w.calls[id].done.value.at < w.clock
          && Answer(id, w.store.asked[id].index, w.calls[id].done.value.out) in w.store.answers)
  }

  /** What ended before an operation was asked had been answered by then. */
  ghost predicate OrderOk(w: Timed, a: nat, b: nat) {
    KvModel.EndsBefore(w.calls, a, b) && a in w.store.asked && b in w.store.asked ==>
      Answer(a, w.store.asked[a].index, w.calls[a].done.value.out) in w.store.asked[b].earlier
  }

  ghost predicate HistoryOk(w: Timed) {
    && w.calls.Keys == w.store.asked.Keys
    && (forall id :: id in w.calls ==> CallOk(w, id))
    && (forall a, b :: a in w.calls && b in w.calls ==> OrderOk(w, a, b))
  }

  ghost predicate TimedOk(w: Timed) { StoreOk(w.store) && HistoryOk(w) }

  /** An answer names the index its operation was given. */
  lemma AnswerIndex(c: Core, asked: map<nat, Question>, a: Answer)
    requires AllPlaced(c, asked) && AnswerOk(c, asked, a)
    ensures a.id in asked && a.index == asked[a.id].index
  {
    var t: nat, m: nat :| AnsweredBy(c, asked, a, t, m);
    assert RaftSubmit.Placed(asked, a.index, c.tlog[t][a.index].op);
  }

  /** The store's own part of a move: what is asked and answered only grows. */
  lemma MoveShape(s: Store, m: Move)
    requires CanMove(s, m)
    ensures var s' := MoveTo(s, m);
            && s.answers <= s'.answers
            && (!Asks(s, m) ==> s'.asked == s.asked)
            && (Asks(s, m) ==>
                  && s'.answers == s.answers
                  && s'.asked == s.asked[m.id := Question(m.req, |s.raft.nodes[m.i].log|, s.answers)])
            && (Answers(s, m) ==> AnswerOf(s, m) in s'.answers)
  {
  }

  lemma AskHistory(w: Timed, m: Move)
    requires HistoryOk(w) && Asks(w.store, m)
    ensures HistoryOk(Advance(w, m))
  {
    var w' := Advance(w, m);
    MoveShape(w.store, m);
    forall id | id in w'.calls
      ensures CallOk(w', id)
    {
      if id != m.id { assert CallOk(w, id); }
    }
    forall a, b | a in w'.calls && b in w'.calls
      ensures OrderOk(w', a, b)
    {
      if a != m.id {
        assert CallOk(w, a);
        if b != m.id { assert OrderOk(w, a, b); }
      }
    }
  }

  lemma AnswerHistory(w: Timed, m: Move)
    requires HistoryOk(w) && Answers(w.store, m)
    requires var a := AnswerOf(w.store, m); a.id in w.store.asked && a.index == w.store.asked[a.id].index
    ensures HistoryOk(Advance(w, m))
  {
    var w' := Advance(w, m);
    MoveShape(w.store, m);
    forall id | id in w'.calls
      ensures CallOk(w', id)
    {
      assert CallOk(w, id);
    }
    forall a, b | a in w'.calls && b in w'.calls
      ensures OrderOk(w', a, b)
    {
      assert CallOk(w, a) && CallOk(w, b) && OrderOk(w, a, b);
    }
  }

  lemma QuietHistory(w: Timed, s': Store)
    requires HistoryOk(w) && s'.asked == w.store.asked && w.store.answers <= s'.answers
    ensures HistoryOk(w.(store := s'))
  {
    var w' := w.(store := s');
    forall id | id in w'.calls
      ensures CallOk(w', id)
    {
      assert CallOk(w, id);
    }
    forall a, b | a in w'.calls && b in w'.calls
      ensures OrderOk(w', a, b)
    {
      assert OrderOk(w, a, b);
    }
  }

  lemma AnswerIsPlaced(s: Store, m: Move)
    requires StoreOk(s) && Answers(s, m)
    ensures var a := AnswerOf(s, m); a.id in s.asked && a.index == s.asked[a.id].index
  {
    ReaderAnswers(s, m.e.i, AnswerOf(s, m));
    AnswerIndex(s.raft.core, s.asked, AnswerOf(s, m));
  }

  lemma AdvanceKeeps(w: Timed, w': Timed)
    requires TimedOk(w) && Advances(w, w') && Guarded(w'.store.raft)
    ensures TimedOk(w')
  {
    var m :| CanMove(w.store, m) && w' == Advance(w, m);
    assert Moves(w.store, w'.store);
    MoveKeeps(w.store, w'.store);
    MoveShape(w.store, m);
    if Asks(w.store, m) {
      AskHistory(w, m);
    } else if Answers(w.store, m) {
      AnswerIsPlaced(w.store, m);
      AnswerHistory(w, m);
    } else {
      QuietHistory(w, w'.store);
    }
  }

  lemma {:induction false} TimedRunOk(n: nat, tr: seq<Timed>, k: nat)
    requires TimedRun(n, tr) && k < |tr|
    ensures TimedOk(tr[k])
  {
    if k == 0 {
      var s := tr[0].store;
      StoreRunOk(n, [s]);
    } else {
      TimedRunOk(n, tr, k - 1);
      AdvanceKeeps(tr[k - 1], tr[k]);
    }
  }

  // ---------------------------------------------------------------- the log as a linearization

  /** Entry e is the operation at index i of l with its reply on the table before it. */
  ghost predicate Comes(l: Log, i: nat, e: KvModel.Entry) {
    0 < i < |l| && l[i].op == Op(e.id, e.req) && e.out == Execute(Replay(l, i - 1), l[i].op).1
  }

  /** The operations at 1..k with their replies; a Put refused for a missing key is left out, as it changes nothing. */
  function Entries(l: Log, k: nat): seq<KvModel.Entry>
    requires k < |l|
  {
    if k == 0 then []
    else
      var rest := Entries(l, k - 1);
      if l[k].op.Noop? then rest
      else
        var out := Execute(Replay(l, k - 1), l[k].op).1;
        if out == PutReply(ErrNoKey) then rest else rest + [KvModel.Entry(l[k].op.id, l[k].op.req, out)]
  }

  /** What the model sees of the replayed table. */
  ghost predicate Tracks(l: Log, k: nat, key: string)
    requires k < |l|
  {
    var t := Replay(l, k);
    KvModel.StateOf(Entries(l, k), key) == KvHistory.Seen(t, key) && (key in t ==> t[key].version > 0)
  }

  ghost predicate AllTrack(l: Log, k: nat)
    requires k < |l|
  {
    forall key: string :: Tracks(l, k, key)
  }

  /** An executed operation is a step of the model, a Put refused for a missing key none at all. */
  lemma ExecutionIsStep(t: Table, req: Request, key: string)
    requires req.key in t ==> t[req.key].version > 0
    ensures var (t', out) := DoOp(t, req);
            var (ok, st) := KvModel.Step(KvHistory.Seen(t, req.key), req, out);
            && (out == PutReply(ErrNoKey) ==> t' == t)
            && (out != PutReply(ErrNoKey) ==>
                  ok && KvHistory.Seen(t', key) == if key == req.key then st else KvHistory.Seen(t, key))
            && ((key in t ==> t[key].version > 0) ==> key in t' ==> t'[key].version > 0)
  {
  }

  lemma OneLegal(l: Log, k: nat)
    requires 0 < k < |l| && l[k].op.Op? && KvModel.Legal(Entries(l, k - 1)) && AllTrack(l, k - 1)
    ensures KvModel.Legal(Entries(l, k)) && AllTrack(l, k)
  {
    var t := Replay(l, k - 1);
    var req := l[k].op.req;
    var out := DoOp(t, req).1;
    assert Tracks(l, k - 1, req.key);
    ExecutionIsStep(t, req, req.key);
    if out != PutReply(ErrNoKey) {
      KvHistory.LegalMore(Entries(l, k - 1), KvModel.Entry(l[k].op.id, req, out));
    }
    forall key: string
      ensures Tracks(l, k, key)
    {
      assert Tracks(l, k - 1, key);
      ExecutionIsStep(t, req, key);
    }
  }

  lemma {:induction false} EntriesLegal(l: Log, k: nat)
    requires k < |l|
    ensures KvModel.Legal(Entries(l, k)) && AllTrack(l, k)
  {
    if k > 0 {
      EntriesLegal(l, k - 1);
      if l[k].op.Op? {
        OneLegal(l, k);
      } else {
        forall key: string
          ensures Tracks(l, k, key)
        {
          assert Tracks(l, k - 1, key);
        }
      }
    }
  }

  /** Positions come from rising indices. */
  lemma {:induction false} EntriesOrder(l: Log, k: nat, p: nat, q: nat) returns (i: nat, j: nat)
    requires k < |l| && p <= q < |Entries(l, k)|
    ensures i <= k && j <= k && Comes(l, i, Entries(l, k)[p]) && Comes(l, j, Entries(l, k)[q])
    ensures p < q ==> i < j
    ensures p == q ==> i == j
  {
    var rest := Entries(l, k - 1);
    if q < |rest| {
      i, j := EntriesOrder(l, k - 1, p, q);
    } else {
      j := k;
      if p < |rest| {
        var x;
        i, x := EntriesOrder(l, k - 1, p, p);
      } else {
        i := k;
      }
    }
  }

  lemma {:induction false} EntriesHave(l: Log, k: nat, i: nat, e: KvModel.Entry)
    requires i <= k < |l| && Comes(l, i, e) && e.out != PutReply(ErrNoKey)
    ensures e in Entries(l, k)
  {
    if i < k { EntriesHave(l, k - 1, i, e); }
  }

  // ---------------------------------------------------------------- the theorem

  /** All that was answered lies within one chosen prefix. */
  lemma {:induction false} HighestChosen(c: Core, asked: map<nat, Question>, answers: set<Answer>) returns (t: nat, m: nat)
    requires answers != {} && forall a :: a in answers ==> AnswerOk(c, asked, a)
    ensures Chosen(c, t, m) && forall a :: a in answers ==> a.index <= m
    decreases answers
  {
    var a :| a in answers;
    t, m :| AnsweredBy(c, asked, a, t, m);
    var rest := answers - {a};
    if rest != {} {
      var u, k := HighestChosen(c, asked, rest);
      if k > m { t, m := u, k; }
    }
    forall b | b in answers
      ensures b.index <= m
    {
      assert b == a || b in rest;
    }
  }

  /** A chosen log gives an answered operation the reply it had. */
  lemma AnsweredInLog(c: Core, asked: map<nat, Question>, a: Answer, t: nat, m: nat)
    requires Reachable(c) && AnswerOk(c, asked, a) && Chosen(c, t, m) && a.index <= m
    ensures a.id in asked && Comes(c.tlog[t], a.index, KvModel.Entry(a.id, asked[a.id].req, a.reply))
  {
    var u: nat, k: nat :| AnsweredBy(c, asked, a, u, k);
    BothChosen(c, t, m, u, k, a.index);
    var i: nat := a.index - 1;
    BothAgree(c, t, m, u, k, i);
    ReplayAgrees(c.tlog[t], c.tlog[u], i);
    assert a.reply == Execute(Replay(c.tlog[t], i), c.tlog[t][a.index].op).1;
  }

  lemma BothAgree(c: Core, t: nat, m: nat, u: nat, k: nat, j: nat)
    requires Reachable(c) && Chosen(c, t, m) && Chosen(c, u, k) && j <= m && j <= k
    ensures Agree(c.tlog[t], c.tlog[u], j)
  {
    ReachableInv(c);
    ChosenAgree(c, t, m, u, k, j);
  }

  /** A chosen log has the operation of a later question above the answers that came before it. */
  lemma LaterIsAbove(c: Core, b: nat, a: Answer, t: nat, m: nat, j: nat)
    requires Reachable(c) && Precedes(c, b, a) && Chosen(c, t, m) && j <= m
    requires c.tlog[t][j].op.Op? && c.tlog[t][j].op.id == b
    ensures a.index < j
  {
    var u: nat, k: nat :| PrecededBy(c, b, a, u, k);
    if j <= a.index {
      BothChosen(c, t, m, u, k, j);
    }
  }

  lemma EntryBelongs(w: Timed, t: nat, m: nat, i: nat, e: KvModel.Entry)
    requires TimedOk(w) && Chosen(w.store.raft.core, t, m) && i <= m && Comes(w.store.raft.core.tlog[t], i, e)
    ensures KvModel.Belongs(w.calls, e) && w.store.asked[e.id].index == i
  {
    var c := w.store.raft.core;
    assert RaftSubmit.Placed(w.store.asked, i, c.tlog[t][i].op);
    assert CallOk(w, e.id);
    if w.calls[e.id].done.Some? {
      var a := Answer(e.id, i, w.calls[e.id].done.value.out);
      AnsweredInLog(c, w.store.asked, a, t, m);
    }
  }

  lemma DoneIsListed(w: Timed, t: nat, m: nat, id: nat)
    requires TimedOk(w) && Chosen(w.store.raft.core, t, m) && forall a :: a in w.store.answers ==> a.index <= m
    requires id in w.calls && w.calls[id].done.Some? && w.calls[id].done.value.out != PutReply(ErrNoKey)
    ensures KvModel.Lists(Entries(w.store.raft.core.tlog[t], m), id)
  {
    var c := w.store.raft.core;
    assert CallOk(w, id);
    var a := Answer(id, w.store.asked[id].index, w.calls[id].done.value.out);
    AnsweredInLog(c, w.store.asked, a, t, m);
    EntriesHave(c.tlog[t], m, a.index, KvModel.Entry(id, w.store.asked[id].req, a.reply));
  }

  lemma EndsBelow(w: Timed, t: nat, m: nat, a: nat, b: nat, i: nat, j: nat)
    requires TimedOk(w) && Chosen(w.store.raft.core, t, m) && i <= m && j <= m
    requires KvModel.EndsBefore(w.calls, a, b) && a in w.store.asked && w.store.asked[a].index == i
    requires w.store.raft.core.tlog[t][j].op.Op? && w.store.raft.core.tlog[t][j].op.id == b
    ensures i < j
  {
    assert CallOk(w, a) && CallOk(w, b) && OrderOk(w, a, b);
    var x := Answer(a, i, w.calls[a].done.value.out);
    LaterIsAbove(w.store.raft.core, b, x, t, m, j);
  }

  lemma LogLinearizes(w: Timed, t: nat, m: nat)
    requires TimedOk(w) && Chosen(w.store.raft.core, t, m) && forall a :: a in w.store.answers ==> a.index <= m
    requires KvHistory.NoMissingKeyPut(w.calls)
    ensures KvModel.Linearizes(w.calls, Entries(w.store.raft.core.tlog[t], m))
  {
    var log := w.store.raft.core.tlog[t];
    var l := Entries(log, m);
    EntriesLegal(log, m);
    forall p | 0 <= p < |l|
      ensures KvModel.Belongs(w.calls, l[p])
    {
      var i, j := EntriesOrder(log, m, p, p);
      EntryBelongs(w, t, m, i, l[p]);
    }
    forall p, q | 0 <= p < q < |l|
      ensures l[p].id != l[q].id
    {
      var i, j := EntriesOrder(log, m, p, q);
      EntryBelongs(w, t, m, i, l[p]);
      EntryBelongs(w, t, m, j, l[q]);
    }
    forall id | id in w.calls && w.calls[id].done.Some?
      ensures KvModel.Lists(l, id)
    {
      assert !KvHistory.Completed(w.calls, id, PutReply(ErrNoKey));
      DoneIsListed(w, t, m, id);
    }
    forall p, q | 0 <= p < |l| && 0 <= q < |l| && KvModel.EndsBefore(w.calls, l[p].id, l[q].id)
      ensures p < q
    {
      if q <= p {
        var j, i := EntriesOrder(log, m, q, p);
        EntryBelongs(w, t, m, i, l[p]);
        EndsBelow(w, t, m, l[p].id, l[q].id, i, j);
      }
    }
  }

  lemma NothingAnswered(w: Timed)
    requires HistoryOk(w) && w.store.answers == {}
    ensures KvModel.Linearizes(w.calls, [])
  {
    forall id | id in w.calls
      ensures w.calls[id].done.None?
    {
      assert CallOk(w, id);
    }
  }

  /** An operation that completed with ErrNoKey as a Put's reply was a Put. */
  lemma ReplyFits(w: Timed, id: nat)
    requires TimedOk(w) && KvHistory.Completed(w.calls, id, PutReply(ErrNoKey))
    ensures w.calls[id].req.PutArgs?
  {
    assert CallOk(w, id);
    var a := Answer(id, w.store.asked[id].index, PutReply(ErrNoKey));
    var t: nat, m: nat :| AnsweredBy(w.store.raft.core, w.store.asked, a, t, m);
  }

  /** In every guarded run, Submit's history is linearizable against KvModel if and only if no Put was answered ErrNoKey. */
  lemma SubmitIsLinearizable(n: nat, tr: seq<Timed>, k: nat)
    requires TimedRun(n, tr) && k < |tr|
    ensures KvModel.Linearizable(tr[k].calls) <==> KvHistory.NoMissingKeyPut(tr[k].calls)
  {
    TimedRunOk(n, tr, k);
    var w := tr[k];
    if KvHistory.NoMissingKeyPut(w.calls) {
      if w.store.answers == {} {
        NothingAnswered(w);
      } else {
        var t, m := HighestChosen(w.store.raft.core, w.store.asked, w.store.answers);
        LogLinearizes(w, t, m);
      }
    } else {
      var id :| KvHistory.Completed(w.calls, id, PutReply(ErrNoKey));
      ReplyFits(w, id);
      forall l | KvModel.Linearizes(w.calls, l)
        ensures false
      {
        KvHistory.MissingKeyRefused(w.calls, l, id);
      }
    }
  }

  // ---------------------------------------------------------------- a run in which Submit succeeds

  lemma Longer(n: nat, tr: seq<Timed>, w: Timed) returns (tr': seq<Timed>)
    requires TimedRun(n, tr) && Advances(tr[|tr| - 1], w) && Guarded(w.store.raft)
    ensures TimedRun(n, tr') && tr' == tr + [w]
  {
    tr' := tr + [w];
    forall k | 0 <= k < |tr'| - 1
      ensures Advances(tr'[k], tr'[k + 1])
    {
      if k < |tr| - 1 { assert tr'[k] == tr[k] && tr'[k + 1] == tr[k + 1]; }
    }
  }

  /** The same store on another cluster. */
  function On(w: Timed, s: Cluster): Timed { w.(store := w.store.(raft := s)) }

  /** A quiet step of the cluster leaves Submit's part alone. */
  lemma QuietLonger(n: nat, tr: seq<Timed>, s: Cluster) returns (tr': seq<Timed>)
    requires TimedRun(n, tr) && Quiet(tr[|tr| - 1].store.raft, s) && Guarded(s)
    requires |tr[|tr| - 1].store.notify| == |tr[|tr| - 1].store.raft.nodes|
    ensures TimedRun(n, tr') && tr' == tr + [On(tr[|tr| - 1], s)]
  {
    var w := tr[|tr| - 1];
    var e :| Enabled(w.store.raft, e) && s == Next(w.store.raft, e) && !e.StartOp? && !e.ReadOne? && !e.Crash?;
    assert CanMove(w.store, Inner(e)) && Advance(w, Inner(e)) == On(w, s);
    tr' := Longer(n, tr, On(w, s));
  }

  /** Three servers, nothing asked, nothing executed. */
  ghost predicate Untouched(w: Timed) {
    && w.store == Store(w.store.raft, seq(3, _ => map[]), map[], {}) && w.calls == map[]
    && Peers(w.store.raft, 3) && w.store.raft.regrants == {} && w.store.raft.svc == Init(3).svc
  }

  /** Server 0 of three wins term 1. */
  lemma OneLeads() returns (tr: seq<Timed>)
    ensures TimedRun(3, tr) && Untouched(tr[|tr| - 1])
    ensures Crowned(tr[|tr| - 1].store.raft.nodes[0], 3) && Idle(tr[|tr| - 1].store.raft.nodes[1])
  {
    var s := Init(3);
    tr := [Timed(Store(s, seq(3, _ => map[]), map[], {}), map[], 0)];
    var a := Campaigns(s, 3, 0, {1});
    tr := QuietLonger(3, tr, a);
    tr := OneVotes(tr);
  }

  lemma OneVotes(tr: seq<Timed>) returns (tr': seq<Timed>)
    requires TimedRun(3, tr) && Untouched(tr[|tr| - 1])
    requires var s := tr[|tr| - 1].store.raft; Asking(s, 0, 1, {1}) && s.nodes[1] == Boot() && s.leaders == {}
    ensures TimedRun(3, tr') && Untouched(tr'[|tr'| - 1])
    ensures Crowned(tr'[|tr'| - 1].store.raft.nodes[0], 3) && Idle(tr'[|tr'| - 1].store.raft.nodes[1])
  {
    var b := Grants(tr[|tr| - 1].store.raft, 3, 0, 1, {1}, 1);
    tr' := QuietLonger(3, tr, b);
    var c := Counts(b, 3, 0, 1, {1}, 1);
    tr' := QuietLonger(3, tr', c);
  }

  /** One operation is asked at server 0; its waiter stands at index 1. */
  ghost predicate Waits(w: Timed, req: Request) {
    && |w.store.notify| == 3 && w.store.notify[0] == map[1 := 0] && Peers(w.store.raft, 3) && w.store.raft.regrants == {}
    && 0 in w.calls && w.calls[0].req == req && w.calls[0].done.None?
  }

  lemma OneIsAsked(tr: seq<Timed>, req: Request) returns (tr': seq<Timed>)
    requires TimedRun(3, tr) && Untouched(tr[|tr| - 1])
    requires Crowned(tr[|tr| - 1].store.raft.nodes[0], 3) && Idle(tr[|tr| - 1].store.raft.nodes[1])
    ensures TimedRun(3, tr') && Waits(tr'[|tr'| - 1], req)
    ensures var s := tr'[|tr'| - 1].store.raft;
            s.svc == Init(3).svc && Leads(s.nodes[0], 3, 0, Op(0, req), {}) && Follows(s.nodes[1])
  {
    var w := tr[|tr| - 1];
    var d := Starts(w.store.raft, 3, 0, Op(0, req));
    assert CanMove(w.store, Ask(0, 0, req));
    tr' := Longer(3, tr, Advance(w, Ask(0, 0, req)));
  }

  lemma OneIsReplicated(tr: seq<Timed>, req: Request) returns (tr': seq<Timed>)
    requires TimedRun(3, tr) && Waits(tr[|tr| - 1], req)
    requires var s := tr[|tr| - 1].store.raft;
             s.svc == Init(3).svc && Leads(s.nodes[0], 3, 0, Op(0, req), {}) && Follows(s.nodes[1])
    ensures TimedRun(3, tr') && Waits(tr'[|tr'| - 1], req)
    ensures var s := tr'[|tr'| - 1].store.raft; s.svc == Init(3).svc && Leads(s.nodes[0], 3, 0, Op(0, req), {1})
  {
    var op := Op(0, req);
    var e := Ships(tr[|tr| - 1].store.raft, 3, 0, op, {}, 1);
    tr' := QuietLonger(3, tr, e);
    var f := Takes(e, 3, 0, op, 1);
    tr' := QuietLonger(3, tr', f);
    var g := Hears(f, 3, 0, op, {}, 1);
    tr' := QuietLonger(3, tr', g);
    assert {} + {1} == {1};
  }

  lemma OneIsDelivered(tr: seq<Timed>, req: Request) returns (tr': seq<Timed>)
    requires TimedRun(3, tr) && Waits(tr[|tr| - 1], req)
    requires var s := tr[|tr| - 1].store.raft; s.svc == Init(3).svc && Leads(s.nodes[0], 3, 0, Op(0, req), {1})
    ensures TimedRun(3, tr') && Waits(tr'[|tr'| - 1], req)
    ensures var s := tr'[|tr'| - 1].store.raft;
            |s.svc| == 3 && s.svc[0] == Service([ApplyMsg(1, Op(0, req))], 0, map[])
  {
    var op := Op(0, req);
    var h := Commits(tr[|tr| - 1].store.raft, 3, 0, op, {1});
    tr' := QuietLonger(3, tr, h);
    var i := Applies(h, 3, 0, op);
    tr' := QuietLonger(3, tr', i);
  }

  /** For every request there is a run of three servers in which Submit returns OK with its reply on the empty table. */
  lemma SubmitCanSucceed(req: Request) returns (tr: seq<Timed>)
    ensures TimedRun(3, tr) && KvHistory.Completed(tr[|tr| - 1].calls, 0, DoOp(map[], req).1)
  {
    var b := OneLeads();
    b := OneIsAsked(b, req);
    b := OneIsReplicated(b, req);
    b := OneIsDelivered(b, req);
    var w := b[|b| - 1];
    assert CanMove(w.store, Inner(ReadOne(0))) && Answers(w.store, Inner(ReadOne(0)));
    tr := Longer(3, b, Advance(w, Inner(ReadOne(0))));
  }

  /** A Put at version 1 on the empty table is one whose history is not linearizable. */
  lemma SubmitCanMissKey() returns (tr: seq<Timed>)
    ensures TimedRun(3, tr) && !KvModel.Linearizable(tr[|tr| - 1].calls)
  {
    tr := SubmitCanSucceed(PutArgs("k", "v", 1));
    SubmitIsLinearizable(3, tr, |tr| - 1);
  }
}
