/**
 kvraft1's Submit on top of a raft1 cluster (kvraft1/rsm/rsm.go): an operation with a fresh id is
 started, a waiter is registered under the index Start returned, and the reader answers that
 waiter only if the operation it executes at that index carries the same id.
 */
module RaftSubmit {
  import opened Kv
  import opened RaftCore
  import opened RaftPeer
  import opened RaftRun
  import opened RaftInv
  import opened RaftSteps
  import opened RaftCommit
  import opened RaftTheorems

  /** Submit of operation id returned OK with this reply, executed at this index. */
  datatype Answer = Answer(id: nat, index: nat, reply: Reply)

  /** What was asked under an id, the index Start gave it, and the answers already out by then. */
  datatype Question = Question(req: Request, index: nat, earlier: set<Answer>)

  datatype Store = Store(raft: Cluster, notify: seq<map<nat, nat>>, asked: map<nat, Question>, answers: set<Answer>)

  datatype Move =
    | Inner(e: Step)
    | Ask(i: nat, id: nat, req: Request)
    | GiveUp(i: nat, index: nat)

  ghost predicate CanMove(s: Store, m: Move) {
    && |s.notify| == |s.raft.nodes|
    && match m
       case Inner(e) => Enabled(s.raft, e) && !e.StartOp?
       case Ask(i, id, req) => Enabled(s.raft, StartOp(i, Op(id, req))) && id !in s.asked
       case GiveUp(i, _) => i < |s.notify|
  }

  /** The reader's answer to whoever waits at the index it executes. */
  ghost function Answered(s: Store, i: nat): set<Answer>
    requires Enabled(s.raft, ReadOne(i)) && i < |s.notify|
  {
    var v := s.raft.svc[i];
    var m := v.queue[0];
    if m.op.Op? && m.index in s.notify[i] && s.notify[i][m.index] == m.op.id
    then {Answer(m.op.id, m.index, Execute(v.table, m.op).1)}
    else {}
  }

  function Register(m: map<nat, nat>, index: nat, id: nat): map<nat, nat> { m[index := id] }

  function Unregister(m: map<nat, nat>, index: nat): map<nat, nat> { m - {index} }

  ghost function MoveTo(s: Store, m: Move): Store
    requires CanMove(s, m)
  {
    match m
    case Inner(e) =>
      var s' := s.(raft := Next(s.raft, e));
      if e.ReadOne? then s'.(answers := s.answers + Answered(s, e.i))
      else if e.Crash? then s'.(notify := s.notify[e.i := map[]])
      else s'
    case Ask(i, id, req) =>
      var n := s.raft.nodes[i];
      var index: nat := |n.log|;
      if n.role != Leader then s
      else
        s.(raft := Next(s.raft, StartOp(i, Op(id, req))),
           notify := s.notify[i := Register(s.notify[i], index, id)],
           asked := s.asked[id := Question(req, index, s.answers)])
    case GiveUp(i, index) => s.(notify := s.notify[i := Unregister(s.notify[i], index)])
  }

  // ---------------------------------------------------------------- what Submit and the reader do

  /** Submit at a leader: the operation enters the log, and a waiter with its id stands at its index. Elsewhere nothing happens. */
  lemma AskRule(s: Store, i: nat, id: nat, req: Request)
    requires CanMove(s, Ask(i, id, req))
    ensures var s' := MoveTo(s, Ask(i, id, req));
            var n := s.raft.nodes[i];
            && (n.role != Leader ==> s' == s)
            && (n.role == Leader ==>
                  && s'.raft == Next(s.raft, StartOp(i, Op(id, req))) && s'.answers == s.answers
                  && |s'.notify| == |s.notify| && (forall j :: 0 <= j < |s.notify| && j != i ==> s'.notify[j] == s.notify[j])
                  && (forall x :: x in s'.notify[i] <==> x in s.notify[i] || x == |n.log|)
                  && (forall x :: x in s'.notify[i] ==> s'.notify[i][x] == if x == |n.log| then id else s.notify[i][x])
                  && id in s'.asked && s'.asked[id] == Question(req, |n.log|, s.answers)
                  && forall x :: x in s.asked ==> x in s'.asked && s'.asked[x] == s.asked[x])
  {
  }

  /**
   The reader executes the next delivered operation. It answers exactly the waiter at that index, if
   that waiter asked this operation, with the reply of executing it on its table.
   */
  lemma ReadRule(s: Store, i: nat, a: Answer)
    requires CanMove(s, Inner(ReadOne(i)))
    ensures var v := s.raft.svc[i];
            var m := v.queue[0];
            var s' := MoveTo(s, Inner(ReadOne(i)));
            && s'.raft == Next(s.raft, ReadOne(i)) && s'.notify == s.notify && s'.asked == s.asked
            && (a in s'.answers <==>
                  || a in s.answers
                  || (m.op.Op? && m.index in s.notify[i] && s.notify[i][m.index] == m.op.id
                      && a == Answer(m.op.id, m.index, DoOp(v.table, m.op.req).1)))
            && (m.op.Op? ==> s'.raft.svc[i] == Service(v.queue[1..], m.index, DoOp(v.table, m.op.req).0))
  {
  }

  // ---------------------------------------------------------------- invariant

  /** Every operation in a leader's log was asked, and sits where Start put it. */
  ghost predicate Placed(asked: map<nat, Question>, k: nat, op: Op) {
    op.Op? ==> op.id in asked && asked[op.id].req == op.req && asked[op.id].index == k
  }

  ghost predicate AllPlaced(c: Core, asked: map<nat, Question>) {
    forall t: nat, k: nat :: t in c.tlog && k < |c.tlog[t]| ==> Placed(asked, k, c.tlog[t][k].op)
  }

  ghost predicate AnsweredBy(c: Core, asked: map<nat, Question>, a: Answer, t: nat, m: nat) {
    && Chosen(c, t, m) && 0 < a.index <= m && a.id in asked
    && c.tlog[t][a.index].op == Op(a.id, asked[a.id].req)
    && a.reply == Execute(Replay(c.tlog[t], a.index - 1), c.tlog[t][a.index].op).1
  }

  ghost predicate AnswerOk(c: Core, asked: map<nat, Question>, a: Answer) {
    exists t: nat, m: nat :: AnsweredBy(c, asked, a, t, m)
  }

  ghost predicate Absent(l: Log, m: nat, id: nat) {
    forall k :: 0 <= k <= m && k < |l| && l[k].op.Op? ==> l[k].op.id != id
  }

  ghost predicate PrecededBy(c: Core, id: nat, a: Answer, t: nat, m: nat) {
    Chosen(c, t, m) && a.index <= m && Absent(c.tlog[t], m, id)
  }

  /** When id was asked, a's index was already chosen without it. */
  ghost predicate Precedes(c: Core, id: nat, a: Answer) {
    exists t: nat, m: nat :: PrecededBy(c, id, a, t, m)
  }

  ghost predicate StoreOk(s: Store) {
    && Safe(s.raft) && |s.notify| == |s.raft.nodes|
    && AllPlaced(s.raft.core, s.asked)
    && (forall a :: a in s.answers ==> AnswerOk(s.raft.core, s.asked, a))
    && (forall id, a :: id in s.asked && a in s.asked[id].earlier ==> Precedes(s.raft.core, id, a))
  }

  // ---------------------------------------------------------------- steps

  ghost predicate HasAt(c: Core, u: nat, k: nat, e: Entry) {
    u in c.tlog && k < |c.tlog[u]| && c.tlog[u][k] == e
  }

  ghost predicate Sourced(c: Core, k: nat, e: Entry) {
    exists u: nat :: HasAt(c, u, k, e)
  }

  /** Entries of leader logs only come from leader logs. */
  ghost predicate NothingNew(c: Core, d: Core) {
    forall t: nat, k: nat :: t in d.tlog && k < |d.tlog[t]| ==> Sourced(c, k, d.tlog[t][k])
  }

  lemma NothingNewIfSame(c: Core, d: Core)
    requires d.tlog == c.tlog
    ensures NothingNew(c, d)
  {
    forall t: nat, k: nat | t in d.tlog && k < |d.tlog[t]|
      ensures Sourced(c, k, d.tlog[t][k])
    {
      assert HasAt(c, t, k, d.tlog[t][k]);
    }
  }

  lemma ElectNothingNew(c: Core, t: nat, l: Log, d: Core)
    requires Anchored(c, l) && d.tlog == c.tlog[t := l]
    ensures NothingNew(c, d)
  {
    forall u: nat, k: nat | u in d.tlog && k < |d.tlog[u]|
      ensures Sourced(c, k, d.tlog[u][k])
    {
      if u == t {
        assert AnchoredAt(c, l, k);
        assert HasAt(c, l[k].term, k, l[..k + 1][k]);
      } else {
        assert HasAt(c, u, k, d.tlog[u][k]);
      }
    }
  }

  lemma PlacedKept(c: Core, d: Core, asked: map<nat, Question>)
    requires AllPlaced(c, asked) && NothingNew(c, d)
    ensures AllPlaced(d, asked)
  {
    forall t: nat, k: nat | t in d.tlog && k < |d.tlog[t]|
      ensures Placed(asked, k, d.tlog[t][k].op)
    {
      var u: nat :| HasAt(c, u, k, d.tlog[t][k]);
      assert Placed(asked, k, c.tlog[u][k].op);
    }
  }

  lemma AnswerStays(c: Core, d: Core, asked: map<nat, Question>, asked': map<nat, Question>, a: Answer)
    requires Grows(c, d) && AnswerOk(c, asked, a)
    requires forall id :: id in asked ==> id in asked' && asked'[id] == asked[id]
    ensures AnswerOk(d, asked', a)
  {
    var t: nat, m: nat :| AnsweredBy(c, asked, a, t, m);
    ChosenGrows(c, d, t, m);
    var k: nat := a.index - 1;
    assert Agree(c.tlog[t], d.tlog[t], k);
    ReplayAgrees(c.tlog[t], d.tlog[t], k);
    assert AnsweredBy(d, asked', a, t, m);
  }

  lemma PrecedesStays(c: Core, d: Core, id: nat, a: Answer)
    requires Grows(c, d) && Precedes(c, id, a)
    ensures Precedes(d, id, a)
  {
    var t: nat, m: nat :| PrecededBy(c, id, a, t, m);
    ChosenGrows(c, d, t, m);
    assert PrecededBy(d, id, a, t, m);
  }

  lemma NodeAnchored(c: Core, i: nat)
    requires Reachable(c) && Sized(c) && i < |c.term|
    ensures Anchored(c, c.log[i])
  {
    ReachableInv(c);
  }

  lemma AnswerNothingNew(s: Cluster, i: nat, from: nat, a: VoteArgs, r: VoteReply)
    requires Basic(s) && Reachable(s.core) && i < |s.nodes| && NodeOk(s, i) && a.cand == i
    requires CallOk(s, VoteCall(i, a.term, from)) && MsgOk(s.core, VoteRsp(from, a, r))
    ensures NothingNew(s.core, OnVoteAnswer(s, i, from, a, r).core)
  {
    var s' := OnVoteAnswer(s, i, from, a, r);
    NodeAnchored(s.core, i);
    if s'.core.tlog == s.core.tlog {
      NothingNewIfSame(s.core, s'.core);
    } else {
      AnswerTlog(s, i, from, a, r);
      ElectNothingNew(s.core, s.nodes[i].term, s.nodes[i].log, s'.core);
    }
  }

  lemma AnswerTlog(s: Cluster, i: nat, from: nat, a: VoteArgs, r: VoteReply)
    requires Basic(s) && i < |s.nodes| && Coupled(s, i)
    ensures var d := OnVoteAnswer(s, i, from, a, r).core;
            d.tlog == s.core.tlog || d.tlog == s.core.tlog[s.nodes[i].term := s.nodes[i].log]
  {
  }

  /** No step but a leader's Start puts anything new in a leader's log. */
  lemma StepNothingNew(s: Cluster, e: Step)
    requires Safe(s) && Enabled(s, e) && !e.StartOp?
    ensures NothingNew(s.core, Next(s, e).core)
  {
    if e.RecvVoteReply? {
      assert NodeOk(s, e.i) && CallOk(s, VoteCall(e.i, e.va.term, e.from)) && MsgOk(s.core, VoteRsp(e.from, e.va, e.vr));
      AnswerNothingNew(s, e.i, e.from, e.va, e.vr);
    } else {
      SameTlog(s, e);
      NothingNewIfSame(s.core, Next(s, e).core);
    }
  }

  lemma SameTlog(s: Cluster, e: Step)
    requires Enabled(s, e) && !e.StartOp? && !e.RecvVoteReply?
    ensures Next(s, e).core.tlog == s.core.tlog
  {
    match e
    case RecvVote(i, a) => VoteSame(s, i, a);
    case RecvAppend(i, a) => AppendTlog(s, i, a);
    case _ => OtherTlog(s, e);
  }

  lemma AppendTlog(s: Cluster, i: nat, a: AppendArgs)
    requires Basic(s) && i < |s.nodes|
    ensures OnAppendRequest(s, i, a).core.tlog == s.core.tlog
  {
  }

  lemma OtherTlog(s: Cluster, e: Step)
    requires Enabled(s, e) && !e.StartOp? && !e.RecvVoteReply? && !e.RecvVote? && !e.RecvAppend?
    ensures Next(s, e).core.tlog == s.core.tlog
  {
  }

  /** The reader answers with the reply of executing the asked operation at its own index. */
  lemma ReaderAnswers(s: Store, i: nat, a: Answer)
    requires StoreOk(s) && Enabled(s.raft, ReadOne(i)) && i < |s.notify| && a in Answered(s, i)
    ensures AnswerOk(s.raft.core, s.asked, a)
  {
    assert NodeOk(s.raft, i);
    ReaderAnswer(s.raft.core, s.raft.nodes[i], s.raft.svc[i], s.asked, a);
  }

  lemma ReaderAnswer(c: Core, n: Node, v: Service, asked: map<nat, Question>, a: Answer)
    requires Steady(c, n) && Serving(n, v) && AllPlaced(c, asked) && v.queue != []
    requires var m := v.queue[0];
             m.op.Op? && a == Answer(m.op.id, m.index, Execute(v.table, m.op).1)
    ensures AnswerOk(c, asked, a)
  {
    var t: nat, m: nat :| CoveredBy(c, n.log, n.commit, n.term, t, m);
    var k := v.done + 1;
    assert v.queue[0] == ApplyMsg(k, n.log[k].op);
    AgreeBelow(n.log, c.tlog[t], n.commit, k);
    AgreeBelow(n.log, c.tlog[t], n.commit, v.done);
    assert n.log[k] == n.log[..k + 1][k] == c.tlog[t][..k + 1][k] == c.tlog[t][k];
    ReplayAgrees(n.log, c.tlog[t], v.done);
    assert Placed(asked, k, c.tlog[t][k].op);
    assert AnsweredBy(c, asked, a, t, m);
  }

  lemma AskPlaced(c: Core, i: nat, id: nat, req: Request, asked: map<nat, Question>, earlier: set<Answer>)
    requires Sized(c) && CanAppend(c, i) && AllPlaced(c, asked) && id !in asked
    ensures AllPlaced(Append(c, i, Op(id, req)), asked[id := Question(req, |c.log[i]|, earlier)])
  {
    var d := Append(c, i, Op(id, req));
    var asked' := asked[id := Question(req, |c.log[i]|, earlier)];
    forall t: nat, k: nat | t in d.tlog && k < |d.tlog[t]|
      ensures Placed(asked', k, d.tlog[t][k].op)
    {
      if t in c.tlog && k < |c.tlog[t]| {
        assert Placed(asked, k, c.tlog[t][k].op);
      }
    }
  }

  /** Everything answered so far precedes an operation nobody has asked before. */
  lemma AskPrecedes(c: Core, asked: map<nat, Question>, id: nat, a: Answer)
    requires AllPlaced(c, asked) && id !in asked && AnswerOk(c, asked, a)
    ensures Precedes(c, id, a)
  {
    var t: nat, m: nat :| AnsweredBy(c, asked, a, t, m);
    forall k | 0 <= k <= m && k < |c.tlog[t]| && c.tlog[t][k].op.Op?
      ensures c.tlog[t][k].op.id != id
    {
      assert Placed(asked, k, c.tlog[t][k].op);
    }
    assert PrecededBy(c, id, a, t, m);
  }

  lemma AskOrder(c: Core, d: Core, asked: map<nat, Question>, id: nat, q: Question)
    requires Grows(c, d) && AllPlaced(c, asked) && id !in asked
    requires forall a :: a in q.earlier ==> AnswerOk(c, asked, a)
    requires forall x, a :: x in asked && a in asked[x].earlier ==> Precedes(c, x, a)
    ensures var asked' := asked[id := q];
            forall x, a :: x in asked' && a in asked'[x].earlier ==> Precedes(d, x, a)
  {
    var asked' := asked[id := q];
    forall x, a | x in asked' && a in asked'[x].earlier
      ensures Precedes(d, x, a)
    {
      if x == id {
        AskPrecedes(c, asked, id, a);
      }
      PrecedesStays(c, d, x, a);
    }
  }

  lemma AskAnswers(c: Core, d: Core, asked: map<nat, Question>, id: nat, q: Question, answers: set<Answer>)
    requires Grows(c, d) && id !in asked && forall a :: a in answers ==> AnswerOk(c, asked, a)
    ensures forall a :: a in answers ==> AnswerOk(d, asked[id := q], a)
  {
    forall a | a in answers
      ensures AnswerOk(d, asked[id := q], a)
    {
      AnswerStays(c, d, asked, asked[id := q], a);
    }
  }

  lemma AskKeeps(s: Store, i: nat, id: nat, req: Request)
    requires StoreOk(s) && CanMove(s, Ask(i, id, req)) && s.raft.nodes[i].role == Leader
    ensures StoreOk(MoveTo(s, Ask(i, id, req)))
  {
    var s' := MoveTo(s, Ask(i, id, req));
    var (c, d) := (s.raft.core, s'.raft.core);
    var q := Question(req, |s.raft.nodes[i].log|, s.answers);
    assert NodeOk(s.raft, i);
    SubmitKeeps(s.raft, i, Op(id, req));
    SubmitCore(c, s.raft.nodes[i], i, Op(id, req));
    AskPlaced(c, i, id, req, s.asked, s.answers);
    AskAnswers(c, d, s.asked, id, q, s.answers);
    AskOrder(c, d, s.asked, id, q);
  }

  lemma AnswersKept(c: Core, d: Core, asked: map<nat, Question>, was: set<Answer>, now: set<Answer>)
    requires Grows(c, d) && was <= now
    requires forall a :: a in now ==> AnswerOk(c, asked, a)
    ensures forall a :: a in now ==> AnswerOk(d, asked, a)
  {
    forall a | a in now
      ensures AnswerOk(d, asked, a)
    {
      AnswerStays(c, d, asked, asked, a);
    }
  }

  lemma OrderKept(c: Core, d: Core, asked: map<nat, Question>)
    requires Grows(c, d)
    requires forall id, a :: id in asked && a in asked[id].earlier ==> Precedes(c, id, a)
    ensures forall id, a :: id in asked && a in asked[id].earlier ==> Precedes(d, id, a)
  {
    forall id, a | id in asked && a in asked[id].earlier
      ensures Precedes(d, id, a)
    {
      PrecedesStays(c, d, id, a);
    }
  }

  lemma InnerAnswers(s: Store, e: Step)
    requires StoreOk(s) && CanMove(s, Inner(e))
    ensures forall a :: a in MoveTo(s, Inner(e)).answers ==> AnswerOk(s.raft.core, s.asked, a)
  {
    forall a | a in MoveTo(s, Inner(e)).answers
      ensures AnswerOk(s.raft.core, s.asked, a)
    {
      if a !in s.answers {
        ReaderAnswers(s, e.i, a);
      }
    }
  }

  lemma InnerShape(s: Store, e: Step)
    requires CanMove(s, Inner(e))
    ensures var s' := MoveTo(s, Inner(e));
            && s'.raft == Next(s.raft, e) && |s'.notify| == |s'.raft.nodes|
            && s'.asked == s.asked && s.answers <= s'.answers
  {
    SameCount(s.raft, e);
  }

  lemma InnerKeeps(s: Store, e: Step)
    requires StoreOk(s) && CanMove(s, Inner(e)) && Guarded(Next(s.raft, e))
    ensures StoreOk(MoveTo(s, Inner(e)))
  {
    var s' := MoveTo(s, Inner(e));
    InnerShape(s, e);
    InnerAnswers(s, e);
    InnerParts(s, s', e);
  }

  lemma InnerParts(s: Store, s': Store, e: Step)
    requires StoreOk(s) && Enabled(s.raft, e) && !e.StartOp? && s'.raft == Next(s.raft, e)
    requires Guarded(s'.raft) && |s'.notify| == |s'.raft.nodes|
    requires s'.asked == s.asked && s.answers <= s'.answers
    requires forall a :: a in s'.answers ==> AnswerOk(s.raft.core, s.asked, a)
    ensures StoreOk(s')
  {
    StepSafe(s.raft, e);
    StepGrows(s.raft, e);
    StepNothingNew(s.raft, e);
    PlacedKept(s.raft.core, s'.raft.core, s.asked);
    AnswersKept(s.raft.core, s'.raft.core, s.asked, s.answers, s'.answers);
    OrderKept(s.raft.core, s'.raft.core, s.asked);
  }

  lemma SameCount(s: Cluster, e: Step)
    requires Enabled(s, e)
    ensures |Next(s, e).nodes| == |s.nodes|
  {
  }

  // ---------------------------------------------------------------- runs

  ghost predicate Moves(s: Store, s': Store) {
    exists m :: CanMove(s, m) && s' == MoveTo(s, m)
  }

  ghost predicate StoreRun(n: nat, tr: seq<Store>) {
    && tr != [] && Guarded(tr[|tr| - 1].raft)
    && if |tr| == 1 then tr[0] == Store(Init(n), seq(n, _ => map[]), map[], {})
       else StoreRun(n, tr[..|tr| - 1]) && Moves(tr[|tr| - 2], tr[|tr| - 1])
  }

  lemma MoveKeeps(s: Store, s': Store)
    requires StoreOk(s) && Moves(s, s') && Guarded(s'.raft)
    ensures StoreOk(s')
  {
    var m :| CanMove(s, m) && s' == MoveTo(s, m);
    match m
    case Inner(e) => InnerKeeps(s, e);
    case Ask(i, id, req) =>
      if s.raft.nodes[i].role == Leader { AskKeeps(s, i, id, req); }
    case GiveUp(_, _) =>
  }

  lemma {:induction false} StoreRunOk(n: nat, tr: seq<Store>)
    requires StoreRun(n, tr)
    ensures StoreOk(tr[|tr| - 1])
    decreases |tr|
  {
    if |tr| == 1 {
      InitSafe(n);
      assert Init(n).core.tlog == map[0 := [DUMMY]];
    } else {
      StoreRunOk(n, tr[..|tr| - 1]);
      MoveKeeps(tr[|tr| - 2], tr[|tr| - 1]);
    }
  }

  /**
   A Submit that returned OK returned the reply of its own operation, executed once, at the index
   Start had given it, on the table left by the chosen operations before it.
   */
  lemma SubmitReturnsItsOwnReply(n: nat, tr: seq<Store>, a: Answer)
    requires StoreRun(n, tr) && a in tr[|tr| - 1].answers
    ensures var s := tr[|tr| - 1];
            && a.id in s.asked && a.index == s.asked[a.id].index
            && AnswerOk(s.raft.core, s.asked, a)
  {
    StoreRunOk(n, tr);
    var s := tr[|tr| - 1];
    var t: nat, m: nat :| AnsweredBy(s.raft.core, s.asked, a, t, m);
    assert Placed(s.asked, a.index, s.raft.core.tlog[t][a.index].op);
  }

  lemma EarlierIsBelow(c: Core, asked: map<nat, Question>, a: Answer, b: Answer, t: nat, m: nat, u: nat, k: nat)
    requires Reachable(c) && AnsweredBy(c, asked, b, t, m) && PrecededBy(c, b.id, a, u, k)
    ensures a.index < b.index
  {
    if b.index <= a.index {
      BothChosen(c, t, m, u, k, b.index);
    }
  }

  lemma BothChosen(c: Core, t: nat, m: nat, u: nat, k: nat, j: nat)
    requires Reachable(c) && Chosen(c, t, m) && Chosen(c, u, k) && j <= m && j <= k
    ensures c.tlog[t][j] == c.tlog[u][j]
  {
    assert Agree(c.tlog[t], c.tlog[u], j) by {
      ReachableInv(c);
      ChosenAgree(c, t, m, u, k, j);
    }
    AgreeAt(c.tlog[t], c.tlog[u], j);
  }

  lemma AgreeAt(l: Log, r: Log, j: nat)
    requires Agree(l, r, j)
    ensures l[j] == r[j]
  {
    assert l[j] == l[..j + 1][j];
    assert r[j] == r[..j + 1][j];
  }

  /** Real-time order: what was answered before an operation was asked lies below it in the log. */
  lemma AnswersRespectRealTime(n: nat, tr: seq<Store>, a: Answer, b: Answer)
    requires StoreRun(n, tr) && b in tr[|tr| - 1].answers && b.id in tr[|tr| - 1].asked
    requires a in tr[|tr| - 1].asked[b.id].earlier
    ensures a.index < b.index
  {
    StoreRunOk(n, tr);
    var s := tr[|tr| - 1];
    var t: nat, m: nat :| AnsweredBy(s.raft.core, s.asked, b, t, m);
    var u: nat, k: nat :| PrecededBy(s.raft.core, b.id, a, u, k);
    EarlierIsBelow(s.raft.core, s.asked, a, b, t, m, u, k);
  }
}
