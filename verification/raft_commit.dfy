/** Answers to AppendEntries, new operations, commit, apply, snapshot and crash keep RaftInv.Safe. */
module RaftCommit {
  import opened RaftCore
  import opened RaftPeer
  import opened RaftRun
  import opened RaftInv
  import opened RaftSteps
  import opened RaftMedian

  // ---------------------------------------------------------------- answers

  lemma AnsweredLeader(c: Core, n: Node, i: nat, from: nat, a: AppendArgs, r: AppendReply)
    requires Leading(c, n, i) && MsgOk(c, AppendRsp(from, a, r)) && a.term == n.term == r.term
    ensures Leading(c, OnAppendReply(n, from, a, r), i)
  {
  }

  lemma AnswerKeepsRole(n: Node, from: nat, a: AppendArgs, r: AppendReply)
    requires n.log != [] && a.term <= n.term && r.term <= n.term
    requires a.term == n.term == r.term ==> from < |n.next| && from < |n.matched|
    ensures var n' := OnAppendReply(n, from, a, r);
            KeepsLog(n, n') && n'.role == n.role && n'.term == n.term && n'.vote == n.vote
  {
  }

  /** An answer of the current term or an old one: only the leader's bookkeeping moves. */
  lemma PlainAnswerKeeps(s: Cluster, i: nat, from: nat, a: AppendArgs, r: AppendReply)
    requires Safe(s) && Enabled(s, RecvAppendReply(i, from, a, r)) && r.term <= s.nodes[i].term
    ensures Safe(OnAppendAnswer(s, i, from, a, r))
  {
    var s' := OnAppendAnswer(s, i, from, a, r);
    var n := s.nodes[i];
    assert NodeOk(s, i) && MsgOk(s.core, AppendRsp(from, a, r)) && CallOk(s, AppendCall(i, from, a));
    AnswerKeepsRole(n, from, a, r);
    LocalRefl(s.core, i);
    SteadyKept(s.core, s.core, n, s'.nodes[i], s.svc[i]);
    if a.term == n.term == r.term {
      AnsweredLeader(s.core, n, i, from, a, r);
    }
    assert NodeOk(s', i);
    NodesKept(s, s', i, s'.nodes[i], s.svc[i], s.counted[i]);
    forall k | k in s.calls && OwnedBy(k, i)
      ensures CallOk(s', k)
    {
      assert CallOk(s, k);
    }
    CallsKept(s, s', i, s.calls);
  }

  lemma DeposedKeeps(s: Cluster, i: nat, from: nat, a: AppendArgs, r: AppendReply)
    requires Safe(s) && Enabled(s, RecvAppendReply(i, from, a, r)) && r.term > s.nodes[i].term
    ensures Safe(OnAppendAnswer(s, i, from, a, r))
  {
    var s' := OnAppendAnswer(s, i, from, a, r);
    assert NodeOk(s, i);
    if a.term == s.nodes[i].term {
      Extend(s.core, LBump(i, r.term));
      StepDownSurface(s, s', i, r.term);
    } else {
      assert s'.nodes == s.nodes && s' == s;
    }
  }

  // ---------------------------------------------------------------- a new operation

  lemma SubmitCore(c: Core, n: Node, i: nat, op: Op)
    requires Reachable(c) && Mirrors(c, n, i) && n.role == Leader && Leading(c, n, i)
    ensures var d := Append(c, i, op);
            Reachable(d) && Local(c, d, i) && Mirrors(d, Submit(n, op), i) && Leading(d, Submit(n, op), i)
  {
    Extend(c, LAppend(i, op));
  }

  lemma SubmitSteady(c: Core, d: Core, n: Node, op: Op, v: Service)
    requires Steady(c, n) && Serving(n, v) && n.role == Leader && Grows(c, d)
    ensures Steady(d, Submit(n, op)) && Serving(Submit(n, op), v)
  {
    var n' := Submit(n, op);
    assert n'.log[..n.commit + 1] == n.log[..n.commit + 1];
    CoveredOther(c, n.log, n'.log, n.commit, n.term);
    CoveredGrows(c, d, n'.log, n.commit, n.term, n.term);
    AgreeBelow(n'.log, n.log, n.commit, n.applied);
    ServingAgrees(n, n', v);
  }

  /** Calls of i survive when its term, role and counted votes do. */
  lemma SameCalls(s: Cluster, s': Cluster, i: nat)
    requires Basic(s) && Basic(s') && i < |s.nodes| == |s'.nodes| && CallsOk(s, s.calls)
    requires forall j :: 0 <= j < |s.nodes| && j != i ==> s'.nodes[j] == s.nodes[j]
    requires s'.counted == s.counted && s'.nodes[i].role == s.nodes[i].role && s'.nodes[i].term == s.nodes[i].term
    ensures CallsOk(s', s.calls)
  {
    forall k | k in s.calls && OwnedBy(k, i)
      ensures CallOk(s', k)
    {
      assert CallOk(s, k);
    }
    CallsKept(s, s', i, s.calls);
  }

  /** A step of i alone: no message, no call, no delivery, same role and term. */
  lemma QuietSurface(s: Cluster, s': Cluster, i: nat, n: Node, v: Service)
    requires Surface(s) && Basic(s') && i < |s.nodes| && Moved(s, s', i, n, v, s.counted[i])
    requires n.role == s.nodes[i].role && n.term == s.nodes[i].term && Local(s.core, s'.core, i)
    requires s'.net == s.net && s'.calls == s.calls && s.delivered <= s'.delivered
    requires NodeOk(s', i) && DeliveriesOk(s'.core, s'.delivered - s.delivered)
    ensures Surface(s')
  {
    NodesKept(s, s', i, n, v, s.counted[i]);
    SameCalls(s, s', i);
    MsgsKept(s.core, s'.core, i, s.net, {});
    DeliveriesKept(s.core, s'.core, i, s.delivered);
  }

  lemma SubmitKeeps(s: Cluster, i: nat, op: Op)
    requires Safe(s) && i < |s.nodes| && op.Op?
    ensures Safe(Next(s, StartOp(i, op)))
  {
    var s' := Next(s, StartOp(i, op));
    var n := s.nodes[i];
    if n.role == Leader {
      assert NodeOk(s, i);
      SubmitCore(s.core, n, i, op);
      SubmitSteady(s.core, s'.core, n, op, s.svc[i]);
      QuietSurface(s, s', i, Submit(n, op), s.svc[i]);
    }
  }

  // ---------------------------------------------------------------- commit

  lemma SelfAckCore(c: Core, n: Node, i: nat)
    requires Reachable(c) && Mirrors(c, n, i) && Leading(c, n, i)
    ensures var d := SelfAck(c, i);
            && Reachable(d) && Local(c, d, i)
            && d.term == c.term && d.vote == c.vote && d.log == c.log && d.tlog == c.tlog && d.wins == c.wins
            && d.acks == c.acks + {Ack(i, n.term, LastIndex(n.log))}
  {
    var last := LastIndex(n.log);
    Extend(c, LAccept(i, last, last));
    assert c.log[i := c.log[i]] == c.log;
  }

  /** The servers whose matchIndex reaches the median meet every majority. */
  lemma MedianIsChosen(c: Core, n: Node, i: nat)
    requires Sized(c) && Leading(c, n, i) && |c.term| > 0
    requires var m := Median(n.matched); 0 < m < |n.log| && n.log[m].term == n.term
    ensures Chosen(c, n.term, Median(n.matched))
  {
    var m := Median(n.matched);
    var q := Reachers(n.matched, m);
    MedianExact(n.matched, m);
    ReachersCard(n.matched, m);
    forall j | j in q
      ensures j in Servers(|c.term|) && Acked(c, j, n.term, m)
    {
      assert MatchedBy(c, j, n.term, n.matched[j]);
    }
    assert ChosenBy(c, n.term, m, q);
  }

  lemma CommitLeading(c: Core, d: Core, n: Node, i: nat)
    requires Sized(c) && Sized(d) && Leading(c, n, i) && i < |c.term| && Steady(c, n)
    requires d.term == c.term && d.tlog == c.tlog && d.wins == c.wins
    requires d.acks == c.acks + {Ack(i, n.term, LastIndex(n.log))}
    requires CanCommit(n, i)
    ensures var n' := AdvanceCommit(n, i);
            && Leading(d, n', i) && KeepsLog(n, n'.(commit := n.commit)) && n'.role == n.role
            && n'.vote == n.vote && n'.term == n.term
            && n.commit <= n'.commit < |n'.log|
            && (n'.commit != n.commit ==> Chosen(d, n'.term, n'.commit))
  {
    var m := n.(matched := n.matched[i := LastIndex(n.log)]);
    assert Leading(d, m, i);
    MedianIsElement(m.matched);
    var k := Median(m.matched);
    if k > m.commit && m.log[k].term == m.term {
      MedianIsChosen(d, m, i);
    }
  }

  lemma CommitSteady(c: Core, d: Core, n: Node, n': Node, v: Service)
    requires Steady(c, n) && Serving(n, v) && Grows(c, d) && KeepsLog(n, n'.(commit := n.commit)) && n'.term == n.term
    requires n.commit <= n'.commit < |n'.log| && n'.term in d.tlog && n'.log == d.tlog[n'.term]
    requires n'.commit != n.commit ==> Chosen(d, n'.term, n'.commit)
    ensures Steady(d, n') && Serving(n', v)
  {
    if n'.commit != n.commit {
      assert CoveredBy(d, n'.log, n'.commit, n'.term, n'.term, n'.commit);
    } else {
      CoveredGrows(c, d, n.log, n.commit, n.term, n.term);
    }
  }

  lemma CommitKeeps(s: Cluster, i: nat)
    requires Safe(s) && Enabled(s, CommitTick(i))
    ensures Safe(Next(s, CommitTick(i)))
  {
    var s' := Next(s, CommitTick(i));
    var n := s.nodes[i];
    assert NodeOk(s, i);
    SelfAckCore(s.core, n, i);
    CommitLeading(s.core, s'.core, n, i);
    CommitSteady(s.core, s'.core, n, s'.nodes[i], s.svc[i]);
    QuietSurface(s, s', i, s'.nodes[i], s.svc[i]);
  }

  // ---------------------------------------------------------------- apply and execute

  lemma DeliverOk(c: Core, n: Node)
    requires Steady(c, n)
    ensures DeliveriesOk(c, set m | m in Deliverable(n))
  {
    var t: nat, k: nat :| CoveredBy(c, n.log, n.commit, n.term, t, k);
    forall m | m in Deliverable(n)
      ensures DeliveredOk(c, m)
    {
      assert n.log[m.index] == n.log[..n.commit + 1][m.index];
      assert c.tlog[t][m.index] == c.tlog[t][..n.commit + 1][m.index];
      assert DeliveredBy(c, m, t, k);
    }
  }

  lemma DeliverServing(n: Node, v: Service)
    requires Serving(n, v) && n.applied <= n.commit < |n.log|
    ensures Serving(Deliver(n), v.(queue := v.queue + Deliverable(n)))
  {
  }

  lemma ApplyKeeps(s: Cluster, i: nat)
    requires Safe(s) && Enabled(s, ApplyTick(i))
    ensures Safe(Next(s, ApplyTick(i)))
  {
    var s' := Next(s, ApplyTick(i));
    var n := s.nodes[i];
    assert NodeOk(s, i);
    LocalRefl(s.core, i);
    DeliverOk(s.core, n);
    DeliverServing(n, s.svc[i]);
    QuietSurface(s, s', i, Deliver(n), s'.svc[i]);
  }

  lemma ReadKeeps(s: Cluster, i: nat)
    requires Safe(s) && Enabled(s, ReadOne(i))
    ensures Safe(Next(s, ReadOne(i)))
  {
    var s' := Next(s, ReadOne(i));
    assert NodeOk(s, i);
    LocalRefl(s.core, i);
    assert s.nodes[i := s.nodes[i]] == s.nodes;
    QuietSurface(s, s', i, s.nodes[i], s'.svc[i]);
  }

  lemma SnapshotKeeps(s: Cluster, i: nat)
    requires Safe(s) && Enabled(s, SnapshotNow(i))
    ensures Safe(Next(s, SnapshotNow(i)))
  {
    var s' := Next(s, SnapshotNow(i));
    assert NodeOk(s, i);
    LocalRefl(s.core, i);
    QuietSurface(s, s', i, s'.nodes[i], s.svc[i]);
  }

  // ---------------------------------------------------------------- crash

  lemma CrashNode(c: Core, n: Node, v: Service)
    requires Steady(c, n) && Serving(n, v)
    ensures var n' := Restart(n.disk);
            && n'.term == n.term && n'.vote == n.vote && n'.log == n.log
            && Steady(c, n') && Serving(n', Service([], n'.snapIndex, n'.snapshot))
  {
    CoveredBelow(c, n.log, n.commit, n.snapIndex, n.term);
  }

  lemma CrashKeeps(s: Cluster, i: nat)
    requires Safe(s) && i < |s.nodes|
    ensures Safe(OnCrash(s, i))
  {
    var s' := OnCrash(s, i);
    assert NodeOk(s, i);
    LocalRefl(s.core, i);
    CrashNode(s.core, s.nodes[i], s.svc[i]);
    NodesKept(s, s', i, s'.nodes[i], s'.svc[i], s.counted[i]);
    CallsKept(s, s', i, s'.calls);
  }

  // ---------------------------------------------------------------- all steps

  lemma InitSafe(n: nat)
    ensures Safe(Init(n))
  {
    var s := Init(n);
    assert s.core == After(n, []);
    var c := s.core;
    assert Chosen(c, 0, 0);
    forall i | 0 <= i < n
      ensures NodeOk(s, i)
    {
      assert CoveredBy(c, [DUMMY], 0, 0, 0, 0);
    }
  }
}
