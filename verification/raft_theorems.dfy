/** What holds over whole guarded runs of a raft1 cluster of any size, with crashes and restarts. */
module RaftTheorems {
  import opened RaftCore
  import opened RaftPeer
  import opened RaftRun
  import opened RaftInv
  import opened RaftSteps
  import opened RaftAppend
  import opened RaftCommit
  import opened RaftRules

  // ---------------------------------------------------------------- one step

  lemma StepSafe(s: Cluster, e: Step)
    requires Safe(s) && Enabled(s, e) && Guarded(Next(s, e))
    ensures Safe(Next(s, e))
  {
    match e
    case Timeout(i) => TimeoutKeeps(s, i);
    case RecvVote(i, a) => VoteKeeps(s, i, a);
    case RecvVoteReply(i, from, a, r) => AnswerKeeps(s, i, from, a, r);
    case SendAppend(i, to) => SendKeeps(s, i, to);
    case RecvAppend(i, a) =>
      if a.term < s.nodes[i].term { StaleAppendKeeps(s, i, a); } else { FreshAppendKeeps(s, i, a); }
    case RecvAppendReply(i, from, a, r) =>
      if r.term <= s.nodes[i].term { PlainAnswerKeeps(s, i, from, a, r); } else { DeposedKeeps(s, i, from, a, r); }
    case StartOp(i, op) => SubmitKeeps(s, i, op);
    case CommitTick(i) => CommitKeeps(s, i);
    case ApplyTick(i) => ApplyKeeps(s, i);
    case ReadOne(i) => ReadKeeps(s, i);
    case SnapshotNow(i) => SnapshotKeeps(s, i);
    case Crash(i) => CrashKeeps(s, i);
  }

  lemma VoteGrows(s: Cluster, i: nat, a: VoteArgs)
    requires Safe(s) && i < |s.nodes| && VoteReq(i, a) in s.net && Guarded(OnVoteRequest(s, i, a))
    ensures Grows(s.core, OnVoteRequest(s, i, a).core)
  {
    assert NodeOk(s, i);
    assert Won(s.core, a.term, i) ==> (a.term, i) in s.leaders;
    VoteCore(s.core, s.nodes[i], i, a);
  }

  lemma AnswerGrows(s: Cluster, i: nat, from: nat, a: VoteArgs, r: VoteReply)
    requires Safe(s) && Enabled(s, RecvVoteReply(i, from, a, r))
    ensures Grows(s.core, OnVoteAnswer(s, i, from, a, r).core)
  {
    assert NodeOk(s, i) && CallOk(s, VoteCall(i, a.term, from)) && MsgOk(s.core, VoteRsp(from, a, r));
    AnswerNode(s, i, from, a, r);
  }

  lemma AppendGrows(s: Cluster, i: nat, a: AppendArgs)
    requires Safe(s) && i < |s.nodes| && AppendReq(i, a) in s.net
    ensures Grows(s.core, OnAppendRequest(s, i, a).core)
  {
    assert NodeOk(s, i) && MsgOk(s.core, AppendReq(i, a));
    if a.term >= s.nodes[i].term {
      AdoptAll(s.core, s.nodes[i], i, s.counted[i], a, s.svc[i]);
      AppendedKeeps(s.core, s.nodes[i], i, a, s.svc[i]);
      AppendIs(s, i, a);
    }
  }

  /** History only grows: terms rise, acknowledgements and leader logs are never taken back. */
  lemma StepGrows(s: Cluster, e: Step)
    requires Safe(s) && Enabled(s, e) && Guarded(Next(s, e))
    ensures Grows(s.core, Next(s, e).core)
  {
    assert NodeOk(s, e.i);
    match e
    case Timeout(i) => CampaignCore(s.core, i);
    case RecvVote(i, a) => VoteGrows(s, i, a);
    case RecvVoteReply(i, from, a, r) => AnswerGrows(s, i, from, a, r);
    case SendAppend(i, to) =>
    case RecvAppend(i, a) => AppendGrows(s, i, a);
    case RecvAppendReply(i, from, a, r) =>
    case StartOp(i, op) =>
      if s.nodes[i].role == Leader { SubmitCore(s.core, s.nodes[i], i, op); }
    case CommitTick(i) => SelfAckCore(s.core, s.nodes[i], i);
    case ApplyTick(i) =>
    case ReadOne(i) =>
    case SnapshotNow(i) =>
    case Crash(i) =>
  }

  lemma StepsSafe(s: Cluster, s': Cluster)
    requires Safe(s) && Steps(s, s') && Guarded(s')
    ensures Safe(s') && Grows(s.core, s'.core)
  {
    var e :| Enabled(s, e) && s' == Next(s, e);
    StepSafe(s, e);
    StepGrows(s, e);
  }

  // ---------------------------------------------------------------- whole runs

  lemma {:induction false} RunPrefix(n: nat, tr: seq<Cluster>, k: nat)
    requires Run(n, tr) && 0 < k <= |tr|
    ensures Run(n, tr[..k])
  {
    if k < |tr| {
      RunPrefix(n, tr[..|tr| - 1], k);
      assert tr[..|tr| - 1][..k] == tr[..k];
    } else {
      assert tr[..k] == tr;
    }
  }

  lemma LastSteps(n: nat, tr: seq<Cluster>, s: Cluster, s': Cluster)
    requires Run(n, tr) && |tr| > 1 && s == tr[|tr| - 2] && s' == tr[|tr| - 1]
    ensures Steps(s, s')
  {
  }

  lemma RunSteps(n: nat, tr: seq<Cluster>, m: nat)
    requires Run(n, tr) && 0 < m < |tr|
    ensures Steps(tr[m - 1], tr[m])
  {
    RunPrefix(n, tr, m + 1);
    LastSteps(n, tr[..m + 1], tr[m - 1], tr[m]);
  }

  lemma RunStarts(n: nat, tr: seq<Cluster>)
    requires Run(n, tr)
    ensures tr[0] == Init(n)
  {
    RunPrefix(n, tr, 1);
  }

  lemma {:induction false} RunSafe(n: nat, tr: seq<Cluster>, k: nat)
    requires GuardedRun(n, tr) && k < |tr|
    ensures Safe(tr[k])
  {
    if k == 0 {
      RunStarts(n, tr);
      InitSafe(n);
    } else {
      RunSafe(n, tr, k - 1);
      SafeAfter(n, tr, k);
    }
  }

  lemma SafeAfter(n: nat, tr: seq<Cluster>, k: nat)
    requires Run(n, tr) && 0 < k < |tr| && Guarded(tr[k]) && Safe(tr[k - 1])
    ensures Safe(tr[k]) && Grows(tr[k - 1].core, tr[k].core)
  {
    RunSteps(n, tr, k);
    StepsSafe(tr[k - 1], tr[k]);
  }

  lemma GrowsTrans(c: Core, d: Core, e: Core)
    requires Grows(c, d) && Grows(d, e)
    ensures Grows(c, e)
  {
  }

  lemma RunStep(n: nat, tr: seq<Cluster>, m: nat)
    requires GuardedRun(n, tr) && 0 < m < |tr|
    ensures Grows(tr[m - 1].core, tr[m].core)
  {
    RunSafe(n, tr, m - 1);
    SafeAfter(n, tr, m);
  }

  lemma {:induction false} RunGrows(n: nat, tr: seq<Cluster>, k: nat, m: nat)
    requires GuardedRun(n, tr) && k <= m < |tr|
    ensures Grows(tr[k].core, tr[m].core)
    decreases m
  {
    if k < m {
      RunGrows(n, tr, k, m - 1);
      RunStep(n, tr, m);
      GrowsTrans(tr[k].core, tr[m - 1].core, tr[m].core);
    }
  }

  /** At most one server ever becomes leader in a term. */
  lemma ElectionSafety(n: nat, tr: seq<Cluster>, k: nat, t: nat, a: nat, b: nat)
    requires GuardedRun(n, tr) && k < |tr| && (t, a) in tr[k].leaders && (t, b) in tr[k].leaders
    ensures a == b
  {
    RunSafe(n, tr, k);
  }

  /** Equal terms at an index: equal logs up to it. Terms never decrease, and start where they start everywhere. */
  lemma LogMatching(n: nat, tr: seq<Cluster>, k: nat, i: nat, j: nat)
    requires GuardedRun(n, tr) && k < |tr| && i < |tr[k].nodes| && j < |tr[k].nodes|
    ensures var l := tr[k].nodes[i].log;
            var r := tr[k].nodes[j].log;
            && (forall x: nat :: x < |l| && x < |r| && l[x].term == r[x].term ==> Agree(l, r, x))
            && (forall x, y :: 0 <= x <= y < |l| ==> l[x].term <= l[y].term)
            && (forall t: nat, x: nat, y: nat :: TermStarts(l, t, x) && TermStarts(r, t, y) ==> x == y)
  {
    RunSafe(n, tr, k);
    var s := tr[k];
    assert NodeOk(s, i) && NodeOk(s, j);
    ReachableInv(s.core);
    var l := s.nodes[i].log;
    var r := s.nodes[j].log;
    forall x: nat | x < |l| && x < |r| && l[x].term == r[x].term
      ensures Agree(l, r, x)
    {
      MatchAt(s.core, l, r, x);
    }
    forall t: nat, x: nat, y: nat | TermStarts(l, t, x) && TermStarts(r, t, y)
      ensures x == y
    {
      SameTermStart(s.core, l, r, t, x, y, s.core.term[i], s.core.term[j]);
    }
  }

  /** While j is still in the leader's term, its log agrees with the leader's through matchIndex[j]. */
  lemma MatchIndexSound(n: nat, tr: seq<Cluster>, k: nat, i: nat, j: nat)
    requires GuardedRun(n, tr) && k < |tr| && i < |tr[k].nodes| && j < |tr[k].nodes|
    requires tr[k].nodes[i].role == Leader && tr[k].nodes[j].term == tr[k].nodes[i].term
    ensures var l := tr[k].nodes[i];
            && j < |l.matched|
            && (l.matched[j] > 0 ==> Agree(tr[k].nodes[j].log, l.log, l.matched[j]))
  {
    RunSafe(n, tr, k);
    var s := tr[k];
    assert NodeOk(s, i) && NodeOk(s, j);
    ReachableInv(s.core);
    if s.nodes[i].matched[j] > 0 {
      assert MatchedBy(s.core, j, s.nodes[i].term, s.nodes[i].matched[j]);
    }
  }

  /** What is committed stays committed, in every later state and under every later core. */
  lemma CommittedStays(n: nat, tr: seq<Cluster>, k: nat, m: nat, i: nat)
    requires GuardedRun(n, tr) && k <= m < |tr| && i < |tr[k].nodes|
    ensures var x := tr[k].nodes[i]; Covered(tr[m].core, x.log, x.commit, x.term)
  {
    RunSafe(n, tr, k);
    assert NodeOk(tr[k], i);
    RunGrows(n, tr, k, m);
    var x := tr[k].nodes[i];
    CoveredGrows(tr[k].core, tr[m].core, x.log, x.commit, x.term, x.term);
  }

  /** Leader completeness: whatever any server had committed, every leader of that term or a later one has. */
  lemma CommittedEntriesSurvive(n: nat, tr: seq<Cluster>, k: nat, m: nat, i: nat, j: nat)
    requires GuardedRun(n, tr) && k <= m < |tr| && i < |tr[k].nodes| && j < |tr[m].nodes|
    requires tr[m].nodes[j].role == Leader && tr[m].nodes[j].term >= tr[k].nodes[i].term
    ensures Agree(tr[m].nodes[j].log, tr[k].nodes[i].log, tr[k].nodes[i].commit)
  {
    CommittedStays(n, tr, k, m, i);
    RunSafe(n, tr, m);
    assert NodeOk(tr[m], j);
    ReachableInv(tr[m].core);
    var x := tr[k].nodes[i];
    LeaderCovers(tr[m].core, x.log, x.commit, x.term, tr[m].nodes[j].term);
  }

  /** State machine safety: no two deliveries ever made, by any server in any life, differ at one index. */
  lemma StateMachineSafety(n: nat, tr: seq<Cluster>, k: nat, a: ApplyMsg, b: ApplyMsg)
    requires GuardedRun(n, tr) && k < |tr| && a in tr[k].delivered && b in tr[k].delivered && a.index == b.index
    ensures a == b
  {
    RunSafe(n, tr, k);
    var c := tr[k].core;
    var t: nat, x: nat :| DeliveredBy(c, a, t, x);
    var u: nat, y: nat :| DeliveredBy(c, b, u, y);
    ReachableInv(c);
    ChosenAgree(c, t, x, u, y, a.index);
    assert c.tlog[t][a.index] == c.tlog[t][..a.index + 1][a.index];
    assert c.tlog[u][a.index] == c.tlog[u][..a.index + 1][a.index];
  }

  /** Two committed prefixes, of any two servers at any two times, agree as far as both reach. */
  lemma CommittedAgree(n: nat, tr: seq<Cluster>, k: nat, m: nat, i: nat, j: nat, x: nat)
    requires GuardedRun(n, tr) && k <= m < |tr| && i < |tr[k].nodes| && j < |tr[m].nodes|
    requires x <= tr[k].nodes[i].commit && x <= tr[m].nodes[j].commit
    ensures Agree(tr[k].nodes[i].log, tr[m].nodes[j].log, x)
  {
    CommittedStays(n, tr, k, m, i);
    CommittedStays(n, tr, m, m, j);
    RunSafe(n, tr, m);
    ReachableInv(tr[m].core);
    var a := tr[k].nodes[i];
    var b := tr[m].nodes[j];
    CoveredBelow(tr[m].core, a.log, a.commit, x, a.term);
    CoveredAgree(tr[m].core, a.log, b.log, x, b.commit, a.term, b.term);
  }

  /** A snapshot saves what the service has executed: a server that crashes right after it comes back with that table. */
  lemma SnapshotSavesTable(n: nat, tr: seq<Cluster>, k: nat, i: nat)
    requires GuardedRun(n, tr) && k < |tr| && i < |tr[k].nodes| && Enabled(tr[k], SnapshotNow(i))
    ensures var (s, v) := (tr[k], tr[k].svc[i]);
            var s' := Next(s, SnapshotNow(i));
            && s' == s.(nodes := s.nodes[i := s'.nodes[i]]) && s'.nodes[i].log == s.nodes[i].log
            && s'.nodes[i].snapIndex == v.done && s'.nodes[i].snapshot == v.table
            && Enabled(s', Crash(i)) && Next(s', Crash(i)).svc[i] == Service([], v.done, v.table)
  {
    RunSafe(n, tr, k);
    assert NodeOk(tr[k], i);
    SnapshotRule(tr[k].nodes[i], tr[k].svc[i].done, tr[k].svc[i].table);
  }

  /** Replicas that have executed equally much hold equal tables, whenever and after however many restarts. */
  lemma ReplicasAgree(n: nat, tr: seq<Cluster>, k: nat, m: nat, i: nat, j: nat)
    requires GuardedRun(n, tr) && k <= m < |tr| && i < |tr[k].nodes| && j < |tr[m].nodes|
    requires i < |tr[k].svc| && j < |tr[m].svc| && tr[k].svc[i].done == tr[m].svc[j].done
    ensures tr[k].svc[i].table == tr[m].svc[j].table
  {
    RunSafe(n, tr, k);
    RunSafe(n, tr, m);
    assert NodeOk(tr[k], i) && NodeOk(tr[m], j);
    var d := tr[k].svc[i].done;
    CommittedAgree(n, tr, k, m, i, j, d);
    ReplayAgrees(tr[k].nodes[i].log, tr[m].nodes[j].log, d);
  }

  /** The table is the replay of the delivered prefix and the saved snapshot of the trimmed one. */
  lemma TablesAreReplays(n: nat, tr: seq<Cluster>, k: nat, i: nat)
    requires GuardedRun(n, tr) && k < |tr| && i < |tr[k].nodes| && i < |tr[k].svc|
    ensures var x := tr[k].nodes[i];
            var v := tr[k].svc[i];
            && x.snapIndex <= v.done <= x.applied <= x.commit < |x.log|
            && v.table == Replay(x.log, v.done)
            && x.disk.snapIndex == x.snapIndex && x.disk.log == x.log
            && x.disk.snapshot == Replay(x.disk.log, x.disk.snapIndex)
            && v.done + |v.queue| == x.applied
            && (forall y :: 0 <= y < |v.queue| ==> v.queue[y] == ApplyMsg(v.done + 1 + y, x.log[v.done + 1 + y].op))
  {
    RunSafe(n, tr, k);
    assert NodeOk(tr[k], i);
  }

  lemma SnapshotCommitted(n: nat, tr: seq<Cluster>, k: nat, i: nat)
    requires GuardedRun(n, tr) && k < |tr| && i < |tr[k].nodes|
    ensures tr[k].nodes[i].snapIndex <= tr[k].nodes[i].commit < |tr[k].nodes[i].log|
  {
    RunSafe(n, tr, k);
    assert NodeOk(tr[k], i);
  }

  /** No AppendEntries ever promises a commit beyond the entries it carries. */
  lemma CommitWithinEntries(n: nat, tr: seq<Cluster>, k: nat, to: nat, a: AppendArgs)
    requires GuardedRun(n, tr) && k < |tr| && AppendReq(to, a) in tr[k].net
    ensures a.commit <= a.prevIndex + |a.entries|
  {
    RunSafe(n, tr, k);
    assert MsgOk(tr[k].core, AppendReq(to, a));
  }

  /** A leader never indexes outside its log: heartBeat(), commit() and reply handling cannot panic. */
  lemma LeadersStayInRange(n: nat, tr: seq<Cluster>, k: nat, i: nat)
    requires GuardedRun(n, tr) && k < |tr| && i < |tr[k].nodes| && tr[k].nodes[i].role == Leader
    ensures var l := tr[k].nodes[i];
            && |l.next| == |l.matched| == |tr[k].nodes|
            && (forall j :: 0 <= j < |l.next| ==> 1 <= l.next[j] <= |l.log|)
            && CanCommit(l, i)
  {
    RunSafe(n, tr, k);
    var s := tr[k];
    assert NodeOk(s, i);
    ReachableInv(s.core);
    var l := s.nodes[i];
    forall j | 0 <= j < |l.matched|
      ensures l.matched[j] < |l.log|
    {
      assert l.matched[j] == 0 || MatchedBy(s.core, j, l.term, l.matched[j]);
    }
  }

  /** What a leader has only grows: acknowledged indices, commit index and log. */
  ghost predicate Advanced(x: Node, x': Node) {
    && |x'.matched| == |x.matched| && (forall j :: 0 <= j < |x.matched| ==> x.matched[j] <= x'.matched[j])
    && x.commit <= x'.commit && x.log <= x'.log
  }

  lemma ReplyAdvances(n: Node, from: nat, a: AppendArgs, r: AppendReply)
    requires n.log != [] && a.term <= n.term
    requires a.term == n.term == r.term ==> from < |n.next| && from < |n.matched|
    ensures Advanced(n, OnAppendReply(n, from, a, r))
  {
    if a.term != n.term || r.term != n.term {
      StaleReplyRule(n, from, a, r);
    } else if r.success {
      SuccessRule(n, from, a, r);
    } else {
      RejectRule(n, from, a, r);
    }
  }

  lemma LeaderReaches(c: Core, n: Node, i: nat)
    requires Reachable(c) && Leading(c, n, i) && i < |c.term|
    ensures i < |n.matched| && n.matched[i] < |n.log|
  {
    ReachableInv(c);
    assert n.matched[i] == 0 || MatchedBy(c, i, n.term, n.matched[i]);
  }

  /** A leader's own step that leaves it leading the same term. */
  lemma OwnStepAdvances(s: Cluster, e: Step)
    requires Enabled(s, e) && e.i < |s.nodes| && s.nodes[e.i].role == Leader
    requires Next(s, e).nodes[e.i].role == Leader && Next(s, e).nodes[e.i].term == s.nodes[e.i].term
    requires e.i < |s.nodes[e.i].matched| && s.nodes[e.i].matched[e.i] < |s.nodes[e.i].log|
    ensures Advanced(s.nodes[e.i], Next(s, e).nodes[e.i])
  {
    match e
    case RecvAppendReply(i, from, a, r) => ReplyAdvances(s.nodes[i], from, a, r);
    case Timeout(_) =>
    case RecvVote(_, _) =>
    case RecvVoteReply(_, _, _, _) =>
    case RecvAppend(_, _) =>
    case _ =>
  }

  lemma OtherStepStays(s: Cluster, e: Step, i: nat)
    requires Enabled(s, e) && i < |s.nodes| && i != e.i
    ensures |Next(s, e).nodes| == |s.nodes| && Next(s, e).nodes[i] == s.nodes[i]
  {
  }

  lemma StepAdvances(s: Cluster, s': Cluster, i: nat)
    requires Safe(s) && Steps(s, s') && i < |s.nodes| == |s'.nodes|
    requires s.nodes[i].role == Leader && s'.nodes[i].role == Leader && s'.nodes[i].term == s.nodes[i].term
    ensures Advanced(s.nodes[i], s'.nodes[i])
  {
    var e :| Enabled(s, e) && s' == Next(s, e);
    if e.i == i {
      assert NodeOk(s, i);
      LeaderReaches(s.core, s.nodes[i], i);
      OwnStepAdvances(s, e);
    } else {
      OtherStepStays(s, e, i);
    }
  }

  ghost predicate Leads(s: Cluster, i: nat, t: nat) {
    i < |s.nodes| && s.nodes[i].role == Leader && s.nodes[i].term == t
  }

  /** As long as a server leads one term, matchIndex, commitIndex and its log never go back, whatever arrives late or twice. */
  lemma {:induction false} LeadersOnlyAdvance(n: nat, tr: seq<Cluster>, k: nat, m: nat, i: nat)
    requires GuardedRun(n, tr) && k <= m < |tr|
    requires i < |tr[k].nodes| && forall x: nat :: k <= x <= m ==> Leads(tr[x], i, tr[k].nodes[i].term)
    ensures i < |tr[m].nodes| && Advanced(tr[k].nodes[i], tr[m].nodes[i])
    decreases m
  {
    if k < m {
      LeadersOnlyAdvance(n, tr, k, m - 1, i);
      RunAdvances(n, tr, m, i);
    }
  }

  lemma RunAdvances(n: nat, tr: seq<Cluster>, m: nat, i: nat)
    requires GuardedRun(n, tr) && 0 < m < |tr| && i < |tr[m].nodes|
    requires Leads(tr[m - 1], i, tr[m].nodes[i].term) && Leads(tr[m], i, tr[m].nodes[i].term)
    ensures Advanced(tr[m - 1].nodes[i], tr[m].nodes[i])
  {
    RunSafe(n, tr, m - 1);
    RunSteps(n, tr, m);
    SizeStays(tr[m - 1], tr[m]);
    StepAdvances(tr[m - 1], tr[m], i);
  }

  lemma SizeStays(s: Cluster, s': Cluster)
    requires Steps(s, s')
    ensures |s'.nodes| == |s.nodes|
  {
  }
}
