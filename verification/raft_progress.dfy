/**
 A cluster never gets stuck: from every state of every guarded run of two or more servers whose
 logs are untrimmed, whatever was lost and whoever crashed or voted, a leader can still be elected,
 repair every follower's log, commit a new operation and deliver it.
 */
module RaftProgress {
  import opened RaftCore
  import opened RaftPeer
  import opened RaftRun
  import opened RaftInv
  import opened RaftMedian
  import opened RaftRules
  import opened RaftTheorems
  import opened RaftBackoff

  ghost function Last(tr: seq<Cluster>): Cluster
    requires tr != []
  {
    tr[|tr| - 1]
  }

  /** tr' continues tr. */
  ghost predicate Continues(n: nat, tr: seq<Cluster>, tr': seq<Cluster>) {
    tr != [] && GuardedRun(n, tr') && tr <= tr'
  }

  /** All servers but i and j are as they were. */
  ghost predicate Only(s: Cluster, s': Cluster, i: nat, j: nat) {
    |s'.nodes| == |s.nodes| && forall k :: 0 <= k < |s.nodes| && k != i && k != j ==> s'.nodes[k] == s.nodes[k]
  }

  lemma Take(n: nat, tr: seq<Cluster>, e: RaftRun.Step) returns (tr': seq<Cluster>)
    requires GuardedRun(n, tr) && Enabled(Last(tr), e) && Guarded(Next(Last(tr), e))
    ensures Continues(n, tr, tr') && Last(tr') == Next(Last(tr), e)
  {
    tr' := tr + [Next(Last(tr), e)];
    assert tr'[..|tr'| - 1] == tr;
    assert Steps(tr'[|tr'| - 2], tr'[|tr'| - 1]);
  }

  /** What every state of a guarded run gives, without its proof. */
  lemma Facts(n: nat, tr: seq<Cluster>)
    requires GuardedRun(n, tr)
    ensures Basic(Last(tr)) && Guarded(Last(tr)) && forall i :: 0 <= i < |Last(tr).nodes| ==> Tidy(Last(tr).nodes[i])
  {
    RunSafe(n, tr, |tr| - 1);
    forall i | 0 <= i < |Last(tr).nodes|
      ensures Tidy(Last(tr).nodes[i])
    {
      assert NodeOk(Last(tr), i);
    }
  }

  ghost predicate Tidy(x: Node) {
    Saved(x) && x.snapIndex <= x.applied <= x.commit < |x.log|
  }

  // ---------------------------------------------------------------- one append and its answer

  ghost predicate Sends(s: Cluster, i: nat, j: nat) {
    && i < |s.nodes| && j < |s.nodes| && i != j && s.nodes[i].role == Leader
    && j < |s.nodes[i].next| && j < |s.nodes[i].matched| && s.nodes[i].snapIndex < s.nodes[i].next[j] <= |s.nodes[i].log|
    && Kept(s.nodes[j])
  }

  lemma Ship(n: nat, tr: seq<Cluster>, i: nat, j: nat, a: AppendArgs) returns (tr': seq<Cluster>)
    requires GuardedRun(n, tr) && Sends(Last(tr), i, j) && a == Probe(Last(tr).nodes[i], i, Last(tr).nodes[i].next[j])
    ensures Continues(n, tr, tr') && Last(tr').nodes == Last(tr).nodes
    ensures AppendReq(j, a) in Last(tr').net && AppendCall(i, j, a) in Last(tr').calls
  {
    Facts(n, tr);
    tr' := Take(n, tr, SendAppend(i, j));
  }

  lemma Serve(n: nat, tr: seq<Cluster>, j: nat, a: AppendArgs, k: Call) returns (tr': seq<Cluster>)
    requires GuardedRun(n, tr) && j < |Last(tr).nodes| && Kept(Last(tr).nodes[j])
    requires AppendReq(j, a) in Last(tr).net && k in Last(tr).calls
    ensures Continues(n, tr, tr') && k in Last(tr').calls
    ensures var (f', r) := OnAppendEntries(Last(tr).nodes[j], a);
            Last(tr').nodes == Last(tr).nodes[j := f'] && AppendRsp(j, a, r) in Last(tr').net
  {
    Facts(n, tr);
    tr' := Take(n, tr, RecvAppend(j, a));
  }

  lemma Hear(n: nat, tr: seq<Cluster>, i: nat, j: nat, a: AppendArgs, r: AppendReply) returns (tr': seq<Cluster>)
    requires GuardedRun(n, tr) && i < |Last(tr).nodes| && a.term == Last(tr).nodes[i].term && Last(tr).nodes[i].log != []
    requires AppendRsp(j, a, r) in Last(tr).net && AppendCall(i, j, a) in Last(tr).calls
    requires j < |Last(tr).nodes[i].next| && j < |Last(tr).nodes[i].matched|
    ensures Continues(n, tr, tr')
    ensures Last(tr').nodes == Last(tr).nodes[i := OnAppendReply(Last(tr).nodes[i], j, a, r)]
  {
    Facts(n, tr);
    tr' := Take(n, tr, RecvAppendReply(i, j, a, r));
  }

  /** Leader i sends its append to j, which answers, and the answer arrives. */
  lemma RoundTrip(n: nat, tr: seq<Cluster>, i: nat, j: nat) returns (tr': seq<Cluster>)
    requires GuardedRun(n, tr) && Sends(Last(tr), i, j)
    ensures Continues(n, tr, tr') && Only(Last(tr), Last(tr'), i, j)
    ensures var (l, f) := (Last(tr).nodes[i], Last(tr).nodes[j]);
            var a := Probe(l, i, l.next[j]);
            var (f', r) := OnAppendEntries(f, a);
            Last(tr').nodes[j] == f' && Last(tr').nodes[i] == OnAppendReply(l, j, a, r)
  {
    var l := Last(tr).nodes[i];
    var a := Probe(l, i, l.next[j]);
    var x := Ship(n, tr, i, j, a);
    var y := Serve(n, x, j, a, AppendCall(i, j, a));
    tr' := Hear(n, y, i, j, a, OnAppendEntries(Last(tr).nodes[j], a).1);
  }

  // ---------------------------------------------------------------- repairing one follower

  /** Nobody has trimmed its log, and leader i is in the highest term. */
  ghost predicate Rules(s: Cluster, i: nat) {
    && i < |s.nodes| && s.nodes[i].role == Leader
    && forall k :: 0 <= k < |s.nodes| ==> s.nodes[k].snapIndex == 0 && s.nodes[k].term <= s.nodes[i].term
  }

  /** Only what leader i knows about j, and j itself, has changed. */
  ghost predicate Served(s: Cluster, s': Cluster, i: nat, j: nat)
    requires i < |s.nodes| && j < |s.nodes|
  {
    && Only(s, s', i, j) && Rules(s', i) && s'.nodes[j].term == s.nodes[i].term && s'.nodes[j].role == Follower
    && var (l, l') := (s.nodes[i], s'.nodes[i]);
       && l' == l.(next := l'.next, matched := l'.matched)
       && |l'.next| == |l.next| && |l'.matched| == |l.matched|
       && forall k :: 0 <= k < |l.matched| && k != j ==> l'.matched[k] == l.matched[k]
  }

  /** One round brings j into the leader's term. */
  lemma Serves(n: nat, tr: seq<Cluster>, i: nat, j: nat) returns (tr': seq<Cluster>)
    requires GuardedRun(n, tr) && Rules(Last(tr), i) && j < |Last(tr).nodes| && j != i
    requires i < |Last(tr).nodes| && Sends(Last(tr), i, j)
    ensures Continues(n, tr, tr') && Served(Last(tr), Last(tr'), i, j)
    ensures var (l, f) := (Last(tr).nodes[i], Last(tr).nodes[j]);
            Pair(l, f) && Probing(l, j) ==> Last(tr').nodes[i] == Exchange(l, f, i, j).1
  {
    tr' := RoundTrip(n, tr, i, j);
    var (l, f) := (Last(tr).nodes[i], Last(tr).nodes[j]);
    var a := Probe(l, i, l.next[j]);
    var r := OnAppendEntries(f, a).1;
    var k := AppendRule(f, a);
    if r.term < l.term {
      StaleReplyRule(l, j, a, r);
    } else if r.success {
      SuccessRule(l, j, a, r);
    } else {
      RejectRule(l, j, a, r);
    }
  }

  lemma CanSend(n: nat, tr: seq<Cluster>, i: nat, j: nat)
    requires GuardedRun(n, tr) && Rules(Last(tr), i) && j < |Last(tr).nodes| && j != i
    ensures Sends(Last(tr), i, j)
  {
    Facts(n, tr);
    LeadersStayInRange(n, tr, |tr| - 1, i);
  }

  /** Two logs that share their first entry have a longest common prefix. */
  lemma {:induction false} CommonExists(l: Log, f: Log, x: nat) returns (p: nat)
    requires Agree(l, f, 0) && x <= |l| && forall y: nat :: Agree(l, f, y) ==> y < x
    ensures Common(l, f, p)
  {
    if Agree(l, f, x - 1) { p := x - 1; } else { p := CommonExists(l, f, x - 1); }
  }

  ghost predicate Repaired(s: Cluster, i: nat, j: nat)
    requires i < |s.nodes|
  {
    j < |s.nodes[i].matched| && s.nodes[i].matched[j] == |s.nodes[i].log| - 1
  }

  lemma ServedTwice(s: Cluster, x: Cluster, y: Cluster, i: nat, j: nat)
    requires i < |s.nodes| == |x.nodes| == |y.nodes| && j < |s.nodes| && Served(s, x, i, j) && Served(x, y, i, j)
    ensures Served(s, y, i, j)
  {
  }

  /** An exchange ends with all of the leader's log acknowledged or with a lower next index. */
  lemma ExchangeHelps(l: Node, f: Node, i: nat, j: nat)
    requires Related(l, f) && Probing(l, j) && f.snapIndex == 0
    ensures var l' := Exchange(l, f, i, j).1;
            && l'.log == l.log && j < |l'.matched| && j < |l'.next|
            && (l'.matched[j] >= |l.log| - 1 || l'.next[j] < l.next[j])
  {
    var p := CommonExists(l.log, f.log, |l.log|);
    AcceptedExactly(l, f, i, j, p);
    if l.next[j] <= p + 1 {
      Accepted(l, f, i, j);
    } else {
      RejectionBacksOff(l, f, i, j, p);
      RejectRule(l, j, Probe(l, i, l.next[j]), OnAppendEntries(f, Probe(l, i, l.next[j])).1);
    }
  }

  /** A leader and a follower of its term, with nothing trimmed. */
  ghost predicate Together(s: Cluster, i: nat, j: nat) {
    && Sends(s, i, j) && Pair(s.nodes[i], s.nodes[j]) && s.nodes[j].snapIndex == 0
  }

  /** One round with a follower of the leader's term repairs it or lowers nextIndex. */
  lemma OneRound(n: nat, tr: seq<Cluster>, i: nat, j: nat) returns (tr': seq<Cluster>)
    requires GuardedRun(n, tr) && Rules(Last(tr), i) && Together(Last(tr), i, j)
    ensures Continues(n, tr, tr') && Served(Last(tr), Last(tr'), i, j)
    ensures Repaired(Last(tr'), i, j) || (j < |Last(tr').nodes[i].next| && Last(tr').nodes[i].next[j] < Last(tr).nodes[i].next[j])
  {
    RunsAreRelated(n, tr, |tr| - 1, i, j);
    ExchangeHelps(Last(tr).nodes[i], Last(tr).nodes[j], i, j);
    tr' := Serves(n, tr, i, j);
    InRange(n, tr', i, j);
  }

  lemma InRange(n: nat, tr: seq<Cluster>, i: nat, j: nat)
    requires GuardedRun(n, tr) && i < |Last(tr).nodes| && Last(tr).nodes[i].role == Leader && j < |Last(tr).nodes| && i != j
    ensures j < |Last(tr).nodes[i].matched| && Last(tr).nodes[i].matched[j] <= |Last(tr).nodes[i].log| - 1
  {
    LeadersStayInRange(n, tr, |tr| - 1, i);
  }

  /** Rounds with a follower of the leader's term, until it has the leader's log. */
  lemma {:induction false} Repairs(n: nat, tr: seq<Cluster>, i: nat, j: nat) returns (tr': seq<Cluster>)
    requires GuardedRun(n, tr) && Rules(Last(tr), i) && Together(Last(tr), i, j)
    ensures Continues(n, tr, tr') && Served(Last(tr), Last(tr'), i, j) && Repaired(Last(tr'), i, j)
    decreases Last(tr).nodes[i].next[j]
  {
    tr' := OneRound(n, tr, i, j);
    if !Repaired(Last(tr'), i, j) {
      CanSend(n, tr', i, j);
      var x := Last(tr');
      tr' := Repairs(n, tr', i, j);
      ServedTwice(Last(tr), x, Last(tr'), i, j);
    }
  }

  /** Whatever state a server is in, rounds with it give it the leader's log. */
  lemma RepairsAny(n: nat, tr: seq<Cluster>, i: nat, j: nat) returns (tr': seq<Cluster>)
    requires GuardedRun(n, tr) && Rules(Last(tr), i) && j < |Last(tr).nodes| && j != i
    requires i < |Last(tr).nodes|
    ensures Continues(n, tr, tr') && Served(Last(tr), Last(tr'), i, j) && Repaired(Last(tr'), i, j)
  {
    CanSend(n, tr, i, j);
    var x := Serves(n, tr, i, j);
    CanSend(n, x, i, j);
    tr' := Repairs(n, x, i, j);
    ServedTwice(Last(tr), Last(x), Last(tr'), i, j);
  }

  /** All servers but the leader, from k on. */
  lemma {:induction false} RepairsAll(n: nat, tr: seq<Cluster>, i: nat, k: nat) returns (tr': seq<Cluster>)
    requires GuardedRun(n, tr) && Rules(Last(tr), i) && k <= |Last(tr).nodes| && i < |Last(tr).nodes|
    requires forall j: nat :: j < k && j != i ==> Repaired(Last(tr), i, j)
    ensures Continues(n, tr, tr') && Rules(Last(tr'), i) && |Last(tr').nodes| == |Last(tr).nodes|
    ensures var (l, l') := (Last(tr).nodes[i], Last(tr').nodes[i]); l' == l.(next := l'.next, matched := l'.matched)
    ensures forall j: nat :: j < |Last(tr).nodes| && j != i ==> Repaired(Last(tr'), i, j)
    decreases |Last(tr).nodes| - k
  {
    if k == |Last(tr).nodes| {
      tr' := tr;
    } else if k == i {
      tr' := RepairsAll(n, tr, i, k + 1);
    } else {
      var x := RepairsAny(n, tr, i, k);
      forall j: nat | j < k + 1 && j != i
        ensures Repaired(Last(x), i, j)
      {
        assert j < k ==> Repaired(Last(tr), i, j);
      }
      tr' := RepairsAll(n, x, i, k + 1);
    }
  }

  /** An accepted append carries the leader's whole suffix. */
  lemma Accepted(l: Node, f: Node, i: nat, j: nat)
    requires Pair(l, f) && Probing(l, j) && Exchange(l, f, i, j).0
    ensures var l' := Exchange(l, f, i, j).1;
            j < |l'.matched| && l'.matched[j] >= |l.log| - 1 && l'.log == l.log
  {
    SuccessRule(l, j, Probe(l, i, l.next[j]), OnAppendEntries(f, Probe(l, i, l.next[j])).1);
  }

  // ---------------------------------------------------------------- committing one operation

  lemma {:induction false} FullReach(m: seq<int>, x: int)
    requires forall k :: 0 <= k < |m| ==> m[k] == x
    ensures Reach(m, x) == |m| && forall y :: y > x ==> Reach(m, y) == 0
  {
    if m != [] { FullReach(m[1..], x); }
  }

  /** When every follower has the leader's log, the next commit round takes all of it. */
  lemma CommitsAll(l: Node, i: nat)
    requires l.log != [] && i < |l.matched| && l.log[|l.log| - 1].term == l.term && l.commit < |l.log| - 1
    requires forall j :: 0 <= j < |l.matched| && j != i ==> l.matched[j] == |l.log| - 1
    ensures CanCommit(l.(role := Leader), i)
    ensures var l' := AdvanceCommit(l, i); l' == l.(commit := |l.log| - 1, matched := l'.matched)
  {
    var x: nat := |l.log| - 1;
    var m := l.matched[i := LastIndex(l.log)];
    FullReach(m, x);
    assert Acknowledged(l, i, x);
    forall y | Acknowledged(l, i, y)
      ensures y <= x
    {
      assert y > x ==> Reach(m, y) == 0;
    }
    CommitRule(l, i, x);
  }

  /** A leader in the highest term can get an operation into every log, commit it and deliver it. */
  lemma LeaderCommits(n: nat, tr: seq<Cluster>, i: nat, op: Op) returns (tr': seq<Cluster>)
    requires GuardedRun(n, tr) && Rules(Last(tr), i) && i < |Last(tr).nodes| && op.Op?
    ensures Continues(n, tr, tr') && i < |Last(tr').nodes| == |Last(tr).nodes|
    ensures var (l, l') := (Last(tr).nodes[i], Last(tr').nodes[i]);
            && l'.role == Leader && l'.term == l.term && l'.log == l.log + [Entry(l.term, op)]
            && l'.commit == l'.applied == |l.log| && ApplyMsg(|l.log|, op) in Last(tr').delivered
  {
    var l := Last(tr).nodes[i];
    var a := Proposes(n, tr, i, op);
    var b := RepairsAll(n, a, i, 0);
    var c := Commits(n, b, i);
    tr' := Delivers(n, c, i);
  }

  lemma Proposes(n: nat, tr: seq<Cluster>, i: nat, op: Op) returns (tr': seq<Cluster>)
    requires GuardedRun(n, tr) && Rules(Last(tr), i) && i < |Last(tr).nodes| && op.Op?
    ensures Continues(n, tr, tr') && Rules(Last(tr'), i) && |Last(tr').nodes| == |Last(tr).nodes|
    ensures var (l, l') := (Last(tr).nodes[i], Last(tr').nodes[i]);
            && l'.log == l.log + [Entry(l.term, op)] && l'.term == l.term && l'.commit == l.commit < |l.log|
  {
    Facts(n, tr);
    SubmitRule(Last(tr).nodes[i], op);
    tr' := Take(n, tr, StartOp(i, op));
  }

  lemma Commits(n: nat, tr: seq<Cluster>, i: nat) returns (tr': seq<Cluster>)
    requires GuardedRun(n, tr) && Rules(Last(tr), i) && i < |Last(tr).nodes|
    requires forall j: nat :: j < |Last(tr).nodes| && j != i ==> Repaired(Last(tr), i, j)
    requires var l := Last(tr).nodes[i]; l.log != [] && l.log[|l.log| - 1].term == l.term && l.commit < |l.log| - 1
    ensures Continues(n, tr, tr') && |Last(tr').nodes| == |Last(tr).nodes|
    ensures var (l, l') := (Last(tr).nodes[i], Last(tr').nodes[i]);
            l' == l.(commit := |l.log| - 1, matched := l'.matched) && l'.applied < l'.commit
  {
    Facts(n, tr);
    LeadersStayInRange(n, tr, |tr| - 1, i);
    var l := Last(tr).nodes[i];
    forall j | 0 <= j < |l.matched| && j != i
      ensures l.matched[j] == |l.log| - 1
    {
      assert Repaired(Last(tr), i, j);
    }
    CommitsAll(l, i);
    tr' := Take(n, tr, CommitTick(i));
  }

  lemma Delivers(n: nat, tr: seq<Cluster>, i: nat) returns (tr': seq<Cluster>)
    requires GuardedRun(n, tr) && i < |Last(tr).nodes| && Last(tr).nodes[i].applied < Last(tr).nodes[i].commit
    ensures Continues(n, tr, tr') && |Last(tr').nodes| == |Last(tr).nodes|
    ensures var l := Last(tr).nodes[i];
            && Last(tr').nodes[i] == l.(applied := l.commit) && l.commit < |l.log|
            && ApplyMsg(l.commit, l.log[l.commit].op) in Last(tr').delivered
  {
    Facts(n, tr);
    var l := Last(tr).nodes[i];
    ApplyRule(l);
    tr' := Take(n, tr, ApplyTick(i));
    assert Deliverable(l)[l.commit - l.applied - 1] == ApplyMsg(l.commit, l.log[l.commit].op);
  }

  // ---------------------------------------------------------------- electing a leader

  /** Server i campaigns in term t: it has v votes, its requests are out, and nobody else is there yet from k on. */
  ghost predicate Campaigns(s: Cluster, i: nat, t: nat, v: nat, k: nat) {
    && i < |s.nodes| && |s.nodes[i].log| > 0
    && s.nodes[i].role == Candidate && s.nodes[i].term == t && s.nodes[i].votes == v > 0
    && forall j: nat :: k <= j < |s.nodes| && j != i ==>
         && s.nodes[j].term < t && s.nodes[j].log != []
         && UpToDate(LastTerm(s.nodes[i].log), LastIndex(s.nodes[i].log), s.nodes[j].log)
         && VoteReq(j, Campaigning(s.nodes[i], i)) in s.net && VoteCall(i, t, j) in s.calls
  }

  /** Nothing but roles, terms, votes and what is kept for leaders differs. */
  ghost predicate SameLogs(s: Cluster, s': Cluster) {
    && |s'.nodes| == |s.nodes|
    && forall k :: 0 <= k < |s.nodes| ==> s'.nodes[k].log == s.nodes[k].log && s'.nodes[k].snapIndex == s.nodes[k].snapIndex
  }

  /** Nobody has led a term it has not reached. */
  lemma NotYet(n: nat, tr: seq<Cluster>, t: nat, j: nat)
    requires GuardedRun(n, tr) && j < |Last(tr).nodes| && Last(tr).nodes[j].term < t
    ensures (t, j) !in Last(tr).leaders
  {
    RunSafe(n, tr, |tr| - 1);
    var s := Last(tr);
    assert NodeOk(s, j);
    if (t, j) in s.leaders { HasTerm(s.core, t, j); }
  }

  lemma HasTerm(c: Core, t: nat, j: nat)
    requires Reachable(c) && t in c.wins && c.wins[t].leader == j && j < |c.term|
    ensures c.term[j] >= t
  {
    ReachableInv(c);
    assert Grant(j, t, j) in c.grants;
  }

  lemma GetsVote(n: nat, tr: seq<Cluster>, i: nat, j: nat, a: VoteArgs) returns (tr': seq<Cluster>)
    requires GuardedRun(n, tr) && j < |Last(tr).nodes| && Last(tr).nodes[j].term < a.term
    requires Last(tr).nodes[j].log != [] && UpToDate(a.lastTerm, a.lastIndex, Last(tr).nodes[j].log) && VoteReq(j, a) in Last(tr).net
    ensures Continues(n, tr, tr') && Only(Last(tr), Last(tr'), j, j)
    ensures Last(tr').nodes[j].term == a.term && SameLogs(Last(tr), Last(tr'))
    ensures Last(tr').calls == Last(tr).calls && Last(tr').net == Last(tr).net + {VoteRsp(j, a, VoteReply(a.term, true))}
  {
    Facts(n, tr);
    NotYet(n, tr, a.term, j);
    VoteRule(Last(tr).nodes[j], a);
    tr' := Take(n, tr, RecvVote(j, a));
  }

  /** i leads term t with the log it campaigned with. */
  ghost predicate Leads(s: Cluster, i: nat, t: nat) {
    i < |s.nodes| && s.nodes[i].role == Leader && s.nodes[i].term == t
  }

  lemma CountsVote(n: nat, tr: seq<Cluster>, i: nat, t: nat, v: nat, j: nat) returns (tr': seq<Cluster>)
    requires GuardedRun(n, tr) && Campaigns(Last(tr), i, t, v, j + 1) && i < |Last(tr).nodes|
    requires VoteRsp(j, Campaigning(Last(tr).nodes[i], i), VoteReply(t, true)) in Last(tr).net && VoteCall(i, t, j) in Last(tr).calls
    ensures Continues(n, tr, tr') && Only(Last(tr), Last(tr'), i, i) && SameLogs(Last(tr), Last(tr'))
    ensures Last(tr').nodes[i].term == t
    ensures if v + 1 > |Last(tr).nodes| / 2 then Leads(Last(tr'), i, t) else Campaigns(Last(tr'), i, t, v + 1, j + 1)
  {
    Facts(n, tr);
    var a := Campaigning(Last(tr).nodes[i], i);
    VoteReplyRule(Last(tr).nodes[i], i, |Last(tr).nodes|, t, VoteReply(t, true));
    tr' := Take(n, tr, RecvVoteReply(i, j, a, VoteReply(t, true)));
  }

  /** Server j votes for i and the vote arrives. */
  lemma OneVote(n: nat, tr: seq<Cluster>, i: nat, t: nat, v: nat, j: nat) returns (tr': seq<Cluster>)
    requires GuardedRun(n, tr) && Campaigns(Last(tr), i, t, v, j) && i < |Last(tr).nodes| && j < |Last(tr).nodes| && j != i
    ensures Continues(n, tr, tr') && Only(Last(tr), Last(tr'), i, j) && SameLogs(Last(tr), Last(tr'))
    ensures Last(tr').nodes[i].term == Last(tr').nodes[j].term == t
    ensures if v + 1 > |Last(tr).nodes| / 2 then Leads(Last(tr'), i, t) else Campaigns(Last(tr'), i, t, v + 1, j + 1)
  {
    var a := Campaigning(Last(tr).nodes[i], i);
    var x := GetsVote(n, tr, i, j, a);
    tr' := CountsVote(n, x, i, t, v, j);
  }

  /** How many servers have voted when all below k have been asked. */
  function Asked(i: nat, k: nat): nat { if i < k then k else k + 1 }

  ghost predicate NoneAbove(s: Cluster, t: nat) {
    forall k :: 0 <= k < |s.nodes| ==> s.nodes[k].term <= t
  }

  /** All servers from k on are asked one after the other until i leads. */
  lemma {:induction false} Gathers(n: nat, tr: seq<Cluster>, i: nat, t: nat, k: nat) returns (tr': seq<Cluster>)
    requires GuardedRun(n, tr) && k <= |Last(tr).nodes| && NoneAbove(Last(tr), t)
    requires Campaigns(Last(tr), i, t, Asked(i, k), k) && Asked(i, k) <= |Last(tr).nodes| / 2
    ensures Continues(n, tr, tr') && SameLogs(Last(tr), Last(tr')) && NoneAbove(Last(tr'), t) && Leads(Last(tr'), i, t)
    decreases |Last(tr).nodes| - k
  {
    if k == i {
      tr' := Gathers(n, tr, i, t, k + 1);
    } else {
      tr' := OneVote(n, tr, i, t, Asked(i, k), k);
      if Asked(i, k) + 1 <= |Last(tr).nodes| / 2 { tr' := Gathers(n, tr', i, t, k + 1); }
    }
  }

  /** i is a candidate of term t with its own vote, and its requests are out. */
  ghost predicate Stands(s: Cluster, i: nat, t: nat) {
    && i < |s.nodes| && s.nodes[i].log != []
    && s.nodes[i].role == Candidate && s.nodes[i].term == t && s.nodes[i].votes == 1
    && forall j: nat :: j < |s.nodes| && j != i ==>
         VoteReq(j, Campaigning(s.nodes[i], i)) in s.net && VoteCall(i, t, j) in s.calls
  }

  lemma AsksAll(s: Cluster, i: nat)
    requires Basic(s) && i < |s.nodes| && s.nodes[i].role != Leader
    ensures Stands(OnTimeout(s, i), i, s.nodes[i].term + 1)
  {
    CampaignRule(s.nodes[i], i);
  }

  /** A server that is not leading asks everybody for votes in its next term. */
  lemma TimesOut(n: nat, tr: seq<Cluster>, i: nat) returns (tr': seq<Cluster>)
    requires GuardedRun(n, tr) && i < |Last(tr).nodes| && Last(tr).nodes[i].role != Leader
    ensures Continues(n, tr, tr') && Only(Last(tr), Last(tr'), i, i) && SameLogs(Last(tr), Last(tr'))
    ensures Stands(Last(tr'), i, Last(tr).nodes[i].term + 1)
  {
    Facts(n, tr);
    AsksAll(Last(tr), i);
    tr' := Take(n, tr, Timeout(i));
  }

  /** One timeout after the other until term t. */
  lemma {:induction false} TimesOutUntil(n: nat, tr: seq<Cluster>, i: nat, t: nat) returns (tr': seq<Cluster>)
    requires GuardedRun(n, tr) && i < |Last(tr).nodes| && Last(tr).nodes[i].role != Leader && Last(tr).nodes[i].term < t
    ensures Continues(n, tr, tr') && Only(Last(tr), Last(tr'), i, i) && SameLogs(Last(tr), Last(tr')) && Stands(Last(tr'), i, t)
    decreases t - Last(tr).nodes[i].term
  {
    tr' := TimesOut(n, tr, i);
    if Last(tr').nodes[i].term < t { tr' := TimesOutUntil(n, tr', i, t); }
  }

  /** A leader can crash and come back as a follower with the same log and term. */
  lemma GivesUp(n: nat, tr: seq<Cluster>, i: nat) returns (tr': seq<Cluster>)
    requires GuardedRun(n, tr) && i < |Last(tr).nodes|
    ensures Continues(n, tr, tr') && Only(Last(tr), Last(tr'), i, i) && SameLogs(Last(tr), Last(tr'))
    ensures Last(tr').nodes[i].role != Leader && Last(tr').nodes[i].term == Last(tr).nodes[i].term
  {
    Facts(n, tr);
    if Last(tr).nodes[i].role == Leader {
      RestartRule(Last(tr).nodes[i].disk);
      tr' := Take(n, tr, Crash(i));
    } else {
      tr' := tr;
    }
  }

  ghost predicate AtLeast(x: Node, y: Node) {
    x.log != [] && y.log != [] && UpToDate(LastTerm(x.log), LastIndex(x.log), y.log)
  }

  /** i is at least as up to date as every server. */
  ghost predicate Best(s: Cluster, i: nat) {
    i < |s.nodes| && forall j :: 0 <= j < |s.nodes| ==> AtLeast(s.nodes[i], s.nodes[j])
  }

  lemma {:induction false} BestBelow(xs: seq<Node>, k: nat) returns (i: nat)
    requires 0 < k <= |xs| && forall j :: 0 <= j < |xs| ==> xs[j].log != []
    ensures i < k && forall j :: 0 <= j < k ==> AtLeast(xs[i], xs[j])
  {
    if k == 1 {
      i := 0;
    } else {
      i := BestBelow(xs, k - 1);
      if !AtLeast(xs[i], xs[k - 1]) {
        forall j | 0 <= j < k
          ensures AtLeast(xs[k - 1], xs[j])
        {
          assert j < k - 1 ==> AtLeast(xs[i], xs[j]);
        }
        i := k - 1;
      }
    }
  }

  lemma {:induction false} TermAbove(xs: seq<Node>) returns (t: nat)
    ensures forall j :: 0 <= j < |xs| ==> xs[j].term < t
  {
    t := 0;
    if xs != [] {
      t := TermAbove(xs[1..]);
      forall j | 0 <= j < |xs| && j > 0
        ensures xs[j].term < t
      {
        assert xs[j] == xs[1..][j - 1];
      }
      if xs[0].term >= t { t := xs[0].term + 1; }
    }
  }

  /** Some server is at least as up to date as every other. */
  lemma SomeBest(n: nat, tr: seq<Cluster>) returns (i: nat)
    requires GuardedRun(n, tr) && Last(tr).nodes != []
    ensures Best(Last(tr), i)
  {
    Facts(n, tr);
    i := BestBelow(Last(tr).nodes, |Last(tr).nodes|);
  }

  /** A server at least as up to date as every other can win a term above all terms. */
  lemma BestCanLead(n: nat, tr: seq<Cluster>, i: nat) returns (tr': seq<Cluster>)
    requires GuardedRun(n, tr) && |Last(tr).nodes| >= 2 && Best(Last(tr), i)
    ensures Continues(n, tr, tr') && SameLogs(Last(tr), Last(tr'))
    ensures i < |Last(tr').nodes| && Last(tr').nodes[i].role == Leader && NoneAbove(Last(tr'), Last(tr').nodes[i].term)
    ensures Untrimmed(Last(tr)) ==> Rules(Last(tr'), i)
  {
    var t := TermAbove(Last(tr).nodes);
    var x := GivesUp(n, tr, i);
    var y := TimesOutUntil(n, x, i, t);
    forall j: nat | j < |Last(y).nodes| && j != i
      ensures Last(y).nodes[j].term < t && AtLeast(Last(y).nodes[i], Last(y).nodes[j])
    {
      assert AtLeast(Last(tr).nodes[i], Last(tr).nodes[j]);
    }
    tr' := Gathers(n, y, i, t, 0);
  }

  // ---------------------------------------------------------------- together

  ghost predicate Untrimmed(s: Cluster) {
    forall k :: 0 <= k < |s.nodes| ==> s.nodes[k].snapIndex == 0
  }

  /**
   From every state of every guarded run of two or more servers that have not trimmed, a leader can
   be elected and any operation committed and delivered at the end of its log, behind all it had.
   */
  lemma CommandCanCommit(n: nat, tr: seq<Cluster>, op: Op) returns (tr': seq<Cluster>, i: nat)
    requires GuardedRun(n, tr) && n >= 2 && Untrimmed(Last(tr)) && op.Op?
    ensures Continues(n, tr, tr') && i < |Last(tr').nodes| == |Last(tr).nodes|
    ensures var l := Last(tr').nodes[i];
            && l.role == Leader && l.log == Last(tr).nodes[i].log + [Entry(l.term, op)] && l.commit == |l.log| - 1
            && ApplyMsg(l.commit, op) in Last(tr').delivered
  {
    StaysSized(n, tr, |tr| - 1);
    i := SomeBest(n, tr);
    var x := BestCanLead(n, tr, i);
    tr' := LeaderCommits(n, x, i, op);
  }

  /** With one server there is nobody to call. */
  lemma NobodyToCall(n: nat, tr: seq<Cluster>, k: nat)
    requires GuardedRun(n, tr) && k < |tr| && |tr[k].nodes| == 1
    ensures tr[k].calls == {}
  {
    RunSafe(n, tr, k);
    forall c
      ensures !CallOk(tr[k], c)
    {
      Unmatched(tr[k], c);
    }
  }

  lemma Unmatched(s: Cluster, c: Call)
    requires Basic(s) && |s.nodes| == 1
    ensures !CallOk(s, c)
  {
  }

  lemma KeepsSize(s: Cluster, e: RaftRun.Step)
    requires Enabled(s, e)
    ensures |Next(s, e).nodes| == |s.nodes|
  {
  }

  lemma {:induction false} StaysSized(n: nat, tr: seq<Cluster>, k: nat)
    requires GuardedRun(n, tr) && k < |tr|
    ensures |tr[k].nodes| == n
  {
    if k == 0 {
      RunStarts(n, tr);
    } else {
      StaysSized(n, tr, k - 1);
      RunSteps(n, tr, k);
      var e :| Enabled(tr[k - 1], e) && tr[k] == Next(tr[k - 1], e);
      KeepsSize(tr[k - 1], e);
    }
  }

  lemma StaysUncrowned(s: Cluster, e: RaftRun.Step)
    requires Enabled(s, e) && |s.nodes| == 1 && s.calls == {} && s.nodes[0].role != Leader
    ensures Next(s, e).nodes != [] && Next(s, e).nodes[0].role != Leader
  {
  }

  /** A single server never leads: only a vote of another makes a candidate leader. */
  lemma {:induction false} AloneNeverLeads(n: nat, tr: seq<Cluster>, k: nat)
    requires GuardedRun(n, tr) && k < |tr| && n == 1
    ensures |tr[k].nodes| == 1 && tr[k].nodes[0].role != Leader
  {
    StaysSized(n, tr, k);
    if k == 0 {
      RunStarts(n, tr);
    } else {
      AloneNeverLeads(n, tr, k - 1);
      NobodyToCall(n, tr, k - 1);
      RunSteps(n, tr, k);
      var e :| Enabled(tr[k - 1], e) && tr[k] == Next(tr[k - 1], e);
      StaysUncrowned(tr[k - 1], e);
    }
  }

  ghost predicate HasLeader(s: Cluster) {
    exists i :: 0 <= i < |s.nodes| && s.nodes[i].role == Leader
  }

  lemma LeaderNeedsTwo(n: nat, tr: seq<Cluster>)
    requires GuardedRun(n, tr) && HasLeader(Last(tr))
    ensures n >= 2
  {
    StaysSized(n, tr, |tr| - 1);
    if n == 1 { AloneNeverLeads(n, tr, |tr| - 1); }
  }

  lemma TwoCanLead(n: nat, tr: seq<Cluster>) returns (tr': seq<Cluster>)
    requires GuardedRun(n, tr) && n >= 2
    ensures Continues(n, tr, tr') && HasLeader(Last(tr'))
  {
    StaysSized(n, tr, |tr| - 1);
    var i := SomeBest(n, tr);
    tr' := BestCanLead(n, tr, i);
  }

  /** From any state of any guarded run a leader can be elected if and only if there are at least two servers. */
  lemma LeaderPossibleExactly(n: nat, tr: seq<Cluster>)
    requires GuardedRun(n, tr)
    ensures (exists tr' :: Continues(n, tr, tr') && HasLeader(Last(tr'))) <==> n >= 2
  {
    if n >= 2 {
      var tr' := TwoCanLead(n, tr);
    }
    forall tr' | Continues(n, tr, tr') && HasLeader(Last(tr'))
      ensures n >= 2
    {
      LeaderNeedsTwo(n, tr');
    }
  }
}
