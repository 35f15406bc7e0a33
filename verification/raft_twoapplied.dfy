/**
 What two leaders of one term do to the log: each commits an operation of its own at index 1 through
 the same followers, because the merge compares terms only (raft.go:397-398), and both deliver it. So
 servers can apply different commands at one index exactly where a term can have two leaders.
 */
module RaftTwoApplied {
  import opened Kv
  import opened RaftCore
  import opened RaftPeer
  import opened RaftRun
  import opened RaftMedian
  import opened RaftTheorems
  import opened RaftTwoLeaders

  /** A leader of term 1 with one entry, acknowledged by the peers of `acked`. */
  ghost predicate Leads(x: Node, n: nat, me: nat, op: Op, acked: set<nat>) {
    && x.role == Leader && x.term == 1 && x.log == [DUMMY, Entry(1, op)]
    && x.snapIndex == 0 && x.commit == 0 && x.applied == 0 && |x.next| == |x.matched| == n
    && forall j: nat :: j < n ==>
         && 0 <= x.matched[j] <= 1 && (j in acked ==> x.matched[j] == 1)
         && (j !in acked && j != me ==> x.next[j] == 1)
  }

  /** A follower of term 1 whose first entry, if any, is of term 1. */
  ghost predicate Follows(x: Node) {
    && x.role == Follower && x.term == 1 && x.snapIndex == 0 && x.log != [] && x.log[0] == DUMMY
    && (|x.log| > 1 ==> x.log[1].term == 1)
  }

  function Ship(i: nat, op: Op): AppendArgs { AppendArgs(1, i, 0, 0, [Entry(1, op)], 0) }

  const TAKEN := AppendReply(1, true, 0, 0, 0)

  lemma Starts(s: Cluster, n: nat, i: nat, op: Op) returns (s': Cluster)
    requires Peers(s, n) && i < n && Crowned(s.nodes[i], n) && op.Op?
    ensures Enabled(s, StartOp(i, op)) && s' == Next(s, StartOp(i, op)) && s'.svc == s.svc && s'.regrants == s.regrants
    ensures Steps(s, s') && Peers(s', n) && OthersSame(s, s', i, i) && s'.delivered == s.delivered
    ensures Leads(s'.nodes[i], n, i, op, {})
  {
    assert Enabled(s, StartOp(i, op));
    s' := Next(s, StartOp(i, op));
  }

  lemma Ships(s: Cluster, n: nat, i: nat, op: Op, acked: set<nat>, j: nat) returns (s': Cluster)
    requires Peers(s, n) && i < n && j < n && i != j && j !in acked && Leads(s.nodes[i], n, i, op, acked)
    ensures Quiet(s, s') && Peers(s', n) && s'.nodes == s.nodes && s'.delivered == s.delivered && s'.svc == s.svc && s'.regrants == s.regrants
    ensures AppendReq(j, Ship(i, op)) in s'.net && AppendCall(i, j, Ship(i, op)) in s'.calls
  {
    assert Enabled(s, SendAppend(i, j));
    s' := Next(s, SendAppend(i, j));
    assert s.nodes[i].log[1..] == [Entry(1, op)];
    assert Probe(s.nodes[i], i, 1) == Ship(i, op);
  }

  lemma FollowerTakes(x: Node, i: nat, op: Op)
    requires Follows(x)
    ensures Kept(x) && Follows(OnAppendEntries(x, Ship(i, op)).0) && OnAppendEntries(x, Ship(i, op)).1 == TAKEN
  {
    var es := [Entry(1, op)];
    assert Merge(x.log, 1, es) == if |x.log| > 1 then x.log else x.log[..1] + es by {
      assert es[1..] == [];
    }
  }

  lemma Takes(s: Cluster, n: nat, i: nat, op: Op, j: nat) returns (s': Cluster)
    requires Peers(s, n) && j < n && Follows(s.nodes[j]) && AppendReq(j, Ship(i, op)) in s.net
    ensures Quiet(s, s') && Peers(s', n) && OthersSame(s, s', j, j) && s'.delivered == s.delivered && s'.calls == s.calls
    ensures s'.svc == s.svc && s'.regrants == s.regrants
    ensures Follows(s'.nodes[j]) && AppendRsp(j, Ship(i, op), TAKEN) in s'.net
  {
    FollowerTakes(s.nodes[j], i, op);
    assert Enabled(s, RecvAppend(j, Ship(i, op)));
    s' := Next(s, RecvAppend(j, Ship(i, op)));
  }

  lemma Hears(s: Cluster, n: nat, i: nat, op: Op, acked: set<nat>, j: nat) returns (s': Cluster)
    requires Peers(s, n) && i < n && j < n && i != j && Leads(s.nodes[i], n, i, op, acked)
    requires AppendCall(i, j, Ship(i, op)) in s.calls && AppendRsp(j, Ship(i, op), TAKEN) in s.net
    ensures Quiet(s, s') && Peers(s', n) && OthersSame(s, s', i, i) && s'.delivered == s.delivered && s'.svc == s.svc && s'.regrants == s.regrants
    ensures Leads(s'.nodes[i], n, i, op, acked + {j})
  {
    assert Enabled(s, RecvAppendReply(i, j, Ship(i, op), TAKEN));
    s' := Next(s, RecvAppendReply(i, j, Ship(i, op), TAKEN));
  }

  /** Follower j takes the entry and the leader hears of it. */
  lemma OneAck(n: nat, tr: seq<Cluster>, i: nat, op: Op, acked: set<nat>, j: nat) returns (tr': seq<Cluster>)
    requires Reaches(n, tr) && i < n && j < n && i != j && j !in acked
    requires Leads(Last(tr).nodes[i], n, i, op, acked) && Follows(Last(tr).nodes[j])
    ensures Reaches(n, tr') && OthersSame(Last(tr), Last(tr'), i, j) && Last(tr').delivered == Last(tr).delivered
    ensures Leads(Last(tr').nodes[i], n, i, op, acked + {j}) && Follows(Last(tr').nodes[j])
  {
    var x := Ships(Last(tr), n, i, op, acked, j);
    var y := Takes(x, n, i, op, j);
    var z := Hears(y, n, i, op, acked, j);
    ExtendRun(n, tr, x);
    ExtendRun(n, tr + [x], y);
    ExtendRun(n, tr + [x] + [y], z);
    tr' := tr + [x] + [y] + [z];
  }

  ghost predicate AllFollow(s: Cluster, js: set<nat>) {
    forall j :: j in js ==> j < |s.nodes| && Follows(s.nodes[j])
  }

  ghost predicate Elsewhere(s: Cluster, s': Cluster, i: nat, js: set<nat>) {
    |s'.nodes| == |s.nodes| && forall k :: 0 <= k < |s.nodes| && k != i && k !in js ==> s'.nodes[k] == s.nodes[k]
  }

  lemma {:induction false} AllAck(n: nat, tr: seq<Cluster>, i: nat, op: Op, acked: set<nat>, todo: set<nat>, all: set<nat>)
    returns (tr': seq<Cluster>)
    requires Reaches(n, tr) && i < n && i !in todo && todo !! acked && all == acked + todo
    requires Leads(Last(tr).nodes[i], n, i, op, acked) && AllFollow(Last(tr), todo)
    ensures Reaches(n, tr') && Elsewhere(Last(tr), Last(tr'), i, todo) && Last(tr').delivered == Last(tr).delivered
    ensures Leads(Last(tr').nodes[i], n, i, op, all) && AllFollow(Last(tr'), todo)
    decreases todo
  {
    if todo == {} {
      tr' := tr;
      assert all == acked;
    } else {
      var j :| j in todo;
      var mid := NextAck(n, tr, i, op, acked, j, todo);
      assert all == acked + {j} + (todo - {j});
      tr' := AllAck(n, mid, i, op, acked + {j}, todo - {j}, all);
      FollowAgain(Last(mid), Last(tr'), i, j, todo);
      ElsewhereTrans(Last(tr), Last(mid), Last(tr'), i, j, todo);
    }
  }

  lemma NextAck(n: nat, tr: seq<Cluster>, i: nat, op: Op, acked: set<nat>, j: nat, todo: set<nat>) returns (mid: seq<Cluster>)
    requires Reaches(n, tr) && i < n && i !in todo && j in todo && j !in acked
    requires Leads(Last(tr).nodes[i], n, i, op, acked) && AllFollow(Last(tr), todo)
    ensures Reaches(n, mid) && OthersSame(Last(tr), Last(mid), i, j) && Last(mid).delivered == Last(tr).delivered
    ensures Leads(Last(mid).nodes[i], n, i, op, acked + {j}) && j < n && Follows(Last(mid).nodes[j])
    ensures AllFollow(Last(mid), todo - {j})
  {
    mid := OneAck(n, tr, i, op, acked, j);
    StillFollow(Last(tr), Last(mid), i, j, todo);
  }

  lemma StillFollow(s: Cluster, s': Cluster, i: nat, j: nat, todo: set<nat>)
    requires AllFollow(s, todo) && OthersSame(s, s', i, j) && i !in todo
    ensures AllFollow(s', todo - {j})
  {
  }

  lemma FollowAgain(s: Cluster, s': Cluster, i: nat, j: nat, todo: set<nat>)
    requires j < |s.nodes| && Follows(s.nodes[j]) && i != j && Elsewhere(s, s', i, todo - {j}) && AllFollow(s', todo - {j})
    ensures AllFollow(s', todo)
  {
    forall k | k in todo
      ensures k < |s'.nodes| && Follows(s'.nodes[k])
    {
      if k == j { assert s'.nodes[j] == s.nodes[j]; } else { assert k in todo - {j}; }
    }
  }

  lemma ElsewhereTrans(s: Cluster, x: Cluster, s': Cluster, i: nat, j: nat, todo: set<nat>)
    requires OthersSame(s, x, i, j) && j in todo && Elsewhere(x, s', i, todo - {j})
    ensures Elsewhere(s, s', i, todo)
  {
  }

  /** Half of the peers and itself are a commit quorum of an odd number. */
  lemma CommitsOne(x: Node, n: nat, me: nat, op: Op, acked: set<nat>)
    requires n % 2 == 1 && me < n && me !in acked && acked <= Servers(n) && |acked| == n / 2
    requires Leads(x, n, me, op, acked)
    ensures AdvanceCommit(x, me) == x.(matched := x.matched[me := 1], commit := 1)
  {
    var s := x.matched[me := 1];
    forall j | j in acked + {me}
      ensures j in Reachers(s, 1)
    {
    }
    SubsetCard(acked + {me}, Reachers(s, 1));
    ReachersCard(s, 1);
    MedianExact(s, 1);
    MedianIsElement(s);
  }

  lemma LeaderMayCommit(x: Node, n: nat, me: nat, op: Op, acked: set<nat>)
    requires me < n && Leads(x, n, me, op, acked)
    ensures CanCommit(x, me)
  {
  }

  lemma Commits(s: Cluster, n: nat, i: nat, op: Op, acked: set<nat>) returns (s': Cluster)
    requires Peers(s, n) && n % 2 == 1 && i < n && i !in acked && acked <= Servers(n) && |acked| == n / 2
    requires Leads(s.nodes[i], n, i, op, acked)
    ensures Quiet(s, s') && Peers(s', n) && OthersSame(s, s', i, i) && s'.delivered == s.delivered && s'.svc == s.svc && s'.regrants == s.regrants
    ensures var x := s'.nodes[i]; x.applied == 0 && x.commit == 1 && x.log == [DUMMY, Entry(1, op)]
  {
    CommitsOne(s.nodes[i], n, i, op, acked);
    LeaderMayCommit(s.nodes[i], n, i, op, acked);
    assert Enabled(s, CommitTick(i));
    s' := Next(s, CommitTick(i));
  }

  lemma Applies(s: Cluster, n: nat, i: nat, op: Op) returns (s': Cluster)
    requires Peers(s, n) && i < n
    requires var x := s.nodes[i]; x.applied == 0 && x.commit == 1 && x.log == [DUMMY, Entry(1, op)]
    ensures Quiet(s, s') && Peers(s', n) && OthersSame(s, s', i, i)
    ensures s'.delivered == s.delivered + {ApplyMsg(1, op)}
    ensures s'.regrants == s.regrants && i < |s.svc| && s'.svc == s.svc[i := s.svc[i].(queue := s.svc[i].queue + [ApplyMsg(1, op)])]
  {
    assert Enabled(s, ApplyTick(i));
    s' := Next(s, ApplyTick(i));
    assert Deliverable(s.nodes[i]) == [ApplyMsg(1, op)];
  }

  /** A leader appends its own operation and the followers js acknowledge it. */
  lemma Replicates(n: nat, tr: seq<Cluster>, i: nat, op: Op, js: set<nat>) returns (tr': seq<Cluster>)
    requires Reaches(n, tr) && i < n && i !in js && op.Op?
    requires Crowned(Last(tr).nodes[i], n) && AllFollow(Last(tr), js)
    ensures Reaches(n, tr') && Elsewhere(Last(tr), Last(tr'), i, js) && AllFollow(Last(tr'), js)
    ensures Last(tr').delivered == Last(tr).delivered && Leads(Last(tr').nodes[i], n, i, op, js)
  {
    var w := Starts(Last(tr), n, i, op);
    ExtendRun(n, tr, w);
    var mid := tr + [w];
    assert {} + js == js;
    tr' := AllAck(n, mid, i, op, {}, js, js);
  }

  /** With half of the peers it is committed and delivered. */
  lemma Concludes(n: nat, tr: seq<Cluster>, i: nat, op: Op, js: set<nat>) returns (tr': seq<Cluster>)
    requires Reaches(n, tr) && n % 2 == 1 && i < n && i !in js && js <= Servers(n) && |js| == n / 2
    requires Leads(Last(tr).nodes[i], n, i, op, js)
    ensures Reaches(n, tr') && OthersSame(Last(tr), Last(tr'), i, i)
    ensures Last(tr').delivered == Last(tr).delivered + {ApplyMsg(1, op)}
  {
    var y := Commits(Last(tr), n, i, op, js);
    ExtendRun(n, tr, y);
    var z := Applies(y, n, i, op);
    ExtendRun(n, tr + [y], z);
    tr' := tr + [y] + [z];
  }

  /** A leader gets its own operation committed at index 1 by the followers js, and delivers it. */
  lemma Delivers(n: nat, tr: seq<Cluster>, i: nat, op: Op, js: set<nat>) returns (tr': seq<Cluster>)
    requires Reaches(n, tr) && n % 2 == 1 && i < n && i !in js && js <= Servers(n) && |js| == n / 2 && op.Op?
    requires Crowned(Last(tr).nodes[i], n) && AllFollow(Last(tr), js)
    ensures Reaches(n, tr') && Elsewhere(Last(tr), Last(tr'), i, js) && AllFollow(Last(tr'), js)
    ensures Last(tr').delivered == Last(tr).delivered + {ApplyMsg(1, op)}
  {
    var mid := Replicates(n, tr, i, op, js);
    tr' := Concludes(n, mid, i, op, js);
  }

  /** Two deliveries at one index differ. */
  ghost predicate Differ(tr: seq<Cluster>, a: ApplyMsg, b: ApplyMsg) {
    tr != [] && a in Last(tr).delivered && b in Last(tr).delivered && a.index == b.index && a != b
  }

  const FIRST := Op(0, GetArgs("a"))
  const SECOND := Op(1, GetArgs("a"))

  /** Two leaders of term 1, and half of the peers idle followers. */
  lemma Stage(n: nat) returns (tr: seq<Cluster>, js: set<nat>)
    requires n % 2 == 1 && n >= 3
    ensures Reaches(n, tr) && Crowned(Last(tr).nodes[0], n) && Crowned(Last(tr).nodes[n - 1], n)
    ensures AllFollow(Last(tr), js) && js <= Servers(n) && |js| == n / 2 && 0 !in js && n - 1 !in js
  {
    tr := TwoLeaders(n);
    js := Between(1, n / 2 + 1);
    forall j | j in js
      ensures Follows(Last(tr).nodes[j])
    {
      assert Idle(Last(tr).nodes[j]);
    }
  }

  lemma TwoApplied(n: nat) returns (tr: seq<Cluster>)
    requires n % 2 == 1 && n >= 3
    ensures Run(n, tr) && Differ(tr, ApplyMsg(1, FIRST), ApplyMsg(1, SECOND))
  {
    var start, js := Stage(n);
    var mid := Delivers(n, start, 0, FIRST, js);
    tr := Delivers(n, mid, n - 1, SECOND, js);
  }

  // ---------------------------------------------------------------- only then

  /** A single server never becomes leader: it asks nobody for a vote. */
  lemma {:induction false} AloneNeverLeads(tr: seq<Cluster>)
    requires Run(1, tr)
    ensures Alone(Last(tr))
    decreases |tr|
  {
    if |tr| > 1 {
      AloneNeverLeads(tr[..|tr| - 1]);
      AloneStep(tr[|tr| - 2], tr[|tr| - 1]);
    }
  }

  ghost predicate Alone(s: Cluster) {
    && |s.nodes| == 1 && s.regrants == {} && s.leaders == {}
    && forall c :: c in s.calls ==> !c.VoteCall?
  }

  lemma AloneTimeout(s: Cluster, i: nat)
    requires Alone(s) && Enabled(s, Timeout(i))
    ensures Alone(Next(s, Timeout(i)))
  {
    assert forall x :: x in Servers(1) ==> x == i;
  }

  lemma AloneStep(s: Cluster, s': Cluster)
    requires Steps(s, s') && Alone(s)
    ensures Alone(s')
  {
    var e :| Enabled(s, e) && s' == Next(s, e);
    if e.Timeout? { AloneTimeout(s, e.i); } else if !e.RecvVoteReply? { AloneOther(s, e); }
  }

  lemma AloneOther(s: Cluster, e: Step)
    requires Alone(s) && Enabled(s, e) && !e.Timeout? && !e.RecvVoteReply?
    ensures Alone(Next(s, e))
  {
  }

  lemma SafeSizes(n: nat, tr: seq<Cluster>, a: ApplyMsg, b: ApplyMsg)
    requires Run(n, tr) && Differ(tr, a, b)
    ensures n % 2 == 1 && n >= 3
  {
    if n % 2 == 0 || n < 3 {
      SmallOrEven(n, tr);
      StateMachineSafety(n, tr, |tr| - 1, a, b);
    }
  }

  lemma SmallOrEven(n: nat, tr: seq<Cluster>)
    requires Run(n, tr) && (n % 2 == 0 || n < 3)
    ensures GuardedRun(n, tr)
  {
    if n == 1 { AloneNeverLeads(tr); }
    GuardedBefore(n, tr);
  }

  /** Servers can be made to apply different commands at one index if and only if their number is odd and at least three. */
  lemma StateMachineSafetyExactly(n: nat)
    ensures (exists tr, a, b :: Run(n, tr) && Differ(tr, a, b)) <==> n % 2 == 1 && n >= 3
  {
    if n % 2 == 1 && n >= 3 {
      var tr := TwoApplied(n);
    }
    forall tr, a, b | Run(n, tr) && Differ(tr, a, b)
      ensures n % 2 == 1 && n >= 3
    {
      SafeSizes(n, tr, a, b);
    }
  }
}
