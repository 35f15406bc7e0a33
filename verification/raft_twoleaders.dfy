/**
 becomeLeader() forgets the winner's own vote (raft.go:756). With an odd number of servers, three or
 more, a term can therefore have two leaders; with an even number it never can, because two
 majorities then share two servers and only one of them won.
 */
module RaftTwoLeaders {
  import opened RaftCore
  import opened RaftPeer
  import opened RaftRun
  import opened RaftTheorems

  const YES := VoteReply(1, true)

  ghost predicate Peers(s: Cluster, n: nat) { Basic(s) && |s.nodes| == n }

  /** A step that starts nothing, executes nothing and crashes nobody. */
  ghost predicate Quiet(s: Cluster, s': Cluster) {
    exists e :: Enabled(s, e) && s' == Next(s, e) && !e.StartOp? && !e.ReadOne? && !e.Crash?
  }

  lemma QuietIsStep(s: Cluster, s': Cluster)
    requires Quiet(s, s')
    ensures Steps(s, s')
  {
    var e :| Enabled(s, e) && s' == Next(s, e) && !e.StartOp? && !e.ReadOne? && !e.Crash?;
  }

  /** A peer that has done nothing yet. */
  ghost predicate Fresh(s: Cluster, i: nat) {
    i < |s.nodes| && s.nodes[i] == Boot()
  }

  /** Peer j is in term 1 or before it, with a vote to give and an empty log. */
  ghost predicate Willing(s: Cluster, j: nat) {
    j < |s.nodes| && s.nodes[j].term <= 1 && s.nodes[j].vote == -1 && s.nodes[j].log == [DUMMY]
  }

  ghost predicate Bare(x: Node) { x.log == [DUMMY] && x.snapIndex == 0 && x.commit == 0 && x.applied == 0 }

  /** A leader of term 1 that has done nothing with it yet. */
  ghost predicate Crowned(x: Node, n: nat) {
    && x.role == Leader && x.term == 1 && Bare(x) && |x.next| == |x.matched| == n
    && forall j :: 0 <= j < n ==> x.next[j] == 1 && x.matched[j] == 0
  }

  /** What voting leaves of a peer: a follower stays an idle follower, a leader a leader. */
  ghost predicate Voted(x: Node, x': Node, n: nat) {
    && x'.term == 1 && (Bare(x) ==> Bare(x'))
    && (x.role == Follower ==> x'.role == Follower) && (Crowned(x, n) ==> Crowned(x', n))
  }

  /** Candidate i of term 1 has v votes and still waits for the answers of `voters`. */
  ghost predicate Asking(s: Cluster, i: nat, v: nat, voters: set<nat>) {
    && i < |s.nodes|
    && s.nodes[i].role == Candidate && s.nodes[i].term == 1 && s.nodes[i].votes == v && Bare(s.nodes[i])
    && (forall j :: j in voters ==> VoteReq(j, Ballot(i)) in s.net && VoteCall(i, 1, j) in s.calls)
  }

  function Ballot(i: nat): VoteArgs { VoteArgs(1, i, 0, 0) }

  ghost predicate OthersSame(s: Cluster, s': Cluster, i: nat, j: nat) {
    |s'.nodes| == |s.nodes| && forall k :: 0 <= k < |s.nodes| && k != i && k != j ==> s'.nodes[k] == s.nodes[k]
  }

  lemma Campaigns(s: Cluster, n: nat, i: nat, voters: set<nat>) returns (s': Cluster)
    requires Peers(s, n) && Fresh(s, i) && voters <= Servers(n) - {i}
    ensures Quiet(s, s') && Peers(s', n) && Asking(s', i, 1, voters) && s'.leaders == s.leaders && OthersSame(s, s', i, i)
    ensures s'.svc == s.svc && s'.regrants == s.regrants
  {
    assert Enabled(s, Timeout(i));
    s' := Next(s, Timeout(i));
    assert Ballot(i) == Campaigning(s'.nodes[i], i);
  }

  lemma VoteIsGiven(x: Node, i: nat, n: nat)
    requires x.term <= 1 && x.vote == -1 && x.log == [DUMMY]
    ensures OnRequestVote(x, Ballot(i)).1 == YES && Voted(x, OnRequestVote(x, Ballot(i)).0, n)
  {
  }

  lemma Grants(s: Cluster, n: nat, i: nat, v: nat, voters: set<nat>, j: nat) returns (s': Cluster)
    requires Peers(s, n) && Asking(s, i, v, voters) && j in voters && Willing(s, j) && i != j
    ensures Quiet(s, s') && Peers(s', n) && Asking(s', i, v, voters) && VoteRsp(j, Ballot(i), YES) in s'.net && s'.svc == s.svc
    ensures (1, j) !in s.leaders ==> s'.regrants == s.regrants
    ensures s'.leaders == s.leaders && OthersSame(s, s', j, j) && Voted(s.nodes[j], s'.nodes[j], n)
  {
    VoteIsGiven(s.nodes[j], i, n);
    assert Enabled(s, RecvVote(j, Ballot(i)));
    s' := OnVoteRequest(s, j, Ballot(i));
    assert s' == Next(s, RecvVote(j, Ballot(i)));
  }

  /** One more vote is counted; the last one needed makes a leader, with its vote free again. */
  lemma Counts(s: Cluster, n: nat, i: nat, v: nat, voters: set<nat>, j: nat) returns (s': Cluster)
    requires Peers(s, n) && Asking(s, i, v, voters) && j in voters && v > 0 && VoteRsp(j, Ballot(i), YES) in s.net
    ensures Quiet(s, s') && Peers(s', n) && OthersSame(s, s', i, i) && s'.svc == s.svc && s'.regrants == s.regrants
    ensures v + 1 <= n / 2 ==> Asking(s', i, v + 1, voters - {j}) && s'.leaders == s.leaders
    ensures v + 1 > n / 2 ==> Willing(s', i) && Crowned(s'.nodes[i], n) && s'.leaders == s.leaders + {(1, i)}
  {
    assert Enabled(s, RecvVoteReply(i, j, Ballot(i), YES));
    s' := Next(s, RecvVoteReply(i, j, Ballot(i), YES));
  }

  lemma ExtendRun(n: nat, tr: seq<Cluster>, s: Cluster)
    requires Run(n, tr) && (Steps(tr[|tr| - 1], s) || Quiet(tr[|tr| - 1], s))
    ensures Run(n, tr + [s])
  {
    if Quiet(tr[|tr| - 1], s) { QuietIsStep(tr[|tr| - 1], s); }
    assert (tr + [s])[..|tr|] == tr;
  }

  ghost function Last(tr: seq<Cluster>): Cluster
    requires tr != []
  {
    tr[|tr| - 1]
  }

  ghost predicate Reaches(n: nat, tr: seq<Cluster>) {
    tr != [] && Run(n, tr) && Peers(Last(tr), n)
  }

  lemma OneVote(n: nat, tr: seq<Cluster>, i: nat, v: nat, voters: set<nat>, j: nat) returns (tr': seq<Cluster>)
    requires Reaches(n, tr) && Asking(Last(tr), i, v, voters) && j in voters && v > 0 && i != j && Willing(Last(tr), j)
    ensures Reaches(n, tr') && OthersSame(Last(tr), Last(tr'), i, j) && Voted(Last(tr).nodes[j], Last(tr').nodes[j], n)
    ensures v + 1 <= n / 2 ==> Asking(Last(tr'), i, v + 1, voters - {j}) && Last(tr').leaders == Last(tr).leaders
    ensures v + 1 > n / 2 ==>
              Willing(Last(tr'), i) && Crowned(Last(tr').nodes[i], n) && Last(tr').leaders == Last(tr).leaders + {(1, i)}
  {
    var x := Grants(Last(tr), n, i, v, voters, j);
    var y := Counts(x, n, i, v, voters, j);
    ExtendRun(n, tr, x);
    ExtendRun(n, tr + [x], y);
    tr' := tr + [x] + [y];
  }

  /** The servers of `voters`, exactly as many as are still needed, vote one after the other. */
  lemma {:induction false} Collects(n: nat, tr: seq<Cluster>, i: nat, v: nat, voters: set<nat>) returns (tr': seq<Cluster>)
    requires Reaches(n, tr) && Asking(Last(tr), i, v, voters) && i !in voters
    requires 0 < v <= n / 2 && v + |voters| == n / 2 + 1 && (forall j :: j in voters ==> Willing(Last(tr), j))
    ensures Reaches(n, tr') && Willing(Last(tr'), i) && Crowned(Last(tr').nodes[i], n)
    ensures Last(tr').leaders == Last(tr).leaders + {(1, i)}
    ensures forall k :: 0 <= k < n && k != i && k !in voters ==> Last(tr').nodes[k] == Last(tr).nodes[k]
    ensures forall k :: k in voters && k < n ==> Voted(Last(tr).nodes[k], Last(tr').nodes[k], n)
    decreases voters
  {
    var j :| j in voters;
    tr' := OneVote(n, tr, i, v, voters, j);
    assert |voters - {j}| == |voters| - 1;
    if v + 1 <= n / 2 {
      forall k | k in voters - {j}
        ensures Willing(Last(tr'), k)
      {
        assert Willing(Last(tr), k);
      }
      tr' := Collects(n, tr', i, v + 1, voters - {j});
    } else {
      assert voters == {j};
    }
  }

  lemma OneWins(n: nat, tr: seq<Cluster>, i: nat, voters: set<nat>) returns (tr': seq<Cluster>)
    requires Reaches(n, tr) && Fresh(Last(tr), i) && voters <= Servers(n) - {i} && |voters| == n / 2 > 0
    requires forall j :: j in voters ==> Willing(Last(tr), j)
    ensures Reaches(n, tr') && Willing(Last(tr'), i) && Crowned(Last(tr').nodes[i], n)
    ensures Last(tr').leaders == Last(tr).leaders + {(1, i)}
    ensures forall k :: 0 <= k < n && k != i && k !in voters ==> Last(tr').nodes[k] == Last(tr).nodes[k]
    ensures forall k :: k in voters && k < n ==> Voted(Last(tr).nodes[k], Last(tr').nodes[k], n)
  {
    var x := Campaigns(Last(tr), n, i, voters);
    ExtendRun(n, tr, x);
    forall j | j in voters
      ensures Willing(x, j)
    {
      assert Willing(Last(tr), j);
    }
    tr' := Collects(n, tr + [x], i, 1, voters);
  }

  /** Servers lo to hi - 1. */
  ghost function Between(lo: nat, hi: nat): (r: set<nat>)
    requires lo <= hi
    ensures |r| == hi - lo && forall j: nat :: j in r <==> lo <= j < hi
    decreases hi - lo
  {
    if lo == hi then {} else Between(lo + 1, hi) + {lo}
  }

  ghost predicate TwoLead(tr: seq<Cluster>, t: nat, a: nat, b: nat) {
    tr != [] && a != b && (t, a) in Last(tr).leaders && (t, b) in Last(tr).leaders
  }

  /** A follower of term 1 with an empty log. */
  ghost predicate Idle(x: Node) { x.role == Follower && x.term == 1 && Bare(x) }

  /** Server 0 leads term 1, the next half voted for it, and the rest has done nothing. */
  lemma FirstLeader(n: nat) returns (tr: seq<Cluster>)
    requires n % 2 == 1 && n >= 3
    ensures Reaches(n, tr) && (1, 0) in Last(tr).leaders && Willing(Last(tr), 0) && Crowned(Last(tr).nodes[0], n)
    ensures forall j: nat :: n / 2 < j < n ==> Last(tr).nodes[j] == Boot()
    ensures forall j: nat :: 0 < j <= n / 2 ==> Idle(Last(tr).nodes[j])
  {
    assert Run(n, [Init(n)]);
    var voters := Between(1, n / 2 + 1);
    tr := OneWins(n, [Init(n)], 0, voters);
    forall j: nat | 0 < j <= n / 2
      ensures Idle(Last(tr).nodes[j])
    {
      assert j in voters && Voted(Boot(), Last(tr).nodes[j], n);
    }
  }

  lemma SecondLeader(n: nat, tr: seq<Cluster>) returns (tr': seq<Cluster>)
    requires n % 2 == 1 && n >= 3 && Reaches(n, tr) && Willing(Last(tr), 0)
    requires forall j: nat :: n / 2 < j < n ==> Last(tr).nodes[j] == Boot()
    ensures Reaches(n, tr') && Last(tr').leaders == Last(tr).leaders + {(1, n - 1)} && Crowned(Last(tr').nodes[n - 1], n)
    ensures Voted(Last(tr).nodes[0], Last(tr').nodes[0], n)
    ensures forall j: nat :: 0 < j <= n / 2 ==> Last(tr').nodes[j] == Last(tr).nodes[j]
  {
    var voters := SecondVoters(n);
    AllWilling(n, Last(tr), voters);
    tr' := OneWins(n, tr, n - 1, voters);
    forall j: nat | 0 < j <= n / 2
      ensures Last(tr').nodes[j] == Last(tr).nodes[j]
    {
      assert j !in voters;
    }
  }

  lemma AllWilling(n: nat, s: Cluster, voters: set<nat>)
    requires Peers(s, n) && Willing(s, 0) && forall j: nat :: n / 2 < j < n ==> s.nodes[j] == Boot()
    requires forall j :: j in voters ==> j == 0 || n / 2 < j < n - 1
    ensures forall j :: j in voters ==> Willing(s, j)
  {
  }

  /** Server 0 and those that have not voted yet: half of the servers. */
  lemma SecondVoters(n: nat) returns (voters: set<nat>)
    requires n % 2 == 1 && n >= 3
    ensures voters <= Servers(n) - {n - 1} && |voters| == n / 2 && 0 in voters
    ensures forall j :: j in voters ==> j == 0 || n / 2 < j < n - 1
  {
    var rest := Between(n / 2 + 1, n - 1);
    voters := rest + {0};
    assert 0 !in rest;
  }

  /** Server 0 wins term 1 with the votes of the next half, then gives the last server the vote it forgot. */
  lemma TwoLeaders(n: nat) returns (tr: seq<Cluster>)
    requires n % 2 == 1 && n >= 3
    ensures Run(n, tr) && TwoLead(tr, 1, 0, n - 1)
    ensures Reaches(n, tr) && Crowned(Last(tr).nodes[0], n) && Crowned(Last(tr).nodes[n - 1], n)
    ensures forall j: nat :: 0 < j <= n / 2 ==> Idle(Last(tr).nodes[j])
  {
    var first := FirstLeader(n);
    tr := SecondLeader(n, first);
  }

  // ---------------------------------------------------------------- only then

  lemma RegrantsGrow(s: Cluster, s': Cluster)
    requires Steps(s, s')
    ensures s.regrants <= s'.regrants && |s'.nodes| == |s.nodes|
  {
    var e :| Enabled(s, e) && s' == Next(s, e);
    match e
    case Timeout(_) =>
    case RecvVote(_, _) =>
    case RecvVoteReply(_, _, _, _) =>
    case _ =>
  }

  lemma {:induction false} GuardedBefore(n: nat, tr: seq<Cluster>)
    requires Run(n, tr) && (n % 2 == 0 || Last(tr).regrants == {})
    ensures forall j :: 0 <= j < |tr| ==> Guarded(tr[j])
    ensures |Last(tr).nodes| == n
    decreases |tr|
  {
    if |tr| > 1 {
      var rest := tr[..|tr| - 1];
      RegrantsGrow(tr[|tr| - 2], tr[|tr| - 1]);
      GuardedBefore(n, rest);
      assert forall j :: 0 <= j < |tr| - 1 ==> tr[j] == rest[j];
    }
  }

  /** In any run whatever, two leaders of one term mean an odd number of servers and a winner that voted again in its own term. */
  lemma TwoLeadersNeedASecondVote(n: nat, tr: seq<Cluster>, t: nat, a: nat, b: nat)
    requires Run(n, tr) && TwoLead(tr, t, a, b)
    ensures n % 2 == 1 && Last(tr).regrants != {}
  {
    if n % 2 == 0 || Last(tr).regrants == {} {
      GuardedBefore(n, tr);
      ElectionSafety(n, tr, |tr| - 1, t, a, b);
    }
  }

  lemma {:induction false} LeadersAreServers(n: nat, tr: seq<Cluster>)
    requires Run(n, tr)
    ensures |Last(tr).nodes| == n && forall t: nat, a: nat :: (t, a) in Last(tr).leaders ==> a < n
    decreases |tr|
  {
    if |tr| > 1 {
      LeadersAreServers(n, tr[..|tr| - 1]);
      LeadersStep(tr[|tr| - 2], tr[|tr| - 1]);
    }
  }

  lemma LeadersStep(s: Cluster, s': Cluster)
    requires Steps(s, s')
    ensures |s'.nodes| == |s.nodes|
    ensures forall t: nat, a: nat :: (t, a) in s'.leaders ==> (t, a) in s.leaders || a < |s.nodes|
  {
    var e :| Enabled(s, e) && s' == Next(s, e);
    match e
    case RecvVoteReply(_, _, _, _) =>
    case Timeout(_) =>
    case _ =>
  }

  /** A term can have two leaders if and only if the number of servers is odd and at least three. */
  lemma TwoLeadersExactly(n: nat)
    ensures (exists tr, t, a, b :: Run(n, tr) && TwoLead(tr, t, a, b)) <==> n % 2 == 1 && n >= 3
  {
    if n % 2 == 1 && n >= 3 {
      var tr := TwoLeaders(n);
    }
    forall tr, t, a, b | Run(n, tr) && TwoLead(tr, t, a, b)
      ensures n % 2 == 1 && n >= 3
    {
      TwoLeadersNeedASecondVote(n, tr, t, a, b);
      LeadersAreServers(n, tr);
    }
  }
}
