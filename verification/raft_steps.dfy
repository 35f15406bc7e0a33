/** Every step of a guarded run keeps RaftInv.Safe. */
module RaftSteps {
  import opened RaftCore
  import opened RaftPeer
  import opened RaftRun
  import opened RaftInv
  import opened RaftRules

  lemma CoveredBelow(c: Core, l: Log, k: nat, j: nat, t: nat)
    requires Covered(c, l, k, t) && j <= k
    ensures Covered(c, l, j, t)
  {
    var u: nat, m: nat :| CoveredBy(c, l, k, t, u, m);
    AgreeBelow(l, c.tlog[u], k, j);
    assert CoveredBy(c, l, j, t, u, m);
  }

  lemma CoveredOther(c: Core, l: Log, r: Log, k: nat, t: nat)
    requires Covered(c, l, k, t) && Agree(r, l, k)
    ensures Covered(c, r, k, t)
  {
    var u: nat, m: nat :| CoveredBy(c, l, k, t, u, m);
    assert CoveredBy(c, r, k, t, u, m);
  }

  lemma WinsAreNotAhead(c: Core, i: nat)
    requires Sized(c) && Terms(c) && OnRecord(c) && Loyal(c) && i < |c.term|
    ensures forall t: nat :: Won(c, t, i) ==> t <= c.term[i]
  {
    forall t: nat | Won(c, t, i)
      ensures t <= c.term[i]
    {
      assert Grant(i, t, i) in c.grants;
    }
  }

  // ---------------------------------------------------------------- stepping down

  ghost predicate Mirrors(c: Core, n: Node, i: nat) {
    Sized(c) && i < |c.term| && c.term[i] == n.term && c.vote[i] == n.vote && c.log[i] == n.log && n.log != []
  }

  /** n' is n as a follower of a term no smaller, voting for someone perhaps, and persisted. */
  ghost predicate Follows(n: Node, n': Node) {
    && n'.role == Follower && n'.term >= n.term && n'.log == n.log
    && n'.snapIndex == n.snapIndex && n'.snapshot == n.snapshot && n'.commit == n.commit && n'.applied == n.applied
    && n'.disk == Disk(n'.term, n'.vote, n'.log, n'.snapIndex, n'.snapshot)
  }

  lemma FollowerNode(s: Cluster, s': Cluster, i: nat)
    requires Basic(s) && Basic(s') && i < |s.nodes| == |s'.nodes| && NodeOk(s, i)
    requires Follows(s.nodes[i], s'.nodes[i]) && Mirrors(s'.core, s'.nodes[i], i)
    requires s'.svc[i] == s.svc[i] && Grows(s.core, s'.core)
    ensures NodeOk(s', i)
  {
    var n := s.nodes[i];
    CoveredGrows(s.core, s'.core, n.log, n.commit, n.term, s'.nodes[i].term);
  }

  lemma StepDownCalls(s: Cluster, s': Cluster, i: nat, t: nat)
    requires Basic(s) && Basic(s') && i < |s.nodes| && s.nodes[i].term < t
    requires s'.nodes == s.nodes[i := StepDown(s.nodes[i], t)] && s'.counted == s.counted
    requires CallsOk(s, s.calls)
    ensures CallsOk(s', s.calls)
  {
    forall k | k in s.calls && OwnedBy(k, i)
      ensures CallOk(s', k)
    {
      assert CallOk(s, k);
    }
    CallsKept(s, s', i, s.calls);
  }

  lemma StepDownSurface(s: Cluster, s': Cluster, i: nat, t: nat)
    requires Surface(s) && Basic(s') && i < |s.nodes| && s.nodes[i].term < t
    requires s'.nodes == s.nodes[i := StepDown(s.nodes[i], t)] && s'.core == Bump(s.core, i, t)
    requires s'.svc == s.svc && s'.counted == s.counted && s'.delivered == s.delivered
    requires s'.calls <= s.calls && Local(s.core, s'.core, i)
    requires s.net <= s'.net && MsgsOk(s'.core, s'.net - s.net)
    ensures Surface(s')
  {
    assert NodeOk(s, i);
    FollowerNode(s, s', i);
    NodesKept(s, s', i, StepDown(s.nodes[i], t), s.svc[i], s.counted[i]);
    StepDownCalls(s, s', i, t);
    MsgsKept(s.core, s'.core, i, s.net, s'.net - s.net);
    DeliveriesKept(s.core, s'.core, i, s.delivered);
  }

  // ---------------------------------------------------------------- elections

  lemma CampaignCore(c: Core, i: nat)
    requires Reachable(c) && Sized(c) && i < |c.term|
    ensures Reachable(Campaign(c, i)) && Local(c, Campaign(c, i), i) && !Won(c, c.term[i] + 1, i)
  {
    Extend(c, LCampaign(i));
    ReachableInv(c);
    WinsAreNotAhead(c, i);
  }

  lemma TimeoutNode(s: Cluster, s': Cluster, i: nat)
    requires Basic(s) && i < |s.nodes| && NodeOk(s, i) && s.nodes[i].role != Leader
    requires Grows(s.core, Campaign(s.core, i)) && !Won(s.core, s.core.term[i] + 1, i)
    requires s'.nodes == s.nodes[i := StartElection(s.nodes[i], i)] && s'.svc == s.svc && s'.counted == s.counted[i := {i}]
    requires s'.core == Campaign(s.core, i)
    ensures Basic(s') && NodeOk(s', i)
  {
    var n := s.nodes[i];
    CoveredGrows(s.core, s'.core, n.log, n.commit, n.term, n.term + 1);
    assert Kept(n);
  }

  lemma TimeoutCalls(s: Cluster, s': Cluster, i: nat)
    requires Basic(s) && Basic(s') && i < |s.nodes| && s.nodes[i].role != Leader
    requires s'.nodes == s.nodes[i := StartElection(s.nodes[i], i)] && s'.counted == s.counted[i := {i}]
    requires CallsOk(s, s.calls)
    ensures CallsOk(s', s.calls)
    ensures CallsOk(s', set to | to in Servers(|s.nodes|) && to != i :: VoteCall(i, s.nodes[i].term + 1, to))
  {
    forall k | k in s.calls && OwnedBy(k, i)
      ensures CallOk(s', k)
    {
      assert CallOk(s, k);
    }
    CallsKept(s, s', i, s.calls);
  }

  lemma TimeoutMsgs(c: Core, n: Node, i: nat)
    requires Sized(c) && i < |c.term| && n.log != [] && n.term == c.term[i] + 1 && n.log == c.log[i]
    ensures MsgsOk(Campaign(c, i), set to | to in Servers(|c.term|) && to != i :: VoteReq(to, Campaigning(n, i)))
  {
  }

  lemma TimeoutSurface(s: Cluster, i: nat)
    requires Surface(s) && i < |s.nodes| && s.nodes[i].role != Leader
    requires Local(s.core, Campaign(s.core, i), i) && !Won(s.core, s.core.term[i] + 1, i)
    ensures Surface(OnTimeout(s, i))
  {
    var s' := OnTimeout(s, i);
    var n := StartElection(s.nodes[i], i);
    assert NodeOk(s, i);
    TimeoutNode(s, s', i);
    NodesKept(s, s', i, n, s.svc[i], {i});
    TimeoutCalls(s, s', i);
    TimeoutMsgs(s.core, n, i);
    MsgsKept(s.core, s'.core, i, s.net, set to | to in Servers(|s.nodes|) && to != i :: VoteReq(to, Campaigning(n, i)));
    DeliveriesKept(s.core, s'.core, i, s.delivered);
  }

  lemma TimeoutKeeps(s: Cluster, i: nat)
    requires Safe(s) && i < |s.nodes|
    ensures Safe(OnTimeout(s, i))
  {
    if s.nodes[i].role != Leader {
      CampaignCore(s.core, i);
      TimeoutSurface(s, i);
    }
  }

  /** The vote is free or already given to the candidate, whose log is good enough. */
  ghost predicate Grantable(n: Node, a: VoteArgs)
    requires n.log != []
  {
    n.term == a.term && (n.vote == a.cand || (n.vote == -1 && UpToDate(a.lastTerm, a.lastIndex, n.log)))
  }

  lemma VoteShape(c: Core, n: Node, i: nat, a: VoteArgs)
    requires Mirrors(c, n, i)
    ensures var (n', r) := OnRequestVote(n, a);
            var m := if a.term > n.term then StepDown(n, a.term) else n;
            && (r.granted ==> a.term >= n.term && Grantable(m, a) && n'.vote == a.cand)
            && (!r.granted ==> n' == m)
            && (a.term > n.term ==> Mirrors(Bump(c, i, a.term), m, i))
  {
    VoteRule(n, a);
  }

  lemma VoteCore(c: Core, n: Node, i: nat, a: VoteArgs)
    requires Reachable(c) && Mirrors(c, n, i) && MsgOk(c, VoteReq(i, a))
    requires OnRequestVote(n, a).1.granted ==> MayVote(c, a.term, i)
    ensures var d := CoreOnVote(c, i, a, OnRequestVote(n, a).1.granted);
            Reachable(d) && Local(c, d, i)
  {
    VoteShape(c, n, i, a);
    var e := if a.term > n.term then Bump(c, i, a.term) else c;
    LocalRefl(c, i);
    if a.term > n.term {
      Extend(c, LBump(i, a.term));
    }
    if OnRequestVote(n, a).1.granted {
      Extend(e, LGive(i, a.cand));
      LocalTrans(c, e, GiveVote(e, i, a.cand), i);
    }
  }

  /** Either nothing changed, or the peer is a follower now. */
  lemma VoteOutcome(c: Core, n: Node, i: nat, a: VoteArgs, q: set<nat>)
    requires Mirrors(c, n, i) && a.cand != i
    requires n.disk == Disk(n.term, n.vote, n.log, n.snapIndex, n.snapshot)
    requires n.role == Candidate ==> Running(c, n, i, q)
    requires n.role == Leader ==> Leading(c, n, i)
    requires OnRequestVote(n, a).1.granted ==> MayVote(c, a.term, i)
    ensures var (n', r) := OnRequestVote(n, a);
            var d := CoreOnVote(c, i, a, r.granted);
            && Mirrors(d, n', i)
            && (Follows(n, n') || (n' == n && d == c) || Regrants(n, n'))
            && MsgOk(d, VoteRsp(i, a, r))
  {
  }

  /** A leader voting again in its own term. */
  ghost predicate Regrants(n: Node, n': Node) {
    n.role == Leader && n' == Persist(n.(vote := n'.vote))
  }

  lemma RegrantNode(s: Cluster, s': Cluster, i: nat)
    requires Basic(s) && Basic(s') && i < |s.nodes| == |s'.nodes| && NodeOk(s, i)
    requires Regrants(s.nodes[i], s'.nodes[i]) && Mirrors(s'.core, s'.nodes[i], i)
    requires s'.svc[i] == s.svc[i] && Grows(s.core, s'.core) && s'.core.tlog == s.core.tlog
    ensures NodeOk(s', i)
  {
    var n := s.nodes[i];
    CoveredGrows(s.core, s'.core, n.log, n.commit, n.term, n.term);
  }

  lemma VoteNode(s: Cluster, i: nat, a: VoteArgs)
    requires Basic(s) && i < |s.nodes| && NodeOk(s, i) && MsgOk(s.core, VoteReq(i, a))
    requires OnRequestVote(s.nodes[i], a).1.granted ==> MayVote(s.core, a.term, i)
    requires Local(s.core, OnVoteRequest(s, i, a).core, i)
    ensures NodeOk(OnVoteRequest(s, i, a), i)
    ensures MsgsOk(OnVoteRequest(s, i, a).core, {VoteRsp(i, a, OnRequestVote(s.nodes[i], a).1)})
  {
    var s' := OnVoteRequest(s, i, a);
    VoteOutcome(s.core, s.nodes[i], i, a, s.counted[i]);
    VoteSame(s, i, a);
    if s'.nodes[i] == s.nodes[i] && s'.core == s.core {
      SameNode(s, s', i);
    } else if Follows(s.nodes[i], s'.nodes[i]) {
      FollowerNode(s, s', i);
    } else {
      RegrantNode(s, s', i);
    }
  }

  lemma SameNode(s: Cluster, s': Cluster, i: nat)
    requires Basic(s) && Basic(s') && i < |s.nodes| == |s'.nodes| && NodeOk(s, i)
    requires s'.nodes[i] == s.nodes[i] && s'.core == s.core && s'.svc[i] == s.svc[i] && s'.counted[i] == s.counted[i]
    ensures NodeOk(s', i)
  {
  }

  /** What a vote request leaves alone. */
  lemma VoteSame(s: Cluster, i: nat, a: VoteArgs)
    requires Basic(s) && i < |s.nodes|
    ensures var s' := OnVoteRequest(s, i, a);
            && Basic(s') && |s'.nodes| == |s.nodes| && s'.svc == s.svc && s'.counted == s.counted
            && s'.core.tlog == s.core.tlog
  {
  }

  lemma VoteCalls(s: Cluster, i: nat, a: VoteArgs)
    requires Basic(s) && i < |s.nodes| && CallsOk(s, s.calls)
    ensures CallsOk(OnVoteRequest(s, i, a), s.calls)
  {
    var s' := OnVoteRequest(s, i, a);
    forall k | k in s.calls && OwnedBy(k, i)
      ensures CallOk(s', k)
    {
      assert CallOk(s, k);
    }
    CallsKept(s, s', i, s.calls);
  }

  lemma VoteSurface(s: Cluster, i: nat, a: VoteArgs)
    requires Surface(s) && i < |s.nodes| && VoteReq(i, a) in s.net
    requires OnRequestVote(s.nodes[i], a).1.granted ==> MayVote(s.core, a.term, i)
    requires Local(s.core, OnVoteRequest(s, i, a).core, i)
    ensures Surface(OnVoteRequest(s, i, a))
  {
    var s' := OnVoteRequest(s, i, a);
    assert NodeOk(s, i);
    VoteNode(s, i, a);
    NodesKept(s, s', i, s'.nodes[i], s.svc[i], s.counted[i]);
    VoteCalls(s, i, a);
    MsgsKept(s.core, s'.core, i, s.net, {VoteRsp(i, a, OnRequestVote(s.nodes[i], a).1)});
    DeliveriesKept(s.core, s'.core, i, s.delivered);
  }

  lemma VoteKeeps(s: Cluster, i: nat, a: VoteArgs)
    requires Safe(s) && i < |s.nodes| && VoteReq(i, a) in s.net && Guarded(OnVoteRequest(s, i, a))
    ensures Safe(OnVoteRequest(s, i, a))
  {
    assert NodeOk(s, i);
    assert Won(s.core, a.term, i) ==> (a.term, i) in s.leaders;
    VoteCore(s.core, s.nodes[i], i, a);
    VoteSurface(s, i, a);
  }

  // ---------------------------------------------------------------- counting votes

  lemma OpenTerm(c: Core, i: nat, q: set<nat>)
    requires Reachable(c) && CanElect(c, i, q)
    ensures c.term[i] !in c.wins
  {
    ReachableInv(c);
    TermIsOpen(c, i, q);
  }

  lemma ElectCore(c: Core, i: nat, q: set<nat>)
    requires Reachable(c) && CanElect(c, i, q) && c.log[i] != []
    ensures c.term[i] !in c.wins
    ensures var d := SelfAck(Elect(c, i, q), i);
            && Reachable(d) && Local(c, d, i)
            && d.term == c.term && d.log == c.log && d.vote == c.vote[i := -1]
            && d.wins == c.wins[c.term[i] := Win(i, q)] && d.tlog == c.tlog[c.term[i] := c.log[i]]
            && Ack(i, c.term[i], |c.log[i]| - 1) in d.acks
  {
    OpenTerm(c, i, q);
    var e := Elect(c, i, q);
    var last := |c.log[i]| - 1;
    Extend(c, LElect(i, q));
    Extend(e, LAccept(i, last, last));
    assert e.log[i := e.log[i]] == e.log;
    assert SelfAck(e, i) == Accept(e, i, last, last);
    LocalTrans(c, e, SelfAck(e, i), i);
  }

  /** One more distinct vote for a candidate. */
  lemma CountNode(c: Core, n: Node, i: nat, q: set<nat>, from: nat)
    requires Running(c, n, i, q) && from < |c.term| && from !in q && Grant(from, n.term, i) in c.grants
    ensures Running(c, n.(votes := n.votes + 1), i, q + {from})
  {
    assert |q + {from}| == |q| + 1;
  }

  lemma CrownCore(c: Core, n: Node, i: nat, q: set<nat>)
    requires Reachable(c) && Mirrors(c, n, i) && Running(c, n, i, q) && n.votes > |c.term| / 2
    ensures var d := SelfAck(Elect(c, i, q), i);
            && Reachable(d) && Local(c, d, i) && c.term[i] !in c.wins
            && d.wins == c.wins[c.term[i] := Win(i, q)]
            && Mirrors(d, BecomeLeader(n, i, |c.term|), i)
            && Leading(d, BecomeLeader(n, i, |c.term|), i)
  {
    ElectCore(c, i, q);
    var d := SelfAck(Elect(c, i, q), i);
    var n' := BecomeLeader(n, i, |c.term|);
    forall j: nat | j < |n'.matched|
      ensures n'.matched[j] == 0 || MatchedBy(d, j, n'.term, n'.matched[j])
    {
    }
  }

  /** The node, the votes counted and the core after a vote reply, without the rest of the cluster. */
  lemma AnswerCore(c: Core, n: Node, i: nat, q: set<nat>, from: nat, a: VoteArgs, r: VoteReply)
    requires Reachable(c) && Mirrors(c, n, i) && a.cand == i && a.term <= n.term
    requires MsgOk(c, VoteRsp(from, a, r))
    requires n.role == Candidate ==> Running(c, n, i, q)
    requires a.term == n.term && n.role == Candidate ==> from !in q
    ensures var n' := OnVoteReply(n, i, |c.term|, a.term, r);
            var q' := if a.term == n.term == r.term && n.role == Candidate && r.granted then q + {from} else q;
            var d := CoreOnVoteReply(c, i, n, n', q');
            && Reachable(d) && Local(c, d, i) && Mirrors(d, n', i)
            && (n'.role == Candidate ==> Running(d, n', i, q'))
            && (n'.role == Leader && n.role != Leader ==> Leading(d, n', i))
            && (n'.role == Leader && n.role == Leader ==> n' == n && d == c)
            && (if n.role == Candidate && n'.role == Leader then
                  n.term !in c.wins && n'.term == n.term && d.wins == c.wins[n.term := Win(i, q')]
                else d.wins == c.wins)
  {
    LocalRefl(c, i);
    var n' := OnVoteReply(n, i, |c.term|, a.term, r);
    if n'.term > n.term {
      Extend(c, LBump(i, n'.term));
    } else if a.term == n.term == r.term && n.role == Candidate && r.granted {
      CountNode(c, n, i, q, from);
      var m := n.(votes := n.votes + 1);
      if n'.role == Leader {
        CrownCore(c, m, i, q + {from});
      }
    }
  }

  lemma AnswerCalls(s: Cluster, i: nat, from: nat, a: VoteArgs, r: VoteReply)
    requires Basic(s) && i < |s.nodes| && CallsOk(s, s.calls)
    ensures CallsOk(OnVoteAnswer(s, i, from, a, r), s.calls - {VoteCall(i, a.term, from)})
  {
    var s' := OnVoteAnswer(s, i, from, a, r);
    var rest := s.calls - {VoteCall(i, a.term, from)};
    forall k | k in rest && OwnedBy(k, i)
      ensures CallOk(s', k)
    {
      assert CallOk(s, k);
    }
    CallsKept(s, s', i, rest);
  }

  /** Same log, same commit, same disk contents as memory: what Steady and Serving need. */
  ghost predicate KeepsLog(n: Node, n': Node) {
    && n'.term >= n.term && n'.log == n.log
    && n'.snapIndex == n.snapIndex && n'.snapshot == n.snapshot && n'.commit == n.commit && n'.applied == n.applied
    && (n.disk == Disk(n.term, n.vote, n.log, n.snapIndex, n.snapshot)
        ==> n'.disk == Disk(n'.term, n'.vote, n'.log, n'.snapIndex, n'.snapshot))
  }

  lemma SteadyKept(c: Core, d: Core, n: Node, n': Node, v: Service)
    requires Steady(c, n) && Serving(n, v) && KeepsLog(n, n') && Grows(c, d)
    ensures Steady(d, n') && Serving(n', v)
  {
    CoveredGrows(c, d, n.log, n.commit, n.term, n'.term);
  }

  lemma Throne(ls: set<(nat, nat)>, wins: map<nat, Win>, t: nat, i: nat, q: set<nat>)
    requires OnTheThrone(ls, wins) && t !in wins
    ensures OnTheThrone(ls + {(t, i)}, wins[t := Win(i, q)])
  {
  }

  lemma AnswerThrone(s: Cluster, i: nat, from: nat, a: VoteArgs, r: VoteReply)
    requires Basic(s) && Reachable(s.core) && i < |s.nodes| && NodeOk(s, i) && a.cand == i
    requires CallOk(s, VoteCall(i, a.term, from)) && MsgOk(s.core, VoteRsp(from, a, r))
    requires OnTheThrone(s.leaders, s.core.wins)
    ensures var s' := OnVoteAnswer(s, i, from, a, r); OnTheThrone(s'.leaders, s'.core.wins)
  {
    var s' := OnVoteAnswer(s, i, from, a, r);
    var n := s.nodes[i];
    AnswerCore(s.core, n, i, s.counted[i], from, a, r);
    if n.role == Candidate && s'.nodes[i].role == Leader {
      Throne(s.leaders, s.core.wins, n.term, i, s'.counted[i]);
    } else if s'.nodes[i].role == Leader {
      assert (n.term, i) in s.leaders;
      assert s.leaders + {(n.term, i)} == s.leaders;
    }
  }

  lemma AnswerNode(s: Cluster, i: nat, from: nat, a: VoteArgs, r: VoteReply)
    requires Basic(s) && Reachable(s.core) && i < |s.nodes| && NodeOk(s, i) && a.cand == i
    requires CallOk(s, VoteCall(i, a.term, from)) && MsgOk(s.core, VoteRsp(from, a, r))
    ensures var s' := OnVoteAnswer(s, i, from, a, r);
            Basic(s') && NodeOk(s', i) && Local(s.core, s'.core, i) && Reachable(s'.core)
  {
    var s' := OnVoteAnswer(s, i, from, a, r);
    AnswerCore(s.core, s.nodes[i], i, s.counted[i], from, a, r);
    AnswerKeepsLog(s.nodes[i], i, |s.nodes|, a.term, r);
    SteadyKept(s.core, s'.core, s.nodes[i], s'.nodes[i], s.svc[i]);
  }

  lemma AnswerKeepsLog(n: Node, me: nat, peers: nat, asked: nat, r: VoteReply)
    requires n.log != []
    ensures KeepsLog(n, OnVoteReply(n, me, peers, asked, r))
  {
  }

  lemma AnswerSurface(s: Cluster, i: nat, from: nat, a: VoteArgs, r: VoteReply)
    requires Surface(s) && i < |s.nodes|
    requires var s' := OnVoteAnswer(s, i, from, a, r); Basic(s') && NodeOk(s', i) && Local(s.core, s'.core, i)
    ensures Surface(OnVoteAnswer(s, i, from, a, r))
  {
    var s' := OnVoteAnswer(s, i, from, a, r);
    NodesKept(s, s', i, s'.nodes[i], s.svc[i], s'.counted[i]);
    AnswerCalls(s, i, from, a, r);
    MsgsKept(s.core, s'.core, i, s.net, {});
    DeliveriesKept(s.core, s'.core, i, s.delivered);
  }

  lemma AnswerKeeps(s: Cluster, i: nat, from: nat, a: VoteArgs, r: VoteReply)
    requires Safe(s) && Enabled(s, RecvVoteReply(i, from, a, r))
    ensures Safe(OnVoteAnswer(s, i, from, a, r))
  {
    assert NodeOk(s, i) && CallOk(s, VoteCall(i, a.term, from)) && MsgOk(s.core, VoteRsp(from, a, r));
    AnswerNode(s, i, from, a, r);
    AnswerThrone(s, i, from, a, r);
    AnswerSurface(s, i, from, a, r);
  }
}
