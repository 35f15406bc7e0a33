/** Replication, commit, apply, snapshot and crash steps keep RaftInv.Safe. */
module RaftAppend {
  import opened RaftCore
  import opened RaftPeer
  import opened RaftRun
  import opened RaftInv
  import opened RaftSteps

  // ---------------------------------------------------------------- sending

  /** The leader ships its whole suffix, so its commit index never exceeds what it sends. */
  lemma ProbeIsSlice(c: Core, n: Node, i: nat, next: int)
    requires Leading(c, n, i) && Steady(c, n) && n.snapIndex < next <= |n.log|
    ensures Slice(c, Probe(n, i, next))
  {
    assert n.log[next..] == n.log[next..|n.log|];
  }

  lemma SendKeeps(s: Cluster, i: nat, to: nat)
    requires Safe(s) && Enabled(s, SendAppend(i, to))
    ensures Safe(Next(s, SendAppend(i, to)))
  {
    var s' := Next(s, SendAppend(i, to));
    assert NodeOk(s, i);
    ProbeIsSlice(s.core, s.nodes[i], i, s.nodes[i].next[to]);
    forall j | 0 <= j < |s.nodes|
      ensures NodeOk(s', j)
    {
      assert NodeOk(s, j);
    }
    forall k | k in s.calls
      ensures CallOk(s', k)
    {
      assert CallOk(s, k);
    }
  }

  // ---------------------------------------------------------------- receiving

  /** A candidate that hears from the winner of its own term was not in the winning quorum. */
  lemma ReleaseCore(c: Core, n: Node, i: nat, q: set<nat>, a: AppendArgs)
    requires Reachable(c) && Mirrors(c, n, i) && Slice(c, a) && a.leader != i && a.term == n.term
    requires n.role == Candidate ==> Running(c, n, i, q)
    requires n.role == Leader ==> Leading(c, n, i)
    requires n.role != Follower
    ensures Reachable(Release(c, i)) && Local(c, Release(c, i), i)
  {
    ReachableInv(c);
    assert Loyal(c);
    Extend(c, LRelease(i));
  }

  ghost function Adopt(n: Node, a: AppendArgs): Node {
    if a.term > n.term || n.role != Follower then StepDown(n, a.term) else n
  }

  ghost function AdoptCore(c: Core, n: Node, i: nat, a: AppendArgs): Core
    requires Sized(c) && i < |c.term|
  {
    if a.term > n.term then Bump(c, i, a.term) else if n.role != Follower then Release(c, i) else c
  }

  lemma AdoptKeeps(c: Core, n: Node, i: nat, q: set<nat>, a: AppendArgs)
    requires Reachable(c) && Mirrors(c, n, i) && Slice(c, a) && a.leader != i && a.term >= n.term
    requires n.role == Candidate ==> Running(c, n, i, q)
    requires n.role == Leader ==> Leading(c, n, i)
    ensures var d := AdoptCore(c, n, i, a);
            && Reachable(d) && Local(c, d, i) && Mirrors(d, Adopt(n, a), i) && Slice(d, a)
            && d.term[i] == a.term && d.wins == c.wins && d.tlog == c.tlog
  {
    LocalRefl(c, i);
    if a.term > n.term {
      Extend(c, LBump(i, a.term));
    } else if n.role != Follower {
      ReleaseCore(c, n, i, q, a);
    }
    SliceStays(c, AdoptCore(c, n, i, a), i, a);
  }

  lemma MatchingFacts(c: Core, n: Node, i: nat, a: AppendArgs)
    requires Reachable(c) && Mirrors(c, n, i) && n.term <= a.term && a.term in c.tlog
    requires Covered(c, n.log, n.commit, n.term)
    ensures Anchored(c, n.log) && Anchored(c, c.tlog[a.term]) && Agree(c.tlog[a.term], n.log, n.commit)
  {
    ReachableInv(c);
    LeaderCovers(c, n.log, n.commit, n.term, a.term);
  }

  /** What acceptance does to a follower's log: it agrees with the leader's, and nothing committed is lost. */
  lemma AcceptedLog(c: Core, n: Node, i: nat, a: AppendArgs)
    requires Anchored(c, n.log) && Slice(c, a) && Kept(n) && Matches(n, a)
    requires Anchored(c, c.tlog[a.term]) && Agree(c.tlog[a.term], n.log, n.commit)
    ensures var l := Merge(n.log, a.prevIndex + 1, a.entries);
            Agree(l, c.tlog[a.term], a.prevIndex + |a.entries|) && Agree(l, n.log, n.commit)
  {
    MatchAt(c, n.log, c.tlog[a.term], a.prevIndex);
    MergeFollows(c, n.log, c.tlog[a.term], a.prevIndex + 1, a.prevIndex + |a.entries|);
  }

  lemma AcceptIs(c: Core, n: Node, i: nat, a: AppendArgs)
    requires Mirrors(c, n, i) && Slice(c, a) && n.term == a.term && Kept(n) && Matches(n, a)
    ensures var m := a.prevIndex + |a.entries|;
            && CanAccept(c, i, a.prevIndex, m)
            && var d := CoreAccept(c, i, a.prevIndex, m);
               && d == Accept(c, i, a.prevIndex, m)
               && d.log == c.log[i := AcceptEntries(n, a).log] && Mirrors(d, AcceptEntries(n, a), i)
               && d.wins == c.wins && Ack(i, a.term, m) in d.acks
  {
  }

  lemma AcceptCore(c: Core, n: Node, i: nat, a: AppendArgs)
    requires Reachable(c) && Mirrors(c, n, i) && Slice(c, a) && n.term == a.term && Kept(n) && Matches(n, a)
    ensures var d := CoreAccept(c, i, a.prevIndex, a.prevIndex + |a.entries|);
            Reachable(d) && Local(c, d, i)
  {
    AcceptIs(c, n, i, a);
    Extend(c, LAccept(i, a.prevIndex, a.prevIndex + |a.entries|));
  }

  lemma AcceptNode(c: Core, d: Core, n: Node, i: nat, a: AppendArgs, v: Service)
    requires Steady(c, n) && Serving(n, v) && n.role == Follower && n.term == a.term && Kept(n) && Matches(n, a)
    requires Slice(c, a) && Grows(c, d)
    requires var l := AcceptEntries(n, a).log;
             Agree(l, c.tlog[a.term], a.prevIndex + |a.entries|) && Agree(l, n.log, n.commit)
    ensures Steady(d, AcceptEntries(n, a)) && Serving(AcceptEntries(n, a), v)
  {
    var n' := AcceptEntries(n, a);
    var l := n'.log;
    if a.commit > n.commit {
      AgreeBelow(l, c.tlog[a.term], a.prevIndex + |a.entries|, a.commit);
      CoveredOther(c, c.tlog[a.term], l, a.commit, a.term);
    } else {
      CoveredOther(c, n.log, l, n.commit, n.term);
    }
    CoveredGrows(c, d, l, n'.commit, n.term, n.term);
    AgreeBelow(l, n.log, n.commit, n.applied);
    ServingAgrees(n, n', v);
  }

  /** A rejection always points inside the leader's log. */
  lemma RejectionHints(c: Core, n: Node, term: nat, a: AppendArgs)
    requires Reachable(c) && Slice(c, a) && Kept(n) && !Matches(n, a) && n.term <= a.term
    requires n.snapIndex <= n.commit && Covered(c, n.log, n.commit, n.term)
    ensures Hinted(c, a, Rejection(n, term, a))
  {
    ReachableInv(c);
    LeaderCovers(c, n.log, n.commit, n.term, a.term);
  }

  ghost function AppendedCore(c: Core, n: Node, i: nat, a: AppendArgs): Core
    requires Sized(c) && i < |c.term| && Kept(n)
  {
    var d := AdoptCore(c, n, i, a);
    if Matches(n, a) then CoreAccept(d, i, a.prevIndex, a.prevIndex + |a.entries|) else d
  }

  ghost function AppendedNode(n: Node, a: AppendArgs): Node
    requires Kept(n)
  {
    var m := Adopt(n, a);
    if Matches(m, a) then AcceptEntries(m, a) else m
  }

  ghost function AppendedReply(n: Node, a: AppendArgs): AppendReply
    requires Kept(n)
  {
    if Matches(n, a) then AppendReply(n.term, true, 0, 0, 0) else Rejection(Adopt(n, a), n.term, a)
  }

  lemma AdoptedNode(c: Core, d: Core, n: Node, a: AppendArgs, v: Service)
    requires Steady(c, n) && Serving(n, v) && a.term >= n.term && Grows(c, d)
    ensures Steady(d, Adopt(n, a)) && Serving(Adopt(n, a), v) && Adopt(n, a).role == Follower
  {
    SteadyKept(c, d, n, Adopt(n, a), v);
  }

  lemma AcceptKeepsNode(c: Core, n: Node, i: nat, a: AppendArgs, v: Service)
    requires Reachable(c) && Mirrors(c, n, i) && Slice(c, a) && n.term == a.term && Kept(n) && Matches(n, a)
    requires Steady(c, n) && Serving(n, v) && n.role == Follower
    ensures var d := CoreAccept(c, i, a.prevIndex, a.prevIndex + |a.entries|);
            && Reachable(d) && Local(c, d, i) && Steady(d, AcceptEntries(n, a)) && Serving(AcceptEntries(n, a), v)
  {
    AcceptCore(c, n, i, a);
    AcceptSteady(c, CoreAccept(c, i, a.prevIndex, a.prevIndex + |a.entries|), n, i, a, v);
  }

  lemma AcceptSteady(c: Core, d: Core, n: Node, i: nat, a: AppendArgs, v: Service)
    requires Reachable(c) && Mirrors(c, n, i) && Slice(c, a) && n.term == a.term && Kept(n) && Matches(n, a)
    requires Steady(c, n) && Serving(n, v) && n.role == Follower && Grows(c, d)
    ensures Steady(d, AcceptEntries(n, a)) && Serving(AcceptEntries(n, a), v)
  {
    MatchingFacts(c, n, i, a);
    AcceptedLog(c, n, i, a);
    AcceptNode(c, d, n, i, a, v);
  }

  /** Peer i has adopted the term of a and is a follower in it. */
  ghost predicate Adopted(c: Core, e: Core, m: Node, i: nat, a: AppendArgs, v: Service) {
    && Local(c, e, i) && Reachable(e) && Mirrors(e, m, i) && Slice(e, a)
    && m.term == a.term && m.role == Follower && Steady(e, m) && Serving(m, v)
  }

  /** Core and peer after the reaction are sound again. */
  ghost predicate Reacted(c: Core, d: Core, i: nat, n: Node, v: Service) {
    Reachable(d) && Local(c, d, i) && Steady(d, n) && Serving(n, v)
  }

  lemma AdoptThenAccept(c: Core, e: Core, m: Node, i: nat, a: AppendArgs, v: Service)
    requires Adopted(c, e, m, i, a, v) && Kept(m) && Matches(m, a)
    ensures Reacted(c, CoreAccept(e, i, a.prevIndex, a.prevIndex + |a.entries|), i, AcceptEntries(m, a), v)
  {
    AcceptKeepsNode(e, m, i, a, v);
    LocalTrans(c, e, CoreAccept(e, i, a.prevIndex, a.prevIndex + |a.entries|), i);
  }

  lemma AdoptAll(c: Core, n: Node, i: nat, q: set<nat>, a: AppendArgs, v: Service)
    requires Reachable(c) && Mirrors(c, n, i) && Slice(c, a) && a.leader != i && a.term >= n.term
    requires Steady(c, n) && Serving(n, v)
    requires n.role == Candidate ==> Running(c, n, i, q)
    requires n.role == Leader ==> Leading(c, n, i)
    ensures Kept(n) && Kept(Adopt(n, a)) && Matches(Adopt(n, a), a) == Matches(n, a)
    ensures Adopted(c, AdoptCore(c, n, i, a), Adopt(n, a), i, a, v)
  {
    AdoptKeeps(c, n, i, q, a);
    AdoptedNode(c, AdoptCore(c, n, i, a), n, a, v);
  }

  /** A follower's whole reaction to a current AppendEntries, on its node, its service and the core. */
  lemma AppendedKeeps(c: Core, n: Node, i: nat, a: AppendArgs, v: Service)
    requires Sized(c) && i < |c.term| && Kept(n) && Kept(Adopt(n, a)) && Matches(Adopt(n, a), a) == Matches(n, a)
    requires Adopted(c, AdoptCore(c, n, i, a), Adopt(n, a), i, a, v)
    ensures Reacted(c, AppendedCore(c, n, i, a), i, AppendedNode(n, a), v)
  {
    var e := AdoptCore(c, n, i, a);
    ReactionIs(c, e, Adopt(n, a), AppendedCore(c, n, i, a), AppendedNode(n, a), i, a, v);
  }

  lemma ReactionIs(c: Core, e: Core, m: Node, d: Core, n': Node, i: nat, a: AppendArgs, v: Service)
    requires Adopted(c, e, m, i, a, v) && Kept(m)
    requires if Matches(m, a) then d == CoreAccept(e, i, a.prevIndex, a.prevIndex + |a.entries|) && n' == AcceptEntries(m, a)
             else d == e && n' == m
    ensures Reacted(c, d, i, n', v)
  {
    if Matches(m, a) { AdoptThenAccept(c, e, m, i, a, v); }
  }

  lemma AppendedMirrors(c: Core, n: Node, i: nat, a: AppendArgs)
    requires Mirrors(c, n, i) && Kept(n) && a.term >= n.term
    requires var e := AdoptCore(c, n, i, a); Mirrors(e, Adopt(n, a), i) && Slice(e, a)
    ensures var d := AppendedCore(c, n, i, a);
            var n' := AppendedNode(n, a);
            && Mirrors(d, n', i) && n'.role == Follower && n'.term == a.term && d.wins == c.wins
            && (Matches(n, a) ==> Ack(i, a.term, a.prevIndex + |a.entries|) in d.acks)
  {
    if Matches(n, a) {
      AcceptIs(AdoptCore(c, n, i, a), Adopt(n, a), i, a);
    }
  }

  lemma AppendedMsg(c: Core, n: Node, i: nat, a: AppendArgs)
    requires Reachable(c) && Mirrors(c, n, i) && Slice(c, a) && a.term >= n.term
    requires Steady(c, n) && Local(c, AppendedCore(c, n, i, a), i)
    requires Matches(n, a) ==> Ack(i, a.term, a.prevIndex + |a.entries|) in AppendedCore(c, n, i, a).acks
    ensures MsgOk(AppendedCore(c, n, i, a), AppendRsp(i, a, AppendedReply(n, a)))
  {
    var d := AppendedCore(c, n, i, a);
    SliceStays(c, d, i, a);
    if !Matches(n, a) {
      RejectionHints(c, n, n.term, a);
    }
  }

  lemma AppendIs(s: Cluster, i: nat, a: AppendArgs)
    requires Basic(s) && i < |s.nodes| && a.term >= s.nodes[i].term
    ensures var s' := OnAppendRequest(s, i, a);
            var n := s.nodes[i];
            && s'.core == AppendedCore(s.core, n, i, a)
            && s'.nodes == s.nodes[i := AppendedNode(n, a)]
            && s'.net == s.net + {AppendRsp(i, a, AppendedReply(n, a))}
  {
  }

  lemma AppendCalls(s: Cluster, s': Cluster, i: nat, a: AppendArgs)
    requires Basic(s) && Basic(s') && i < |s.nodes| == |s'.nodes| && CallsOk(s, s.calls)
    requires forall j :: 0 <= j < |s.nodes| && j != i ==> s'.nodes[j] == s.nodes[j]
    requires s'.counted == s.counted && s'.nodes[i].role == Follower && s'.nodes[i].term >= s.nodes[i].term
    requires s.nodes[i].role == Leader ==> s'.nodes[i].term > s.nodes[i].term
    ensures CallsOk(s', s.calls)
  {
    forall k | k in s.calls && OwnedBy(k, i)
      ensures CallOk(s', k)
    {
      assert CallOk(s, k);
    }
    CallsKept(s, s', i, s.calls);
  }

  /** The stale case: only a refusal is sent. */
  lemma StaleAppendKeeps(s: Cluster, i: nat, a: AppendArgs)
    requires Safe(s) && i < |s.nodes| && AppendReq(i, a) in s.net && a.term < s.nodes[i].term
    ensures Safe(OnAppendRequest(s, i, a))
  {
    var s' := OnAppendRequest(s, i, a);
    var n := s.nodes[i];
    assert s'.nodes == s.nodes;
    assert MsgOk(s.core, AppendReq(i, a));
    assert MsgOk(s.core, AppendRsp(i, a, AppendReply(n.term, false, 0, 0, 0)));
    forall j | 0 <= j < |s.nodes|
      ensures NodeOk(s', j)
    {
      assert NodeOk(s, j);
    }
    forall k | k in s.calls
      ensures CallOk(s', k)
    {
      assert CallOk(s, k);
    }
  }

  lemma AppendSurface(s: Cluster, i: nat, a: AppendArgs)
    requires Surface(s) && i < |s.nodes| && a.term >= s.nodes[i].term
    requires var n := s.nodes[i];
             var d := AppendedCore(s.core, n, i, a);
             var n' := AppendedNode(n, a);
             && Local(s.core, d, i) && Mirrors(d, n', i) && Steady(d, n') && Serving(n', s.svc[i])
             && n'.role == Follower && n'.term == a.term
             && MsgOk(d, AppendRsp(i, a, AppendedReply(n, a)))
    requires s.nodes[i].role == Leader ==> a.term > s.nodes[i].term
    ensures Surface(OnAppendRequest(s, i, a))
  {
    var s' := OnAppendRequest(s, i, a);
    var n := s.nodes[i];
    AppendIs(s, i, a);
    assert Basic(s');
    assert NodeOk(s', i);
    NodesKept(s, s', i, AppendedNode(n, a), s.svc[i], s.counted[i]);
    AppendCalls(s, s', i, a);
    MsgsKept(s.core, s'.core, i, s.net, {AppendRsp(i, a, AppendedReply(n, a))});
    DeliveriesKept(s.core, s'.core, i, s.delivered);
  }

  lemma FreshAppendKeeps(s: Cluster, i: nat, a: AppendArgs)
    requires Safe(s) && i < |s.nodes| && AppendReq(i, a) in s.net && a.term >= s.nodes[i].term
    ensures Safe(OnAppendRequest(s, i, a))
  {
    var n := s.nodes[i];
    assert NodeOk(s, i) && MsgOk(s.core, AppendReq(i, a));
    AdoptAll(s.core, n, i, s.counted[i], a, s.svc[i]);
    AppendedKeeps(s.core, n, i, a, s.svc[i]);
    AppendedMirrors(s.core, n, i, a);
    AppendedMsg(s.core, n, i, a);
    AppendSurface(s, i, a);
    AppendIs(s, i, a);
  }
}
