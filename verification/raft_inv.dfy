/** What every guarded run of a raft1 cluster keeps. */
module RaftInv {
  import opened RaftCore
  import opened RaftPeer
  import opened RaftRun

  ghost predicate Coupled(s: Cluster, i: nat)
    requires Basic(s) && i < |s.nodes|
  {
    var n := s.nodes[i];
    s.core.term[i] == n.term && s.core.vote[i] == n.vote && s.core.log[i] == n.log
  }

  /** Persistent fields never differ from the disk, and applied entries are committed ones. */
  ghost predicate Steady(c: Core, n: Node) {
    && n.disk == Disk(n.term, n.vote, n.log, n.snapIndex, n.snapshot)
    && n.snapIndex <= n.applied <= n.commit < |n.log|
    && Covered(c, n.log, n.commit, n.term)
  }

  /** A candidate has counted distinct votes really given to it, on the log it campaigns with. */
  ghost predicate Running(c: Core, n: Node, i: nat, q: set<nat>) {
    && n.vote == i && !Won(c, n.term, i)
    && (n.term, i) in c.cand && c.cand[(n.term, i)] == n.log
    && q <= Servers(|c.term|) && i in q && n.votes == |q|
    && forall j :: j in q ==> Grant(j, n.term, i) in c.grants
  }

  /** nextIndex stays inside the leader's log, matchIndex was acknowledged. */
  ghost predicate Leading(c: Core, n: Node, i: nat) {
    && Won(c, n.term, i) && n.term in c.tlog && n.log == c.tlog[n.term]
    && |n.next| == |n.matched| == |c.term|
    && (forall j :: 0 <= j < |n.next| ==> 1 <= n.next[j] <= |n.log|)
    && (forall j: nat :: j < |n.matched| ==> n.matched[j] == 0 || MatchedBy(c, j, n.term, n.matched[j]))
  }

  ghost predicate MatchedBy(c: Core, j: nat, t: nat, m: int) {
    0 <= m && Ack(j, t, m) in c.acks
  }

  /** The kvraft1 table is the replay of what was delivered, the saved snapshot of what was trimmed. */
  ghost predicate Serving(n: Node, v: Service) {
    && n.snapIndex <= n.applied < |n.log|
    && n.snapIndex <= v.done && v.done + |v.queue| == n.applied
    && (forall k :: 0 <= k < |v.queue| ==> v.queue[k] == ApplyMsg(v.done + 1 + k, n.log[v.done + 1 + k].op))
    && v.table == Replay(n.log, v.done)
    && n.snapshot == Replay(n.log, n.snapIndex)
  }

  ghost predicate NodeOk(s: Cluster, i: nat)
    requires Basic(s) && i < |s.nodes|
  {
    var n := s.nodes[i];
    && Coupled(s, i) && Steady(s.core, n) && Serving(n, s.svc[i])
    && (n.role == Candidate ==> Running(s.core, n, i, s.counted[i]))
    && (n.role == Leader ==> Leading(s.core, n, i))
  }

  /** a carries a slice of the log of the leader of its term, and no commit beyond that slice. */
  ghost predicate Slice(c: Core, a: AppendArgs) {
    && a.term in c.wins && c.wins[a.term].leader == a.leader && a.term in c.tlog
    && var l := c.tlog[a.term];
       var m := a.prevIndex + |a.entries|;
       && 0 <= a.prevIndex && m < |l|
       && a.prevTerm == l[a.prevIndex].term
       && a.entries == l[a.prevIndex + 1..m + 1]
       && a.commit <= m
       && Covered(c, l, a.commit, a.term)
  }

  ghost predicate Hinted(c: Core, a: AppendArgs, r: AppendReply) {
    && a.term in c.tlog
    && 1 <= (if r.xLen != -1 then r.xLen else r.xIndex) <= |c.tlog[a.term]|
  }

  ghost predicate MsgOk(c: Core, m: Msg) {
    match m
    case VoteReq(to, a) =>
      && to < |c.term| && a.cand < |c.term| && to != a.cand && (a.term, a.cand) in c.cand
      && var l := c.cand[(a.term, a.cand)]; l != [] && a.lastIndex == LastIndex(l) && a.lastTerm == LastTerm(l)
    case VoteRsp(from, a, r) =>
      from < |c.term| && (r.granted && r.term == a.term ==> Grant(from, a.term, a.cand) in c.grants)
    case AppendReq(to, a) => to < |c.term| && to != a.leader && Slice(c, a)
    case AppendRsp(from, a, r) =>
      && from < |c.term| && Slice(c, a)
      && (r.success ==> Ack(from, a.term, a.prevIndex + |a.entries|) in c.acks)
      && (!r.success && r.term == a.term ==> Hinted(c, a, r))
  }

  ghost predicate CallOk(s: Cluster, k: Call)
    requires Basic(s)
  {
    match k
    case VoteCall(i, t, to) =>
      && i < |s.nodes| && to < |s.nodes| && to != i && t <= s.nodes[i].term
      && (t == s.nodes[i].term && s.nodes[i].role == Candidate ==> to !in s.counted[i])
    case AppendCall(i, to, a) =>
      && i < |s.nodes| && to < |s.nodes| && to != i && a.leader == i && a.term <= s.nodes[i].term
      && (a.term == s.nodes[i].term ==> s.nodes[i].role == Leader)
  }

  ghost predicate DeliveredOk(c: Core, m: ApplyMsg) {
    exists t: nat, k: nat :: DeliveredBy(c, m, t, k)
  }

  ghost predicate DeliveredBy(c: Core, m: ApplyMsg, t: nat, k: nat) {
    Chosen(c, t, k) && m.index <= k && c.tlog[t][m.index].op == m.op
  }

  ghost predicate OnTheThrone(ls: set<(nat, nat)>, wins: map<nat, Win>) {
    forall t: nat, w: nat :: (t, w) in ls <==> t in wins && wins[t].leader == w
  }

  ghost predicate NodesOk(s: Cluster)
    requires Basic(s)
  {
    forall i :: 0 <= i < |s.nodes| ==> NodeOk(s, i)
  }

  ghost predicate MsgsOk(c: Core, net: set<Msg>) {
    forall m :: m in net ==> MsgOk(c, m)
  }

  ghost predicate CallsOk(s: Cluster, calls: set<Call>)
    requires Basic(s)
  {
    forall k :: k in calls ==> CallOk(s, k)
  }

  ghost predicate DeliveriesOk(c: Core, ms: set<ApplyMsg>) {
    forall m :: m in ms ==> DeliveredOk(c, m)
  }

  /** Peers, messages, calls and deliveries all agree with the core. */
  ghost predicate Surface(s: Cluster) {
    && Basic(s)
    && NodesOk(s) && MsgsOk(s.core, s.net) && CallsOk(s, s.calls) && DeliveriesOk(s.core, s.delivered)
  }

  ghost predicate Safe(s: Cluster) {
    Surface(s) && Reachable(s.core) && OnTheThrone(s.leaders, s.core.wins)
  }

  // ---------------------------------------------------------------- what others see of a step

  lemma CoveredStays(c: Core, d: Core, i: nat, l: Log, k: nat, t: nat)
    requires Local(c, d, i) && Covered(c, l, k, t)
    ensures Covered(d, l, k, t)
  {
    CoveredGrows(c, d, l, k, t, t);
  }

  lemma OtherNode(s: Cluster, s': Cluster, i: nat, j: nat)
    requires Basic(s) && Basic(s') && |s'.nodes| == |s.nodes| && Local(s.core, s'.core, i)
    requires j < |s.nodes| && j != i && NodeOk(s, j)
    requires s'.nodes[j] == s.nodes[j] && s'.svc[j] == s.svc[j] && s'.counted[j] == s.counted[j]
    ensures NodeOk(s', j)
  {
    var n := s.nodes[j];
    CoveredStays(s.core, s'.core, i, n.log, n.commit, n.term);
  }

  lemma SliceStays(c: Core, d: Core, i: nat, a: AppendArgs)
    requires Local(c, d, i) && Slice(c, a)
    ensures Slice(d, a)
  {
    var t: nat, m: nat :| CoveredBy(c, c.tlog[a.term], a.commit, a.term, t, m);
    ChosenGrows(c, d, t, m);
    AgreeGrows(c.tlog[a.term], d.tlog[a.term], c.tlog[t], d.tlog[t], a.commit);
    assert CoveredBy(d, d.tlog[a.term], a.commit, a.term, t, m);
    var k := a.prevIndex + |a.entries|;
    assert c.tlog[a.term][a.prevIndex + 1..k + 1] == d.tlog[a.term][a.prevIndex + 1..k + 1];
  }

  lemma MsgStays(c: Core, d: Core, i: nat, m: Msg)
    requires Local(c, d, i) && MsgOk(c, m)
    ensures MsgOk(d, m)
  {
    match m
    case VoteReq(_, _) =>
    case VoteRsp(_, _, _) =>
    case AppendReq(_, a) => SliceStays(c, d, i, a);
    case AppendRsp(_, a, _) => SliceStays(c, d, i, a);
  }

  lemma DeliveredStays(c: Core, d: Core, i: nat, m: ApplyMsg)
    requires Local(c, d, i) && DeliveredOk(c, m)
    ensures DeliveredOk(d, m)
  {
    var t: nat, k: nat :| DeliveredBy(c, m, t, k);
    ChosenGrows(c, d, t, k);
    assert DeliveredBy(d, m, t, k);
  }

  ghost predicate Moved(s: Cluster, s': Cluster, i: nat, n: Node, v: Service, q: set<nat>)
    requires Basic(s) && i < |s.nodes|
  {
    s'.nodes == s.nodes[i := n] && s'.svc == s.svc[i := v] && s'.counted == s.counted[i := q]
  }

  lemma NodesKept(s: Cluster, s': Cluster, i: nat, n: Node, v: Service, q: set<nat>)
    requires Basic(s) && Basic(s') && i < |s.nodes| && Moved(s, s', i, n, v, q) && Local(s.core, s'.core, i)
    requires NodesOk(s) && NodeOk(s', i)
    ensures NodesOk(s')
  {
    forall j | 0 <= j < |s.nodes|
      ensures NodeOk(s', j)
    {
      if j != i { OtherNode(s, s', i, j); }
    }
  }

  lemma MsgsKept(c: Core, d: Core, i: nat, before: set<Msg>, added: set<Msg>)
    requires Local(c, d, i) && MsgsOk(c, before) && MsgsOk(d, added)
    ensures MsgsOk(d, before + added)
  {
    forall m | m in before
      ensures MsgOk(d, m)
    {
      MsgStays(c, d, i, m);
    }
  }

  ghost predicate OwnedBy(k: Call, i: nat) {
    match k
    case VoteCall(j, _, _) => j == i
    case AppendCall(j, _, _) => j == i
  }

  lemma CallsKept(s: Cluster, s': Cluster, i: nat, before: set<Call>)
    requires Basic(s) && Basic(s') && i < |s.nodes| == |s'.nodes|
    requires forall j :: 0 <= j < |s.nodes| && j != i ==> s'.nodes[j] == s.nodes[j] && s'.counted[j] == s.counted[j]
    requires CallsOk(s, before)
    requires forall k :: k in before && OwnedBy(k, i) ==> CallOk(s', k)
    ensures CallsOk(s', before)
  {
    forall k | k in before
      ensures CallOk(s', k)
    {
      assert CallOk(s, k);
    }
  }

  lemma DeliveriesKept(c: Core, d: Core, i: nat, before: set<ApplyMsg>)
    requires Local(c, d, i) && DeliveriesOk(c, before)
    ensures DeliveriesOk(d, before)
  {
    forall m | m in before
      ensures DeliveredOk(d, m)
    {
      DeliveredStays(c, d, i, m);
    }
  }

  lemma {:induction false} ReplayAgrees(l: Log, r: Log, k: nat)
    requires Agree(l, r, k)
    ensures Replay(l, k) == Replay(r, k)
  {
    if k > 0 {
      AgreeBelow(l, r, k, k - 1);
      ReplayAgrees(l, r, k - 1);
      assert l[k] == l[..k + 1][k] == r[..k + 1][k];
    }
  }

  /** A service only depends on the delivered part of the log. */
  lemma ServingAgrees(n: Node, n': Node, v: Service)
    requires Serving(n, v) && n'.applied == n.applied && n'.snapIndex == n.snapIndex && n'.snapshot == n.snapshot
    requires Agree(n'.log, n.log, n.applied)
    ensures Serving(n', v)
  {
    AgreeBelow(n'.log, n.log, n.applied, v.done);
    ReplayAgrees(n'.log, n.log, v.done);
    AgreeBelow(n'.log, n.log, n.applied, n.snapIndex);
    ReplayAgrees(n'.log, n.log, n.snapIndex);
    forall k | 0 <= k < |v.queue|
      ensures v.queue[k] == ApplyMsg(v.done + 1 + k, n'.log[v.done + 1 + k].op)
    {
      assert n'.log[v.done + 1 + k] == n'.log[..n.applied + 1][v.done + 1 + k];
      assert n.log[v.done + 1 + k] == n.log[..n.applied + 1][v.done + 1 + k];
    }
  }
}
