/**
 A cluster of raft1 peers, each with its kvraft1 state machine on top. A run is a sequence of
 labelled steps; messages are never removed from the net, so they may be lost, repeated and
 reordered. `calls` are the goroutines still waiting for a reply; a crash ends them.
 */
module RaftRun {
  import opened Kv
  import opened RaftCore
  import opened RaftPeer

  datatype Msg =
    | VoteReq(to: nat, va: VoteArgs)
    | VoteRsp(from: nat, va: VoteArgs, vr: VoteReply)
    | AppendReq(to: nat, aa: AppendArgs)
    | AppendRsp(from: nat, aa: AppendArgs, ar: AppendReply)

  datatype Call =
    | VoteCall(cand: nat, term: nat, to: nat)
    | AppendCall(leader: nat, to: nat, aa: AppendArgs)

  /** rsm.reader: what waits in applyCh, the last index executed, and the kvraft1 table. */
  datatype Service = Service(queue: seq<ApplyMsg>, done: nat, table: Table)

  /**
   Besides the program state, a cluster state records history: the consensus core, the votes
   counted by each candidate, who became leader, votes granted by a server in a term it had
   already won, and everything ever delivered on an applyCh.
   */
  datatype Cluster = Cluster(
    nodes: seq<Node>,
    svc: seq<Service>,
    net: set<Msg>,
    calls: set<Call>,
    core: Core,
    counted: seq<set<nat>>,
    leaders: set<(nat, nat)>,
    regrants: set<(nat, nat)>,
    delivered: set<ApplyMsg>)

  datatype Step =
    | Timeout(i: nat)
    | RecvVote(i: nat, va: VoteArgs)
    | RecvVoteReply(i: nat, from: nat, va: VoteArgs, vr: VoteReply)
    | SendAppend(i: nat, to: nat)
    | RecvAppend(i: nat, aa: AppendArgs)
    | RecvAppendReply(i: nat, from: nat, aa: AppendArgs, ar: AppendReply)
    | StartOp(i: nat, op: Op)
    | CommitTick(i: nat)
    | ApplyTick(i: nat)
    | ReadOne(i: nat)
    | SnapshotNow(i: nat)
    | Crash(i: nat)

  // ---------------------------------------------------------------- the state machine on top

  function Execute(t: Table, op: Op): (Table, Reply) {
    match op
    case Noop => (t, PutReply(OK))
    case Op(_, req) => DoOp(t, req)
  }

  /** The table after executing entries 1..k of l. */
  function Replay(l: Log, k: nat): Table
    requires k < |l|
  {
    if k == 0 then map[] else Execute(Replay(l, k - 1), l[k].op).0
  }

  // ---------------------------------------------------------------- core bookkeeping

  ghost function CoreAccept(c: Core, j: nat, p: int, m: int): Core {
    if Sized(c) && j < |c.term| && c.term[j] in c.tlog && 0 <= p <= m < |c.tlog[c.term[j]]| && p < |c.log[j]|
    then Accept(c, j, p, m) else c
  }

  /** Every leader agrees with itself through its last entry. */
  ghost function SelfAck(c: Core, j: nat): Core
    requires Sized(c) && j < |c.term|
  {
    CoreAccept(c, j, |c.log[j]| - 1, |c.log[j]| - 1)
  }

  ghost function CoreOnVote(c: Core, j: nat, a: VoteArgs, granted: bool): Core
    requires Sized(c) && j < |c.term|
  {
    var c := if a.term > c.term[j] then Bump(c, j, a.term) else c;
    if granted then GiveVote(c, j, a.cand) else c
  }

  ghost function CoreOnAppend(c: Core, j: nat, n: Node, a: AppendArgs): Core
    requires Sized(c) && j < |c.term| && Kept(n)
  {
    if a.term < n.term then c
    else
      var c := if a.term > n.term then Bump(c, j, a.term) else if n.role != Follower then Release(c, j) else c;
      if Matches(n, a) then CoreAccept(c, j, a.prevIndex, a.prevIndex + |a.entries|) else c
  }

  ghost function CoreOnVoteReply(c: Core, j: nat, n: Node, n': Node, q: set<nat>): Core
    requires Sized(c) && j < |c.term|
  {
    if n'.term > n.term then Bump(c, j, n'.term)
    else if n.role == Candidate && n'.role == Leader then SelfAck(Elect(c, j, q), j)
    else c
  }

  // ---------------------------------------------------------------- steps

  ghost predicate Basic(s: Cluster) {
    && |s.nodes| == |s.svc| == |s.counted| == |s.core.term| && Sized(s.core)
    && forall i :: 0 <= i < |s.nodes| ==> Kept(s.nodes[i])
  }

  ghost predicate CanCommit(n: Node, me: nat) {
    && n.role == Leader && n.log != [] && me < |n.matched|
    && forall i :: 0 <= i < |n.matched| && i != me ==> n.matched[i] < |n.log|
  }

  ghost predicate Enabled(s: Cluster, e: Step) {
    && Basic(s) && e.i < |s.nodes|
    && var n := s.nodes[e.i];
       match e
       case Timeout(_) => true
       case RecvVote(i, a) => VoteReq(i, a) in s.net
       case RecvVoteReply(i, from, a, r) => VoteCall(i, a.term, from) in s.calls && a.cand == i && VoteRsp(from, a, r) in s.net
       case SendAppend(i, to) =>
         n.role == Leader && to != i && to < |s.nodes| && to < |n.next| && n.snapIndex < n.next[to] <= |n.log|
       case RecvAppend(i, a) => AppendReq(i, a) in s.net
       case RecvAppendReply(i, from, a, r) =>
         && AppendCall(i, from, a) in s.calls && AppendRsp(from, a, r) in s.net && a.term <= n.term
         && (a.term == n.term == r.term ==> from < |n.next| && from < |n.matched|)
       case StartOp(i, op) => op.Op?
       case CommitTick(i) => CanCommit(n, i)
       case ApplyTick(i) => n.applied < n.commit < |n.log|
       case ReadOne(i) => s.svc[i].queue != []
       case SnapshotNow(i) => s.svc[i].done < |n.log|
       case Crash(_) => true
  }

  ghost function OnTimeout(s: Cluster, i: nat): Cluster
    requires Basic(s) && i < |s.nodes|
  {
    var n := StartElection(s.nodes[i], i);
    if s.nodes[i].role == Leader then s
    else
      s.(nodes := s.nodes[i := n],
         core := Campaign(s.core, i),
         counted := s.counted[i := {i}],
         net := s.net + (set to | to in Servers(|s.nodes|) && to != i :: VoteReq(to, Campaigning(n, i))),
         calls := s.calls + (set to | to in Servers(|s.nodes|) && to != i :: VoteCall(i, n.term, to)))
  }

  ghost function OnVoteRequest(s: Cluster, i: nat, a: VoteArgs): Cluster
    requires Basic(s) && i < |s.nodes|
  {
    var (n, r) := OnRequestVote(s.nodes[i], a);
    s.(nodes := s.nodes[i := n],
       core := CoreOnVote(s.core, i, a, r.granted),
       net := s.net + {VoteRsp(i, a, r)},
       regrants := if r.granted && (a.term, i) in s.leaders then s.regrants + {(a.term, i)} else s.regrants)
  }

  ghost function OnVoteAnswer(s: Cluster, i: nat, from: nat, a: VoteArgs, r: VoteReply): Cluster
    requires Basic(s) && i < |s.nodes|
  {
    var n := s.nodes[i];
    var n' := OnVoteReply(n, i, |s.nodes|, a.term, r);
    var q := if a.term == n.term == r.term && n.role == Candidate && r.granted then s.counted[i] + {from} else s.counted[i];
    s.(nodes := s.nodes[i := n'],
       core := CoreOnVoteReply(s.core, i, n, n', q),
       counted := s.counted[i := q],
       leaders := if n'.role == Leader then s.leaders + {(n'.term, i)} else s.leaders,
       calls := s.calls - {VoteCall(i, a.term, from)})
  }

  ghost function OnAppendRequest(s: Cluster, i: nat, a: AppendArgs): Cluster
    requires Basic(s) && i < |s.nodes|
  {
    var (n, r) := OnAppendEntries(s.nodes[i], a);
    s.(nodes := s.nodes[i := n],
       core := CoreOnAppend(s.core, i, s.nodes[i], a),
       net := s.net + {AppendRsp(i, a, r)})
  }

  ghost function OnAppendAnswer(s: Cluster, i: nat, from: nat, a: AppendArgs, r: AppendReply): Cluster
    requires Enabled(s, RecvAppendReply(i, from, a, r))
  {
    var n := s.nodes[i];
    var n' := OnAppendReply(n, from, a, r);
    s.(nodes := s.nodes[i := n'],
       core := if n'.term > n.term then Bump(s.core, i, n'.term) else s.core)
  }

  /** The part of a crashed peer that survives is on disk. */
  ghost function OnCrash(s: Cluster, i: nat): Cluster
    requires Basic(s) && i < |s.nodes|
  {
    var n := Restart(s.nodes[i].disk);
    s.(nodes := s.nodes[i := n],
       svc := s.svc[i := Service([], n.snapIndex, n.snapshot)],
       calls := set c | c in s.calls && (if c.VoteCall? then c.cand != i else c.leader != i))
  }

  ghost function Next(s: Cluster, e: Step): Cluster
    requires Enabled(s, e)
  {
    var n := s.nodes[e.i];
    match e
    case Timeout(i) => OnTimeout(s, i)
    case RecvVote(i, a) => OnVoteRequest(s, i, a)
    case RecvVoteReply(i, from, a, r) => OnVoteAnswer(s, i, from, a, r)
    case SendAppend(i, to) =>
      var a := Probe(n, i, n.next[to]);
      s.(net := s.net + {AppendReq(to, a)}, calls := s.calls + {AppendCall(i, to, a)})
    case RecvAppend(i, a) => OnAppendRequest(s, i, a)
    case RecvAppendReply(i, from, a, r) => OnAppendAnswer(s, i, from, a, r)
    case StartOp(i, op) =>
      if n.role == Leader then s.(nodes := s.nodes[i := Submit(n, op)], core := Append(s.core, i, op)) else s
    case CommitTick(i) => s.(nodes := s.nodes[i := AdvanceCommit(n, i)], core := SelfAck(s.core, i))
    case ApplyTick(i) =>
      var ms := Deliverable(n);
      s.(nodes := s.nodes[i := Deliver(n)],
         svc := s.svc[i := s.svc[i].(queue := s.svc[i].queue + ms)],
         delivered := s.delivered + (set m | m in ms))
    case ReadOne(i) =>
      var v := s.svc[i];
      s.(svc := s.svc[i := Service(v.queue[1..], v.queue[0].index, Execute(v.table, v.queue[0].op).0)])
    case SnapshotNow(i) => s.(nodes := s.nodes[i := TakeSnapshot(n, s.svc[i].done, s.svc[i].table)])
    case Crash(i) => OnCrash(s, i)
  }

  ghost function Init(n: nat): Cluster {
    Cluster(seq(n, _ => Boot()), seq(n, _ => Service([], 0, map[])), {}, {},
            RaftCore.Start(n), seq(n, _ => {}), {}, {}, {})
  }

  ghost predicate Steps(s: Cluster, s': Cluster) {
    exists e :: Enabled(s, e) && s' == Next(s, e)
  }

  /** tr lists the states of a run of n peers, from boot on. */
  ghost predicate Run(n: nat, tr: seq<Cluster>) {
    && tr != []
    && if |tr| == 1 then tr[0] == Init(n)
       else Run(n, tr[..|tr| - 1]) && Steps(tr[|tr| - 2], tr[|tr| - 1])
  }

  /** No server of an odd number has granted a vote in a term it had already won. */
  ghost predicate Guarded(s: Cluster) {
    |s.nodes| % 2 == 0 || s.regrants == {}
  }

  ghost predicate GuardedRun(n: nat, tr: seq<Cluster>) {
    Run(n, tr) && forall k :: 0 <= k < |tr| ==> Guarded(tr[k])
  }
}
