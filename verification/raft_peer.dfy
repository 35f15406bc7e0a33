/**
 One raft1 peer as values: every handler of raft.go is a function from the peer's state (and
 the message) to the new state (and the reply). `log` is the whole log since boot; the program
 keeps only the part from `snapIndex` on, and the class in raft_class.dfy works on that part.
 */
module RaftPeer {
  import opened Kv
  import opened RaftCore

  datatype Role = Leader | Candidate | Follower

  /** What persist() writes and readPersist() reads back. */
  datatype Disk = Disk(term: nat, vote: int, log: Log, snapIndex: nat, snapshot: Table)

  datatype Node = Node(
    role: Role,
    term: nat,
    vote: int,
    log: Log,
    snapIndex: nat,
    snapshot: Table,
    commit: nat,
    applied: nat,
    next: seq<int>,
    matched: seq<int>,
    votes: nat,
    disk: Disk)

  datatype VoteArgs = VoteArgs(term: nat, cand: nat, lastIndex: nat, lastTerm: nat)
  datatype VoteReply = VoteReply(term: nat, granted: bool)
  datatype AppendArgs = AppendArgs(term: nat, leader: nat, prevIndex: int, prevTerm: nat, entries: seq<Entry>, commit: nat)
  datatype AppendReply = AppendReply(term: nat, success: bool, xTerm: int, xIndex: int, xLen: int)

  /** The entry at snapIndex is kept as slot 0 of the trimmed log. */
  predicate Kept(n: Node) {
    n.snapIndex < |n.log|
  }

  function Persist(n: Node): Node {
    n.(disk := Disk(n.term, n.vote, n.log, n.snapIndex, n.snapshot))
  }

  function StepDown(n: Node, t: nat): Node {
    Persist(n.(role := Follower, term := t, vote := -1, votes := 0))
  }

  /** Make(): a peer reading back what it persisted. */
  function Restart(d: Disk): Node {
    Node(Follower, d.term, d.vote, d.log, d.snapIndex, d.snapshot, d.snapIndex, d.snapIndex, [], [], 0, d)
  }

  function Boot(): Node {
    Restart(Disk(0, -1, [DUMMY], 0, map[]))
  }

  // ---------------------------------------------------------------- elections

  function StartElection(n: Node, me: nat): Node {
    if n.role == Leader then n
    else Persist(n.(role := Candidate, term := n.term + 1, votes := 1, vote := me))
  }

  function Campaigning(n: Node, me: nat): VoteArgs
    requires n.log != []
  {
    VoteArgs(n.term, me, LastIndex(n.log), LastTerm(n.log))
  }

  function OnRequestVote(n: Node, a: VoteArgs): (Node, VoteReply)
    requires n.log != []
  {
    if a.term < n.term then (n, VoteReply(n.term, false))
    else
      var n := if a.term > n.term then StepDown(n, a.term) else n;
      if n.vote != -1 && n.vote != a.cand then (n, VoteReply(n.term, false))
      else if n.vote == a.cand then (n, VoteReply(n.term, true))
      else if UpToDate(a.lastTerm, a.lastIndex, n.log) then
        (Persist(n.(vote := a.cand)), VoteReply(n.term, true))
      else (n, VoteReply(n.term, false))
  }

  function BecomeLeader(n: Node, me: nat, peers: nat): Node
    requires n.log != []
  {
    var last := LastIndex(n.log);
    Persist(n.(role := Leader, votes := 0, vote := -1)).(
      next := seq(peers, _ => last + 1),
      matched := seq(peers, i => if i == me then last else 0))
  }

  function OnVoteReply(n: Node, me: nat, peers: nat, asked: nat, r: VoteReply): Node
    requires n.log != []
  {
    if asked < n.term || r.term < n.term then n
    else if r.term > n.term then StepDown(n, r.term)
    else if n.role == Candidate && r.granted && n.votes > 0 then
      var n := n.(votes := n.votes + 1);
      if n.votes > peers / 2 then BecomeLeader(n, me, peers) else n
    else n
  }

  // ---------------------------------------------------------------- replication

  /** The loop at 376: walk down while the term is t, not below floor. */
  function Backup(l: Log, x: nat, floor: nat, t: nat): (r: nat)
    requires floor <= x < |l|
    ensures floor <= r <= x
  {
    if x > floor && l[x].term == t then Backup(l, x - 1, floor, t) else x
  }

  /** lastIndexForTerm(): the last entry of term t above floor, 0 when there is none. */
  function LastIndexForTerm(l: Log, i: nat, floor: nat, t: int): (r: nat)
    requires i < |l|
    ensures r == 0 || (floor < r <= i && l[r].term == t)
  {
    if i <= floor then 0
    else if l[i].term == t then i
    else LastIndexForTerm(l, i - 1, floor, t)
  }

  /** How a follower explains that prevIndex does not match. */
  function Rejection(n: Node, term: nat, a: AppendArgs): AppendReply
    requires Kept(n)
  {
    if a.prevIndex < n.snapIndex then AppendReply(term, false, -1, -1, n.snapIndex + 1)
    else if a.prevIndex > LastIndex(n.log) then AppendReply(term, false, -1, -1, |n.log|)
    else
      var t := n.log[a.prevIndex].term;
      var x := Backup(n.log, a.prevIndex, n.snapIndex, t);
      if x == n.snapIndex then AppendReply(term, false, -1, -1, n.snapIndex + 1)
      else AppendReply(term, false, t, x + 1, -1)
  }

  predicate Matches(n: Node, a: AppendArgs)
    requires Kept(n)
  {
    n.snapIndex <= a.prevIndex <= LastIndex(n.log) && n.log[a.prevIndex].term == a.prevTerm
  }

  function Min(a: int, b: int): int { if a < b then a else b }
  function Max(a: int, b: int): int { if a < b then b else a }

  function AcceptEntries(n: Node, a: AppendArgs): Node
    requires Kept(n) && Matches(n, a)
  {
    var l := Merge(n.log, a.prevIndex + 1, a.entries);
    Persist(n.(log := l, commit := if a.commit > n.commit then Min(a.commit, |l| - 1) else n.commit))
  }

  function OnAppendEntries(n: Node, a: AppendArgs): (Node, AppendReply)
    requires Kept(n)
  {
    if a.term < n.term then (n, AppendReply(n.term, false, 0, 0, 0))
    else
      var term := n.term;
      var n := if a.term > n.term || n.role != Follower then StepDown(n, a.term) else n;
      if Matches(n, a) then (AcceptEntries(n, a), AppendReply(term, true, 0, 0, 0))
      else (n, Rejection(n, term, a))
  }

  /** The message heartBeat() builds for a peer whose next index is above the snapshot. */
  function Probe(n: Node, me: nat, next: int): AppendArgs
    requires n.snapIndex < next <= |n.log|
  {
    AppendArgs(n.term, me, next - 1, n.log[next - 1].term, n.log[next..], n.commit)
  }

  /** The next index after a rejection. */
  function Backoff(n: Node, next: int, r: AppendReply): int
    requires n.log != []
  {
    if r.xLen != -1 then r.xLen
    else if r.xIndex != -1 then
      var i := LastIndexForTerm(n.log, LastIndex(n.log), n.snapIndex, r.xTerm);
      if i == 0 then r.xIndex else i + 1
    else next
  }

  function OnAppendReply(n: Node, to: nat, a: AppendArgs, r: AppendReply): Node
    requires n.log != []
    requires a.term == n.term == r.term ==> to < |n.next| && to < |n.matched|
    requires a.term <= n.term
  {
    if a.term < n.term || r.term < n.term then n
    else if r.term > n.term then StepDown(n, r.term)
    else if r.success then
      var m := a.prevIndex + |a.entries|;
      n.(next := n.next[to := Max(n.next[to], m + 1)], matched := n.matched[to := Max(n.matched[to], m)])
    else n.(next := n.next[to := Backoff(n, n.next[to], r)])
  }

  function Submit(n: Node, op: Op): Node {
    if n.role == Leader then Persist(n.(log := n.log + [Entry(n.term, op)])) else n
  }

  // ---------------------------------------------------------------- commit, apply, snapshot

  function Sorted(s: seq<int>): (r: seq<int>)
    ensures |r| == |s|
  {
    if s == [] then [] else Inserted(s[0], Sorted(s[1..]))
  }

  function Inserted(x: int, s: seq<int>): (r: seq<int>)
    ensures |r| == |s| + 1
  {
    if s == [] || x <= s[0] then [x] + s else [s[0]] + Inserted(x, s[1..])
  }

  function Median(s: seq<int>): int
    requires s != []
  {
    Sorted(s)[|s| / 2]
  }

  /** One round of commit(). */
  function AdvanceCommit(n: Node, me: nat): Node
    requires n.log != [] && me < |n.matched|
    requires forall i :: 0 <= i < |n.matched| && i != me ==> n.matched[i] < |n.log|
  {
    var n := n.(matched := n.matched[me := LastIndex(n.log)]);
    var m := Median(n.matched);
    MedianIsElement(n.matched);
    if m > n.commit && n.log[m].term == n.term then n.(commit := m) else n
  }

  lemma MedianIsElement(s: seq<int>)
    requires s != []
    ensures Median(s) in s
  {
    SortedElements(s);
    assert Sorted(s)[|s| / 2] in Sorted(s);
  }

  lemma {:induction false} InsertedElements(x: int, s: seq<int>)
    ensures forall y :: y in Inserted(x, s) <==> y == x || y in s
  {
    if s != [] && x > s[0] {
      InsertedElements(x, s[1..]);
      assert s == [s[0]] + s[1..];
    }
  }

  lemma {:induction false} SortedElements(s: seq<int>)
    ensures forall y :: y in Sorted(s) <==> y in s
  {
    if s != [] {
      SortedElements(s[1..]);
      InsertedElements(s[0], Sorted(s[1..]));
      assert s == [s[0]] + s[1..];
    }
  }

  datatype ApplyMsg = ApplyMsg(index: nat, op: Op)

  /** What apply() sends on applyCh. */
  function Deliverable(n: Node): seq<ApplyMsg>
    requires n.applied <= n.commit < |n.log|
  {
    seq(n.commit - n.applied, i requires 0 <= i < n.commit - n.applied => ApplyMsg(n.applied + 1 + i, n.log[n.applied + 1 + i].op))
  }

  function Deliver(n: Node): Node {
    n.(applied := n.commit)
  }

  function TakeSnapshot(n: Node, index: nat, snapshot: Table): Node
    requires index < |n.log|
  {
    if index < n.snapIndex then n
    else Persist(n.(snapIndex := index, snapshot := snapshot))
  }
}
