/**
 Log repair: the XTerm/XIndex/XLen exchange between a leader and one follower (raft.go:365-390,
 626-659), both of which may have trimmed their logs, on the state the leader keeps for that peer.
 */
module RaftBackoff {
  import opened RaftCore
  import opened RaftPeer
  import opened RaftRun
  import opened RaftRules
  import opened RaftTheorems

  ghost predicate MatchingLogs(l: Log, f: Log) {
    forall x: nat :: x < |l| && x < |f| && l[x].term == f[x].term ==> Agree(l, f, x)
  }

  ghost predicate SameStarts(l: Log, f: Log) {
    forall t: nat, x: nat, y: nat :: TermStarts(l, t, x) && TermStarts(f, t, y) ==> x == y
  }

  ghost predicate NonDecreasing(l: Log) {
    forall x, y :: 0 <= x <= y < |l| ==> l[x].term <= l[y].term
  }

  /** p is the end of the longest common prefix. */
  ghost predicate Common(l: Log, f: Log, p: nat) {
    Agree(l, f, p) && forall x: nat :: Agree(l, f, x) ==> x <= p
  }

  /** A leader and a follower of one term. */
  ghost predicate Pair(l: Node, f: Node) {
    Kept(l) && Kept(f) && f.term == l.term && f.role == Follower
  }

  /** What guarded runs give: matching logs, and the follower's snapshot is part of the leader's log. */
  ghost predicate Related(l: Node, f: Node) {
    && Pair(l, f) && MatchingLogs(l.log, f.log) && SameStarts(l.log, f.log)
    && NonDecreasing(l.log) && NonDecreasing(f.log) && Agree(l.log, f.log, f.snapIndex)
  }

  /** The leader can send an append to peer `to`: its next index is above the leader's snapshot. */
  ghost predicate Probing(l: Node, to: nat) {
    Kept(l) && to < |l.next| && to < |l.matched| && l.snapIndex < l.next[to] <= |l.log|
  }

  /** One AppendEntries and its answer: was it accepted, and the leader afterwards. */
  ghost function Exchange(l: Node, f: Node, me: nat, to: nat): (bool, Node)
    requires Pair(l, f) && Probing(l, to)
  {
    var a := Probe(l, me, l.next[to]);
    var r := OnAppendEntries(f, a).1;
    (r.success, OnAppendReply(l, to, a, r))
  }

  /** l, with another next index for peer `to`. */
  function At(l: Node, to: nat, next: int): Node
    requires to < |l.next|
  {
    l.(next := l.next[to := next])
  }

  lemma AgreeTerm(l: Log, f: Log, p: nat, x: nat)
    requires Agree(l, f, p) && x <= p
    ensures l[x] == f[x]
  {
    assert l[x] == l[..p + 1][x] == f[..p + 1][x] == f[x];
  }

  /** A probe is accepted exactly when the entry before it lies in the common prefix and is kept by the follower. */
  lemma AcceptedExactly(l: Node, f: Node, me: nat, to: nat, p: nat)
    requires Related(l, f) && Common(l.log, f.log, p) && Probing(l, to)
    ensures Exchange(l, f, me, to).0 <==> f.snapIndex < l.next[to] <= p + 1
  {
    var prev := l.next[to] - 1;
    if prev <= p { AgreeTerm(l.log, f.log, p, prev); }
    if prev < |f.log| && f.log[prev].term == l.log[prev].term { assert Agree(l.log, f.log, prev); }
  }

  // ---------------------------------------------------------------- one rejection

  /** The follower's term at the end of the common prefix runs on past it. */
  ghost predicate RunsOn(f: Node, p: nat) {
    f.snapIndex < p && p + 1 < |f.log| && f.log[p + 1].term == f.log[p].term
  }

  /** That term fills everything the follower keeps of the prefix. */
  ghost predicate FillsKept(f: Node, p: nat)
    requires RunsOn(f, p)
  {
    f.log[f.snapIndex + 1].term == f.log[p].term
  }

  /** s is where term t begins in what the follower keeps. */
  ghost predicate Begins(f: Node, t: nat, s: int) {
    f.snapIndex < s < |f.log| && f.log[s].term == t && (s == f.snapIndex + 1 || f.log[s - 1].term != t)
  }

  /** The leader's next index after a rejection, when the conflicting term is not the one that runs on. */
  ghost predicate SkipsTerm(f: Node, p: nat, next: int, next': int)
    requires 0 < next <= |f.log|
  {
    Begins(f, f.log[next - 1].term, next') && p < next' < next && (RunsOn(f, p) ==> p + 1 < next')
  }

  /** And when it is. */
  ghost predicate AtRun(l: Node, f: Node, p: nat, next': int)
    requires RunsOn(f, p)
  {
    if FillsKept(f, p) then next' == f.snapIndex + 1
    else if l.snapIndex < p then next' == p + 1
    else Begins(f, f.log[p].term, next') && f.snapIndex + 1 < next' <= p
  }

  /** The probe hits the term that runs on. */
  ghost predicate HitsRun(f: Node, p: nat, next: int) {
    RunsOn(f, p) && 0 < next <= |f.log| && f.log[next - 1].term == f.log[p].term
  }

  lemma {:induction false} StartOf(l: Log, i: nat) returns (y: nat)
    requires NonDecreasing(l) && i < |l|
    ensures y <= i && TermStarts(l, l[i].term, y)
  {
    if i == 0 || l[i - 1].term != l[i].term {
      y := i;
    } else {
      y := StartOf(l, i - 1);
    }
  }

  /** A term the leader has, too, begins at the same place in both, and they agree up to there. */
  lemma SharedStart(l: Log, f: Log, s: nat, i: nat)
    requires MatchingLogs(l, f) && SameStarts(l, f) && NonDecreasing(l) && i < |l| && TermStarts(f, l[i].term, s)
    ensures Agree(l, f, s)
  {
    var y := StartOf(l, i);
    assert y == s;
  }

  /** Above the common prefix the leader has no term that begins there in the follower. */
  lemma NotInLeader(l: Node, f: Node, p: nat, s: nat)
    requires Related(l, f) && Common(l.log, f.log, p) && p < s < |f.log| && f.log[s - 1].term != f.log[s].term
    ensures NoneOf(l.log, 0, f.log[s].term)
  {
    var t := f.log[s].term;
    assert TermStarts(f.log, t, s);
    forall i | 0 < i < |l.log|
      ensures l.log[i].term != t
    {
      if l.log[i].term == t { SharedStart(l.log, f.log, s, i); }
    }
  }

  /** In the leader the term at the end of the prefix ends with it. */
  lemma EndsInLeader(l: Node, f: Node, p: nat)
    requires Related(l, f) && Common(l.log, f.log, p) && RunsOn(f, p) && p + 1 < |l.log|
    ensures l.log[p].term == f.log[p].term && forall i :: p < i < |l.log| ==> l.log[i].term != f.log[p].term
  {
    AgreeTerm(l.log, f.log, p, p);
    var q: nat := p + 1;
    assert l.log[q].term == f.log[q].term ==> Agree(l.log, f.log, q);
  }

  ghost predicate Above(l: Node, f: Node, to: nat, p: nat) {
    && Related(l, f) && Common(l.log, f.log, p) && Probing(l, to) && p + 1 < l.next[to]
  }

  /** What the follower answers to a probe above the common prefix, and what the leader makes of it. */
  lemma Rejected(l: Node, f: Node, me: nat, to: nat, p: nat)
    requires Above(l, f, to, p)
    ensures var (ok, l') := Exchange(l, f, me, to);
            var a := Probe(l, me, l.next[to]);
            var r := OnAppendEntries(f, a).1;
            && !ok && to < |l'.next| && l' == At(l, to, l'.next[to])
            && a.term == r.term == l.term && !r.success && a.prevIndex == l.next[to] - 1
            && p >= f.snapIndex
  {
    AcceptedExactly(l, f, me, to, p);
    var a := Probe(l, me, l.next[to]);
    RejectRule(l, to, a, OnAppendEntries(f, a).1);
  }

  lemma PastTheLog(l: Node, f: Node, me: nat, to: nat, p: nat)
    requires Above(l, f, to, p) && l.next[to] > |f.log|
    ensures Exchange(l, f, me, to).1.next[to] == |f.log|
  {
    Rejected(l, f, me, to, p);
    var a := Probe(l, me, l.next[to]);
    HintRule(f, a);
    RejectRule(l, to, a, OnAppendEntries(f, a).1);
  }

  /** The conflicting term does not run on from the prefix: the leader skips it whole. */
  lemma ConflictSkips(l: Node, f: Node, me: nat, to: nat, p: nat)
    requires Above(l, f, to, p) && l.next[to] <= |f.log| && !HitsRun(f, p, l.next[to])
    ensures SkipsTerm(f, p, l.next[to], Exchange(l, f, me, to).1.next[to])
  {
    Rejected(l, f, me, to, p);
    var a := Probe(l, me, l.next[to]);
    var r := OnAppendEntries(f, a).1;
    var prev := l.next[to] - 1;
    var t := f.log[prev].term;
    HintRule(f, a);
    RejectRule(l, to, a, r);
    if AllOf(f.log, f.snapIndex + 1, prev, t) {
      assert f.log[f.snapIndex + 1].term == t;
    } else {
      NotInLeader(l, f, p, r.xIndex);
    }
  }

  /** It does: past the prefix if the leader keeps its end, else where it begins in the follower. */
  lemma ConflictRuns(l: Node, f: Node, me: nat, to: nat, p: nat)
    requires Above(l, f, to, p) && HitsRun(f, p, l.next[to])
    ensures AtRun(l, f, p, Exchange(l, f, me, to).1.next[to])
  {
    Rejected(l, f, me, to, p);
    var a := Probe(l, me, l.next[to]);
    var r := OnAppendEntries(f, a).1;
    var prev := l.next[to] - 1;
    HintRule(f, a);
    RejectRule(l, to, a, r);
    EndsInLeader(l, f, p);
    assert f.log[prev].term == f.log[p].term;
  }

  /**
   A rejection strictly lowers the next index of that peer and keeps it above the follower's
   snapshot. It falls below the end of the common prefix if and only if the conflicting term runs on
   from the prefix and either fills all the follower keeps of it or is trimmed away in the leader.
   */
  lemma RejectionBacksOff(l: Node, f: Node, me: nat, to: nat, p: nat)
    requires Above(l, f, to, p)
    ensures var (ok, l') := Exchange(l, f, me, to);
            && !ok && to < |l'.next| && l' == At(l, to, l'.next[to])
            && f.snapIndex < l'.next[to] < l.next[to]
            && (l'.next[to] < p + 1 <==> HitsRun(f, p, l.next[to]) && (FillsKept(f, p) || p <= l.snapIndex))
  {
    Rejected(l, f, me, to, p);
    if l.next[to] > |f.log| {
      PastTheLog(l, f, me, to, p);
    } else if HitsRun(f, p, l.next[to]) {
      ConflictRuns(l, f, me, to, p);
    } else {
      ConflictSkips(l, f, me, to, p);
    }
  }

  // ---------------------------------------------------------------- the whole exchange

  /** The leader when probing ends: the next append is accepted, or a snapshot has to be sent. */
  ghost function Settles(l: Node, f: Node, me: nat, to: nat, p: nat): (z: Node)
    requires Related(l, f) && Common(l.log, f.log, p) && Kept(l) && to < |l.next| && to < |l.matched|
    requires f.snapIndex < l.next[to] <= |l.log|
    ensures to < |z.next| && z == At(l, to, z.next[to])
    decreases l.next[to]
  {
    if l.next[to] <= l.snapIndex then l
    else
      var (ok, l') := Exchange(l, f, me, to);
      AcceptedExactly(l, f, me, to, p);
      if ok then l
      else
        RejectionBacksOff(l, f, me, to, p);
        Settles(l', f, me, to, p)
  }

  /** Where probing ends, exactly, for a prefix whose end the leader still keeps. */
  ghost predicate SettledAt(l: Node, f: Node, p: nat, z: int) {
    if RunsOn(f, p) then AtRun(l, f, p, z) else z == p + 1
  }

  lemma AcceptedBelow(l: Node, f: Node, me: nat, to: nat, p: nat)
    requires Related(l, f) && Common(l.log, f.log, p) && Probing(l, to) && f.snapIndex < l.next[to] <= p + 1
    ensures Settles(l, f, me, to, p) == l
  {
    AcceptedExactly(l, f, me, to, p);
  }

  /** A probe from a state that is not above the prefix ends there. */
  lemma EndsHere(l: Node, f: Node, me: nat, to: nat, p: nat)
    requires Related(l, f) && Common(l.log, f.log, p) && Kept(l) && to < |l.next| && to < |l.matched|
    requires f.snapIndex < l.next[to] <= p + 1 && l.next[to] <= |l.log|
    ensures Settles(l, f, me, to, p) == l
  {
    if l.snapIndex < l.next[to] { AcceptedBelow(l, f, me, to, p); }
  }

  /**
   If the leader keeps the end of the common prefix, probing ends just past it, unless the
   follower's term there runs on; then it ends as AtRun says. If not, it ends in a snapshot.
   */
  lemma {:induction false} SettlesExactly(l: Node, f: Node, me: nat, to: nat, p: nat)
    requires Above(l, f, to, p)
    ensures var z := Settles(l, f, me, to, p).next[to];
            if p < l.snapIndex then z <= l.snapIndex else SettledAt(l, f, p, z)
    decreases l.next[to]
  {
    RejectionBacksOff(l, f, me, to, p);
    var l' := Exchange(l, f, me, to).1;
    var next' := l'.next[to];
    if next' > p + 1 && next' > l.snapIndex {
      SettlesExactly(l', f, me, to, p);
    } else if next' <= p + 1 {
      EndsHere(l', f, me, to, p);
    }
    if l.next[to] > |f.log| {
      PastTheLog(l, f, me, to, p);
    } else if HitsRun(f, p, l.next[to]) {
      ConflictRuns(l, f, me, to, p);
    } else {
      ConflictSkips(l, f, me, to, p);
    }
  }

  /** What probing ends in is accepted, unless the leader has to send its snapshot. */
  lemma {:induction false} ProbingSettles(l: Node, f: Node, me: nat, to: nat, p: nat)
    requires Related(l, f) && Common(l.log, f.log, p) && Kept(l) && to < |l.next| && to < |l.matched|
    requires f.snapIndex < l.next[to] <= |l.log|
    ensures var z := Settles(l, f, me, to, p);
            && f.snapIndex < z.next[to] <= l.next[to]
            && (z.next[to] > l.snapIndex ==> z.next[to] <= p + 1 && Exchange(z, f, me, to).0)
    decreases l.next[to]
  {
    if l.next[to] > l.snapIndex {
      AcceptedExactly(l, f, me, to, p);
      if l.next[to] > p + 1 {
        RejectionBacksOff(l, f, me, to, p);
        ProbingSettles(Exchange(l, f, me, to).1, f, me, to, p);
      }
    }
  }

  // ---------------------------------------------------------------- against decrementing by one

  /** Wherever at or below the common prefix repair starts, the follower ends with the same log. */
  lemma {:induction false} RepairIsTheSame(l: Log, f: Log, p: nat, at: nat)
    requires Agree(l, f, p) && 1 <= at <= p + 1
    ensures Merge(f, at, l[at..]) == Merge(f, p + 1, l[p + 1..])
    decreases p + 1 - at
  {
    if at <= p {
      AgreeTerm(l, f, p, at);
      assert l[at..][1..] == l[at + 1..];
      RepairIsTheSame(l, f, p, at + 1);
    }
  }

  /** Probing one index at a time, as section 5.3 of the Raft paper describes it. */
  ghost function SlowSettles(l: Node, f: Node, me: nat, to: nat): (z: Node)
    requires Pair(l, f) && Kept(l) && to < |l.next| && to < |l.matched| && 0 < l.next[to] <= |l.log|
    ensures to < |z.next| && z == At(l, to, z.next[to])
    decreases l.next[to]
  {
    if l.next[to] <= l.snapIndex || l.next[to] == 1 || Exchange(l, f, me, to).0 then l
    else SlowSettles(At(l, to, l.next[to] - 1), f, me, to)
  }

  lemma {:induction false} SlowProbingSettles(l: Node, f: Node, me: nat, to: nat, p: nat)
    requires Related(l, f) && Common(l.log, f.log, p) && Probing(l, to) && p + 1 <= l.next[to] && l.snapIndex <= p
    ensures SlowSettles(l, f, me, to).next[to] == p + 1
    decreases l.next[to]
  {
    AcceptedExactly(l, f, me, to, p);
    if l.next[to] > p + 1 {
      var l' := At(l, to, l.next[to] - 1);
      StillRelated(l, l', f);
      SlowProbingSettles(l', f, me, to, p);
    }
  }

  /** Next indices play no part in how the logs are related. */
  lemma StillRelated(l: Node, l': Node, f: Node)
    requires Related(l, f) && l' == l.(next := l'.next)
    ensures Related(l', f)
  {
  }

  /** The follower's log after an accepted probe. */
  ghost function Repaired(l: Node, f: Node, me: nat, to: nat): Log
    requires Pair(l, f) && Probing(l, to)
  {
    OnAppendEntries(f, Probe(l, me, l.next[to])).0.log
  }

  lemma RepairedLog(l: Node, f: Node, me: nat, to: nat)
    requires Pair(l, f) && Probing(l, to) && Exchange(l, f, me, to).0
    ensures l.next[to] <= |f.log| && Repaired(l, f, me, to) == Merge(f.log, l.next[to], l.log[l.next[to]..])
  {
  }

  /** Fast backoff refines decrement-by-one: unless it ends in a snapshot, both leave the follower with the same log. */
  lemma FastRefinesSlow(l: Node, f: Node, me: nat, to: nat, p: nat)
    requires Related(l, f) && Common(l.log, f.log, p) && Probing(l, to) && p + 1 <= l.next[to] && l.snapIndex <= p
    ensures var fast, slow := Settles(l, f, me, to, p), SlowSettles(l, f, me, to);
            && fast.next[to] <= slow.next[to] == p + 1
            && (fast.next[to] > l.snapIndex ==>
                  && Probing(fast, to) && Probing(slow, to)
                  && Repaired(fast, f, me, to) == Repaired(slow, f, me, to))
  {
    var fast, slow := Settles(l, f, me, to, p), SlowSettles(l, f, me, to);
    ProbingSettles(l, f, me, to, p);
    SlowProbingSettles(l, f, me, to, p);
    FastIsBelow(l, f, me, to, p);
    if fast.next[to] > l.snapIndex {
      AcceptedExactly(slow, f, me, to, p);
      RepairedLog(fast, f, me, to);
      RepairedLog(slow, f, me, to);
      RepairIsTheSame(l.log, f.log, p, fast.next[to]);
    }
  }

  lemma FastIsBelow(l: Node, f: Node, me: nat, to: nat, p: nat)
    requires Related(l, f) && Common(l.log, f.log, p) && Probing(l, to) && p + 1 <= l.next[to] && l.snapIndex <= p
    ensures Settles(l, f, me, to, p).next[to] <= p + 1
  {
    if l.next[to] == p + 1 { AcceptedBelow(l, f, me, to, p); } else { SettlesExactly(l, f, me, to, p); }
  }

  // ---------------------------------------------------------------- the conditions are met, and needed

  /** In a guarded run every leader and every follower of its term meet the conditions above, trimmed or not. */
  lemma RunsAreRelated(n: nat, tr: seq<Cluster>, k: nat, i: nat, j: nat)
    requires GuardedRun(n, tr) && k < |tr| && i < |tr[k].nodes| && j < |tr[k].nodes|
    requires tr[k].nodes[i].role == Leader && Pair(tr[k].nodes[i], tr[k].nodes[j])
    ensures Related(tr[k].nodes[i], tr[k].nodes[j])
  {
    LogMatching(n, tr, k, i, j);
    LogMatching(n, tr, k, j, i);
    SnapshotInLeader(n, tr, k, i, j);
  }

  lemma SnapshotInLeader(n: nat, tr: seq<Cluster>, k: nat, i: nat, j: nat)
    requires GuardedRun(n, tr) && k < |tr| && i < |tr[k].nodes| && j < |tr[k].nodes|
    requires tr[k].nodes[i].role == Leader && tr[k].nodes[i].term == tr[k].nodes[j].term
    ensures Agree(tr[k].nodes[i].log, tr[k].nodes[j].log, tr[k].nodes[j].snapIndex)
  {
    CommittedEntriesSurvive(n, tr, k, k, j, i);
    SnapshotCommitted(n, tr, k, j);
    AgreeBelow(tr[k].nodes[i].log, tr[k].nodes[j].log, tr[k].nodes[j].commit, tr[k].nodes[j].snapIndex);
  }

  function PeerWith(role: Role, l: Log, next: seq<int>): Node {
    Restart(Disk(2, -1, l, 0, map[])).(role := role, next := next, matched := [0, 0])
  }

  /** Without a common start of each term the exchange can loop: 1,1,2 against 1,2. */
  lemma WithoutSameStartsItLoops(me: nat)
    ensures var log := [DUMMY, Entry(1, Noop), Entry(1, Noop), Entry(2, Noop)];
            var f := PeerWith(Follower, [DUMMY, Entry(1, Noop), Entry(2, Noop)], []);
            var l4, l3 := PeerWith(Leader, log, [4, 4]), PeerWith(Leader, log, [4, 3]);
            && MatchingLogs(log, f.log) && NonDecreasing(log) && NonDecreasing(f.log) && !SameStarts(log, f.log)
            && Exchange(l4, f, me, 1) == (false, l3) && Exchange(l3, f, me, 1) == (false, l4)
  {
    var log := [DUMMY, Entry(1, Noop), Entry(1, Noop), Entry(2, Noop)];
    var f := PeerWith(Follower, [DUMMY, Entry(1, Noop), Entry(2, Noop)], []);
    assert TermStarts(log, 2, 3) && TermStarts(f.log, 2, 2);
    assert log[..1] == f.log[..1] && log[..2] == f.log[..2];
    assert Backup(f.log, 2, 0, 2) == Backup(f.log, 1, 0, 2) == 1;
    assert LastIndexForTerm(log, 3, 0, 2) == 3;
    assert [4, 4][1 := 3] == [4, 3] && [4, 3][1 := 4] == [4, 4];
  }

  /** The restart from 1 is real: 1,1,2 against 1,1,1 share two entries, yet the answer points at index 1. */
  lemma RestartsFromOne(me: nat)
    ensures var l := PeerWith(Leader, [DUMMY, Entry(1, Noop), Entry(1, Noop), Entry(2, Noop)], [4, 4]);
            var f := PeerWith(Follower, [DUMMY, Entry(1, Noop), Entry(1, Noop), Entry(1, Noop)], []);
            && Related(l, f) && Agree(l.log, f.log, 2)
            && Exchange(l, f, me, 1) == (false, At(l, 1, 1))
  {
    var l := PeerWith(Leader, [DUMMY, Entry(1, Noop), Entry(1, Noop), Entry(2, Noop)], [4, 4]);
    var f := PeerWith(Follower, [DUMMY, Entry(1, Noop), Entry(1, Noop), Entry(1, Noop)], []);
    assert l.log[..1] == f.log[..1] && l.log[..2] == f.log[..2] && l.log[..3] == f.log[..3];
    assert Backup(f.log, 3, 0, 1) == Backup(f.log, 1, 0, 1) == 0;
  }
}
