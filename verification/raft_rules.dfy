/**
 The rules of Figure 2 of the Raft paper, as raft.go keeps them: for every handler, exactly when it
 does what, every field of the peer afterwards and every field of the reply, without naming how it
 is computed.
 */
module RaftRules {
  import opened Kv
  import opened RaftCore
  import opened RaftPeer
  import opened RaftMedian

  /** Everything persistent is on disk. */
  ghost predicate Saved(n: Node) {
    n.disk == Disk(n.term, n.vote, n.log, n.snapIndex, n.snapshot)
  }

  /** Nothing but these five fields differs. */
  ghost predicate Framed(n: Node, n': Node) {
    n' == n.(role := n'.role, term := n'.term, vote := n'.vote, votes := n'.votes, disk := n'.disk)
  }

  /** n' is n deposed by term t. */
  ghost predicate Deposed(n: Node, n': Node, t: nat) {
    Framed(n, n') && n'.role == Follower && n'.term == t && n'.vote == -1 && n'.votes == 0 && Saved(n')
  }

  // ---------------------------------------------------------------- elections

  /** A server that is not leading enters the next term with its own vote, and asks with the end of its log. */
  lemma CampaignRule(n: Node, me: nat)
    requires n.log != []
    ensures var n' := StartElection(n, me);
            && (n.role == Leader ==> n' == n)
            && (n.role != Leader ==>
                  Framed(n, n') && n'.role == Candidate && n'.term == n.term + 1 && n'.vote == me && n'.votes == 1 && Saved(n'))
            && Campaigning(n', me) == VoteArgs(n'.term, me, |n.log| - 1, n.log[|n.log| - 1].term)
  {
  }

  /** A vote is granted exactly once per term, to a candidate whose log is at least as up to date, and is on disk. */
  lemma VoteRule(n: Node, a: VoteArgs)
    requires n.log != []
    ensures var (n', r) := OnRequestVote(n, a);
            && (r.granted <==>
                  || (a.term == n.term && n.vote == a.cand)
                  || ((a.term > n.term || (a.term == n.term && n.vote == -1))
                      && UpToDate(a.lastTerm, a.lastIndex, n.log)))
            && Framed(n, n') && n'.term == Max(n.term, a.term) && r.term == n'.term
            && (a.term <= n.term ==> n'.role == n.role && n'.votes == n.votes)
            && (a.term > n.term ==> n'.role == Follower && n'.votes == 0 && Saved(n'))
            && n'.vote == (if r.granted then a.cand else if a.term > n.term then -1 else n.vote)
            && (r.granted && n.vote != a.cand ==> Saved(n'))
            && (a.term <= n.term && n'.vote == n.vote && n.vote != -1 ==> n' == n)
            && (!r.granted && a.term <= n.term ==> n' == n)
  {
  }

  /** An answered vote: old answers do nothing, a newer term deposes, a vote is counted, a majority makes a leader. */
  lemma VoteReplyRule(n: Node, me: nat, peers: nat, asked: nat, r: VoteReply)
    requires n.log != []
    ensures var n' := OnVoteReply(n, me, peers, asked, r);
            var counts := r.term == n.term && n.role == Candidate && r.granted && n.votes > 0;
            && (asked < n.term || r.term < n.term ==> n' == n)
            && (asked >= n.term && r.term > n.term ==> Deposed(n, n', r.term))
            && (asked >= n.term && r.term == n.term && !counts ==> n' == n)
            && (asked >= n.term && counts && n.votes + 1 <= peers / 2 ==> n' == n.(votes := n.votes + 1))
            && (asked >= n.term && counts && n.votes + 1 > peers / 2 ==> Crowns(n, n', me, peers))
  {
  }

  /** A new leader: its vote forgotten, nextIndex past its log, matchIndex zero but for itself. */
  ghost predicate Crowns(n: Node, n': Node, me: nat, peers: nat) {
    && n' == n.(role := Leader, vote := -1, votes := 0, next := n'.next, matched := n'.matched, disk := n'.disk)
    && |n'.next| == |n'.matched| == peers && Saved(n')
    && (forall j :: 0 <= j < peers ==> n'.next[j] == |n.log|)
    && (forall j :: 0 <= j < peers ==> n'.matched[j] == if j == me then |n.log| - 1 else 0)
  }

  // ---------------------------------------------------------------- replication

  /** The first place where es departs from what l has at `at` and after; |es| when nowhere. */
  ghost predicate Departs(l: Log, at: nat, es: seq<Entry>, k: nat) {
    && k <= |es| && at + k <= |l| && (forall x :: 0 <= x < k ==> at + x < |l| && l[at + x].term == es[x].term)
    && (k < |es| ==> at + k >= |l| || l[at + k].term != es[k].term)
  }

  /** Matching entries stay, the first conflict deletes itself and all that follow, the rest is appended. */
  lemma {:induction false} MergeRule(l: Log, at: nat, es: seq<Entry>) returns (k: nat)
    requires at <= |l|
    ensures Departs(l, at, es, k)
    ensures Merge(l, at, es) == if k == |es| then l else l[..at + k] + es[k..]
    decreases |es|
  {
    if es == [] || at >= |l| || l[at].term != es[0].term {
      k := 0;
    } else {
      k := MergeRule(l, at + 1, es[1..]);
      assert es[1..][k..] == es[k + 1..];
      forall x | 0 <= x < k + 1
        ensures at + x < |l| && l[at + x].term == es[x].term
      {
        if x > 0 { assert es[x] == es[1..][x - 1]; }
      }
      k := k + 1;
    }
  }

  /** An append is accepted exactly when the term is current and the previous entry is here with that term. */
  lemma AppendRule(n: Node, a: AppendArgs) returns (k: nat)
    requires Kept(n)
    ensures var (n', r) := OnAppendEntries(n, a);
            && (r.success <==>
                  && a.term >= n.term && n.snapIndex <= a.prevIndex < |n.log|
                  && n.log[a.prevIndex].term == a.prevTerm)
            && r.term == n.term
            && Framed(n, n'.(log := n.log, commit := n.commit)) && n'.term == Max(n.term, a.term)
            && (a.term < n.term ==> n' == n)
            && (a.term == n.term && n.role == Follower ==> n'.role == Follower && n'.vote == n.vote && n'.votes == n.votes)
            && (a.term > n.term || (a.term == n.term && n.role != Follower) ==>
                  n'.role == Follower && n'.vote == -1 && n'.votes == 0 && Saved(n'))
            && (!r.success ==> n'.log == n.log && n'.commit == n.commit)
            && (r.success ==>
                  && Departs(n.log, a.prevIndex + 1, a.entries, k)
                  && n'.log == (if k == |a.entries| then n.log else n.log[..a.prevIndex + 1 + k] + a.entries[k..])
                  && n'.commit == (if a.commit > n.commit then Min(a.commit, |n'.log| - 1) else n.commit)
                  && Saved(n'))
  {
    k := 0;
    if a.term >= n.term && Matches(n, a) {
      k := MergeRule(n.log, a.prevIndex + 1, a.entries);
    }
  }

  /** Every entry of l from lo up to hi has term t. */
  predicate AllOf(l: Log, lo: int, hi: int, t: int) {
    forall x :: 0 <= lo <= x <= hi < |l| ==> l[x].term == t
  }

  lemma {:induction false} BackupRule(l: Log, x: nat, floor: nat, t: nat)
    requires floor <= x < |l|
    ensures var b := Backup(l, x, floor, t);
            AllOf(l, b + 1, x, t) && (b > floor ==> l[b].term != t)
  {
    if x > floor && l[x].term == t { BackupRule(l, x - 1, floor, t); }
  }

  /**
   The hint of a rejected append, whatever the follower has trimmed: one past the log when the probe
   lies beyond it; one past the snapshot when the probe lies below it or the conflicting term fills
   everything kept up to the probe; otherwise the term and its first index.
   */
  lemma HintRule(n: Node, a: AppendArgs)
    requires Kept(n) && a.term >= n.term && !OnAppendEntries(n, a).1.success
    ensures var r := OnAppendEntries(n, a).1;
            && (a.prevIndex < n.snapIndex ==> r == AppendReply(n.term, false, -1, -1, n.snapIndex + 1))
            && (a.prevIndex >= |n.log| ==> r == AppendReply(n.term, false, -1, -1, |n.log|))
            && (n.snapIndex <= a.prevIndex < |n.log| ==>
                  var t := n.log[a.prevIndex].term;
                  if AllOf(n.log, n.snapIndex + 1, a.prevIndex, t)
                  then r == AppendReply(n.term, false, -1, -1, n.snapIndex + 1)
                  else
                    && r == AppendReply(n.term, false, t, r.xIndex, -1)
                    && n.snapIndex + 1 < r.xIndex <= a.prevIndex
                    && AllOf(n.log, r.xIndex, a.prevIndex, t) && n.log[r.xIndex - 1].term != t)
            && n.snapIndex < Hint(r) <= |n.log|
  {
    if n.snapIndex <= a.prevIndex < |n.log| {
      BackupRule(n.log, a.prevIndex, n.snapIndex, n.log[a.prevIndex].term);
    }
  }

  /** The index a rejection names. */
  function Hint(r: AppendReply): int { if r.xLen != -1 then r.xLen else r.xIndex }

  /** i is the last entry of term t above floor. */
  ghost predicate LastOf(l: Log, floor: nat, t: int, i: int) {
    floor < i < |l| && l[i].term == t && forall x :: i < x < |l| ==> l[x].term != t
  }

  ghost predicate NoneOf(l: Log, floor: nat, t: int) {
    forall x :: floor < x < |l| ==> l[x].term != t
  }

  lemma {:induction false} LastIndexRule(l: Log, i: nat, floor: nat, t: int)
    requires i < |l| && forall x :: i < x < |l| ==> l[x].term != t
    ensures var r := LastIndexForTerm(l, i, floor, t);
            if r == 0 then NoneOf(l, floor, t) else LastOf(l, floor, t, r)
  {
    if i > floor && l[i].term != t { LastIndexRule(l, i - 1, floor, t); }
  }

  /** A current success raises matchIndex and nextIndex to what was sent, never lowers them, and moves nothing else. */
  lemma SuccessRule(n: Node, to: nat, a: AppendArgs, r: AppendReply)
    requires n.log != [] && to < |n.next| && to < |n.matched| && a.term == r.term == n.term && r.success
    ensures var n' := OnAppendReply(n, to, a, r);
            var m := a.prevIndex + |a.entries|;
            && n' == n.(next := n'.next, matched := n'.matched)
            && |n'.next| == |n.next| && |n'.matched| == |n.matched|
            && n'.matched[to] >= n.matched[to] && n'.matched[to] >= m && n'.matched[to] in {n.matched[to], m}
            && n'.next[to] >= n.next[to] && n'.next[to] >= m + 1 && n'.next[to] in {n.next[to], m + 1}
            && (forall j :: 0 <= j < |n.next| && j != to ==> n'.next[j] == n.next[j])
            && (forall j :: 0 <= j < |n.matched| && j != to ==> n'.matched[j] == n.matched[j])
  {
  }

  /**
   A current rejection moves nextIndex of that peer and nothing else: to XLen when it is given,
   otherwise past the leader's last entry of XTerm above its snapshot, otherwise to XIndex.
   */
  lemma RejectRule(n: Node, to: nat, a: AppendArgs, r: AppendReply)
    requires n.log != [] && to < |n.next| && to < |n.matched| && a.term == r.term == n.term && !r.success
    ensures var n' := OnAppendReply(n, to, a, r);
            && n' == n.(next := n'.next) && |n'.next| == |n.next|
            && (forall j :: 0 <= j < |n.next| && j != to ==> n'.next[j] == n.next[j])
            && (r.xLen != -1 ==> n'.next[to] == r.xLen)
            && (r.xLen == -1 && r.xIndex != -1 && NoneOf(n.log, n.snapIndex, r.xTerm) ==> n'.next[to] == r.xIndex)
            && (r.xLen == -1 && r.xIndex != -1 && !NoneOf(n.log, n.snapIndex, r.xTerm) ==>
                  LastOf(n.log, n.snapIndex, r.xTerm, n'.next[to] - 1))
            && (r.xLen == -1 && r.xIndex == -1 ==> n'.next[to] == n.next[to])
  {
    LastIndexRule(n.log, LastIndex(n.log), n.snapIndex, r.xTerm);
  }

  /** A newer term in a reply deposes; a reply to an old question or from an old term does nothing. */
  lemma StaleReplyRule(n: Node, to: nat, a: AppendArgs, r: AppendReply)
    requires n.log != [] && a.term <= n.term && !(a.term == r.term == n.term)
    ensures var n' := OnAppendReply(n, to, a, r);
            && (a.term < n.term || r.term < n.term ==> n' == n)
            && (a.term == n.term < r.term ==> Deposed(n, n', r.term))
  {
  }

  /** What a leader sends from index `next`: the entry before it, everything from it on, its commit index. */
  lemma ProbeRule(n: Node, me: nat, next: int)
    requires n.snapIndex < next <= |n.log|
    ensures var a := Probe(n, me, next);
            && a.term == n.term && a.leader == me && a.commit == n.commit
            && a.prevIndex == next - 1 && a.prevTerm == n.log[next - 1].term
            && |a.entries| == |n.log| - next && forall k :: 0 <= k < |a.entries| ==> a.entries[k] == n.log[next + k]
  {
  }

  /** Only a leader takes an operation: one entry of its term at the end of its log, on disk. */
  lemma SubmitRule(n: Node, op: Op)
    ensures var n' := Submit(n, op);
            && (n.role != Leader ==> n' == n)
            && (n.role == Leader ==>
                  && n' == n.(log := n'.log, disk := n'.disk) && Saved(n')
                  && |n'.log| == |n.log| + 1 && n'.log[|n.log|] == Entry(n.term, op)
                  && forall k :: 0 <= k < |n.log| ==> n'.log[k] == n.log[k])
  {
  }

  // ---------------------------------------------------------------- commit, apply, snapshot, restart

  /** Index x is acknowledged by a commit quorum, the leader counting itself through its last entry. */
  ghost predicate Acknowledged(n: Node, me: nat, x: int)
    requires n.log != [] && me < |n.matched|
  {
    Reach(n.matched[me := LastIndex(n.log)], x) >= |n.matched| - |n.matched| / 2
  }

  /**
   commitIndex advances exactly when the largest acknowledged index is above it and of the current
   term, and then to that index.
   */
  lemma CommitRule(n: Node, me: nat, x: int)
    requires n.log != [] && me < |n.matched|
    requires forall i :: 0 <= i < |n.matched| && i != me ==> 0 <= n.matched[i] < |n.log|
    requires Acknowledged(n, me, x) && forall y :: Acknowledged(n, me, y) ==> y <= x
    ensures 0 <= x < |n.log|
    ensures var n' := AdvanceCommit(n, me);
            && n' == n.(commit := n'.commit, matched := n.matched[me := |n.log| - 1])
            && n'.commit == if x > n.commit && n.log[x].term == n.term then x else n.commit
  {
    var s := n.matched[me := LastIndex(n.log)];
    MedianExact(s, x);
    MedianExact(s, Median(s));
    assert Acknowledged(n, me, Median(s));
    MedianIsElement(s);
  }

  /** Every committed and not yet applied entry is delivered, in order, in one round. */
  lemma ApplyRule(n: Node)
    requires n.applied <= n.commit < |n.log|
    ensures var ms := Deliverable(n);
            && |ms| == n.commit - n.applied
            && forall k :: 0 <= k < |ms| ==> ms[k] == ApplyMsg(n.applied + 1 + k, n.log[n.applied + 1 + k].op)
    ensures Deliver(n) == n.(applied := n.commit)
  {
  }

  /** A snapshot at or above the last one is stored and the log kept from its index on; an older one changes nothing. */
  lemma SnapshotRule(n: Node, index: nat, data: Table)
    requires index < |n.log|
    ensures var n' := TakeSnapshot(n, index, data);
            && (index < n.snapIndex ==> n' == n)
            && (index >= n.snapIndex ==>
                  n' == n.(snapIndex := index, snapshot := data, disk := Disk(n.term, n.vote, n.log, index, data)))
  {
  }

  /** A restarted peer is a follower that knows what is on disk and has applied its snapshot. */
  lemma RestartRule(d: Disk)
    ensures var n := Restart(d);
            && n.role == Follower && n.votes == 0 && n.next == [] && n.matched == []
            && n.commit == n.applied == n.snapIndex && n.disk == d && Saved(n)
    ensures Boot() == Restart(Disk(0, -1, [Entry(0, Noop)], 0, map[]))
  {
  }
}
