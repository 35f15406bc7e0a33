/**
 The consensus core of raft1: what a step does to terms, votes and logs, plus the
 history the proof speaks about. No messages, no counters, no volatile leader state.
 */
module RaftCore {
  import opened Kv

  /** A command of the replicated state machine; slot 0 of every log holds `Noop`. */
  datatype Op = Noop | Op(id: nat, req: Request)

  datatype Entry = Entry(term: nat, op: Op)

  type Log = seq<Entry>

  const DUMMY := Entry(0, Noop)

  datatype Grant = Grant(voter: nat, term: nat, cand: nat)
  datatype Win = Win(leader: nat, quorum: set<nat>)
  datatype Ack = Ack(server: nat, term: nat, index: nat)

  /**
   `cand[(t, c)]` is the log c campaigned with in term t, `tlog[t]` the log of the leader
   of term t as far as it ever got, `Ack(j, t, m)` that j agreed with `tlog[t]` through m
   while its own term was t.
   */
  datatype Core = Core(
    term: seq<nat>,
    vote: seq<int>,
    log: seq<Log>,
    cand: map<(nat, nat), Log>,
    grants: set<Grant>,
    wins: map<nat, Win>,
    tlog: map<nat, Log>,
    acks: set<Ack>)

  // ---------------------------------------------------------------- quorums

  function Servers(n: nat): (r: set<nat>)
    ensures forall j: nat :: j in r <==> j < n
  {
    if n == 0 then {} else Servers(n - 1) + {n - 1}
  }

  ghost predicate Majority(n: nat, q: set<nat>) {
    q <= Servers(n) && |q| > n / 2
  }

  lemma {:induction false} ServersCard(n: nat)
    ensures |Servers(n)| == n
  {
    if n > 0 {
      ServersCard(n - 1);
    }
  }

  lemma SubsetCard<T>(a: set<T>, b: set<T>)
    requires a <= b
    ensures |a| <= |b|
  {
    assert b == a + (b - a);
  }

  /** Two sets of servers too large to be disjoint share a member. */
  lemma Intersect(n: nat, a: set<nat>, b: set<nat>) returns (j: nat)
    requires a <= Servers(n) && b <= Servers(n) && |a| + |b| > n
    ensures j in a && j in b
  {
    ServersCard(n);
    SubsetCard(a + b, Servers(n));
    assert |a + b| == |a| + |b| - |a * b|;
    j :| j in a * b;
  }

  // ---------------------------------------------------------------- logs

  function LastIndex(l: Log): nat
    requires l != []
  {
    |l| - 1
  }

  function LastTerm(l: Log): nat
    requires l != []
  {
    l[|l| - 1].term
  }

  /** l agrees with r through index i. */
  ghost predicate Agree(l: Log, r: Log, i: nat) {
    i < |l| && i < |r| && l[..i + 1] == r[..i + 1]
  }

  /** Section 5.4.1 of the Raft paper: the log described by (term, index) is at least as up to date as l. */
  predicate UpToDate(lastTerm: nat, lastIndex: nat, l: Log)
    requires l != []
  {
    lastTerm > LastTerm(l) || (lastTerm == LastTerm(l) && lastIndex >= LastIndex(l))
  }

  /** Overwrite from the first entry whose term differs, keep everything when none does. */
  function Merge(l: Log, at: nat, es: seq<Entry>): (r: Log)
    requires at <= |l|
    ensures |r| >= at + |es|
    decreases |es|
  {
    if es == [] then l
    else if at < |l| && l[at].term == es[0].term then Merge(l, at + 1, es[1..])
    else l[..at] + es
  }

  // ---------------------------------------------------------------- derived notions

  ghost predicate Acked(c: Core, j: nat, t: nat, i: nat) {
    exists m: nat :: i <= m && Ack(j, t, m) in c.acks
  }

  ghost predicate RefusedBy(c: Core, t: nat, i: nat, q: set<nat>) {
    && Majority(|c.term|, q)
    && forall j :: j in q ==> c.term[j] > t && !Acked(c, j, t, i)
  }

  /** A majority has left term t without acknowledging index i, so i can no longer be chosen in t. */
  ghost predicate Refused(c: Core, t: nat, i: nat) {
    exists q: set<nat> :: RefusedBy(c, t, i, q)
  }

  ghost predicate ChosenBy(c: Core, t: nat, m: nat, q: set<nat>) {
    && q <= Servers(|c.term|)
    && |q| + |c.term| / 2 + 1 > |c.term|
    && forall j :: j in q ==> Acked(c, j, t, m)
  }

  /** Index m, an entry of term t, is held by enough servers to meet every majority. */
  ghost predicate Chosen(c: Core, t: nat, m: nat) {
    && t in c.tlog && m < |c.tlog[t]| && c.tlog[t][m].term == t
    && (t == 0 || exists q: set<nat> :: ChosenBy(c, t, m, q))
  }

  ghost predicate Won(c: Core, t: nat, w: nat) {
    t in c.wins && c.wins[t].leader == w
  }

  // ---------------------------------------------------------------- invariants

  ghost predicate Sized(c: Core) {
    |c.vote| == |c.term| == |c.log|
  }

  ghost predicate Shape(c: Core) {
    && Sized(c)
    && (forall j :: 0 <= j < |c.log| ==> c.log[j] != [])
    && (forall k :: k in c.cand ==> c.cand[k] != [])
    && (forall t :: t in c.tlog ==> c.tlog[t] != [])
    && (forall g :: g in c.grants ==> g.voter < |c.term| && g.cand < |c.term| && (g.term, g.cand) in c.cand)
    && (forall a :: a in c.acks ==> a.server < |c.term|)
    && Terms(c)
  }

  /** Term 0 is the bootstrap term; every other term with a log has exactly one winner. */
  ghost predicate Terms(c: Core) {
    && 0 in c.tlog && c.tlog[0] == [DUMMY] && 0 !in c.wins
    && (forall t :: t in c.tlog && t > 0 ==> t in c.wins)
    && (forall t :: t in c.wins ==>
          t in c.tlog && c.wins[t].leader < |c.term| && Majority(|c.term|, c.wins[t].quorum)
          && c.wins[t].leader in c.wins[t].quorum)
  }

  /** No vote is from the future, the vote in hand is on record, so is every candidacy. */
  ghost predicate OnRecord(c: Core)
    requires Sized(c)
  {
    && (forall g :: g in c.grants ==> g.voter < |c.term| && 0 < g.term <= c.term[g.voter])
    && (forall j :: 0 <= j < |c.term| && c.vote[j] != -1 ==>
          0 <= c.vote[j] < |c.term| && Grant(j, c.term[j], c.vote[j]) in c.grants)
    && (forall k :: k in c.cand ==> k.1 < |c.term| && k.0 <= c.term[k.1])
  }

  /** Before anyone wins a term, no vote of that term is forgotten or given twice. */
  ghost predicate NoneForgotten(c: Core)
    requires Sized(c)
  {
    && (forall g :: g in c.grants && g.voter < |c.term| && g.term == c.term[g.voter] && g.term !in c.wins
          ==> c.vote[g.voter] == g.cand)
    && (forall g, h :: g in c.grants && h in c.grants && g.voter == h.voter && g.term == h.term && g.term !in c.wins
          ==> g.cand == h.cand)
  }

  /** An odd number of servers cannot afford a winner that votes again in the term it won; an even number can. */
  ghost predicate MayVote(c: Core, t: nat, j: nat) {
    Won(c, t, j) ==> |c.term| % 2 == 0
  }

  /** Members of a winning quorum voted for the winner and, a winner that may vote again apart, for nobody else. */
  ghost predicate Loyal(c: Core)
    requires Sized(c)
  {
    && (forall g :: g in c.grants && g.term in c.wins && g.voter in c.wins[g.term].quorum
          && (g.voter == c.wins[g.term].leader ==> |c.term| % 2 == 1)
          ==> g.cand == c.wins[g.term].leader)
    && (forall t, j :: t in c.wins && j in c.wins[t].quorum ==> Grant(j, t, c.wins[t].leader) in c.grants)
    && (forall j: nat :: j < |c.term| && c.term[j] in c.wins && j in c.wins[c.term[j]].quorum
          ==> c.vote[j] == c.wins[c.term[j]].leader || j == c.wins[c.term[j]].leader)
  }

  ghost predicate Votes(c: Core)
    requires Sized(c)
  {
    OnRecord(c) && NoneForgotten(c) && Loyal(c)
  }

  /** The entry at i sits where the leader of its term put it, after the same predecessors. */
  ghost predicate AnchoredAt(c: Core, l: Log, i: nat)
    requires i < |l|
  {
    && l[i].term in c.tlog
    && l[..i + 1] <= c.tlog[l[i].term]
  }

  ghost predicate Anchored(c: Core, l: Log) {
    forall i: nat :: i < |l| ==> AnchoredAt(c, l, i)
  }

  ghost predicate TermsUpTo(l: Log, t: nat) {
    && l != [] && l[0] == DUMMY
    && (forall i :: 0 <= i < |l| ==> l[i].term <= t)
    && (forall i, k :: 0 <= i <= k < |l| ==> l[i].term <= l[k].term)
  }

  ghost predicate Logs(c: Core)
    requires Sized(c)
  {
    && (forall j :: 0 <= j < |c.log| ==> Anchored(c, c.log[j]) && TermsUpTo(c.log[j], c.term[j]))
    && (forall k :: k in c.cand ==> k.0 > 0 && Anchored(c, c.cand[k]) && TermsUpTo(c.cand[k], k.0 - 1))
    && (forall t :: t in c.tlog ==> Anchored(c, c.tlog[t]) && TermsUpTo(c.tlog[t], t))
  }

  ghost predicate Acks(c: Core)
    requires Sized(c)
  {
    forall a :: a in c.acks ==>
      && a.server < |c.term| && a.term in c.tlog && a.index < |c.tlog[a.term]| && a.term <= c.term[a.server]
      && (a.term == c.term[a.server] ==> Agree(c.log[a.server], c.tlog[a.term], a.index))
  }

  ghost predicate Holds(c: Core, l: Log, t: nat, i: nat)
    requires t in c.tlog
  {
    Agree(l, c.tlog[t], i) || Refused(c, t, i)
  }

  /** Index i of the log of term t was appended by the leader of t itself. */
  ghost predicate Own(c: Core, t: nat, i: nat) {
    t in c.tlog && i < |c.tlog[t]| && c.tlog[t][i].term == t
  }

  ghost predicate LeaderSafe(c: Core) {
    forall u: nat, t: nat, i: nat :: u in c.tlog && Own(c, t, i) && t < u ==> Holds(c, c.tlog[u], t, i)
  }

  ghost predicate AckSafe(c: Core) {
    forall a, i: nat :: a in c.acks && a.server < |c.log| && i <= a.index && Own(c, a.term, i)
      ==> Holds(c, c.log[a.server], a.term, i)
  }

  /** Vote g and acknowledgement a come from one server, which acknowledged first. */
  ghost predicate Earlier(c: Core, g: Grant, a: Ack) {
    && g in c.grants && a in c.acks && g.voter == a.server && a.term < g.term
    && (g.term, g.cand) in c.cand
  }

  ghost predicate VoteSafe(c: Core) {
    forall g, a, i: nat :: Earlier(c, g, a) && i <= a.index && Own(c, a.term, i)
      ==> Holds(c, c.cand[(g.term, g.cand)], a.term, i)
  }

  ghost predicate Inv(c: Core) {
    && Shape(c) && Votes(c) && Logs(c) && Acks(c)
    && LeaderSafe(c) && AckSafe(c) && VoteSafe(c)
  }

  // ---------------------------------------------------------------- steps

  /** A larger term was seen. */
  ghost function Bump(c: Core, j: nat, t: nat): Core
    requires Sized(c) && j < |c.term|
  {
    c.(term := c.term[j := t], vote := c.vote[j := -1])
  }

  ghost function Campaign(c: Core, j: nat): Core
    requires Sized(c) && j < |c.term|
  {
    var t := c.term[j] + 1;
    c.(term := c.term[j := t], vote := c.vote[j := j], grants := c.grants + {Grant(j, t, j)},
       cand := c.cand[(t, j) := c.log[j]])
  }

  ghost function GiveVote(c: Core, j: nat, k: nat): Core
    requires Sized(c) && j < |c.term|
  {
    c.(vote := c.vote[j := k], grants := c.grants + {Grant(j, c.term[j], k)})
  }

  /** The vote of a term already won is forgotten. */
  ghost function Release(c: Core, j: nat): Core
    requires Sized(c) && j < |c.term|
  {
    c.(vote := c.vote[j := -1])
  }

  ghost function Elect(c: Core, k: nat, q: set<nat>): Core
    requires Sized(c) && k < |c.term|
  {
    c.(wins := c.wins[c.term[k] := Win(k, q)], tlog := c.tlog[c.term[k] := c.log[k]], vote := c.vote[k := -1])
  }

  ghost function Append(c: Core, k: nat, op: Op): Core
    requires Sized(c) && k < |c.term|
  {
    var l := c.log[k] + [Entry(c.term[k], op)];
    c.(log := c.log[k := l], tlog := c.tlog[c.term[k] := l])
  }

  /** Server j takes the slice of the leader's log after p and through m, and acknowledges m. */
  ghost function Accept(c: Core, j: nat, p: nat, m: nat): Core
    requires Sized(c) && j < |c.term| && c.term[j] in c.tlog
    requires p <= m < |c.tlog[c.term[j]]| && p < |c.log[j]|
  {
    var t := c.term[j];
    c.(log := c.log[j := Merge(c.log[j], p + 1, c.tlog[t][p + 1..m + 1])], acks := c.acks + {Ack(j, t, m)})
  }

  ghost predicate CanBump(c: Core, j: nat, t: nat) {
    Sized(c) && j < |c.term| && c.term[j] < t
  }

  ghost predicate CanRelease(c: Core, j: nat) {
    && Sized(c) && j < |c.term| && c.term[j] in c.wins
    && (j in c.wins[c.term[j]].quorum ==> j == c.wins[c.term[j]].leader)
  }

  /** The guard of a guarded run: among an odd number of servers, one that has won the term does not vote in it again. */
  ghost predicate CanGive(c: Core, j: nat, k: nat) {
    && Sized(c) && j < |c.term| && k < |c.term| && MayVote(c, c.term[j], j)
    && (c.term[j], k) in c.cand
    && (c.vote[j] == k || (c.vote[j] == -1 && c.log[j] != [] && c.cand[(c.term[j], k)] != [] &&
        var l := c.cand[(c.term[j], k)]; UpToDate(LastTerm(l), LastIndex(l), c.log[j])))
  }

  ghost predicate CanElect(c: Core, k: nat, q: set<nat>) {
    && Sized(c) && k < |c.term| && Majority(|c.term|, q) && k in q
    && !Won(c, c.term[k], k) && (c.term[k], k) in c.cand && c.cand[(c.term[k], k)] == c.log[k]
    && forall j :: j in q ==> Grant(j, c.term[k], k) in c.grants
  }

  ghost predicate CanAppend(c: Core, k: nat) {
    Sized(c) && k < |c.term| && Won(c, c.term[k], k) && c.term[k] in c.tlog && c.log[k] == c.tlog[c.term[k]]
  }

  ghost predicate CanAccept(c: Core, j: nat, p: nat, m: nat) {
    && Sized(c) && j < |c.term| && c.term[j] in c.tlog
    && p <= m < |c.tlog[c.term[j]]| && p < |c.log[j]|
    && c.log[j][p].term == c.tlog[c.term[j]][p].term
  }

  // ---------------------------------------------------------------- what every step keeps

  /** The only ways history grows. */
  ghost predicate Grows(c: Core, d: Core) {
    && |c.term| == |d.term|
    && (forall j :: 0 <= j < |c.term| ==> c.term[j] <= d.term[j])
    && c.grants <= d.grants && c.acks <= d.acks
    && (forall t :: t in c.wins ==> t in d.wins && c.wins[t] == d.wins[t])
    && (forall a :: a in d.acks && a !in c.acks ==> a.server < |c.term| && c.term[a.server] <= a.term)
    && (forall t :: t in c.tlog ==> t in d.tlog && c.tlog[t] <= d.tlog[t])
  }

  lemma RefusedGrows(c: Core, d: Core, t: nat, i: nat)
    requires Grows(c, d) && Refused(c, t, i)
    ensures Refused(d, t, i)
  {
    var q :| RefusedBy(c, t, i, q);
    assert RefusedBy(d, t, i, q);
  }

  lemma AnchoredGrows(c: Core, d: Core, l: Log)
    requires Grows(c, d) && Anchored(c, l)
    ensures Anchored(d, l)
  {
    forall i: nat | i < |l|
      ensures AnchoredAt(d, l, i)
    {
      assert AnchoredAt(c, l, i);
    }
  }

  lemma HoldsGrows(c: Core, d: Core, l: Log, t: nat, i: nat)
    requires Grows(c, d)
    requires t in c.tlog && i < |c.tlog[t]| && Holds(c, l, t, i)
    ensures Holds(d, l, t, i)
  {
    if Refused(c, t, i) {
      RefusedGrows(c, d, t, i);
    } else {
      assert c.tlog[t][..i + 1] == d.tlog[t][..i + 1];
    }
  }

  lemma LogsGrow(c: Core, d: Core)
    requires Sized(c) && Logs(c) && Grows(c, d)
    ensures forall j :: 0 <= j < |c.log| ==> Anchored(d, c.log[j])
    ensures forall k :: k in c.cand ==> Anchored(d, c.cand[k])
    ensures forall t :: t in c.tlog ==> Anchored(d, c.tlog[t])
  {
    forall j | 0 <= j < |c.log| ensures Anchored(d, c.log[j]) { AnchoredGrows(c, d, c.log[j]); }
    forall k | k in c.cand ensures Anchored(d, c.cand[k]) { AnchoredGrows(c, d, c.cand[k]); }
    forall t | t in c.tlog ensures Anchored(d, c.tlog[t]) { AnchoredGrows(c, d, c.tlog[t]); }
  }

  /** Log matching: equal terms at an index mean equal logs up to it. */
  lemma MatchAt(c: Core, l: Log, r: Log, i: nat)
    requires Anchored(c, l) && Anchored(c, r)
    requires i < |l| && i < |r| && l[i].term == r[i].term
    ensures Agree(l, r, i)
  {
    assert AnchoredAt(c, l, i) && AnchoredAt(c, r, i);
  }

  lemma LeaderSafeGrows(c: Core, d: Core)
    requires LeaderSafe(c) && Grows(c, d) && d.tlog == c.tlog
    ensures LeaderSafe(d)
  {
    forall u: nat, t: nat, i: nat | u in d.tlog && Own(d, t, i) && t < u
      ensures Holds(d, d.tlog[u], t, i)
    {
      assert Own(c, t, i);
      HoldsGrows(c, d, c.tlog[u], t, i);
    }
  }

  lemma AckSafeGrows(c: Core, d: Core)
    requires AckSafe(c) && Grows(c, d) && d.tlog == c.tlog && d.log == c.log && d.acks == c.acks
    ensures AckSafe(d)
  {
    forall a, i: nat | a in d.acks && a.server < |d.log| && i <= a.index && Own(d, a.term, i)
      ensures Holds(d, d.log[a.server], a.term, i)
    {
      assert Own(c, a.term, i);
      HoldsGrows(c, d, c.log[a.server], a.term, i);
    }
  }

  lemma VoteSafeGrows(c: Core, d: Core)
    requires VoteSafe(c) && Grows(c, d) && d.tlog == c.tlog
    requires d.grants == c.grants && d.cand == c.cand && d.acks == c.acks
    ensures VoteSafe(d)
  {
    forall g, a, i: nat | Earlier(d, g, a) && i <= a.index && Own(d, a.term, i)
      ensures Holds(d, d.cand[(g.term, g.cand)], a.term, i)
    {
      assert Own(c, a.term, i) && Earlier(c, g, a);
      HoldsGrows(c, d, c.cand[(g.term, g.cand)], a.term, i);
    }
  }

  /** Everything about logs survives a step that only touches terms, votes and candidacies. */
  lemma LogsKept(c: Core, d: Core)
    requires Sized(c) && Sized(d) && Logs(c) && Acks(c) && Grows(c, d)
    requires d.tlog == c.tlog && d.log == c.log && d.acks == c.acks && d.cand == c.cand
    ensures Logs(d) && Acks(d)
  {
    LogsGrow(c, d);
  }

  lemma ShapeKept(c: Core, d: Core)
    requires Shape(c) && Sized(d) && |d.term| == |c.term|
    requires d.tlog == c.tlog && d.log == c.log && d.acks == c.acks && d.cand == c.cand && d.wins == c.wins
    requires c.grants <= d.grants
    requires forall g :: g in d.grants && g !in c.grants ==> g.voter < |c.term| && g.cand < |c.term| && (g.term, g.cand) in c.cand
    requires forall j :: 0 <= j < |c.term| ==> c.term[j] <= d.term[j]
    ensures Shape(d) && Grows(c, d)
  {
  }

  // ---------------------------------------------------------------- terms and votes

  lemma BumpVotes(c: Core, j: nat, t: nat)
    requires Sized(c) && Votes(c) && j < |c.term| && c.term[j] < t
    ensures Votes(Bump(c, j, t))
  {
    var d := Bump(c, j, t);
    assert NoneForgotten(d);
    assert Loyal(d);
  }

  lemma BumpKeeps(c: Core, j: nat, t: nat)
    requires Inv(c) && CanBump(c, j, t)
    ensures Inv(Bump(c, j, t)) && Grows(c, Bump(c, j, t))
  {
    var d := Bump(c, j, t);
    BumpVotes(c, j, t);
    ShapeKept(c, d);
    LogsKept(c, d);
    LeaderSafeGrows(c, d);
    AckSafeGrows(c, d);
    VoteSafeGrows(c, d);
  }

  lemma ReleaseVotes(c: Core, j: nat)
    requires Sized(c) && Votes(c) && j < |c.term| && c.term[j] in c.wins
    requires j in c.wins[c.term[j]].quorum ==> j == c.wins[c.term[j]].leader
    ensures Votes(Release(c, j))
  {
  }

  lemma ReleaseKeeps(c: Core, j: nat)
    requires Inv(c) && CanRelease(c, j)
    ensures Inv(Release(c, j)) && Grows(c, Release(c, j))
  {
    var d := Release(c, j);
    ReleaseVotes(c, j);
    ShapeKept(c, d);
    LogsKept(c, d);
    LeaderSafeGrows(c, d);
    AckSafeGrows(c, d);
    VoteSafeGrows(c, d);
  }

  lemma CampaignShape(c: Core, j: nat)
    requires Shape(c) && OnRecord(c) && j < |c.term|
    ensures Shape(Campaign(c, j)) && Grows(c, Campaign(c, j)) && OnRecord(Campaign(c, j))
    ensures (c.term[j] + 1, j) !in c.cand
  {
  }

  lemma CampaignVotes(c: Core, j: nat)
    requires Sized(c) && j < |c.term| && Votes(c)
    ensures NoneForgotten(Campaign(c, j)) && Loyal(Campaign(c, j))
  {
    var d := Campaign(c, j);
    assert NoneForgotten(d);
    assert Loyal(d);
  }

  lemma CampaignLogs(c: Core, j: nat)
    requires Sized(c) && j < |c.term| && Logs(c) && Acks(c) && Grows(c, Campaign(c, j))
    ensures Logs(Campaign(c, j)) && Acks(Campaign(c, j))
  {
    LogsGrow(c, Campaign(c, j));
  }

  lemma CampaignVoteSafe(c: Core, j: nat)
    requires Sized(c) && j < |c.term| && AckSafe(c) && VoteSafe(c) && Grows(c, Campaign(c, j))
    requires (c.term[j] + 1, j) !in c.cand
    requires forall g :: g in c.grants ==> (g.term, g.cand) in c.cand
    ensures VoteSafe(Campaign(c, j))
  {
    var d := Campaign(c, j);
    forall g, a, i: nat | Earlier(d, g, a) && i <= a.index && Own(d, a.term, i)
      ensures Holds(d, d.cand[(g.term, g.cand)], a.term, i)
    {
      assert Own(c, a.term, i);
      if g in c.grants {
        assert Earlier(c, g, a);
        HoldsGrows(c, d, c.cand[(g.term, g.cand)], a.term, i);
      } else {
        HoldsGrows(c, d, c.log[j], a.term, i);
      }
    }
  }

  lemma CampaignKeeps(c: Core, j: nat)
    requires Inv(c) && j < |c.term|
    ensures Inv(Campaign(c, j)) && Grows(c, Campaign(c, j))
  {
    var d := Campaign(c, j);
    CampaignShape(c, j);
    CampaignVotes(c, j);
    CampaignLogs(c, j);
    LeaderSafeGrows(c, d);
    AckSafeGrows(c, d);
    CampaignVoteSafe(c, j);
  }

  lemma GiveVotes(c: Core, j: nat, k: nat)
    requires Sized(c) && Votes(c) && j < |c.term| && k < |c.term|
    requires MayVote(c, c.term[j], j) && c.vote[j] == -1 && 0 < c.term[j]
    ensures Votes(GiveVote(c, j, k))
  {
    var d := GiveVote(c, j, k);
    assert OnRecord(d);
    assert NoneForgotten(d);
    assert Loyal(d);
  }

  /** The election restriction: a log at least as up to date as r holds what r holds. */
  lemma UpToDateHolds(c: Core, l: Log, r: Log, t: nat, i: nat)
    requires LeaderSafe(c) && (forall u :: u in c.tlog ==> TermsUpTo(c.tlog[u], u))
    requires l != [] && Anchored(c, l) && r != [] && Anchored(c, r)
    requires UpToDate(LastTerm(l), LastIndex(l), r)
    requires Own(c, t, i) && Agree(r, c.tlog[t], i)
    ensures Holds(c, l, t, i)
  {
    var w := LastTerm(l);
    assert AnchoredAt(c, l, LastIndex(l)) && AnchoredAt(c, r, LastIndex(r));
    assert l[..|l|] == l && r[..|r|] == r;
    assert r[i] == c.tlog[t][i];
    assert r[i] == c.tlog[LastTerm(r)][i];
    assert t <= LastTerm(r);
    if w > LastTerm(r) {
      assert Holds(c, c.tlog[w], t, i);
      if !Refused(c, t, i) {
        assert c.tlog[w][..i + 1][i] == c.tlog[t][..i + 1][i];
        assert c.tlog[w][LastIndex(l)].term == w;
      }
    }
  }

  lemma GiveVoteSafe(c: Core, j: nat, k: nat)
    requires Shape(c) && Logs(c) && LeaderSafe(c) && AckSafe(c) && VoteSafe(c)
    requires j < |c.term| && Grows(c, GiveVote(c, j, k)) && (c.term[j], k) in c.cand
    requires var l := c.cand[(c.term[j], k)]; UpToDate(LastTerm(l), LastIndex(l), c.log[j])
    ensures VoteSafe(GiveVote(c, j, k))
  {
    var d := GiveVote(c, j, k);
    forall g, a, i: nat | Earlier(d, g, a) && i <= a.index && Own(d, a.term, i)
      ensures Holds(d, d.cand[(g.term, g.cand)], a.term, i)
    {
      assert Own(c, a.term, i);
      var l := c.cand[(g.term, g.cand)];
      if g in c.grants {
        assert Earlier(c, g, a);
      } else if !Refused(c, a.term, i) {
        UpToDateHolds(c, l, c.log[j], a.term, i);
      }
      HoldsGrows(c, d, l, a.term, i);
    }
  }

  lemma GiveFresh(c: Core, j: nat, k: nat)
    requires Inv(c) && CanGive(c, j, k) && c.vote[j] == -1
    ensures Inv(GiveVote(c, j, k)) && Grows(c, GiveVote(c, j, k))
  {
    var d := GiveVote(c, j, k);
    ShapeKept(c, d);
    GiveVotes(c, j, k);
    LogsKept(c, d);
    LeaderSafeGrows(c, d);
    AckSafeGrows(c, d);
    GiveVoteSafe(c, j, k);
  }

  lemma GiveKeeps(c: Core, j: nat, k: nat)
    requires Inv(c) && CanGive(c, j, k)
    ensures Inv(GiveVote(c, j, k)) && Grows(c, GiveVote(c, j, k))
  {
    if c.vote[j] == k {
      assert GiveVote(c, j, k).grants == c.grants;
      assert GiveVote(c, j, k) == c;
    } else {
      GiveFresh(c, j, k);
    }
  }

  // ---------------------------------------------------------------- elections

  /** A second winner of a term would need the vote of someone loyal to the first: two majorities of an even number share two servers. */
  lemma TermIsOpen(c: Core, k: nat, q: set<nat>)
    requires Sized(c) && Terms(c) && Votes(c) && k < |c.term| && Majority(|c.term|, q) && !Won(c, c.term[k], k)
    requires forall j :: j in q ==> Grant(j, c.term[k], k) in c.grants
    ensures c.term[k] !in c.wins && c.term[k] !in c.tlog
  {
    var j :| j in q;
    if c.term[k] in c.wins {
      var w := c.wins[c.term[k]];
      var others := if |c.term| % 2 == 0 then w.quorum - {w.leader} else w.quorum;
      assert |w.quorum| == |w.quorum - {w.leader}| + 1;
      var i := Intersect(|c.term|, q, others);
    }
  }

  lemma ElectShape(c: Core, k: nat, q: set<nat>)
    requires Shape(c) && k < |c.term| && Majority(|c.term|, q) && k in q
    requires c.term[k] !in c.wins && c.term[k] !in c.tlog
    ensures Shape(Elect(c, k, q)) && Grows(c, Elect(c, k, q))
  {
  }

  lemma ElectVotes(c: Core, k: nat, q: set<nat>)
    requires Sized(c) && Votes(c) && k < |c.term| && c.term[k] !in c.wins && q <= Servers(|c.term|)
    requires forall j :: j in q ==> Grant(j, c.term[k], k) in c.grants
    ensures Votes(Elect(c, k, q))
  {
    var d := Elect(c, k, q);
    assert OnRecord(d);
    assert NoneForgotten(d);
    forall g | g in d.grants && g.term == c.term[k] && g.voter in q
      ensures g.cand == k
    {
      assert Grant(g.voter, c.term[k], k) in c.grants;
    }
    assert Loyal(d);
  }

  lemma ElectLogs(c: Core, k: nat, q: set<nat>)
    requires Sized(c) && k < |c.term| && Logs(c) && Acks(c) && Grows(c, Elect(c, k, q)) && c.term[k] !in c.tlog
    ensures Logs(Elect(c, k, q)) && Acks(Elect(c, k, q))
  {
    LogsGrow(c, Elect(c, k, q));
  }

  /** What the new leader's voters acknowledged, the new leader has; what none of them did is refused. */
  lemma WinnerHolds(c: Core, k: nat, q: set<nat>, t: nat, i: nat)
    requires Sized(c) && OnRecord(c) && VoteSafe(c)
    requires k < |c.term| && Majority(|c.term|, q) && (c.term[k], k) in c.cand
    requires forall j :: j in q ==> Grant(j, c.term[k], k) in c.grants
    requires Own(c, t, i) && t < c.term[k]
    ensures Holds(c, c.cand[(c.term[k], k)], t, i)
  {
    if j :| j in q && Acked(c, j, t, i) {
      var m: nat :| i <= m && Ack(j, t, m) in c.acks;
      assert Earlier(c, Grant(j, c.term[k], k), Ack(j, t, m));
    } else {
      forall j | j in q
        ensures c.term[j] > t
      {
        assert Grant(j, c.term[k], k) in c.grants;
      }
      assert RefusedBy(c, t, i, q);
    }
  }

  lemma ElectLeaderSafe(c: Core, k: nat, q: set<nat>)
    requires Inv(c) && CanElect(c, k, q) && c.term[k] !in c.tlog && Grows(c, Elect(c, k, q))
    ensures LeaderSafe(Elect(c, k, q))
  {
    var d := Elect(c, k, q);
    forall u: nat, t: nat, i: nat | u in d.tlog && Own(d, t, i) && t < u
      ensures Holds(d, d.tlog[u], t, i)
    {
      assert TermsUpTo(c.cand[(c.term[k], k)], c.term[k] - 1);
      assert Own(c, t, i);
      if u == c.term[k] {
        WinnerHolds(c, k, q, t, i);
      }
      HoldsGrows(c, d, d.tlog[u], t, i);
    }
  }

  lemma ElectSafe(c: Core, k: nat, q: set<nat>)
    requires Sized(c) && Acks(c) && AckSafe(c) && VoteSafe(c) && k < |c.term| && c.term[k] !in c.tlog
    requires Grows(c, Elect(c, k, q))
    ensures AckSafe(Elect(c, k, q)) && VoteSafe(Elect(c, k, q))
  {
    var d := Elect(c, k, q);
    forall a, i: nat | a in d.acks && a.server < |d.log| && i <= a.index && Own(d, a.term, i)
      ensures Holds(d, d.log[a.server], a.term, i)
    {
      assert Own(c, a.term, i);
      HoldsGrows(c, d, c.log[a.server], a.term, i);
    }
    forall g, a, i: nat | Earlier(d, g, a) && i <= a.index && Own(d, a.term, i)
      ensures Holds(d, d.cand[(g.term, g.cand)], a.term, i)
    {
      assert Own(c, a.term, i) && Earlier(c, g, a);
      HoldsGrows(c, d, c.cand[(g.term, g.cand)], a.term, i);
    }
  }

  lemma ElectKeeps(c: Core, k: nat, q: set<nat>)
    requires Inv(c) && CanElect(c, k, q)
    ensures c.term[k] !in c.wins
    ensures Inv(Elect(c, k, q)) && Grows(c, Elect(c, k, q))
  {
    TermIsOpen(c, k, q);
    ElectShape(c, k, q);
    ElectVotes(c, k, q);
    ElectLogs(c, k, q);
    ElectLeaderSafe(c, k, q);
    ElectSafe(c, k, q);
  }

  // ---------------------------------------------------------------- the leader appends

  lemma AppendShape(c: Core, k: nat, op: Op)
    requires Shape(c) && k < |c.term| && c.term[k] in c.tlog && c.term[k] in c.wins && c.log[k] == c.tlog[c.term[k]]
    ensures Shape(Append(c, k, op)) && Grows(c, Append(c, k, op))
  {
  }

  lemma AppendLogs(c: Core, k: nat, op: Op)
    requires Sized(c) && k < |c.term| && Logs(c) && Grows(c, Append(c, k, op))
    requires c.term[k] in c.tlog && c.log[k] == c.tlog[c.term[k]]
    ensures Logs(Append(c, k, op))
  {
    var d := Append(c, k, op);
    LogsGrow(c, d);
    var l := d.log[k];
    forall i: nat | i < |l|
      ensures AnchoredAt(d, l, i)
    {
      if i < |c.log[k]| {
        assert AnchoredAt(d, c.log[k], i);
        assert l[..i + 1] == c.log[k][..i + 1];
      }
    }
  }

  lemma AppendAcks(c: Core, k: nat, op: Op)
    requires Sized(c) && k < |c.term| && Acks(c) && Grows(c, Append(c, k, op))
    ensures Acks(Append(c, k, op))
  {
    var d := Append(c, k, op);
    forall a | a in d.acks && a.term == d.term[a.server]
      ensures Agree(d.log[a.server], d.tlog[a.term], a.index)
    {
      assert Agree(c.log[a.server], c.tlog[a.term], a.index);
      AgreeGrows(c.log[a.server], d.log[a.server], c.tlog[a.term], d.tlog[a.term], a.index);
    }
  }

  lemma AgreeGrows(l: Log, l': Log, r: Log, r': Log, i: nat)
    requires Agree(l, r, i) && l <= l' && r <= r'
    ensures Agree(l', r', i)
  {
    assert l'[..i + 1] == l[..i + 1] && r'[..i + 1] == r[..i + 1];
  }

  /** An entry a deposed leader appends too late is refused by whoever elected the later leader. */
  lemma TooLate(c: Core, t: nat, u: nat)
    requires Sized(c) && Terms(c) && OnRecord(c) && Loyal(c) && Acks(c)
    requires t in c.tlog && u in c.wins && t < u
    ensures Refused(c, t, |c.tlog[t]|)
  {
    var q := c.wins[u].quorum;
    forall j | j in q
      ensures c.term[j] > t && !Acked(c, j, t, |c.tlog[t]|)
    {
      assert Grant(j, u, c.wins[u].leader) in c.grants;
    }
    assert RefusedBy(c, t, |c.tlog[t]|, q);
  }

  lemma AppendLeaderHolds(c: Core, d: Core, u: nat, t: nat, i: nat)
    requires Sized(c) && Terms(c) && OnRecord(c) && Loyal(c) && Acks(c) && LeaderSafe(c) && Grows(c, d)
    requires u in c.wins && t in c.tlog && t < u && i <= |c.tlog[t]| && (i < |c.tlog[t]| ==> Own(c, t, i))
    requires u in d.tlog && Own(d, t, i)
    ensures Holds(d, d.tlog[u], t, i)
  {
    if i < |c.tlog[t]| {
      HoldsGrows(c, d, c.tlog[u], t, i);
      if !Refused(d, t, i) {
        AgreeGrows(c.tlog[u], d.tlog[u], d.tlog[t], d.tlog[t], i);
      }
    } else {
      TooLate(c, t, u);
      RefusedGrows(c, d, t, i);
    }
  }

  lemma AppendSafe(c: Core, k: nat, op: Op)
    requires Sized(c) && Terms(c) && OnRecord(c) && Loyal(c) && Acks(c) && LeaderSafe(c)
    requires k < |c.term| && c.term[k] in c.tlog && c.log[k] == c.tlog[c.term[k]] && Grows(c, Append(c, k, op))
    ensures LeaderSafe(Append(c, k, op))
  {
    var d := Append(c, k, op);
    forall u: nat, t: nat, i: nat | u in d.tlog && Own(d, t, i) && t < u
      ensures Holds(d, d.tlog[u], t, i)
    {
      AppendLeaderHolds(c, d, u, t, i);
    }
  }

  lemma AppendAckSafe(c: Core, k: nat, op: Op)
    requires Sized(c) && Acks(c) && AckSafe(c) && VoteSafe(c) && k < |c.term| && Grows(c, Append(c, k, op))
    ensures AckSafe(Append(c, k, op)) && VoteSafe(Append(c, k, op))
  {
    var d := Append(c, k, op);
    forall a, i: nat | a in d.acks && a.server < |d.log| && i <= a.index && Own(d, a.term, i)
      ensures Holds(d, d.log[a.server], a.term, i)
    {
      assert Own(c, a.term, i);
      HoldsGrows(c, d, c.log[a.server], a.term, i);
      if !Refused(d, a.term, i) {
        AgreeGrows(c.log[a.server], d.log[a.server], d.tlog[a.term], d.tlog[a.term], i);
      }
    }
    forall g, a, i: nat | Earlier(d, g, a) && i <= a.index && Own(d, a.term, i)
      ensures Holds(d, d.cand[(g.term, g.cand)], a.term, i)
    {
      assert Own(c, a.term, i) && Earlier(c, g, a);
      HoldsGrows(c, d, c.cand[(g.term, g.cand)], a.term, i);
    }
  }

  lemma AppendKeeps(c: Core, k: nat, op: Op)
    requires Inv(c) && CanAppend(c, k)
    ensures Inv(Append(c, k, op)) && Grows(c, Append(c, k, op))
  {
    AppendShape(c, k, op);
    AppendLogs(c, k, op);
    AppendAcks(c, k, op);
    AppendSafe(c, k, op);
    AppendAckSafe(c, k, op);
    assert Votes(Append(c, k, op));
  }

  // ---------------------------------------------------------------- a follower accepts

  /** Merging a slice of r into l yields l itself or r up to m, and loses nothing l and r share. */
  lemma {:induction false} MergeFollows(c: Core, l: Log, r: Log, at: nat, m: nat)
    requires Anchored(c, l) && Anchored(c, r)
    requires 0 < at <= m + 1 && m < |r| && Agree(l, r, at - 1)
    ensures var x := Merge(l, at, r[at..m + 1]);
            && (x == l || x == r[..m + 1])
            && Agree(x, r, m)
            && forall s: Log, i: nat :: Agree(l, s, i) && Agree(r, s, i) ==> Agree(x, s, i)
    decreases m + 1 - at
  {
    var es := r[at..m + 1];
    if es != [] {
      if at < |l| && l[at].term == es[0].term {
        MatchAt(c, l, r, at);
        assert es[1..] == r[at + 1..m + 1];
        MergeFollows(c, l, r, at + 1, m);
      } else {
        var x := l[..at] + es;
        assert l[..at] == r[..at];
        assert x == r[..m + 1];
        forall s: Log, i: nat | Agree(l, s, i) && Agree(r, s, i)
          ensures Agree(x, s, i)
        {
          assert forall y :: 0 <= y <= i ==> l[y] == l[..i + 1][y] == r[..i + 1][y] == r[y];
          assert x[..i + 1] == r[..i + 1];
        }
      }
    }
  }

  /** What the follower's log becomes, in terms of the leader's. */
  lemma AcceptMerges(c: Core, j: nat, p: nat, m: nat)
    requires Sized(c) && Logs(c)
    requires j < |c.term| && c.term[j] in c.tlog && p <= m < |c.tlog[c.term[j]]| && p < |c.log[j]|
    requires c.log[j][p].term == c.tlog[c.term[j]][p].term
    ensures var d := Accept(c, j, p, m);
            var r := c.tlog[c.term[j]];
            && Grows(c, d)
            && (d.log[j] == c.log[j] || d.log[j] == r[..m + 1])
            && Agree(d.log[j], r, m)
            && forall s: Log, i: nat :: Agree(c.log[j], s, i) && Agree(r, s, i) ==> Agree(d.log[j], s, i)
  {
    MatchAt(c, c.log[j], c.tlog[c.term[j]], p);
    MergeFollows(c, c.log[j], c.tlog[c.term[j]], p + 1, m);
  }

  lemma AcceptLogs(c: Core, j: nat, p: nat, m: nat)
    requires Sized(c) && Logs(c)
    requires j < |c.term| && c.term[j] in c.tlog && p <= m < |c.tlog[c.term[j]]| && p < |c.log[j]|
    requires c.log[j][p].term == c.tlog[c.term[j]][p].term
    ensures Logs(Accept(c, j, p, m))
  {
    var d := Accept(c, j, p, m);
    var r := c.tlog[c.term[j]];
    AcceptMerges(c, j, p, m);
    LogsGrow(c, d);
    if d.log[j] != c.log[j] {
      forall i: nat | i < |d.log[j]| ensures AnchoredAt(d, d.log[j], i) {
        assert AnchoredAt(d, r, i);
        assert d.log[j][..i + 1] == r[..i + 1];
      }
    }
  }

  lemma AcceptAcks(c: Core, j: nat, p: nat, m: nat)
    requires Sized(c) && Logs(c) && Acks(c)
    requires j < |c.term| && c.term[j] in c.tlog && p <= m < |c.tlog[c.term[j]]| && p < |c.log[j]|
    requires c.log[j][p].term == c.tlog[c.term[j]][p].term
    ensures Acks(Accept(c, j, p, m))
  {
    AcceptMerges(c, j, p, m);
  }

  /** Nothing an acknowledged entry needs is overwritten, unless the entry was refused. */
  lemma AcceptKeepsEntry(c: Core, j: nat, p: nat, m: nat, t: nat, i: nat)
    requires Sized(c) && Logs(c) && LeaderSafe(c)
    requires j < |c.term| && c.term[j] in c.tlog && p <= m < |c.tlog[c.term[j]]| && p < |c.log[j]|
    requires c.log[j][p].term == c.tlog[c.term[j]][p].term
    requires Own(c, t, i) && t <= c.term[j] && Holds(c, c.log[j], t, i)
    ensures Holds(c, Accept(c, j, p, m).log[j], t, i)
  {
    AcceptMerges(c, j, p, m);
    if !Refused(c, t, i) && t < c.term[j] {
      assert Holds(c, c.tlog[c.term[j]], t, i);
    }
  }

  lemma AcceptSafe(c: Core, j: nat, p: nat, m: nat)
    requires Sized(c) && Logs(c) && Acks(c) && LeaderSafe(c) && AckSafe(c)
    requires j < |c.term| && c.term[j] in c.tlog && p <= m < |c.tlog[c.term[j]]| && p < |c.log[j]|
    requires c.log[j][p].term == c.tlog[c.term[j]][p].term
    ensures AckSafe(Accept(c, j, p, m))
  {
    var d := Accept(c, j, p, m);
    AcceptMerges(c, j, p, m);
    forall a, i: nat | a in d.acks && a.server < |d.log| && i <= a.index && Own(d, a.term, i)
      ensures Holds(d, d.log[a.server], a.term, i)
    {
      assert Own(c, a.term, i);
      if a !in c.acks {
        AgreeBelow(d.log[j], c.tlog[c.term[j]], m, i);
      } else {
        if a.server == j {
          AcceptKeepsEntry(c, j, p, m, a.term, i);
        }
        HoldsGrows(c, d, d.log[a.server], a.term, i);
      }
    }
  }

  lemma AgreeBelow(l: Log, r: Log, m: nat, i: nat)
    requires Agree(l, r, m) && i <= m
    ensures Agree(l, r, i)
  {
    assert l[..i + 1] == l[..m + 1][..i + 1] && r[..i + 1] == r[..m + 1][..i + 1];
  }

  lemma AcceptVotes(c: Core, j: nat, p: nat, m: nat)
    requires Sized(c) && Votes(c) && VoteSafe(c)
    requires j < |c.term| && c.term[j] in c.tlog && p <= m < |c.tlog[c.term[j]]| && p < |c.log[j]|
    ensures Votes(Accept(c, j, p, m)) && VoteSafe(Accept(c, j, p, m))
  {
    var d := Accept(c, j, p, m);
    forall g, a, i: nat | Earlier(d, g, a) && i <= a.index && Own(d, a.term, i)
      ensures Holds(d, d.cand[(g.term, g.cand)], a.term, i)
    {
      assert a in c.acks;
      assert Own(c, a.term, i) && Earlier(c, g, a);
      HoldsGrows(c, d, c.cand[(g.term, g.cand)], a.term, i);
    }
  }

  lemma AcceptShape(c: Core, j: nat, p: nat, m: nat)
    requires Shape(c)
    requires j < |c.term| && c.term[j] in c.tlog && p <= m < |c.tlog[c.term[j]]| && p < |c.log[j]|
    requires Merge(c.log[j], p + 1, c.tlog[c.term[j]][p + 1..m + 1]) != []
    ensures Shape(Accept(c, j, p, m))
  {
  }

  lemma AcceptKeeps(c: Core, j: nat, p: nat, m: nat)
    requires Inv(c) && CanAccept(c, j, p, m)
    ensures Inv(Accept(c, j, p, m)) && Grows(c, Accept(c, j, p, m))
  {
    var d := Accept(c, j, p, m);
    AcceptMerges(c, j, p, m);
    AcceptLogs(c, j, p, m);
    AcceptAcks(c, j, p, m);
    AcceptSafe(c, j, p, m);
    AcceptVotes(c, j, p, m);
    LeaderSafeGrows(c, d);
    AcceptShape(c, j, p, m);
  }

  /** A step of server i changes nothing that belongs to another server. */
  ghost predicate Local(c: Core, d: Core, i: nat) {
    && Grows(c, d) && Sized(c) && Sized(d)
    && (forall j :: 0 <= j < |c.term| && j != i ==>
          d.term[j] == c.term[j] && d.vote[j] == c.vote[j] && d.log[j] == c.log[j])
    && (forall t: nat :: t in c.wins && t in c.tlog && c.wins[t].leader != i ==> t in d.tlog && d.tlog[t] == c.tlog[t])
    && (forall t: nat :: t in d.wins && t !in c.wins ==> d.wins[t].leader == i)
    && (forall k :: k in c.cand ==> k in d.cand && d.cand[k] == c.cand[k])
  }

  lemma LocalRefl(c: Core, i: nat)
    requires Sized(c)
    ensures Local(c, c, i)
  {
  }

  lemma LocalTrans(c: Core, d: Core, e: Core, i: nat)
    requires Local(c, d, i) && Local(d, e, i)
    ensures Local(c, e, i)
  {
  }

  // ---------------------------------------------------------------- core steps are local

  /** Local, apart from growth: stated without the invariants, so that each case is immediate. */
  lemma Locality(c: Core, d: Core, i: nat)
    requires Sized(c) && Sized(d) && Grows(c, d)
    requires forall j :: 0 <= j < |c.term| && j != i ==>
               d.term[j] == c.term[j] && d.vote[j] == c.vote[j] && d.log[j] == c.log[j]
    requires forall t: nat :: t in c.wins ==> t in c.tlog
    requires forall t: nat :: t in c.wins && c.wins[t].leader != i ==> t in d.tlog && d.tlog[t] == c.tlog[t]
    requires forall t: nat :: t in d.wins && t !in c.wins ==> d.wins[t].leader == i
    requires forall k :: k in c.cand ==> k in d.cand && d.cand[k] == c.cand[k]
    ensures Local(c, d, i)
  {
  }

  lemma LocalBump(c: Core, i: nat, t: nat)
    requires Inv(c) && CanBump(c, i, t)
    ensures Inv(Bump(c, i, t)) && Local(c, Bump(c, i, t), i)
  {
    BumpKeeps(c, i, t);
    Locality(c, Bump(c, i, t), i);
  }

  lemma LocalRelease(c: Core, i: nat)
    requires Inv(c) && CanRelease(c, i)
    ensures Inv(Release(c, i)) && Local(c, Release(c, i), i)
  {
    ReleaseKeeps(c, i);
    Locality(c, Release(c, i), i);
  }

  lemma CampaignLocal(c: Core, i: nat)
    requires Sized(c) && Terms(c) && i < |c.term| && Grows(c, Campaign(c, i)) && (c.term[i] + 1, i) !in c.cand
    ensures Local(c, Campaign(c, i), i)
  {
  }

  lemma LocalCampaign(c: Core, i: nat)
    requires Inv(c) && i < |c.term|
    ensures Inv(Campaign(c, i)) && Local(c, Campaign(c, i), i)
  {
    CampaignKeeps(c, i);
    CampaignShape(c, i);
    CampaignLocal(c, i);
  }

  lemma GiveLocal(c: Core, i: nat, k: nat)
    requires Sized(c) && Terms(c) && i < |c.term| && Grows(c, GiveVote(c, i, k))
    ensures Local(c, GiveVote(c, i, k), i)
  {
  }

  lemma LocalGive(c: Core, i: nat, k: nat)
    requires Inv(c) && CanGive(c, i, k)
    ensures Inv(GiveVote(c, i, k)) && Local(c, GiveVote(c, i, k), i)
  {
    GiveKeeps(c, i, k);
    GiveLocal(c, i, k);
  }

  lemma ElectLocal(c: Core, i: nat, q: set<nat>)
    requires Sized(c) && Terms(c) && i < |c.term| && c.term[i] !in c.wins && Grows(c, Elect(c, i, q))
    ensures Local(c, Elect(c, i, q), i)
  {
  }

  lemma LocalElect(c: Core, i: nat, q: set<nat>)
    requires Inv(c) && CanElect(c, i, q)
    ensures c.term[i] !in c.wins
    ensures Inv(Elect(c, i, q)) && Local(c, Elect(c, i, q), i)
  {
    ElectKeeps(c, i, q);
    ElectLocal(c, i, q);
  }

  lemma AppendLocal(c: Core, i: nat, op: Op)
    requires Sized(c) && Terms(c) && i < |c.term| && Won(c, c.term[i], i) && Grows(c, Append(c, i, op))
    ensures Local(c, Append(c, i, op), i)
  {
  }

  lemma LocalAppend(c: Core, i: nat, op: Op)
    requires Inv(c) && CanAppend(c, i)
    ensures Inv(Append(c, i, op)) && Local(c, Append(c, i, op), i)
  {
    AppendKeeps(c, i, op);
    AppendLocal(c, i, op);
  }

  lemma LocalAccept(c: Core, i: nat, p: nat, m: nat)
    requires Inv(c) && CanAccept(c, i, p, m)
    ensures Inv(Accept(c, i, p, m)) && Local(c, Accept(c, i, p, m), i)
  {
    AcceptKeeps(c, i, p, m);
    Locality(c, Accept(c, i, p, m), i);
  }

  // ---------------------------------------------------------------- the core as a transition system

  datatype Label =
    | LBump(i: nat, t: nat)
    | LRelease(i: nat)
    | LCampaign(i: nat)
    | LGive(i: nat, cand: nat)
    | LElect(i: nat, quorum: set<nat>)
    | LAppend(i: nat, op: Op)
    | LAccept(i: nat, p: nat, m: nat)

  ghost predicate Can(c: Core, e: Label) {
    match e
    case LBump(i, t) => CanBump(c, i, t)
    case LRelease(i) => CanRelease(c, i)
    case LCampaign(i) => Sized(c) && i < |c.term|
    case LGive(i, k) => CanGive(c, i, k)
    case LElect(i, q) => CanElect(c, i, q)
    case LAppend(i, _) => CanAppend(c, i)
    case LAccept(i, p, m) => CanAccept(c, i, p, m)
  }

  ghost function Do(c: Core, e: Label): Core
    requires Can(c, e)
  {
    match e
    case LBump(i, t) => Bump(c, i, t)
    case LRelease(i) => Release(c, i)
    case LCampaign(i) => Campaign(c, i)
    case LGive(i, k) => GiveVote(c, i, k)
    case LElect(i, q) => Elect(c, i, q)
    case LAppend(i, op) => Append(c, i, op)
    case LAccept(i, p, m) => Accept(c, i, p, m)
  }

  lemma DoKeeps(c: Core, e: Label)
    requires Inv(c) && Can(c, e)
    ensures Inv(Do(c, e)) && Local(c, Do(c, e), e.i)
  {
    match e
    case LBump(i, t) => LocalBump(c, i, t);
    case LRelease(i) => LocalRelease(c, i);
    case LCampaign(i) => LocalCampaign(c, i);
    case LGive(i, k) => LocalGive(c, i, k);
    case LElect(i, q) => LocalElect(c, i, q);
    case LAppend(i, op) => LocalAppend(c, i, op);
    case LAccept(i, p, m) => LocalAccept(c, i, p, m);
  }

  /** The core after the labels es; a label that is not enabled is skipped. */
  ghost function After(n: nat, es: seq<Label>): Core {
    if es == [] then Start(n)
    else
      var c := After(n, es[..|es| - 1]);
      if Can(c, es[|es| - 1]) then Do(c, es[|es| - 1]) else c
  }

  /** c is the result of some sequence of core steps. */
  ghost predicate Reachable(c: Core) {
    exists n: nat, es: seq<Label> :: c == After(n, es)
  }

  lemma {:induction false} AfterInv(n: nat, es: seq<Label>)
    ensures Inv(After(n, es))
  {
    if es == [] {
      StartInv(n);
    } else {
      var c := After(n, es[..|es| - 1]);
      AfterInv(n, es[..|es| - 1]);
      if Can(c, es[|es| - 1]) {
        DoKeeps(c, es[|es| - 1]);
      }
    }
  }

  lemma ReachableInv(c: Core)
    requires Reachable(c)
    ensures Inv(c)
  {
    var n: nat, es: seq<Label> :| c == After(n, es);
    AfterInv(n, es);
  }

  lemma Extend(c: Core, e: Label)
    requires Reachable(c) && Can(c, e)
    ensures Reachable(Do(c, e)) && Local(c, Do(c, e), e.i)
  {
    var n: nat, es: seq<Label> :| c == After(n, es);
    var fs := es + [e];
    assert fs[..|fs| - 1] == es;
    assert Do(c, e) == After(n, fs);
    ReachableInv(c);
    DoKeeps(c, e);
  }

  // ---------------------------------------------------------------- what the invariant gives

  ghost function Start(n: nat): Core {
    Core(seq(n, _ => 0), seq(n, _ => -1), seq(n, _ => [DUMMY]), map[], {}, map[], map[0 := [DUMMY]], {})
  }

  lemma StartInv(n: nat)
    ensures Inv(Start(n))
  {
    assert AnchoredAt(Start(n), [DUMMY], 0);
    assert forall a: Ack :: a !in Start(n).acks;
  }

  lemma ChosenGrows(c: Core, d: Core, t: nat, m: nat)
    requires Grows(c, d) && Chosen(c, t, m)
    ensures Chosen(d, t, m)
  {
    if t > 0 {
      var q: set<nat> :| ChosenBy(c, t, m, q);
      forall j | j in q
        ensures Acked(d, j, t, m)
      {
        assert Acked(c, j, t, m);
      }
      assert ChosenBy(d, t, m, q);
    }
  }

  lemma ChosenNotRefused(c: Core, t: nat, m: nat)
    requires Chosen(c, t, m) && t > 0
    ensures !Refused(c, t, m)
  {
    if r: set<nat> :| RefusedBy(c, t, m, r) {
      var q: set<nat> :| ChosenBy(c, t, m, q);
      var j := Intersect(|c.term|, q, r);
      assert false;
    }
  }

  /** Leader completeness (section 5.4.3 of the Raft paper). */
  lemma LeaderCompleteness(c: Core, t: nat, m: nat, u: nat)
    requires Terms(c) && LeaderSafe(c) && (forall v :: v in c.tlog ==> TermsUpTo(c.tlog[v], v))
    requires Chosen(c, t, m) && u in c.tlog && t < u
    ensures Agree(c.tlog[u], c.tlog[t], m)
  {
    assert Own(c, t, m);
    if t == 0 {
      assert TermsUpTo(c.tlog[u], u) && TermsUpTo(c.tlog[0], 0);
    } else {
      ChosenNotRefused(c, t, m);
    }
  }

  /** Two chosen positions name the same log as far as both reach. */
  lemma ChosenAgree(c: Core, t: nat, m: nat, u: nat, k: nat, i: nat)
    requires Inv(c) && Chosen(c, t, m) && Chosen(c, u, k) && i <= m && i <= k
    ensures Agree(c.tlog[t], c.tlog[u], i)
  {
    if t < u {
      LeaderCompleteness(c, t, m, u);
      AgreeBelow(c.tlog[u], c.tlog[t], m, i);
    } else if u < t {
      LeaderCompleteness(c, u, k, t);
      AgreeBelow(c.tlog[t], c.tlog[u], k, i);
    }
  }

  ghost predicate CoveredBy(c: Core, l: Log, k: nat, limit: nat, t: nat, m: nat) {
    Chosen(c, t, m) && t <= limit && k <= m && Agree(l, c.tlog[t], k)
  }

  /** The log l through index k is part of something chosen in a term no later than `limit`. */
  ghost predicate Covered(c: Core, l: Log, k: nat, limit: nat) {
    exists t: nat, m: nat :: CoveredBy(c, l, k, limit, t, m)
  }

  lemma CoveredGrows(c: Core, d: Core, l: Log, k: nat, limit: nat, limit': nat)
    requires Grows(c, d) && Covered(c, l, k, limit) && limit <= limit'
    ensures Covered(d, l, k, limit')
  {
    var t: nat, m: nat :| CoveredBy(c, l, k, limit, t, m);
    ChosenGrows(c, d, t, m);
    AgreeGrows(l, l, c.tlog[t], d.tlog[t], k);
    assert CoveredBy(d, l, k, limit', t, m);
  }

  lemma CoveredAgree(c: Core, l: Log, r: Log, i: nat, k: nat, limit: nat, limit': nat)
    requires Inv(c) && Covered(c, l, i, limit) && Covered(c, r, k, limit') && i <= k
    ensures Agree(l, r, i)
  {
    var t: nat, m: nat :| CoveredBy(c, l, i, limit, t, m);
    var u: nat, n: nat :| CoveredBy(c, r, k, limit', u, n);
    ChosenAgree(c, t, m, u, n, i);
    AgreeBelow(r, c.tlog[u], k, i);
  }

  /** A leader of the limiting term or of a later one has everything covered. */
  lemma LeaderCovers(c: Core, l: Log, k: nat, limit: nat, u: nat)
    requires Inv(c) && Covered(c, l, k, limit) && u in c.tlog && limit <= u
    ensures Agree(c.tlog[u], l, k)
  {
    var t: nat, m: nat :| CoveredBy(c, l, k, limit, t, m);
    if t < u {
      LeaderCompleteness(c, t, m, u);
      AgreeBelow(c.tlog[u], c.tlog[t], m, k);
    }
  }

  /** i is where the entries of term t begin in l. */
  ghost predicate TermStarts(l: Log, t: nat, i: nat) {
    i < |l| && l[i].term == t && (i == 0 || l[i - 1].term != t)
  }

  /** All entries of one term begin at the same index in every log that has them. */
  lemma SameTermStart(c: Core, l: Log, r: Log, t: nat, i: nat, k: nat, u: nat, v: nat)
    requires Anchored(c, l) && Anchored(c, r) && TermsUpTo(l, u) && TermsUpTo(r, v)
    requires TermStarts(l, t, i) && TermStarts(r, t, k)
    ensures i == k
  {
    assert AnchoredAt(c, l, i) && AnchoredAt(c, r, k);
  }
}
