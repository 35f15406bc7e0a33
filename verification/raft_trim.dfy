/**
 Trimming is invisible: a peer that snapshots at any moments answers votes and appends exactly as
 a peer that never does, as long as no append reaches below its snapshot.
 */
module RaftTrim {
  import opened Kv
  import opened RaftCore
  import opened RaftPeer
  import opened RaftRules
  import opened RaftClass

  datatype Event =
    | Vote(va: VoteArgs)
    | Append(aa: AppendArgs)
    | Cut(index: nat, data: Table)

  datatype Verdict = Voted(r: VoteReply) | Appended(term: nat, success: bool)

  /** Equal but for how much of the log is kept and for what is on disk. */
  predicate Twins(n: Node, m: Node) {
    n == m.(snapIndex := n.snapIndex, snapshot := n.snapshot, disk := n.disk)
  }

  /** No append reaches below the snapshot, no snapshot reaches beyond the log. */
  predicate Fits(n: Node, es: seq<Event>)
    requires Kept(n)
    decreases |es|
  {
    es == [] ||
    match es[0]
    case Vote(a) => Fits(OnRequestVote(n, a).0, es[1..])
    case Append(a) => n.snapIndex <= a.prevIndex && Fits(OnAppendEntries(n, a).0, es[1..])
    case Cut(index, data) => index < |n.log| && Fits(TakeSnapshot(n, index, data), es[1..])
  }

  /** The peer after the events, and what it answered; `cuts` says whether it takes its snapshots. */
  function Answers(n: Node, es: seq<Event>, cuts: bool): (Node, seq<Verdict>)
    requires Kept(n) && (cuts ==> Fits(n, es))
    decreases |es|
  {
    if es == [] then (n, [])
    else match es[0]
      case Vote(a) =>
        var (m, r) := OnRequestVote(n, a);
        var (k, rest) := Answers(m, es[1..], cuts);
        (k, [Voted(r)] + rest)
      case Append(a) =>
        var (m, r) := OnAppendEntries(n, a);
        var (k, rest) := Answers(m, es[1..], cuts);
        (k, [Appended(r.term, r.success)] + rest)
      case Cut(index, data) =>
        if cuts then Answers(TakeSnapshot(n, index, data), es[1..], cuts)
        else Answers(n, es[1..], cuts)
  }

  lemma AppendTwins(n: Node, m: Node, a: AppendArgs)
    requires Kept(n) && Kept(m) && Twins(n, m) && m.snapIndex <= n.snapIndex <= a.prevIndex
    ensures var ((n', r), (m', q)) := (OnAppendEntries(n, a), OnAppendEntries(m, a));
            && Twins(n', m') && r.term == q.term && r.success == q.success
            && n'.snapIndex == n.snapIndex && m'.snapIndex == m.snapIndex
  {
  }

  /** The same answers, log, commit index, term and vote, whatever was trimmed along the way. */
  lemma {:induction false} TrimmingIsInvisible(n: Node, m: Node, es: seq<Event>)
    requires Kept(n) && Kept(m) && Twins(n, m) && m.snapIndex <= n.snapIndex && Fits(n, es)
    ensures var ((n', r), (m', q)) := (Answers(n, es, true), Answers(m, es, false));
            Twins(n', m') && r == q && Kept(n') && m'.snapIndex == m.snapIndex <= n'.snapIndex
    decreases |es|
  {
    if es != [] {
      match es[0]
      case Vote(a) => TrimmingIsInvisible(OnRequestVote(n, a).0, OnRequestVote(m, a).0, es[1..]);
      case Append(a) =>
        AppendTwins(n, m, a);
        TrimmingIsInvisible(OnAppendEntries(n, a).0, OnAppendEntries(m, a).0, es[1..]);
      case Cut(index, data) => TrimmingIsInvisible(TakeSnapshot(n, index, data), m, es[1..]);
    }
  }

  // ---------------------------------------------------------------- appends below the snapshot

  /** The verdicts of two peers that differ in what they keep. */
  ghost predicate SameVerdict(n: Node, m: Node, a: AppendArgs)
    requires Kept(n) && Kept(m)
  {
    OnAppendEntries(n, a).1.success == OnAppendEntries(m, a).1.success
  }

  /** Votes never tell the two apart, an append does if and only if it is current, reaches below the snapshot and matches there. */
  lemma TrimmingShowsExactly(n: Node, m: Node, a: AppendArgs)
    requires Kept(n) && Kept(m) && Twins(n, m) && m.snapIndex == 0
    ensures !SameVerdict(n, m, a) <==>
              a.term >= n.term && 0 <= a.prevIndex < n.snapIndex && m.log[a.prevIndex].term == a.prevTerm
    ensures !SameVerdict(n, m, a) ==> OnAppendEntries(m, a).1.success && OnAppendEntries(n, a).1.xLen == n.snapIndex + 1
  {
  }

  /** For every peer that has trimmed anything there is such an append: an empty one at index 0. */
  lemma TrimmingCanShow(n: Node, m: Node) returns (a: AppendArgs)
    requires Kept(n) && Kept(m) && Twins(n, m) && m.snapIndex == 0 < n.snapIndex
    ensures !SameVerdict(n, m, a)
  {
    a := AppendArgs(n.term, 0, 0, m.log[0].term, [], 0);
    TrimmingShowsExactly(n, m, a);
  }

  // ---------------------------------------------------------------- hints

  /**
   Both reject an append at or above the snapshot alike if and only if nothing is trimmed, the probe
   lies past the log, or the conflicting term begins above the first entry kept.
   */
  lemma HintsMatchExactly(n: Node, m: Node, a: AppendArgs)
    requires Kept(n) && Kept(m) && Twins(n, m) && m.snapIndex == 0
    requires a.term >= n.term && n.snapIndex <= a.prevIndex && !OnAppendEntries(n, a).1.success
    ensures !OnAppendEntries(m, a).1.success
    ensures OnAppendEntries(n, a).1 == OnAppendEntries(m, a).1 <==>
              || n.snapIndex == 0 || a.prevIndex >= |n.log|
              || !AllOf(n.log, n.snapIndex + 1, a.prevIndex, n.log[a.prevIndex].term)
  {
    HintRule(n, a);
    HintRule(m, a);
    if a.prevIndex < |n.log| && !AllOf(n.log, n.snapIndex + 1, a.prevIndex, n.log[a.prevIndex].term) {
      SameFirst(n.log, a.prevIndex, OnAppendEntries(n, a).1.xIndex, OnAppendEntries(m, a).1.xIndex, n.snapIndex);
    }
  }

  /** The first index of a run of equal terms is the same wherever one starts looking below it. */
  lemma SameFirst(l: Log, prev: int, x: int, y: int, floor: nat)
    requires floor + 1 < x <= prev < |l| && AllOf(l, x, prev, l[prev].term) && l[x - 1].term != l[prev].term
    requires 1 < y <= prev && AllOf(l, y, prev, l[prev].term) && l[y - 1].term != l[prev].term
    ensures x == y
  {
  }

  // ---------------------------------------------------------------- on the objects

  /** The object on the trimmed log and the object that never trimmed answer an append at or above the snapshot alike. */
  method AppendToBoth(r: Raft, u: Raft, a: AppendArgs) returns (p: AppendReply, q: AppendReply)
    requires r != u && r.Valid() && u.Valid() && Twins(r.View(), u.View())
    requires u.snapshotIndex <= r.snapshotIndex <= a.prevIndex
    modifies r, u
    ensures r.Valid() && u.Valid() && Twins(r.View(), u.View())
    ensures p.term == q.term && p.success == q.success
  {
    AppendTwins(r.View(), u.View(), a);
    p := r.AppendEntries(a);
    q := u.AppendEntries(a);
  }
}
