/** What Rebalance computes, as a function of the shard assignment and the set of groups. */
module ShardBalance {
  import opened Sums
  import opened ShardLoads

  /** analyze() starts its search for the least loaded group from this load. */
  const SENTINEL: nat := 257

  ghost predicate IsMost(s: seq<int>, S: set<int>, g: int) {
    g in S && forall x :: x in S ==> Count(s, x) <= Count(s, g) && (Count(s, x) == Count(s, g) ==> g <= x)
  }

  ghost predicate IsLeast(s: seq<int>, S: set<int>, g: int) {
    g in S && forall x :: x in S ==> Count(s, x) >= Count(s, g) && (Count(s, x) == Count(s, g) ==> g <= x)
  }

  lemma {:induction false} ExtremesExist(s: seq<int>, S: set<int>) returns (m: int, l: int)
    requires S != {}
    ensures IsMost(s, S, m) && IsLeast(s, S, l)
    decreases S
  {
    var x := Pick(S);
    if S == {x} {
      m, l := x, x;
    } else {
      m, l := ExtremesExist(s, S - {x});
      if Count(s, x) > Count(s, m) || (Count(s, x) == Count(s, m) && x < m) { m := x; }
      if Count(s, x) < Count(s, l) || (Count(s, x) == Count(s, l) && x < l) { l := x; }
    }
  }

  lemma MostExists(s: seq<int>, S: set<int>)
    requires S != {}
    ensures exists g :: IsMost(s, S, g)
  {
    var m, l := ExtremesExist(s, S);
  }

  lemma LeastExists(s: seq<int>, S: set<int>)
    requires S != {}
    ensures exists g :: IsLeast(s, S, g)
  {
    var m, l := ExtremesExist(s, S);
  }

  /** The group with the most shards, the smallest gid among equals. */
  ghost function Most(s: seq<int>, S: set<int>): (g: int)
    requires S != {}
    ensures IsMost(s, S, g)
  {
    MostExists(s, S);
    var x :| IsMost(s, S, x); x
  }

  ghost function Least(s: seq<int>, S: set<int>): (g: int)
    requires S != {}
    ensures IsLeast(s, S, g)
  {
    LeastExists(s, S);
    var x :| IsLeast(s, S, x); x
  }

  /** The least loaded group as analyze() finds it: none when everyone reaches the sentinel. */
  ghost function LeastFound(s: seq<int>, S: set<int>): int {
    if S != {} && Count(s, Least(s, S)) < SENTINEL then Least(s, S) else -1
  }

  /** Few enough shards that somebody always stays below the sentinel. */
  predicate Roomy(s: seq<int>, S: set<int>) { |s| <= SENTINEL * |S| }

  predicate OnMembers(s: seq<int>, S: set<int>) {
    forall i :: 0 <= i < |s| ==> s[i] in S
  }

  /** Loads of members differ by at most one. */
  ghost predicate Balanced(s: seq<int>, S: set<int>) {
    forall x, y :: x in S && y in S ==> Count(s, x) <= Count(s, y) + 1
  }

  // ---------------------------------------------------------------- the two loops

  /** Shards whose group is gone go to the least loaded group, one after the other. */
  ghost function Fill(s: seq<int>, S: set<int>, i: nat): (r: seq<int>)
    requires i <= |s|
    ensures |r| == |s|
    decreases |s| - i
  {
    if i == |s| then s
    else if s[i] in S then Fill(s, S, i + 1)
    else Fill(s[i := LeastFound(s, S)], S, i + 1)
  }

  function First(s: seq<int>, g: int): (i: nat)
    requires g in s
    ensures i < |s| && s[i] == g && g !in s[..i]
  {
    if s[0] == g then 0 else 1 + First(s[1..], g)
  }

  /** One shard at a time from the most to the least loaded, until they are at most one apart. */
  ghost function Level(s: seq<int>, S: set<int>): (r: seq<int>)
    requires S != {} && OnMembers(s, S)
    decreases Sum(Squares(s), S)
  {
    var m, l := Most(s, S), Least(s, S);
    if Count(s, m) < Count(s, l) + 2 then s
    else
      CountBound(s, m);
      var i := First(s, m);
      SquaresDrop(s, S, i, l);
      Level(s[i := l], S)
  }

  ghost function Rebalanced(s: seq<int>, S: set<int>): (r: seq<int>)
    requires S != {} ==> Roomy(s, S)
  {
    if S == {} then seq(|s|, _ => 0)
    else
      FillMembers(s, S, 0);
      Level(Fill(s, S, 0), S)
  }

  /** While a shard is unassigned, analyze() finds a least loaded group. */
  lemma FindsLeast(s: seq<int>, S: set<int>, i: nat)
    requires S != {} && Roomy(s, S) && i < |s| && s[i] !in S
    ensures LeastFound(s, S) == Least(s, S)
  {
    if Count(s, Least(s, S)) >= SENTINEL {
      AtLeastFull(s, S);
      LoadsAtMost(s, S);
    }
  }

  lemma AtLeastFull(s: seq<int>, S: set<int>)
    requires forall g :: g in S ==> Count(s, g) >= SENTINEL
    ensures Sum(Loads(s), S) >= SENTINEL * |S|
  {
    forall g | g in S
      ensures SENTINEL <= Loads(s)(g) <= |s|
    {
      CountBound(s, g);
    }
    SumBetween(Loads(s), S, SENTINEL, if |s| < SENTINEL then SENTINEL else |s|);
  }

  /** When analyze() misses the least loaded group, all loads are equal anyway. */
  lemma FullIsLevel(s: seq<int>, S: set<int>)
    requires S != {} && Roomy(s, S) && OnMembers(s, S) && Count(s, Least(s, S)) >= SENTINEL
    ensures Count(s, Most(s, S)) == SENTINEL
  {
    var m := Most(s, S);
    LoadsAddUp(s, S);
    SumTake(Loads(s), S, m);
    AtLeastFull(s, S - {m});
    assert |S| == |S - {m}| + 1;
  }

  /** Filling puts every shard on a member and touches no shard that was on one. */
  lemma {:induction false} FillMembers(s: seq<int>, S: set<int>, i: nat)
    requires S != {} && i <= |s| && Roomy(s, S) && forall j :: 0 <= j < i ==> s[j] in S
    ensures OnMembers(Fill(s, S, i), S)
    ensures forall j :: 0 <= j < |s| && s[j] in S ==> Fill(s, S, i)[j] == s[j]
    decreases |s| - i
  {
    if i < |s| {
      if s[i] !in S { FindsLeast(s, S, i); }
      FillMembers(if s[i] in S then s else s[i := LeastFound(s, S)], S, i + 1);
    }
  }

  /** Adding to the least loaded keeps balanced loads balanced. */
  lemma {:induction false} FillBalanced(s: seq<int>, S: set<int>, i: nat)
    requires S != {} && i <= |s| && Roomy(s, S) && Balanced(s, S)
    ensures Balanced(Fill(s, S, i), S)
    decreases |s| - i
  {
    if i < |s| {
      if s[i] in S {
        FillBalanced(s, S, i + 1);
      } else {
        var l := Least(s, S);
        FindsLeast(s, S, i);
        var t := s[i := l];
        forall x | x in S
          ensures Count(t, x) == Count(s, x) + (if x == l then 1 else 0)
        {
          CountUpdate(s, i, l, x);
        }
        FillBalanced(t, S, i + 1);
      }
    }
  }

  // ---------------------------------------------------------------- what the second loop keeps

  predicate Went(s0: seq<int>, s: seq<int>, i: nat) {
    i < |s0| && i < |s| && s[i] != s0[i]
  }

  /** Shard i left a group of S. */
  predicate Gave(s0: seq<int>, s: seq<int>, S: set<int>, i: nat) {
    Went(s0, s, i) && s0[i] in S
  }

  /** A group that gave shards away is among the most loaded, one that got some among the least. */
  ghost predicate GaveOrGot(s0: seq<int>, s: seq<int>, S: set<int>) {
    && (forall i: nat, x :: Gave(s0, s, S, i) && x in S ==> Count(s, x) <= Count(s, s0[i]) + 1)
    && (forall i: nat, x :: Went(s0, s, i) && x in S ==> Count(s, s[i]) <= Count(s, x) + 1)
  }

  /** No group does both, and givers keep at least what getters reach. */
  ghost predicate Apart(s0: seq<int>, s: seq<int>, S: set<int>) {
    forall i: nat, j: nat :: Gave(s0, s, S, i) && Went(s0, s, j) ==>
      Count(s, s[j]) <= Count(s, s0[i]) && s0[i] != s[j]
  }

  /** Groups give only to groups that started with at least two fewer. */
  ghost predicate Needed(s0: seq<int>, s: seq<int>, S: set<int>) {
    forall i: nat :: Gave(s0, s, S, i) ==> Count(s0, s0[i]) >= Count(s0, s[i]) + 2
  }

  /** s comes from s0, whose shards need not be on members, by moves that were called for. */
  ghost predicate Fair(s0: seq<int>, s: seq<int>, S: set<int>) {
    && |s| == |s0| && OnMembers(s, S)
    && GaveOrGot(s0, s, S) && Apart(s0, s, S) && Needed(s0, s, S)
  }

  /** Shards that left g, and shards that came to g. */
  function Left(s0: seq<int>, s: seq<int>, g: int): nat
    requires |s| == |s0|
  {
    if s == [] then 0
    else var n := |s| - 1; Left(s0[..n], s[..n], g) + (if s0[n] == g && s[n] != g then 1 else 0)
  }

  lemma {:induction false} LeftBalance(s0: seq<int>, s: seq<int>, g: int)
    requires |s| == |s0|
    ensures Count(s, g) == Count(s0, g) - Left(s0, s, g) + Left(s, s0, g)
    ensures Left(s0, s, g) > 0 <==> exists i: nat :: Went(s0, s, i) && s0[i] == g
  {
    if s != [] {
      var n := |s| - 1;
      LeftBalance(s0[..n], s[..n], g);
      if Left(s0[..n], s[..n], g) > 0 {
        var i: nat :| Went(s0[..n], s[..n], i) && s0[..n][i] == g;
        assert Went(s0, s, i);
      }
      if i: nat :| Went(s0, s, i) && s0[i] == g {
        if i < n { assert Went(s0[..n], s[..n], i) && s0[..n][i] == g; }
      }
      if s0[n] == g && s[n] != g { assert Went(s0, s, n); }
    }
  }

  /** The next step of the loop, from m to l: m has got nothing so far and l has given nothing. */
  ghost predicate NextMove(s0: seq<int>, s: seq<int>, S: set<int>, i: nat, m: int, l: int) {
    && i < |s| && s[i] == m && IsMost(s, S, m) && IsLeast(s, S, l) && Count(s, m) >= Count(s, l) + 2
    && !Went(s0, s, i) && m in S && l in S
    && forall j: nat :: Went(s0, s, j) ==> s0[j] != l && s[j] != m
  }

  lemma MoveIsNext(s0: seq<int>, s: seq<int>, S: set<int>, i: nat, m: int, l: int)
    requires Fair(s0, s, S) && IsMost(s, S, m) && IsLeast(s, S, l) && Count(s, m) >= Count(s, l) + 2
    requires i < |s| && s[i] == m
    ensures NextMove(s0, s, S, i, m, l)
  {
    forall j: nat | Went(s0, s, j)
      ensures s0[j] != l && s[j] != m
    {
      assert Gave(s0, s, S, j) ==> Count(s, m) <= Count(s, s0[j]) + 1;
      assert Count(s, s[j]) <= Count(s, l) + 1;
    }
  }

  ghost predicate OneMoved(s: seq<int>, t: seq<int>, i: nat, m: int, l: int) {
    && i < |s| && s[i] == m && t == s[i := l]
    && forall x :: Count(t, x) == Count(s, x) - (if m == x then 1 else 0) + (if l == x then 1 else 0)
  }

  lemma MoveGaveOrGot(s0: seq<int>, s: seq<int>, t: seq<int>, S: set<int>, i: nat, m: int, l: int)
    requires |s0| == |s| && GaveOrGot(s0, s, S) && NextMove(s0, s, S, i, m, l) && OneMoved(s, t, i, m, l)
    ensures GaveOrGot(s0, t, S)
  {
    forall j: nat, x | Went(s0, t, j) && x in S
      ensures Gave(s0, t, S, j) ==> Count(t, x) <= Count(t, s0[j]) + 1
      ensures Count(t, t[j]) <= Count(t, x) + 1
    {
      assert j != i ==> Went(s0, s, j) && (Gave(s0, t, S, j) ==> Gave(s0, s, S, j));
    }
  }

  lemma MoveApart(s0: seq<int>, s: seq<int>, t: seq<int>, S: set<int>, i: nat, m: int, l: int)
    requires |s0| == |s| && OnMembers(s, S)
    requires GaveOrGot(s0, s, S) && Apart(s0, s, S) && NextMove(s0, s, S, i, m, l) && OneMoved(s, t, i, m, l)
    ensures Apart(s0, t, S)
  {
    forall j: nat, z: nat | Gave(s0, t, S, j) && Went(s0, t, z)
      ensures Count(t, t[z]) <= Count(t, s0[j]) && s0[j] != t[z]
    {
      assert j != i ==> Gave(s0, s, S, j);
      assert z != i ==> Went(s0, s, z);
    }
  }

  lemma MoveNeeded(s0: seq<int>, s: seq<int>, t: seq<int>, S: set<int>, i: nat, m: int, l: int)
    requires |s0| == |s| && Needed(s0, s, S) && NextMove(s0, s, S, i, m, l) && OneMoved(s, t, i, m, l)
    ensures Needed(s0, t, S)
  {
    LeftBalance(s0, s, m);
    LeftBalance(s, s0, m);
    LeftBalance(s0, s, l);
    LeftBalance(s, s0, l);
    forall j: nat | Went(s, s0, j)
      ensures s[j] != m
    {
      assert Went(s0, s, j);
    }
    forall j: nat | Gave(s0, t, S, j)
      ensures Count(s0, s0[j]) >= Count(s0, t[j]) + 2
    {
      assert j != i ==> Gave(s0, s, S, j);
    }
  }

  lemma LevelStep(s0: seq<int>, s: seq<int>, S: set<int>, i: nat, m: int, l: int)
    requires Fair(s0, s, S) && IsMost(s, S, m) && IsLeast(s, S, l) && Count(s, m) >= Count(s, l) + 2
    requires i < |s| && s[i] == m
    ensures Fair(s0, s[i := l], S)
  {
    var t := s[i := l];
    MoveIsNext(s0, s, S, i, m, l);
    forall x
      ensures Count(t, x) == Count(s, x) - (if m == x then 1 else 0) + (if l == x then 1 else 0)
    {
      CountUpdate(s, i, l, x);
    }
    MoveGaveOrGot(s0, s, t, S, i, m, l);
    MoveApart(s0, s, t, S, i, m, l);
    MoveNeeded(s0, s, t, S, i, m, l);
  }

  lemma {:induction false} LevelFair(s0: seq<int>, s: seq<int>, S: set<int>)
    requires S != {} && Fair(s0, s, S)
    ensures Fair(s0, Level(s, S), S) && Balanced(Level(s, S), S)
    decreases Sum(Squares(s), S)
  {
    var m, l := Most(s, S), Least(s, S);
    if Count(s, m) >= Count(s, l) + 2 {
      CountBound(s, m);
      var i := First(s, m);
      SquaresDrop(s, S, i, l);
      LevelStep(s0, s, S, i, m, l);
      LevelFair(s0, s[i := l], S);
    }
  }

  // ---------------------------------------------------------------- theorems

  /** With no groups every shard becomes unassigned. */
  lemma NoGroupsUnassign(s: seq<int>)
    ensures |Rebalanced(s, {})| == |s| && forall i :: 0 <= i < |s| ==> Rebalanced(s, {})[i] == 0
  {
  }

  /**
   The first loop, shard by shard: a shard on a member stays; any other goes to the group that is
   least loaded when all shards before it are placed and none after it.
   */
  lemma {:induction false} FillPlaces(s: seq<int>, S: set<int>, k: nat, i: nat)
    requires k <= i < |s|
    ensures var f := Fill(s, S, k);
            && f[..k] == s[..k]
            && f[i] == if s[i] in S then s[i] else LeastFound(f[..i] + s[i..], S)
    decreases |s| - k
  {
    var t := if s[k] in S then s else s[k := LeastFound(s, S)];
    if i == k {
      FillKeeps(t, S, k + 1);
      assert Fill(s, S, k)[..k] == s[..k] && s[..k] + s[k..] == s;
    } else {
      FillPlaces(t, S, k + 1, i);
      var f := Fill(t, S, k + 1);
      assert f[..k + 1][..k] == f[..k] && t[..k + 1][..k] == s[..k];
      assert t[i..] == s[i..];
    }
  }

  lemma {:induction false} FillKeeps(s: seq<int>, S: set<int>, k: nat)
    requires k <= |s|
    ensures Fill(s, S, k)[..k] == s[..k]
    decreases |s| - k
  {
    if k < |s| {
      var t := if s[k] in S then s else s[k := LeastFound(s, S)];
      FillKeeps(t, S, k + 1);
      assert Fill(t, S, k + 1)[..k + 1][..k] == t[..k + 1][..k] == s[..k];
    }
  }

  /** Groups give their shards in order: whatever comes before a shard that left its group has left it too. */
  ghost predicate InOrder(s0: seq<int>, s: seq<int>) {
    forall i: nat, j: nat :: Went(s0, s, i) && j < i && s0[j] == s0[i] ==> Went(s0, s, j)
  }

  lemma {:induction false} LevelInOrder(s0: seq<int>, s: seq<int>, S: set<int>)
    requires S != {} && Fair(s0, s, S) && InOrder(s0, s)
    ensures InOrder(s0, Level(s, S))
    decreases Sum(Squares(s), S)
  {
    var m, l := Most(s, S), Least(s, S);
    if Count(s, m) >= Count(s, l) + 2 {
      CountBound(s, m);
      var i := First(s, m);
      SquaresDrop(s, S, i, l);
      MoveIsNext(s0, s, S, i, m, l);
      LevelStep(s0, s, S, i, m, l);
      var t := s[i := l];
      forall a: nat, b: nat | Went(s0, t, a) && b < a && s0[b] == s0[a]
        ensures Went(s0, t, b)
      {
        if a == i { assert s[b] == s[..i][b]; } else { assert Went(s0, s, a) && Went(s0, s, b); }
      }
      LevelInOrder(s0, t, S);
    }
  }

  /** The second loop takes a group's lowest-numbered shards first. */
  lemma LevelTakesFirst(s: seq<int>, S: set<int>)
    requires S != {} && OnMembers(s, S)
    ensures |Level(s, S)| == |s| && InOrder(s, Level(s, S))
  {
    LevelFair(s, s, S);
    LevelInOrder(s, s, S);
  }

  /** Every shard on a member, loads at most one apart, from any assignment whatever. */
  lemma RebalanceBalances(s: seq<int>, S: set<int>)
    requires S != {} && Roomy(s, S)
    ensures |Rebalanced(s, S)| == |s| && OnMembers(Rebalanced(s, S), S) && Balanced(Rebalanced(s, S), S)
  {
    FillMembers(s, S, 0);
    var f := Fill(s, S, 0);
    LevelFair(f, f, S);
  }

  /** Nothing to level when loads are balanced. */
  lemma LevelStays(s: seq<int>, S: set<int>)
    requires S != {} && OnMembers(s, S) && Balanced(s, S)
    ensures Level(s, S) == s
  {
  }

  lemma {:induction false} FillStays(s: seq<int>, S: set<int>, i: nat)
    requires i <= |s| && OnMembers(s, S)
    ensures Fill(s, S, i) == s
    decreases |s| - i
  {
    if i < |s| { FillStays(s, S, i + 1); }
  }

  /** Groups leaving a balanced config: exactly the shards they had move. */
  lemma LeaveMovesOnlyIts(s: seq<int>, S: set<int>, gone: set<int>, i: nat)
    requires S - gone != {} && Roomy(s, S - gone) && OnMembers(s, S) && Balanced(s, S) && i < |s|
    ensures var r := Rebalanced(s, S - gone); |r| == |s| && (r[i] != s[i] <==> s[i] in gone)
  {
    FillMembers(s, S - gone, 0);
    FillBalanced(s, S - gone, 0);
    LevelStays(Fill(s, S - gone, 0), S - gone);
  }

  /** How many shards differ. */
  function Changed(s0: seq<int>, s: seq<int>): nat
    requires |s| == |s0|
  {
    if s == [] then 0 else var n := |s| - 1; Changed(s0[..n], s[..n]) + (if s[n] != s0[n] then 1 else 0)
  }

  lemma {:induction false} ChangedIsLoad(s0: seq<int>, s: seq<int>, h: int)
    requires |s| == |s0| && forall i: nat :: i < |s| ==> s0[i] != h && (s[i] == s0[i] || s[i] == h)
    ensures Changed(s0, s) == Count(s, h)
  {
    if s != [] { ChangedIsLoad(s0[..|s| - 1], s[..|s| - 1], h); }
  }

  /** Shards of balanced groups go to nobody but the newcomer. */
  lemma OnlyToNewcomer(s: seq<int>, r: seq<int>, S: set<int>, h: int)
    requires h !in S && OnMembers(s, S) && Balanced(s, S) && Fair(s, r, S + {h})
    ensures forall i: nat :: Went(s, r, i) ==> r[i] == h
  {
    forall i: nat | Went(s, r, i)
      ensures r[i] == h
    {
      assert r[i] in S + {h} && Gave(s, r, S + {h}, i);
    }
  }

  lemma NewcomersShare(s: seq<int>, r: seq<int>, S: set<int>, h: int)
    requires h !in S && OnMembers(s, S) && Balanced(s, S)
    requires Fair(s, r, S + {h}) && Balanced(r, S + {h}) && forall i: nat :: Went(s, r, i) ==> r[i] == h
    ensures Changed(s, r) == |s| / (|S| + 1)
  {
    ChangedIsLoad(s, r, h);
    NewcomerIsLeast(s, r, S, h);
    SmallestIsQuotient(r, S + {h}, h);
  }

  /** One group joining a balanced config of k groups: n div (k + 1) shards move, all to it. */
  lemma JoinMovesItsShare(s: seq<int>, S: set<int>, h: int)
    requires S != {} && h !in S && Roomy(s, S + {h}) && OnMembers(s, S) && Balanced(s, S)
    ensures var r := Rebalanced(s, S + {h});
            && |r| == |s| && Changed(s, r) == |s| / (|S| + 1)
            && forall i: nat :: Went(s, r, i) ==> r[i] == h
  {
    FillStays(s, S + {h}, 0);
    LevelFair(s, s, S + {h});
    OnlyToNewcomer(s, Level(s, S + {h}), S, h);
    NewcomersShare(s, Level(s, S + {h}), S, h);
  }

  lemma NewcomerIsLeast(s: seq<int>, r: seq<int>, S: set<int>, h: int)
    requires h !in S && OnMembers(s, S) && Balanced(s, S)
    requires Fair(s, r, S + {h}) && Balanced(r, S + {h})
    requires forall i: nat :: Went(s, r, i) ==> r[i] == h
    ensures forall x :: x in S + {h} ==> Count(r, h) <= Count(r, x)
  {
    CountBound(r, h);
    CountBound(s, h);
    if Count(r, h) > 0 {
      var i: nat :| i < |r| && r[i] == h;
      assert Gave(s, r, S + {h}, i);
      var d := s[i];
      LeftBalance(s, r, d);
      LeftBalance(r, s, d);
      forall x | x in S
        ensures Count(r, h) <= Count(r, x)
      {
        LeftBalance(s, r, x);
        LeftBalance(r, s, x);
      }
    }
  }

  // ---------------------------------------------------------------- nobody can do with fewer moves

  function Over(a: nat, b: nat): nat { if a > b then a - b else 0 }

  /** By how much each group's load in s0 exceeds its load in s. */
  function Excess(s0: seq<int>, s: seq<int>): int -> nat { g => Over(Count(s0, g), Count(s, g)) }

  function Leavers(s0: seq<int>, s: seq<int>): int -> nat
    requires |s| == |s0|
  {
    g => Left(s0, s, g)
  }

  /** How many shards that were on groups of S differ. */
  function Taken(s0: seq<int>, s: seq<int>, S: set<int>): nat
    requires |s| == |s0|
  {
    if s == [] then 0
    else var n := |s| - 1; Taken(s0[..n], s[..n], S) + (if s[n] != s0[n] && s0[n] in S then 1 else 0)
  }

  lemma {:induction false} TakenIsChanged(s0: seq<int>, s: seq<int>, S: set<int>)
    requires |s| == |s0| && OnMembers(s0, S)
    ensures Taken(s0, s, S) == Changed(s0, s)
  {
    if s != [] { TakenIsChanged(s0[..|s| - 1], s[..|s| - 1], S); }
  }

  lemma {:induction false} TakenAddsUp(s0: seq<int>, s: seq<int>, S: set<int>)
    requires |s| == |s0|
    ensures Sum(Leavers(s0, s), S) == Taken(s0, s, S)
  {
    if s == [] {
      SumZero(Leavers(s0, s), S);
    } else {
      var n := |s| - 1;
      TakenAddsUp(s0[..n], s[..n], S);
      if s0[n] in S {
        SumTake(Leavers(s0, s), S, s0[n]);
        SumTake(Leavers(s0[..n], s[..n]), S, s0[n]);
        SumSame(Leavers(s0, s), Leavers(s0[..n], s[..n]), S - {s0[n]});
      } else {
        SumSame(Leavers(s0, s), Leavers(s0[..n], s[..n]), S);
      }
    }
  }

  /** What groups lose in total, others gain, along with the shards that were on no group. */
  lemma LossIsGain(s0: seq<int>, s: seq<int>, S: set<int>)
    requires |s| == |s0| && OnMembers(s, S)
    ensures Sum(Excess(s0, s), S) + |s| == Sum(Excess(s, s0), S) + Sum(Loads(s0), S)
  {
    LoadsAddUp(s, S);
    SumPlus(Excess(s0, s), Loads(s), Excess(s, s0), Loads(s0), S);
  }

  lemma GiversGetNothing(s0: seq<int>, s: seq<int>, S: set<int>, g: int)
    requires |s| == |s0| && Apart(s0, s, S) && g in S && Left(s0, s, g) > 0
    ensures Left(s, s0, g) == 0
  {
    LeftBalance(s0, s, g);
    LeftBalance(s, s0, g);
    var i: nat :| Went(s0, s, i) && s0[i] == g;
    assert Gave(s0, s, S, i);
    forall j: nat | Went(s, s0, j)
      ensures s[j] != g
    {
      assert Went(s0, s, j);
    }
  }

  /** Any assignment takes at least the excess from groups; one in which no group both gives and gets takes no more. */
  lemma TakenIsExcess(s0: seq<int>, s: seq<int>, S: set<int>)
    requires |s| == |s0|
    ensures Taken(s0, s, S) >= Sum(Excess(s0, s), S)
    ensures Apart(s0, s, S) ==> Taken(s0, s, S) == Sum(Excess(s0, s), S)
  {
    TakenAddsUp(s0, s, S);
    forall g | g in S
      ensures Leavers(s0, s)(g) >= Excess(s0, s)(g)
      ensures Apart(s0, s, S) ==> Leavers(s0, s)(g) == Excess(s0, s)(g)
    {
      LeftBalance(s0, s, g);
      LeftBalance(s, s0, g);
      if Apart(s0, s, S) && Left(s0, s, g) > 0 { GiversGetNothing(s0, s, S, g); }
    }
    SumLess(Excess(s0, s), Leavers(s0, s), S);
    if Apart(s0, s, S) { SumSame(Excess(s0, s), Leavers(s0, s), S); }
  }

  /** Loads of a balanced assignment are n div k or one more. */
  lemma BalancedLoads(s: seq<int>, S: set<int>)
    requires S != {} && OnMembers(s, S) && Balanced(s, S)
    ensures forall g :: g in S ==> |s| / |S| <= Count(s, g) <= |s| / |S| + 1
  {
    SmallestIsQuotient(s, S, Least(s, S));
  }

  lemma FairIsLeast(s0: seq<int>, r: seq<int>, t: seq<int>, S: set<int>, q: nat)
    requires Fair(s0, r, S) && |t| == |s0| && OnMembers(t, S)
    requires forall g :: g in S ==> q <= Count(r, g) <= q + 1 && q <= Count(t, g) <= q + 1
    ensures Sum(Excess(s0, r), S) <= Sum(Excess(s0, t), S)
  {
    if j: nat :| Went(s0, r, j) && Count(r, r[j]) == q + 1 {
      forall g | g in S
        ensures Excess(s0, r)(g) <= Excess(s0, t)(g)
      {
        LeftBalance(s0, r, g);
        if Left(s0, r, g) > 0 {
          var i: nat :| Went(s0, r, i) && s0[i] == g;
          assert Gave(s0, r, S, i);
        }
      }
      SumLess(Excess(s0, r), Excess(s0, t), S);
    } else {
      forall g | g in S
        ensures Excess(r, s0)(g) <= Excess(t, s0)(g)
      {
        LeftBalance(s0, r, g);
        LeftBalance(r, s0, g);
        forall i: nat | Went(r, s0, i) && r[i] == g
          ensures Count(r, g) == q
        {
          assert Went(s0, r, i);
        }
      }
      SumLess(Excess(r, s0), Excess(t, s0), S);
      LossIsGain(s0, r, S);
      LossIsGain(s0, t, S);
    }
  }

  lemma FairTakesLeast(s0: seq<int>, r: seq<int>, t: seq<int>, S: set<int>)
    requires S != {} && Fair(s0, r, S) && Balanced(r, S) && |t| == |s0| && OnMembers(t, S) && Balanced(t, S)
    ensures Taken(s0, r, S) <= Taken(s0, t, S)
  {
    BalancedLoads(r, S);
    BalancedLoads(t, S);
    FairIsLeast(s0, r, t, S, |s0| / |S|);
    TakenIsExcess(s0, r, S);
    TakenIsExcess(s0, t, S);
  }

  /** No balanced assignment to the same groups differs in fewer shards than the one the second loop reaches. */
  lemma LevelMovesLeast(s0: seq<int>, t: seq<int>, S: set<int>)
    requires S != {} && |t| == |s0| && OnMembers(s0, S) && OnMembers(t, S) && Balanced(t, S)
    ensures |Level(s0, S)| == |s0| && Changed(s0, Level(s0, S)) <= Changed(s0, t)
  {
    LevelFair(s0, s0, S);
    FairTakesLeast(s0, Level(s0, S), t, S);
    TakenIsChanged(s0, Level(s0, S), S);
    TakenIsChanged(s0, t, S);
  }

  /** The first loop up to shard i: members' shards where they were, the others on groups among the least loaded. */
  ghost predicate FilledTo(s0: seq<int>, s: seq<int>, S: set<int>, i: nat) {
    && |s| == |s0| && (forall j: nat :: Went(s0, s, j) ==> j < i && s0[j] !in S)
    && (forall j: nat, x :: Went(s0, s, j) && x in S ==> Count(s, s[j]) <= Count(s, x) + 1)
  }

  lemma FillOne(s0: seq<int>, s: seq<int>, S: set<int>, i: nat)
    requires S != {} && FilledTo(s0, s, S, i) && i < |s| && s[i] !in S
    ensures FilledTo(s0, s[i := Least(s, S)], S, i + 1)
  {
    var l := Least(s, S);
    var t := s[i := l];
    forall x | x in S
      ensures Count(t, x) == Count(s, x) + (if x == l then 1 else 0)
    {
      CountUpdate(s, i, l, x);
    }
    forall j: nat, x | Went(s0, t, j) && x in S
      ensures Count(t, t[j]) <= Count(t, x) + 1
    {
      CountUpdate(s, i, l, t[j]);
      assert j != i ==> Went(s0, s, j);
    }
  }

  lemma {:induction false} FillFair(s0: seq<int>, s: seq<int>, S: set<int>, i: nat)
    requires S != {} && i <= |s| && Roomy(s, S) && FilledTo(s0, s, S, i)
    ensures FilledTo(s0, Fill(s, S, i), S, |s|)
    decreases |s| - i
  {
    if i < |s| {
      if s[i] in S {
        FillFair(s0, s, S, i + 1);
      } else {
        FindsLeast(s, S, i);
        FillOne(s0, s, S, i);
        FillFair(s0, s[i := Least(s, S)], S, i + 1);
      }
    }
  }

  /** From any assignment whatever: no balanced one takes fewer shards away from groups that stay than Rebalance does. */
  lemma RebalanceTakesLeast(s: seq<int>, t: seq<int>, S: set<int>)
    requires S != {} && Roomy(s, S) && |t| == |s| && OnMembers(t, S) && Balanced(t, S)
    ensures |Rebalanced(s, S)| == |s| && Taken(s, Rebalanced(s, S), S) <= Taken(s, t, S)
  {
    FillFair(s, s, S, 0);
    FillMembers(s, S, 0);
    var f := Fill(s, S, 0);
    LevelFair(s, f, S);
    FairTakesLeast(s, Level(f, S), t, S);
  }

  // ---------------------------------------------------------------- the range of the sentinel

  /** Every group of S with exactly 257 shards. */
  ghost function Blocks(S: set<int>): seq<int> {
    if S == {} then [] else seq(SENTINEL, _ => Pick(S)) + Blocks(S - {Pick(S)})
  }

  lemma {:induction false} BlocksFull(S: set<int>, g: int)
    ensures |Blocks(S)| == SENTINEL * |S| && Count(Blocks(S), g) == (if g in S then SENTINEL else 0)
    ensures OnMembers(Blocks(S), S)
  {
    if S != {} {
      var x := Pick(S);
      BlocksFull(S - {x}, g);
      assert |S| == |S - {x}| + 1;
      CountAppend(seq(SENTINEL, _ => x), Blocks(S - {x}), g);
      CountSame(SENTINEL, x, g);
    }
  }

  lemma {:induction false} FillSkips(s: seq<int>, S: set<int>, i: nat, k: nat)
    requires i <= k <= |s| && forall j :: i <= j < k ==> s[j] in S
    ensures Fill(s, S, i) == Fill(s, S, k)
    decreases k - i
  {
    if i < k { FillSkips(s, S, i + 1, k); }
  }

  lemma {:induction false} FillKeepsBelow(s: seq<int>, S: set<int>, i: nat, k: nat)
    requires k < i <= |s|
    ensures Fill(s, S, i)[k] == s[k]
    decreases |s| - i
  {
    if i < |s| {
      FillKeepsBelow(if s[i] in S then s else s[i := LeastFound(s, S)], S, i + 1, k);
    }
  }

  /** All groups full and one shard more: that shard ends on no group. */
  lemma Overflow(S: set<int>, n: nat) returns (s: seq<int>)
    requires S != {} && -1 !in S && n > SENTINEL * |S|
    ensures |s| == n && !OnMembers(Fill(s, S, 0), S)
  {
    var k := SENTINEL * |S|;
    BlocksFull(S, -1);
    s := Blocks(S) + seq(n - k, _ => -1);
    forall g | g in S
      ensures Count(s, g) == SENTINEL
    {
      BlocksFull(S, g);
      CountAppend(Blocks(S), seq(n - k, _ => -1), g);
      CountSame(n - k, -1, g);
    }
    assert s[k] == -1 && s[k := -1] == s;
    FillSkips(s, S, 0, k);
    FillKeepsBelow(s, S, k + 1, k);
  }

  /** Every assignment of n shards is repaired if and only if n is at most 257 for each group. */
  lemma RepairedExactly(S: set<int>, n: nat)
    requires S != {} && -1 !in S
    ensures (forall s :: |s| == n ==> OnMembers(Fill(s, S, 0), S)) <==> n <= SENTINEL * |S|
  {
    if n <= SENTINEL * |S| {
      forall s: seq<int> | |s| == n
        ensures OnMembers(Fill(s, S, 0), S)
      {
        FillMembers(s, S, 0);
      }
    } else {
      var s := Overflow(S, n);
    }
  }
}
