/** How many shards each group carries. */
module ShardLoads {
  import opened Sums

  /** The number of shards on group g. */
  function Count(s: seq<int>, g: int): nat {
    if s == [] then 0 else Count(s[..|s| - 1], g) + (if s[|s| - 1] == g then 1 else 0)
  }

  lemma {:induction false} CountUpdate(s: seq<int>, i: nat, x: int, g: int)
    requires i < |s|
    ensures Count(s[i := x], g) == Count(s, g) - (if s[i] == g then 1 else 0) + (if x == g then 1 else 0)
  {
    var n := |s| - 1;
    var t := s[i := x];
    if i < n {
      CountUpdate(s[..n], i, x, g);
      assert t[..n] == s[..n][i := x];
    } else {
      assert t[..n] == s[..n];
    }
  }

  lemma {:induction false} CountBound(s: seq<int>, g: int)
    ensures Count(s, g) <= |s|
    ensures Count(s, g) > 0 <==> g in s
  {
    if s != [] {
      var n := |s| - 1;
      CountBound(s[..n], g);
      assert s == s[..n] + [s[n]];
    }
  }

  function Loads(s: seq<int>): int -> nat { g => Count(s, g) }

  function Squares(s: seq<int>): int -> nat { g => Count(s, g) * Count(s, g) }

  /** When every shard is on a member, the loads of the members add up to the number of shards. */
  lemma {:induction false} LoadsAddUp(s: seq<int>, S: set<int>)
    requires forall i :: 0 <= i < |s| ==> s[i] in S
    ensures Sum(Loads(s), S) == |s|
  {
    if s == [] {
      SumZero(Loads(s), S);
    } else {
      var n := |s| - 1;
      LoadsAddUp(s[..n], S);
      SumTake(Loads(s), S, s[n]);
      SumTake(Loads(s[..n]), S, s[n]);
      SumSame(Loads(s), Loads(s[..n]), S - {s[n]});
    }
  }

  /** Shards on no member leave the loads of the members below the number of shards. */
  lemma {:induction false} LoadsAtMost(s: seq<int>, S: set<int>)
    ensures Sum(Loads(s), S) <= |s|
    ensures (exists i :: 0 <= i < |s| && s[i] !in S) ==> Sum(Loads(s), S) < |s|
  {
    if s == [] {
      SumZero(Loads(s), S);
    } else {
      var n := |s| - 1;
      LoadsAtMost(s[..n], S);
      if s[n] in S {
        SumTake(Loads(s), S, s[n]);
        SumTake(Loads(s[..n]), S, s[n]);
        SumSame(Loads(s), Loads(s[..n]), S - {s[n]});
        forall i | 0 <= i < |s| && s[i] !in S
          ensures s[..n][i] !in S
        {
        }
      } else {
        SumSame(Loads(s), Loads(s[..n]), S);
      }
    }
  }

  lemma {:induction false} CountAppend(s: seq<int>, t: seq<int>, g: int)
    ensures Count(s + t, g) == Count(s, g) + Count(t, g)
  {
    if t == [] {
      assert s + t == s;
    } else {
      CountAppend(s, t[..|t| - 1], g);
      assert (s + t)[..|s| + |t| - 1] == s + t[..|t| - 1];
    }
  }

  lemma {:induction false} CountSame(n: nat, x: int, g: int)
    ensures Count(seq(n, _ => x), g) == if g == x then n else 0
  {
    if n > 0 {
      CountSame(n - 1, x, g);
      assert seq(n, _ => x)[..n - 1] == seq(n - 1, _ => x);
    }
  }

  /** In a set of loads at most one above its smallest, the smallest is the average rounded down. */
  lemma SmallestIsQuotient(s: seq<int>, S: set<int>, g: int)
    requires g in S && forall i :: 0 <= i < |s| ==> s[i] in S
    requires forall x :: x in S ==> Count(s, g) <= Count(s, x) <= Count(s, g) + 1
    ensures Count(s, g) == |s| / |S|
  {
    var low := Count(s, g);
    var rest := S - {g};
    LoadsAddUp(s, S);
    SumTake(Loads(s), S, g);
    SumBetween(Loads(s), rest, low, low + 1);
    assert |S| == |rest| + 1;
    Averages(|s|, |rest|, low, Sum(Loads(s), rest));
  }

  lemma Averages(n: nat, k: nat, low: nat, rest: nat)
    requires n == low + rest && k * low <= rest <= k * (low + 1)
    ensures low == n / (k + 1)
  {
    assert k * (low + 1) == k * low + k;
    Distribute(k, low);
    Quotient(n, k + 1, low);
  }

  lemma Quotient(n: nat, k: nat, q: nat)
    requires k > 0 && k * q <= n < k * q + k
    ensures q == n / k
  {
    var r := n / k;
    assert n == k * r + n % k;
    assert r < q ==> k * (r + 1) <= k * q;
    assert r > q ==> k * (q + 1) <= k * r;
  }

  lemma SquareDrop(c: nat, d: nat)
    requires c >= d + 2
    ensures (c - 1) * (c - 1) + (d + 1) * (d + 1) < c * c + d * d
  {
  }

  /** Moving a shard from a group to one that carries at least two fewer lowers the sum of squares. */
  lemma SquaresDrop(s: seq<int>, S: set<int>, i: nat, h: int)
    requires i < |s| && s[i] in S && h in S && Count(s, s[i]) >= Count(s, h) + 2
    ensures Sum(Squares(s[i := h]), S) < Sum(Squares(s), S)
  {
    var g := s[i];
    var t := s[i := h];
    SumTakeTwo(Squares(s), S, g, h);
    SumTakeTwo(Squares(t), S, g, h);
    CountUpdate(s, i, h, g);
    CountUpdate(s, i, h, h);
    forall x | x in S - {g} - {h}
      ensures Squares(s)(x) == Squares(t)(x)
    {
      CountUpdate(s, i, h, x);
    }
    SumSame(Squares(s), Squares(t), S - {g} - {h});
    SquareDrop(Count(s, g), Count(s, h));
  }
}
