/** The commit rule's sorted median (raft.go, commit()). */
module RaftMedian {
  import opened RaftPeer

  /** How many elements of s are at least v. */
  function Reach(s: seq<int>, v: int): nat {
    if s == [] then 0 else (if s[0] >= v then 1 else 0) + Reach(s[1..], v)
  }

  ghost predicate Ascending(s: seq<int>) {
    forall i, j :: 0 <= i <= j < |s| ==> s[i] <= s[j]
  }

  lemma {:induction false} InsertedReach(x: int, s: seq<int>, v: int)
    ensures Reach(Inserted(x, s), v) == Reach([x] + s, v)
  {
    assert ([x] + s)[1..] == s;
    if s != [] && x > s[0] {
      InsertedReach(x, s[1..], v);
      assert ([x] + s[1..])[1..] == s[1..];
      assert ([s[0]] + Inserted(x, s[1..]))[1..] == Inserted(x, s[1..]);
    }
  }

  lemma {:induction false} InsertedAscending(x: int, s: seq<int>)
    requires Ascending(s)
    ensures Ascending(Inserted(x, s))
  {
    if s != [] && x > s[0] {
      InsertedAscending(x, s[1..]);
      InsertedElements(x, s[1..]);
      var r := Inserted(x, s[1..]);
      forall y | y in r
        ensures s[0] <= y
      {
      }
    }
  }

  lemma {:induction false} SortedFacts(s: seq<int>, v: int)
    ensures Ascending(Sorted(s)) && Reach(Sorted(s), v) == Reach(s, v)
  {
    if s != [] {
      SortedFacts(s[1..], v);
      InsertedAscending(s[0], Sorted(s[1..]));
      InsertedReach(s[0], Sorted(s[1..]), v);
      assert ([s[0]] + Sorted(s[1..]))[1..] == Sorted(s[1..]);
    }
  }

  /** In an ascending sequence the reach of v is the length of the tail that starts at v. */
  lemma {:induction false} AscendingReach(s: seq<int>, k: nat, v: int)
    requires Ascending(s) && k < |s|
    ensures Reach(s, v) >= |s| - k <==> v <= s[k]
    decreases |s|
  {
    assert s[0] <= s[k];
    if k == 0 {
      ReachBounds(s, v);
    } else {
      AscendingReach(s[1..], k - 1, v);
      ReachBounds(s[1..], v);
      if s[0] >= v {
        AllReach(s, v);
      }
    }
  }

  lemma {:induction false} ReachBounds(s: seq<int>, v: int)
    requires Ascending(s)
    ensures Reach(s, v) <= |s|
    ensures s != [] ==> (Reach(s, v) == |s| <==> v <= s[0])
  {
    if s != [] {
      ReachBounds(s[1..], v);
    }
  }

  lemma {:induction false} AllReach(s: seq<int>, v: int)
    requires forall i :: 0 <= i < |s| ==> s[i] >= v
    ensures Reach(s, v) == |s|
  {
    if s != [] { AllReach(s[1..], v); }
  }

  /** The median is exactly the largest index that |s| - |s|/2 entries reach. */
  lemma MedianExact(s: seq<int>, v: int)
    requires s != []
    ensures Reach(s, v) >= |s| - |s| / 2 <==> v <= Median(s)
  {
    SortedFacts(s, v);
    AscendingReach(Sorted(s), |s| / 2, v);
  }

  /** For an odd number of peers that is a majority. */
  lemma MedianIsMajority(s: seq<int>, v: int)
    requires |s| % 2 == 1
    ensures Reach(s, v) >= |s| / 2 + 1 <==> v <= Median(s)
  {
    MedianExact(s, v);
  }

  /** For every even number of peers there is a matchIndex whose median only half of the peers reach. */
  lemma EvenMedianIsHalf(n: nat)
    requires n > 0 && n % 2 == 0
    ensures exists s: seq<int> :: |s| == n && Reach(s, Median(s)) == n / 2
  {
    var s := seq(n / 2, _ => 0) + seq(n / 2, _ => 1);
    HalfReach(n / 2, n / 2, 1);
    HalfReach(n / 2, n / 2, 2);
    MedianExact(s, 1);
    MedianExact(s, 2);
  }

  lemma {:induction false} HalfReach(a: nat, b: nat, v: int)
    requires 1 <= v <= 2
    ensures Reach(seq(a, _ => 0) + seq(b, _ => 1), v) == if v == 1 then b else 0
  {
    var s := seq(a, _ => 0) + seq(b, _ => 1);
    if a > 0 {
      assert s[1..] == seq(a - 1, _ => 0) + seq(b, _ => 1);
      HalfReach(a - 1, b, v);
    } else if b > 0 {
      assert s[1..] == seq(0, _ => 0) + seq(b - 1, _ => 1);
      HalfReach(a, b - 1, v);
    }
  }

  ghost function Reachers(s: seq<int>, v: int): set<nat> {
    set j: nat | j < |s| && s[j] >= v
  }

  lemma {:induction false} ReachersCard(s: seq<int>, v: int)
    ensures |Reachers(s, v)| == Reach(s, v)
  {
    if s != [] {
      var t := s[..|s| - 1];
      ReachersCard(t, v);
      ReachLast(s, v);
      var last := |s| - 1;
      assert Reachers(s, v) == if s[last] >= v then Reachers(t, v) + {last} else Reachers(t, v);
    }
  }

  lemma {:induction false} ReachLast(s: seq<int>, v: int)
    requires s != []
    ensures Reach(s, v) == Reach(s[..|s| - 1], v) + (if s[|s| - 1] >= v then 1 else 0)
  {
    if |s| > 1 {
      ReachLast(s[1..], v);
      assert s[1..][..|s| - 2] == s[..|s| - 1][1..];
    }
  }
}
