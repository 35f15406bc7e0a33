/** Sums of a function over a set. */
module Sums {

  lemma SomeMember(S: set<int>)
    requires S != {}
    ensures exists x :: x in S
  {
    assert (forall x :: x !in S) ==> S == {};
  }

  ghost function Pick(S: set<int>): (x: int)
    requires S != {}
    ensures x in S
  {
    SomeMember(S);
    var y :| y in S; y
  }

  ghost function Sum(f: int -> nat, S: set<int>): nat {
    if S == {} then 0 else f(Pick(S)) + Sum(f, S - {Pick(S)})
  }

  lemma {:induction false} SumTake(f: int -> nat, S: set<int>, y: int)
    requires y in S
    ensures Sum(f, S) == f(y) + Sum(f, S - {y})
    decreases S
  {
    var x := Pick(S);
    if x != y {
      SumTake(f, S - {x}, y);
      SumTake(f, S - {y}, x);
      assert S - {x} - {y} == S - {y} - {x};
    }
  }

  lemma {:induction false} SumSame(f: int -> nat, e: int -> nat, S: set<int>)
    requires forall x :: x in S ==> f(x) == e(x)
    ensures Sum(f, S) == Sum(e, S)
    decreases S
  {
    if S != {} {
      var x := Pick(S);
      SumTake(f, S, x);
      SumTake(e, S, x);
      SumSame(f, e, S - {x});
    }
  }

  lemma {:induction false} SumZero(f: int -> nat, S: set<int>)
    requires forall x :: x in S ==> f(x) == 0
    ensures Sum(f, S) == 0
    decreases S
  {
    if S != {} {
      var x := Pick(S);
      SumTake(f, S, x);
      SumZero(f, S - {x});
    }
  }

  /** Values within [low, high] add up to between |S| * low and |S| * high. */
  lemma {:induction false} SumBetween(f: int -> nat, S: set<int>, low: nat, high: nat)
    requires forall x :: x in S ==> low <= f(x) <= high
    ensures |S| * low <= Sum(f, S) <= |S| * high
    decreases S
  {
    if S != {} {
      var x := Pick(S);
      var k := |S - {x}|;
      SumBetween(f, S - {x}, low, high);
      assert |S| == k + 1;
      Distribute(k, low);
      Distribute(k, high);
    }
  }

  lemma Distribute(k: nat, x: nat)
    ensures (k + 1) * x == k * x + x
  {
  }

  lemma SumTakeTwo(f: int -> nat, S: set<int>, g: int, h: int)
    requires g in S && h in S && g != h
    ensures Sum(f, S) == f(g) + f(h) + Sum(f, S - {g} - {h})
  {
    SumTake(f, S, g);
    SumTake(f, S - {g}, h);
  }

  lemma {:induction false} SumLess(f: int -> nat, e: int -> nat, S: set<int>)
    requires forall x :: x in S ==> f(x) <= e(x)
    ensures Sum(f, S) <= Sum(e, S)
    decreases S
  {
    if S != {} {
      var x := Pick(S);
      SumTake(e, S, x);
      SumLess(f, e, S - {x});
    }
  }

  lemma {:induction false} SumPlus(f: int -> nat, e: int -> nat, f': int -> nat, e': int -> nat, S: set<int>)
    requires forall x :: x in S ==> f(x) + e(x) == f'(x) + e'(x)
    ensures Sum(f, S) + Sum(e, S) == Sum(f', S) + Sum(e', S)
    decreases S
  {
    if S != {} {
      var x := Pick(S);
      SumPlus(f, e, f', e', S - {x});
    }
  }
}
