/** What a MapReduce worker computes: buckets of mapped pairs, and one line per key of sorted pairs. */
module MrWorker {

  datatype KeyValue = KeyValue(key: string, value: string)
  datatype Line = Line(key: string, output: string)

  type Reducer = (string, seq<string>) -> string

  /** Go's order on strings. */
  predicate Less(a: string, b: string) {
    b != [] && (a == [] || a[0] < b[0] || (a[0] == b[0] && Less(a[1..], b[1..])))
  }

  lemma {:induction false} LessIsOrder(a: string, b: string, c: string)
    ensures !Less(a, a)
    ensures Less(a, b) || a == b || Less(b, a)
    ensures !(Less(a, b) && Less(b, a))
    ensures Less(a, b) && Less(b, c) ==> Less(a, c)
    decreases |a| + |b| + |c|
  {
    if a != [] && b != [] && c != [] {
      LessIsOrder(a[1..], b[1..], c[1..]);
      assert a == [a[0]] + a[1..] && b == [b[0]] + b[1..];
    } else if a != [] && b != [] {
      LessIsOrder(a[1..], b[1..], c);
      assert a == [a[0]] + a[1..] && b == [b[0]] + b[1..];
    } else if a != [] {
      LessIsOrder(a[1..], b, c);
    }
  }

  /** The first k characters are common, and then a ends or has the smaller one. */
  predicate Splits(a: string, b: string, k: nat) {
    k <= |a| && k < |b| && a[..k] == b[..k] && (k == |a| || a[k] < b[k])
  }

  /** That order is the lexicographic one. */
  lemma {:induction false} LessExactly(a: string, b: string)
    ensures Less(a, b) <==> exists k: nat :: Splits(a, b, k)
  {
    if b == [] {
    } else if a == [] || a[0] < b[0] {
      assert Splits(a, b, 0);
    } else {
      LessExactly(a[1..], b[1..]);
      if a[0] == b[0] {
        if k: nat :| Splits(a[1..], b[1..], k) {
          assert a[..k + 1] == [a[0]] + a[1..][..k] && b[..k + 1] == [b[0]] + b[1..][..k];
          assert Splits(a, b, k + 1);
        }
        if k: nat :| Splits(a, b, k) {
          assert k > 0 && a[1..][..k - 1] == a[..k][1..] && b[1..][..k - 1] == b[..k][1..];
          assert Splits(a[1..], b[1..], k - 1);
        }
      } else {
        HeadsAgree(a, b);
      }
    }
  }

  lemma HeadsAgree(a: string, b: string)
    requires a != [] && b != []
    ensures forall k: nat :: Splits(a, b, k) && k > 0 ==> a[0] == b[0]
  {
    forall k: nat | Splits(a, b, k) && k > 0
      ensures a[0] == b[0]
    {
      assert a[..k][0] == b[..k][0];
    }
  }

  predicate Sorted(s: seq<KeyValue>) {
    forall i, j :: 0 <= i < j < |s| ==> !Less(s[j].key, s[i].key)
  }

  // ---------------------------------------------------------------- the values of a key

  function Values(s: seq<KeyValue>, k: string): seq<string> {
    if s == [] then []
    else
      var n := |s| - 1;
      if s[n].key == k then Values(s[..n], k) + [s[n].value] else Values(s[..n], k)
  }

  /** A value occurs among those of a key as often as the pair does. */
  lemma {:induction false} ValuesCount(s: seq<KeyValue>, k: string, v: string)
    ensures multiset(Values(s, k))[v] == multiset(s)[KeyValue(k, v)]
  {
    if s != [] {
      var n := |s| - 1;
      ValuesCount(s[..n], k, v);
      assert s == s[..n] + [s[n]];
    }
  }

  /** So the values of a key, up to order, depend only on the pairs, up to order. */
  lemma SamePairsSameValues(s: seq<KeyValue>, t: seq<KeyValue>, k: string)
    requires forall v :: multiset(s)[KeyValue(k, v)] == multiset(t)[KeyValue(k, v)]
    ensures multiset(Values(s, k)) == multiset(Values(t, k))
  {
    forall v
      ensures multiset(Values(s, k))[v] == multiset(Values(t, k))[v]
    {
      ValuesCount(s, k, v);
      ValuesCount(t, k, v);
    }
  }

  predicate HasKey(s: seq<KeyValue>, k: string) {
    exists i :: 0 <= i < |s| && s[i].key == k
  }

  lemma {:induction false} KeyHasValues(s: seq<KeyValue>, k: string)
    ensures HasKey(s, k) <==> Values(s, k) != []
  {
    if s != [] {
      var n := |s| - 1;
      KeyHasValues(s[..n], k);
      assert HasKey(s[..n], k) ==> HasKey(s, k);
      if HasKey(s, k) && s[n].key != k {
        var i :| 0 <= i < |s| && s[i].key == k;
        assert s[..n][i].key == k;
      }
    }
  }

  // ---------------------------------------------------------------- buckets

  function IndexOf(h: string -> nat, k: string, n: nat): (y: nat)
    requires n > 0
    ensures y < n
  {
    h(k) % n
  }

  /** The pairs that go to reduce task y, in order. */
  function Bucket(h: string -> nat, n: nat, s: seq<KeyValue>, y: nat): seq<KeyValue>
    requires n > 0
  {
    if s == [] then []
    else
      var m := |s| - 1;
      if IndexOf(h, s[m].key, n) == y then Bucket(h, n, s[..m], y) + [s[m]] else Bucket(h, n, s[..m], y)
  }

  lemma {:induction false} BucketCount(h: string -> nat, n: nat, s: seq<KeyValue>, y: nat, p: KeyValue)
    requires n > 0
    ensures multiset(Bucket(h, n, s, y))[p] == if IndexOf(h, p.key, n) == y then multiset(s)[p] else 0
  {
    if s != [] {
      var m := |s| - 1;
      BucketCount(h, n, s[..m], y, p);
      assert s == s[..m] + [s[m]];
    }
  }

  /** Pairs keep their order within a bucket. */
  lemma {:induction false} BucketAppend(h: string -> nat, n: nat, s: seq<KeyValue>, t: seq<KeyValue>, y: nat)
    requires n > 0
    ensures Bucket(h, n, s + t, y) == Bucket(h, n, s, y) + Bucket(h, n, t, y)
  {
    if t == [] {
      assert s + t == s;
    } else {
      var m := |t| - 1;
      BucketAppend(h, n, s, t[..m], y);
      assert (s + t)[..|s| + m] == s + t[..m];
    }
  }

  method Partition(h: string -> nat, n: nat, kva: seq<KeyValue>) returns (buckets: seq<seq<KeyValue>>)
    requires n > 0
    ensures |buckets| == n && forall y :: 0 <= y < n ==> buckets[y] == Bucket(h, n, kva, y)
  {
    buckets := seq(n, _ => []);
    var i := 0;
    while i < |kva|
      invariant 0 <= i <= |kva| && |buckets| == n
      invariant forall y :: 0 <= y < n ==> buckets[y] == Bucket(h, n, kva[..i], y)
    {
      assert kva[..i + 1][..i] == kva[..i];
      var index := IndexOf(h, kva[i].key, n);
      buckets := buckets[index := buckets[index] + [kva[i]]];
      i := i + 1;
    }
    assert kva[..i] == kva;
  }

  // ---------------------------------------------------------------- the group-by-run loop

  /** One line per key, in key order, with the reducer's output on all values of the key. */
  ghost predicate IsReduction(s: seq<KeyValue>, f: Reducer, out: seq<Line>) {
    && (forall i, j :: 0 <= i < j < |out| ==> Less(out[i].key, out[j].key))
    && (forall i :: 0 <= i < |out| ==> HasKey(s, out[i].key) && out[i].output == f(out[i].key, Values(s, out[i].key)))
    && (forall i :: 0 <= i < |s| ==> Printed(out, s[i].key))
  }

  predicate Printed(out: seq<Line>, k: string) {
    exists i :: 0 <= i < |out| && out[i].key == k
  }

  lemma {:induction false} ValuesAppend(s: seq<KeyValue>, t: seq<KeyValue>, k: string)
    ensures Values(s + t, k) == Values(s, k) + Values(t, k)
  {
    if t == [] {
      assert s + t == s;
    } else {
      var n := |t| - 1;
      ValuesAppend(s, t[..n], k);
      assert (s + t)[..|s| + n] == s + t[..n];
    }
  }

  /** In sorted pairs the values of a key all lie in its run [i, j). */
  lemma RunHoldsAll(s: seq<KeyValue>, i: nat, j: nat, k: string)
    requires Sorted(s) && i < j <= |s|
    requires forall x :: i <= x < j ==> s[x].key == k
    requires forall x :: 0 <= x < i ==> s[x].key != k
    requires j < |s| ==> s[j].key != k
    ensures Values(s, k) == Values(s[i..j], k)
    ensures forall x :: j <= x < |s| ==> s[x].key != k
  {
    forall x | j <= x < |s|
      ensures s[x].key != k
    {
      LessIsOrder(s[i].key, s[j].key, s[x].key);
      if j < x { LessIsOrder(s[j].key, s[x].key, s[i].key); }
    }
    assert s == s[..i] + s[i..j] + s[j..];
    ValuesAppend(s[..i] + s[i..j], s[j..], k);
    ValuesAppend(s[..i], s[i..j], k);
    KeyHasValues(s[..i], k);
    KeyHasValues(s[j..], k);
  }

  /** Position i is between two runs, and the pairs before it are reduced. */
  ghost predicate ReducedTo(kvs: seq<KeyValue>, f: Reducer, out: seq<Line>, i: nat) {
    && i <= |kvs|
    && (forall x, y :: 0 <= x < i <= y < |kvs| ==> kvs[x].key != kvs[y].key)
    && (forall x, y :: 0 <= x < y < |out| ==> Less(out[x].key, out[y].key))
    && (forall x :: 0 <= x < |out| ==> HasKey(kvs[..i], out[x].key))
    && (forall x :: 0 <= x < |out| ==> out[x].output == f(out[x].key, Values(kvs, out[x].key)))
    && (forall x :: 0 <= x < i ==> Printed(out, kvs[x].key))
  }

  /** The loop that both the worker and the sequential program run over sorted pairs. */
  method ReduceSorted(kvs: seq<KeyValue>, f: Reducer) returns (out: seq<Line>)
    requires Sorted(kvs)
    ensures IsReduction(kvs, f, out)
  {
    out := [];
    var i := 0;
    while i < |kvs|
      invariant 0 <= i && ReducedTo(kvs, f, out, i)
    {
      var j := RunEnd(kvs, i);
      var values := RunValues(kvs, i, j);
      RunReduced(kvs, f, out, i, j);
      out := out + [Line(kvs[i].key, f(kvs[i].key, values))];
      i := j;
    }
    assert kvs[..i] == kvs;
  }

  /** Where the run of equal keys that begins at i ends. */
  method RunEnd(kvs: seq<KeyValue>, i: nat) returns (j: nat)
    requires i < |kvs|
    ensures i < j <= |kvs| && (forall x :: i <= x < j ==> kvs[x].key == kvs[i].key)
    ensures j < |kvs| ==> kvs[j].key != kvs[i].key
  {
    j := i + 1;
    while j < |kvs| && kvs[j].key == kvs[i].key
      invariant i < j <= |kvs|
      invariant forall x :: i <= x < j ==> kvs[x].key == kvs[i].key
    {
      j := j + 1;
    }
  }

  method RunValues(kvs: seq<KeyValue>, i: nat, j: nat) returns (values: seq<string>)
    requires i < j <= |kvs| && forall x :: i <= x < j ==> kvs[x].key == kvs[i].key
    ensures values == Values(kvs[i..j], kvs[i].key)
  {
    values := [];
    var k := i;
    while k < j
      invariant i <= k <= j
      invariant values == Values(kvs[i..k], kvs[i].key)
    {
      assert kvs[i..k + 1][..k - i] == kvs[i..k];
      values := values + [kvs[k].value];
      k := k + 1;
    }
  }

  lemma RunReduced(kvs: seq<KeyValue>, f: Reducer, out: seq<Line>, i: nat, j: nat)
    requires Sorted(kvs) && ReducedTo(kvs, f, out, i) && i < j <= |kvs|
    requires forall x :: i <= x < j ==> kvs[x].key == kvs[i].key
    requires j < |kvs| ==> kvs[j].key != kvs[i].key
    ensures ReducedTo(kvs, f, out + [Line(kvs[i].key, f(kvs[i].key, Values(kvs[i..j], kvs[i].key)))], j)
  {
    var key := kvs[i].key;
    RunHoldsAll(kvs, i, j, key);
    var next := out + [Line(key, f(key, Values(kvs, key)))];
    forall x | 0 <= x < |out|
      ensures Less(out[x].key, key) && HasKey(kvs[..j], out[x].key)
    {
      var z :| 0 <= z < i && kvs[..i][z].key == out[x].key;
      LessIsOrder(out[x].key, key, key);
      assert kvs[..j][z].key == out[x].key;
    }
    assert kvs[..j][i].key == key;
    forall x | 0 <= x < j
      ensures Printed(next, kvs[x].key)
    {
      if x < i {
        assert Printed(out, kvs[x].key);
        var z :| 0 <= z < |out| && out[z].key == kvs[x].key;
        assert next[z].key == kvs[x].key;
      } else {
        assert next[|out|].key == kvs[x].key;
      }
    }
  }
}
