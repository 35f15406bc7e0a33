/** The kvsrv1 server object and one clerk's retry loops, as the program runs them. */
module KvServer {
  import opened Kv

  /** What becomes of one attempt: request lost, reply lost, or answered. */
  datatype Fate = RequestLost | ReplyLost | Answered

  /** One attempt of a clerk, and what other clients got executed just before it. */
  datatype Attempt = Attempt(before: seq<Request>, fate: Fate)

  datatype Option<T> = None | Some(value: T)

  /** What Clerk.Put returns for a server reply; only a resend turns ErrVersion into ErrMaybe. */
  function ClerkResult(first: bool, r: Reply): Reply {
    if r == PutReply(ErrVersion) && !first then PutReply(ErrMaybe) else r
  }

  function DoAll(t: Table, rs: seq<Request>): Table
    decreases |rs|
  {
    if rs == [] then t else DoAll(DoOp(t, rs[0]).0, rs[1..])
  }

  lemma {:induction false} DoAllLast(t: Table, rs: seq<Request>, k: nat)
    requires k < |rs|
    ensures DoAll(t, rs[..k + 1]) == DoOp(DoAll(t, rs[..k]), rs[k]).0
    decreases k
  {
    if k > 0 {
      DoAllLast(DoOp(t, rs[0]).0, rs[1..], k - 1);
      assert rs[1..][..k] == rs[..k + 1][1..];
      assert rs[1..][..k - 1] == rs[..k][1..];
    }
  }

  /** The table, the clerk's result and the number of times its own request took effect. */
  datatype Outcome = Outcome(table: Table, result: Option<Reply>, applied: nat)

  predicate TakesEffect(t: Table, req: Request) {
    req.PutArgs? && DoOp(t, req).1 == PutReply(OK)
  }

  /** A clerk call as recursion over its attempts. */
  function Calls(t: Table, req: Request, first: bool, net: seq<Attempt>): Outcome
    decreases |net|
  {
    if net == [] then Outcome(t, None, 0)
    else
      var t := DoAll(t, net[0].before);
      if net[0].fate == RequestLost then Calls(t, req, false, net[1..])
      else
        var (t', r) := DoOp(t, req);
        var hit := if TakesEffect(t, req) then 1 else 0;
        if net[0].fate == Answered then Outcome(t', Some(ClerkResult(first, r)), hit)
        else
          var o := Calls(t', req, false, net[1..]);
          o.(applied := o.applied + hit)
  }

  class Server {
    var table: Table

    constructor ()
      ensures table == map[]
    {
      table := map[];
    }

    method Get(key: string) returns (r: Reply)
      ensures r == DoOp(table, GetArgs(key)).1
    {
      if key in table {
        r := GetReply(table[key].value, table[key].version, OK);
      } else {
        r := GetReply("", 0, ErrNoKey);
      }
    }

    method Put(key: string, value: string, version: nat) returns (r: Reply)
      modifies this
      ensures (table, r) == DoOp(old(table), PutArgs(key, value, version))
    {
      if key in table {
        if table[key].version == version {
          table := table[key := VersionedValue(value, version + 1)];
          r := PutReply(OK);
        } else {
          r := PutReply(ErrVersion);
        }
      } else {
        if version == 0 {
          table := table[key := VersionedValue(value, 1)];
          r := PutReply(OK);
        } else {
          r := PutReply(ErrNoKey);
        }
      }
    }

    method Execute(req: Request) returns (r: Reply)
      modifies this
      ensures (table, r) == DoOp(old(table), req)
    {
      match req
      case GetArgs(key) => r := Get(key);
      case PutArgs(key, value, version) => r := Put(key, value, version);
    }

    method ExecuteAll(rs: seq<Request>)
      modifies this
      ensures table == DoAll(old(table), rs)
    {
      var k := 0;
      while k < |rs|
        invariant 0 <= k <= |rs| && table == DoAll(old(table), rs[..k])
      {
        var _ := Execute(rs[k]);
        DoAllLast(old(table), rs, k);
        k := k + 1;
      }
      assert rs[..k] == rs;
    }
  }

  /** Clerk.Get and Clerk.Put: try until an answer comes back, within the attempts `net` describes. */
  method ClerkCall(kv: Server, req: Request, net: seq<Attempt>) returns (result: Option<Reply>)
    modifies kv
    ensures var o := Calls(old(kv.table), req, true, net);
            kv.table == o.table && result == o.result
  {
    var first := true;
    var k := 0;
    while k < |net|
      invariant 0 <= k <= |net|
      invariant var o, p := Calls(old(kv.table), req, true, net), Calls(kv.table, req, first, net[k..]);
                o.table == p.table && o.result == p.result
    {
      assert net[k..][0] == net[k] && net[k..][1..] == net[k + 1..];
      kv.ExecuteAll(net[k].before);
      if net[k].fate != RequestLost {
        var r := kv.Execute(req);
        if net[k].fate == Answered {
          return Some(ClerkResult(first, r));
        }
      }
      first := false;
      k := k + 1;
    }
    return None;
  }

  /** Once the stored version of the key is past the request's, it never takes effect again. */
  predicate Passed(t: Table, req: Request) {
    req.PutArgs? && req.key in t && t[req.key].version > req.version
  }

  lemma {:induction false} StaysPassed(t: Table, req: Request, rs: seq<Request>)
    requires Passed(t, req)
    ensures Passed(DoAll(t, rs), req)
    decreases |rs|
  {
    if rs != [] { StaysPassed(DoOp(t, rs[0]).0, req, rs[1..]); }
  }

  lemma {:induction false} PassedNeverHits(t: Table, req: Request, net: seq<Attempt>)
    requires Passed(t, req)
    ensures var o := Calls(t, req, false, net);
            o.applied == 0 && (o.result.None? || o.result == Some(PutReply(ErrMaybe)))
    decreases |net|
  {
    if net != [] {
      StaysPassed(t, req, net[0].before);
      var t := DoAll(t, net[0].before);
      PassedNeverHits(t, req, net[1..]);
    }
  }

  /**
   What a Put's result tells its caller, whatever the network and the other clients did: OK means
   it took effect exactly once, ErrVersion and ErrNoKey never, ErrMaybe and no answer at most once.
   */
  lemma {:induction false} PutResultMeans(t: Table, req: Request, first: bool, net: seq<Attempt>)
    requires req.PutArgs?
    ensures var o := Calls(t, req, first, net);
            && o.applied <= 1
            && (o.result == Some(PutReply(OK)) ==> o.applied == 1)
            && (o.result == Some(PutReply(ErrVersion)) || o.result == Some(PutReply(ErrNoKey)) ==> o.applied == 0)
            && (o.result == Some(PutReply(ErrVersion)) ==> first && net[0].fate == Answered)
    decreases |net|
  {
    if net != [] {
      var t := DoAll(t, net[0].before);
      PutResultMeans(t, req, false, net[1..]);
      if net[0].fate == ReplyLost {
        var t' := DoOp(t, req).0;
        PutResultMeans(t', req, false, net[1..]);
        if TakesEffect(t, req) {
          assert Passed(t', req);
          PassedNeverHits(t', req, net[1..]);
        }
      }
    }
  }

  // ---------------------------------------------------------------- which reply comes when

  /** The server's two operations: what is stored afterwards, key by key, and which reply goes back. */
  lemma ServerRule(t: Table, key: string, value: string, version: nat)
    ensures var (t', r) := DoOp(t, PutArgs(key, value, version));
            && (forall k :: k != key ==> (k in t' <==> k in t) && (k in t ==> t'[k] == t[k]))
            && (r == PutReply(OK) <==> (key in t && t[key].version == version) || (key !in t && version == 0))
            && (r == PutReply(ErrVersion) <==> key in t && t[key].version != version)
            && (r == PutReply(ErrNoKey) <==> key !in t && version != 0)
            && (r == PutReply(OK) ==> key in t' && t'[key] == VersionedValue(value, version + 1))
            && (r != PutReply(OK) ==> t' == t)
    ensures var (t', r) := DoOp(t, GetArgs(key));
            && t' == t
            && (key in t ==> r == GetReply(t[key].value, t[key].version, OK))
            && (key !in t ==> r == GetReply("", 0, ErrNoKey))
  {
  }

  /** The table that attempt i of the call meets at the server. */
  function Met(t: Table, req: Request, net: seq<Attempt>, i: nat): Table
    requires i < |net|
    decreases i
  {
    var u := DoAll(t, net[0].before);
    if i == 0 then u
    else Met(if net[0].fate == RequestLost then u else DoOp(u, req).0, req, net[1..], i - 1)
  }

  /** Attempt i is the first that gets an answer. */
  ghost predicate AnsweredAt(net: seq<Attempt>, i: nat) {
    i < |net| && net[i].fate == Answered && forall j :: 0 <= j < i ==> net[j].fate != Answered
  }

  /** What a clerk returns for the answer of attempt i at a server with table u. */
  ghost predicate Returns(u: Table, req: Request, resent: bool, out: Reply) {
    var matches := req.PutArgs? && ((req.key in u && u[req.key].version == req.version) || (req.key !in u && req.version == 0));
    match req
    case GetArgs(key) =>
      out == if key in u then GetReply(u[key].value, u[key].version, OK) else GetReply("", 0, ErrNoKey)
    case PutArgs(key, _, version) =>
      && (out == PutReply(OK) <==> matches)
      && (out == PutReply(ErrNoKey) <==> key !in u && version != 0)
      && (out == PutReply(ErrVersion) <==> key in u && !matches && !resent)
      && (out == PutReply(ErrMaybe) <==> key in u && !matches && resent)
  }

  /**
   The first answered attempt decides. A Put returns OK if and only if that attempt took effect,
   ErrNoKey if and only if the key was absent then and the version not 0; refused for its version it
   returns ErrVersion when it was the first attempt and ErrMaybe when it was a resend.
   */
  lemma {:induction false} AnswerExactly(t: Table, req: Request, first: bool, net: seq<Attempt>, i: nat)
    requires AnsweredAt(net, i)
    ensures var o := Calls(t, req, first, net);
            && o.result.Some? && Returns(Met(t, req, net, i), req, i > 0 || !first, o.result.value)
            && o.table == DoOp(Met(t, req, net, i), req).0
    decreases i
  {
    if i > 0 {
      var u := DoAll(t, net[0].before);
      AnswerExactly(if net[0].fate == RequestLost then u else DoOp(u, req).0, req, false, net[1..], i - 1);
    }
  }

  /** Without an answer the call does not return. */
  lemma {:induction false} UnansweredWaits(t: Table, req: Request, first: bool, net: seq<Attempt>)
    requires forall j :: 0 <= j < |net| ==> net[j].fate != Answered
    ensures Calls(t, req, first, net).result == None
    decreases |net|
  {
    if net != [] {
      var u := DoAll(t, net[0].before);
      UnansweredWaits(if net[0].fate == RequestLost then u else DoOp(u, req).0, req, false, net[1..]);
    }
  }
}

/** The single-key specification of models1/kv.go, and what it is for a history to obey it. */
module KvModel {
  import opened Kv
  import opened KvServer

  datatype KvState = KvState(value: string, version: nat)

  function Init(): KvState { KvState("", 0) }

  function Step(st: KvState, req: Request, out: Reply): (bool, KvState) {
    match req
    case GetArgs(_) => (out.GetReply? && out.value == st.value, st)
    case PutArgs(_, value, version) =>
      if st.version == version then
        (out == PutReply(OK) || out == PutReply(ErrMaybe), KvState(value, st.version + 1))
      else (out == PutReply(ErrVersion) || out == PutReply(ErrMaybe), st)
  }

  datatype Completion = Completion(at: nat, out: Reply)
  datatype Call = Call(req: Request, start: nat, done: Option<Completion>)
  type History = map<nat, Call>

  /** An operation with the result it takes in a linearization. */
  datatype Entry = Entry(id: nat, req: Request, out: Reply)

  /** The state of key k after the entries of l. */
  function StateOf(l: seq<Entry>, k: string): KvState {
    if l == [] then Init()
    else
      var e := l[|l| - 1];
      var st := StateOf(l[..|l| - 1], k);
      if e.req.key == k then Step(st, e.req, e.out).1 else st
  }

  predicate LegalAt(l: seq<Entry>, i: nat)
    requires i < |l|
  {
    Step(StateOf(l[..i], l[i].req.key), l[i].req, l[i].out).0
  }

  predicate Legal(l: seq<Entry>) {
    forall i: nat :: i < |l| ==> LegalAt(l, i)
  }

  predicate Lists(l: seq<Entry>, id: nat) {
    exists i :: 0 <= i < |l| && l[i].id == id
  }

  predicate Belongs(h: History, e: Entry) {
    e.id in h && e.req == h[e.id].req && (h[e.id].done.Some? ==> e.out == h[e.id].done.value.out)
  }

  /** Operation a returned before operation b was called. */
  predicate EndsBefore(h: History, a: nat, b: nat) {
    a in h && b in h && h[a].done.Some? && h[a].done.value.at < h[b].start
  }

  /** l orders the completed operations of h, and perhaps some pending ones, as the model allows. */
  ghost predicate Linearizes(h: History, l: seq<Entry>) {
    && (forall i :: 0 <= i < |l| ==> Belongs(h, l[i]))
    && (forall i, j :: 0 <= i < j < |l| ==> l[i].id != l[j].id)
    && (forall id :: id in h && h[id].done.Some? ==> Lists(l, id))
    && (forall i, j :: 0 <= i < |l| && 0 <= j < |l| && EndsBefore(h, l[i].id, l[j].id) ==> i < j)
    && Legal(l)
  }

  ghost predicate Linearizable(h: History) {
    exists l :: Linearizes(h, l)
  }

  // ---------------------------------------------------------------- Partition

  /** The operations on one key, as Partition() collects them. */
  function OfKey(h: History, k: string): (r: History) {
    map id: nat | id in h && h[id].req.key == k :: h[id]
  }

  function Only(l: seq<Entry>, k: string): (r: seq<Entry>)
    ensures forall e :: e in r <==> e in l && e.req.key == k
  {
    if l == [] then []
    else
      var n := |l| - 1;
      assert forall e :: e in l <==> e in l[..n] || e == l[n];
      if l[n].req.key == k then Only(l[..n], k) + [l[n]] else Only(l[..n], k)
  }

  lemma {:induction false} OnlyState(l: seq<Entry>, k: string)
    ensures StateOf(Only(l, k), k) == StateOf(l, k)
  {
    if l != [] { OnlyState(l[..|l| - 1], k); }
  }

  lemma {:induction false} OnlyLegal(l: seq<Entry>, k: string)
    requires Legal(l)
    ensures Legal(Only(l, k))
  {
    if l != [] {
      var n := |l| - 1;
      var m := l[..n];
      forall i: nat | i < n
        ensures LegalAt(m, i)
      {
        assert LegalAt(l, i);
        assert m[..i] == l[..i];
      }
      OnlyLegal(m, k);
      if l[n].req.key == k {
        var r := Only(l, k);
        OnlyState(m, k);
        assert LegalAt(l, n);
        forall i: nat | i < |r|
          ensures LegalAt(r, i)
        {
          if i < |r| - 1 {
            assert LegalAt(Only(m, k), i);
            assert r[..i] == Only(m, k)[..i];
          } else {
            assert r[..i] == Only(m, k);
          }
        }
      }
    }
  }

  /** Only() keeps the order: entry i of it sits at At(i) of l, increasingly. */
  lemma {:induction false} OnlyOrder(l: seq<Entry>, k: string, i: nat, j: nat) returns (p: nat, q: nat)
    requires i < j < |Only(l, k)|
    ensures p < q < |l| && l[p] == Only(l, k)[i] && l[q] == Only(l, k)[j]
  {
    var n := |l| - 1;
    if l[n].req.key == k && j == |Only(l, k)| - 1 {
      q := n;
      assert Only(l, k)[i] in Only(l[..n], k);
      p :| 0 <= p < n && l[..n][p] == Only(l, k)[i];
    } else {
      p, q := OnlyOrder(l[..n], k, i, j);
    }
  }

  /** Checking key by key asks no more than checking the whole history. */
  lemma PartitionLinearizable(h: History, k: string)
    requires Linearizable(h)
    ensures Linearizable(OfKey(h, k))
  {
    var l: seq<Entry> :| Linearizes(h, l);
    var r := Only(l, k);
    OnlyLegal(l, k);
    forall i | 0 <= i < |r|
      ensures Belongs(OfKey(h, k), r[i])
    {
      assert r[i] in l;
    }
    forall i: nat, j: nat | i < j < |r|
      ensures r[i].id != r[j].id && !EndsBefore(h, r[j].id, r[i].id)
    {
      var p, q := OnlyOrder(l, k, i, j);
    }
    forall i: nat, j: nat | i < |r| && j < |r| && EndsBefore(OfKey(h, k), r[i].id, r[j].id)
      ensures i < j
    {
      if i == j {
        var p := OnlyIn(l, k, i);
      }
    }
    forall id: nat | id in OfKey(h, k) && h[id].done.Some?
      ensures Lists(r, id)
    {
      assert Lists(l, id);
      var i :| 0 <= i < |l| && l[i].id == id;
      assert Belongs(h, l[i]);
      assert l[i] in r;
    }
    assert Linearizes(OfKey(h, k), r);
  }

  lemma OnlyIn(l: seq<Entry>, k: string, i: nat) returns (p: nat)
    requires i < |Only(l, k)|
    ensures p < |l| && l[p] == Only(l, k)[i]
  {
    assert Only(l, k)[i] in l;
    p :| 0 <= p < |l| && l[p] == Only(l, k)[i];
  }

  /** Partition puts every call into the part of its key, unchanged. */
  lemma PartsCover(h: History, k: string, id: nat)
    ensures id in OfKey(h, k) <==> id in h && h[id].req.key == k
    ensures id in OfKey(h, k) ==> OfKey(h, k)[id] == h[id]
  {
  }

  // ---------------------------------------------------------------- what the model refuses

  /** A history of one completed call. */
  function Single(req: Request, out: Reply): History {
    map[0 := Call(req, 0, Some(Completion(1, out)))]
  }

  /** What a call may return on a key nobody has written. */
  predicate FreshAnswer(req: Request, out: Reply) {
    match req
    case GetArgs(_) => out.GetReply? && out.value == ""
    case PutArgs(_, _, version) => out == PutReply(ErrMaybe) || out == PutReply(if version == 0 then OK else ErrVersion)
  }

  lemma OneCallExactly(req: Request, out: Reply)
    ensures Linearizable(Single(req, out)) <==> FreshAnswer(req, out)
  {
    var h := Single(req, out);
    var l := [Entry(0, req, out)];
    assert StateOf(l[..0], req.key) == Init();
    if FreshAnswer(req, out) {
      assert LegalAt(l, 0) && l[0].id == 0;
      assert Linearizes(h, l);
    }
    forall m: seq<Entry> | Linearizes(h, m)
      ensures FreshAnswer(req, out)
    {
      assert Lists(m, 0);
      var i: nat :| i < |m| && m[i].id == 0;
      assert Belongs(h, m[i]) && LegalAt(m, i);
      OnlyOne(h, m, i);
    }
  }

  /** With one call there is only one place. */
  lemma OnlyOne(h: History, m: seq<Entry>, i: nat)
    requires Linearizes(h, m) && i < |m| && h.Keys == {0}
    ensures i == 0
  {
    assert Belongs(h, m[0]) && Belongs(h, m[i]);
  }

  /** A write that returned OK, then a read that returned out. */
  function WriteThenRead(key: string, value: string, out: Reply): History {
    map[0 := Call(PutArgs(key, value, 0), 0, Some(Completion(1, PutReply(OK)))),
        1 := Call(GetArgs(key), 2, Some(Completion(3, out)))]
  }

  /** A read sees the write that ended before it, and nothing else will do. */
  lemma ReadsSeeWrites(key: string, value: string, out: Reply)
    ensures Linearizable(WriteThenRead(key, value, out)) <==> out.GetReply? && out.value == value
  {
    var h := WriteThenRead(key, value, out);
    var w, r := Entry(0, PutArgs(key, value, 0), PutReply(OK)), Entry(1, GetArgs(key), out);
    WriteState(w, r);
    if out.GetReply? && out.value == value {
      assert [w, r][0].id == 0 && [w, r][1].id == 1;
      assert Linearizes(h, [w, r]);
    }
    forall m: seq<Entry> | Linearizes(h, m)
      ensures out.GetReply? && out.value == value
    {
      OnlyThatOrder(h, m, w, r);
      assert LegalAt(m, 1);
    }
  }

  lemma WriteState(w: Entry, r: Entry)
    requires w.req.PutArgs? && w.req.version == 0 && w.out == PutReply(OK) && r.req == GetArgs(w.req.key)
    ensures StateOf([w, r][..1], w.req.key) == KvState(w.req.value, 1)
    ensures LegalAt([w, r], 0) && (LegalAt([w, r], 1) <==> r.out.GetReply? && r.out.value == w.req.value)
  {
    assert [w, r][..1] == [w] && [w][..0] == [] && [w, r][..0] == [];
  }

  lemma OnlyThatOrder(h: History, m: seq<Entry>, w: Entry, r: Entry)
    requires Linearizes(h, m) && h.Keys == {0, 1} && EndsBefore(h, 0, 1) && h[1].done.Some?
    requires w == Entry(0, h[0].req, h[0].done.value.out) && r == Entry(1, h[1].req, h[1].done.value.out)
    ensures m == [w, r]
  {
    assert Lists(m, 0) && Lists(m, 1);
    var i: nat :| i < |m| && m[i].id == 0;
    var j: nat :| j < |m| && m[j].id == 1;
    assert Belongs(h, m[i]) && Belongs(h, m[j]);
    assert i < j;
    OneOfTwo(h, m, i, j, 0);
    OneOfTwo(h, m, i, j, 1);
    if |m| > 2 { OneOfTwo(h, m, i, j, 2); }
  }

  /** With two calls there are only two places. */
  lemma OneOfTwo(h: History, m: seq<Entry>, i: nat, j: nat, k: nat)
    requires Linearizes(h, m) && h.Keys == {0, 1} && i < |m| && m[i].id == 0 && j < |m| && m[j].id == 1 && k < |m|
    ensures k == i || k == j
  {
    assert Belongs(h, m[k]);
  }
}
