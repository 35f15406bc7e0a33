/** putOnce of shardctrler.go on the kvsrv clerk: what its answer tells about the Put. */
module ShardPutOnce {
  import opened Kv
  import opened KvServer

  datatype Verdict = Yes | No | Stopped | Waiting

  /** putOnce with the attempts of its Put and, after ErrMaybe, of its Get. */
  function PutOnceOf(t: Table, req: Request, net: seq<Attempt>, back: seq<Attempt>): Verdict
    requires req.PutArgs?
  {
    var o := Calls(t, req, true, net);
    if o.result.None? then Waiting
    else if o.result.value == PutReply(OK) then Yes
    else if o.result.value == PutReply(ErrVersion) then No
    else if o.result.value != PutReply(ErrMaybe) then Stopped
    else
      var g := Calls(o.table, GetArgs(req.key), true, back).result;
      if g.None? then Waiting
      else if g.value == GetReply(req.value, req.version, OK) then Yes else No
  }

  method PutOnce(kv: Server, key: string, value: string, version: nat, net: seq<Attempt>, back: seq<Attempt>)
    returns (r: Verdict)
    modifies kv
    ensures r == PutOnceOf(old(kv.table), PutArgs(key, value, version), net, back)
  {
    var res := ClerkCall(kv, PutArgs(key, value, version), net);
    if res.None? { return Waiting; }
    match res.value.err {
      case OK => return if res.value.PutReply? then Yes else Stopped;
      case ErrVersion => return if res.value.PutReply? then No else Stopped;
      case ErrMaybe =>
        if !res.value.PutReply? { return Stopped; }
        var got := ClerkCall(kv, GetArgs(key), back);
        if got.None? { return Waiting; }
        return if got.value == GetReply(value, version, OK) then Yes else No;
      case _ => return Stopped;
    }
  }

  /** The caller has seen the version it names: the key has reached it, or it does not exist and the version is at most 1. */
  predicate Reached(t: Table, req: Request)
    requires req.PutArgs?
  {
    if req.key in t then t[req.key].version >= req.version else req.version <= 1
  }

  lemma {:induction false} ReachedStays(t: Table, req: Request, rs: seq<Request>)
    requires req.PutArgs? && Reached(t, req)
    ensures Reached(DoAll(t, rs), req)
    decreases |rs|
  {
    if rs != [] { ReachedStays(DoOp(t, rs[0]).0, req, rs[1..]); }
  }

  /** Once reached, an ErrMaybe leaves the stored version beyond the one named. */
  lemma {:induction false} MaybeIsPassed(t: Table, req: Request, first: bool, net: seq<Attempt>)
    requires req.PutArgs? && Reached(t, req)
    ensures var o := Calls(t, req, first, net);
            o.result == Some(PutReply(ErrMaybe)) ==> Passed(o.table, req)
    decreases |net|
  {
    if net != [] {
      ReachedStays(t, req, net[0].before);
      var t := DoAll(t, net[0].before);
      MaybeIsPassed(t, req, false, net[1..]);
      MaybeIsPassed(DoOp(t, req).0, req, false, net[1..]);
    }
  }

  lemma {:induction false} PassedGet(t: Table, req: Request, first: bool, back: seq<Attempt>)
    requires Passed(t, req)
    ensures var g := Calls(t, GetArgs(req.key), first, back).result;
            g.Some? ==> g.value.GetReply? && g.value.version > req.version
    decreases |back|
  {
    if back != [] {
      StaysPassed(t, req, back[0].before);
      PassedGet(DoAll(t, back[0].before), req, false, back[1..]);
    }
  }

  /** Then reading back never turns ErrMaybe into true, even if the Put took effect. */
  lemma TrueMeansApplied(t: Table, req: Request, net: seq<Attempt>, back: seq<Attempt>)
    requires req.PutArgs? && Reached(t, req)
    ensures PutOnceOf(t, req, net, back) == Yes ==> Calls(t, req, true, net).result == Some(PutReply(OK))
    ensures PutOnceOf(t, req, net, back) == Yes ==> Calls(t, req, true, net).applied == 1
  {
    PutResultMeans(t, req, true, net);
    MaybeIsPassed(t, req, true, net);
    var o := Calls(t, req, true, net);
    if o.result == Some(PutReply(ErrMaybe)) { PassedGet(o.table, req, true, back); }
  }

  // ---------------------------------------------------------------- and only then

  /** Puts by others that raise the key from version v to version w, the last one storing value. */
  function Raise(key: string, value: string, v: nat, w: nat): seq<Request>
    requires v <= w
    decreases w - v
  {
    if v == w then [] else [PutArgs(key, value, v)] + Raise(key, value, v + 1, w)
  }

  lemma {:induction false} RaiseReaches(t: Table, key: string, value: string, v: nat, w: nat)
    requires v < w && (if key in t then t[key].version == v else v == 0)
    ensures var u := DoAll(t, Raise(key, value, v, w)); key in u && u[key] == VersionedValue(value, w)
    decreases w - v
  {
    var rs := Raise(key, value, v, w);
    var u := DoOp(t, rs[0]).0;
    assert rs[1..] == Raise(key, value, v + 1, w);
    if v + 1 < w { RaiseReaches(u, key, value, v + 1, w); }
  }

  /** Naming a version that is not there yet: the Put is refused, others bring the key to just that version and value. */
  lemma GuessedAhead(t: Table, req: Request) returns (net: seq<Attempt>, back: seq<Attempt>)
    requires req.PutArgs? && !Reached(t, req)
    ensures PutOnceOf(t, req, net, back) == Yes && Calls(t, req, true, net).applied == 0
  {
    var first := if req.key in t then [] else [PutArgs(req.key, req.value, 0)];
    var u := DoAll(t, first);
    assert first != [] ==> DoAll(t, first) == DoAll(DoOp(t, first[0]).0, []);
    var v := u[req.key].version;
    net := [Attempt([], RequestLost), Attempt(first, Answered)];
    back := [Attempt(Raise(req.key, req.value, v, req.version), Answered)];
    assert net[1..] == [Attempt(first, Answered)];
    assert Calls(t, req, true, net) == Calls(t, req, false, net[1..]) == Outcome(u, Some(PutReply(ErrMaybe)), 0);
    RaiseReaches(u, req.key, req.value, v, req.version);
  }

  /** putOnce's true can be trusted whatever happens if and only if the caller has seen the version it names. */
  lemma TrustedExactly(t: Table, req: Request)
    requires req.PutArgs?
    ensures (forall net, back :: PutOnceOf(t, req, net, back) == Yes ==> Calls(t, req, true, net).applied == 1)
            <==> Reached(t, req)
  {
    if Reached(t, req) {
      forall net, back | PutOnceOf(t, req, net, back) == Yes
        ensures Calls(t, req, true, net).applied == 1
      {
        TrueMeansApplied(t, req, net, back);
      }
    } else {
      var net, back := GuessedAhead(t, req);
    }
  }

  // ---------------------------------------------------------------- what false tells

  /** Puts by others that bring the key to at least the version named, starting from an absent or older one. */
  function CatchUp(t: Table, req: Request): seq<Request>
    requires req.PutArgs? && !Passed(t, req)
  {
    var v := if req.key in t then t[req.key].version else 0;
    Raise(req.key, req.value, v, req.version)
  }

  lemma CatchUpReaches(t: Table, req: Request)
    requires req.PutArgs? && !Passed(t, req)
    ensures TakesEffect(DoAll(t, CatchUp(t, req)), req)
  {
    var v := if req.key in t then t[req.key].version else 0;
    if v < req.version { RaiseReaches(t, req.key, req.value, v, req.version); }
  }

  /** The Put takes effect, its reply is lost, the resend is refused: putOnce answers false for a Put that was applied. */
  lemma FalseThoughApplied(t: Table, req: Request) returns (net: seq<Attempt>, back: seq<Attempt>)
    requires req.PutArgs? && !Passed(t, req)
    ensures PutOnceOf(t, req, net, back) == No && Calls(t, req, true, net).applied == 1
    ensures Calls(t, req, true, net).result == Some(PutReply(ErrMaybe))
  {
    var rs := CatchUp(t, req);
    CatchUpReaches(t, req);
    var u := DoAll(t, rs);
    var u' := DoOp(u, req).0;
    net := [Attempt(rs, ReplyLost), Attempt([], Answered)];
    back := [Attempt([], Answered)];
    assert net[1..] == [Attempt([], Answered)];
    assert DoAll(u', []) == u' && !TakesEffect(u', req);
    assert Calls(u', req, false, net[1..]) == Outcome(u', Some(PutReply(ErrMaybe)), 0);
    assert Calls(t, req, true, net) == Outcome(u', Some(PutReply(ErrMaybe)), 1);
    assert Calls(u', GetArgs(req.key), true, back).result == Some(DoGet(u', req.key));
  }

  /** A Put whose version is already passed never takes effect. */
  lemma {:induction false} PassedIsRefused(t: Table, req: Request, first: bool, net: seq<Attempt>)
    requires Passed(t, req)
    ensures Calls(t, req, first, net).applied == 0
    decreases |net|
  {
    if net != [] {
      StaysPassed(t, req, net[0].before);
      PassedIsRefused(DoAll(t, net[0].before), req, false, net[1..]);
    }
  }

  /** putOnce's false means the Put was not applied, whatever happens, if and only if the stored version is already past the one named. */
  lemma FalseTrustedExactly(t: Table, req: Request)
    requires req.PutArgs?
    ensures (forall net, back :: PutOnceOf(t, req, net, back) == No ==> Calls(t, req, true, net).applied == 0)
            <==> Passed(t, req)
  {
    if Passed(t, req) {
      forall net, back | PutOnceOf(t, req, net, back) == No
        ensures Calls(t, req, true, net).applied == 0
      {
        PassedIsRefused(t, req, true, net);
      }
    } else {
      var net, back := FalseThoughApplied(t, req);
    }
  }

  /** Where true can be trusted, an applied Put that came back ErrMaybe is answered false whenever it is answered. */
  lemma AppliedMaybeIsFalse(t: Table, req: Request, net: seq<Attempt>, back: seq<Attempt>)
    requires req.PutArgs? && Reached(t, req) && Calls(t, req, true, net).result == Some(PutReply(ErrMaybe))
    ensures PutOnceOf(t, req, net, back) == No || PutOnceOf(t, req, net, back) == Waiting
    ensures PutOnceOf(t, req, net, back) == Waiting <==>
              Calls(Calls(t, req, true, net).table, GetArgs(req.key), true, back).result.None?
  {
    MaybeIsPassed(t, req, true, net);
    PassedGet(Calls(t, req, true, net).table, req, true, back);
  }

  // ---------------------------------------------------------------- which answer comes when

  /** The Put's request meets the version it names. */
  predicate Meets(u: Table, req: Request)
    requires req.PutArgs?
  {
    if req.key in u then u[req.key].version == req.version else req.version == 0
  }

  /**
   The first answered attempt of the Put decides: true if it took effect, false if it was refused at
   once, fatal for a missing key; refused on a resend, the first answered attempt of the Get decides:
   true exactly when it finds this value at the version named.
   */
  lemma PutOnceRule(t: Table, req: Request, net: seq<Attempt>, back: seq<Attempt>, i: nat)
    requires req.PutArgs? && AnsweredAt(net, i)
    ensures var u := Met(t, req, net, i);
            var r := PutOnceOf(t, req, net, back);
            && (Meets(u, req) ==> r == Yes)
            && (req.key !in u && req.version != 0 ==> r == Stopped)
            && (req.key in u && !Meets(u, req) && i == 0 ==> r == No)
            && (req.key in u && !Meets(u, req) && i > 0 ==>
                  && ((forall j :: 0 <= j < |back| ==> back[j].fate != Answered) ==> r == Waiting)
                  && forall j: nat :: AnsweredAt(back, j) ==>
                       var v := Met(Calls(t, req, true, net).table, GetArgs(req.key), back, j);
                       r == if req.key in v && v[req.key] == VersionedValue(req.value, req.version) then Yes else No)
  {
    AnswerExactly(t, req, true, net, i);
    var o := Calls(t, req, true, net);
    if forall j :: 0 <= j < |back| ==> back[j].fate != Answered {
      UnansweredWaits(o.table, GetArgs(req.key), true, back);
    }
    forall j: nat | AnsweredAt(back, j)
      ensures var g := Calls(o.table, GetArgs(req.key), true, back).result;
              g.Some? && Returns(Met(o.table, GetArgs(req.key), back, j), GetArgs(req.key), j > 0, g.value)
    {
      AnswerExactly(o.table, GetArgs(req.key), true, back, j);
    }
  }
}
