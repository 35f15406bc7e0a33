/** The ShardConfig object of shardcfg.go: joining, leaving and rebalancing in place. */
module ShardConfig {
  import opened Sums
  import opened ShardLoads
  import opened ShardBalance

  datatype Outcome = Done | Refused | Died

  /** slices.Sort over the keys of a map. */
  method SortedKeys(S: set<int>) returns (gs: seq<int>)
    ensures forall x :: x in S <==> x in gs
    ensures forall i, j :: 0 <= i < j < |gs| ==> gs[i] < gs[j]
  {
    gs := [];
    var rest := S;
    while rest != {}
      invariant rest <= S
      invariant forall x :: x in S <==> x in rest || x in gs
      invariant forall i, j :: 0 <= i < j < |gs| ==> gs[i] < gs[j]
      invariant forall i, x :: 0 <= i < |gs| && x in rest ==> gs[i] < x
    {
      var x := Smallest(rest);
      gs := gs + [x];
      rest := rest - {x};
    }
  }

  method Smallest(S: set<int>) returns (x: int)
    requires S != {}
    ensures x in S && forall y :: y in S ==> x <= y
  {
    SomeMember(S);
    x :| x in S;
    var rest := S - {x};
    while rest != {}
      invariant rest <= S && x in S
      invariant forall y :: y in S && y !in rest ==> x <= y
    {
      SomeMember(rest);
      var y :| y in rest;
      if y < x { x := y; }
      rest := rest - {y};
    }
  }

  predicate Share(a: seq<string>, b: seq<string>) {
    exists i :: 0 <= i < |a| && a[i] in b
  }

  /** Some new group has a server that another group also has. */
  predicate Clash(groups: map<int, seq<string>>, servers: map<int, seq<string>>) {
    exists x, g :: x in groups && g in servers && x != g && Share(groups[x], servers[g])
  }

  /** A join goes through: there are new groups, none exists yet, none shares a server with another. */
  ghost predicate Joins(was: map<int, seq<string>>, servers: map<int, seq<string>>) {
    servers != map[] && servers.Keys !! was.Keys && !Clash(was + servers, servers)
  }

  /** Some group to be added has a server of another group, old or new. */
  ghost predicate Collides(was: map<int, seq<string>>, servers: map<int, seq<string>>) {
    exists g, x :: g in servers && x != g &&
      ((x in was && Share(was[x], servers[g])) || (x in servers && Share(servers[x], servers[g])))
  }

  /** A leave goes through: there are groups to remove, all members, none named twice. */
  ghost predicate Leaves(was: map<int, seq<string>>, gids: seq<int>) {
    && gids != [] && (forall i :: 0 <= i < |gids| ==> gids[i] in was)
    && forall i, j :: 0 <= i < j < |gids| ==> gids[i] != gids[j]
  }

  /** now is was with some of the new groups, none of them old. */
  ghost predicate PartlyJoined(was: map<int, seq<string>>, now: map<int, seq<string>>, servers: map<int, seq<string>>) {
    && (forall g :: g in was ==> g in now && now[g] == was[g])
    && (forall g :: g in now && g !in was ==> g in servers && now[g] == servers[g])
  }

  /** now is was without the groups named before position i, the first that is missing by then. */
  ghost predicate PartlyLeft(was: map<int, seq<string>>, now: map<int, seq<string>>, gids: seq<int>) {
    exists i :: 0 <= i < |gids| && gids[i] !in now && now == was - (set g | g in gids[..i])
  }

  class ShardConfig {
    var num: int
    const shards: array<int>
    var groups: map<int, seq<string>>

    constructor (n: nat)
      ensures fresh(shards) && shards.Length == n && num == 0 && groups == map[]
      ensures forall i :: 0 <= i < n ==> shards[i] == 0
    {
      shards := new int[n](_ => 0);
      num, groups := 0, map[];
    }

    /** Which groups carry the most and the fewest shards, and how many. */
    method Analyze() returns (mostGroup: int, mostNum: int, leastGroup: int, leastNum: int)
      ensures groups == map[] ==> mostGroup == -1 && mostNum == -1 && leastGroup == -1 && leastNum == SENTINEL
      ensures groups != map[] ==>
                var s, S := shards[..], groups.Keys;
                && mostGroup == Most(s, S) && mostNum == Count(s, Most(s, S))
                && leastGroup == LeastFound(s, S)
                && leastNum == if Count(s, Least(s, S)) < SENTINEL then Count(s, Least(s, S)) else SENTINEL
    {
      var counts := CountShards();
      var gids := SortedKeys(groups.Keys);
      mostGroup, mostNum, leastGroup, leastNum := Extremes(shards[..], counts, gids);
      if groups != map[] {
        SomeMember(groups.Keys);
        AnalysisIsRight(shards[..], groups.Keys, gids, mostGroup, mostNum, leastGroup, leastNum);
      }
    }

    method CountShards() returns (counts: map<int, nat>)
      ensures IsTally(counts, shards[..])
    {
      counts := map[];
      var i := 0;
      while i < shards.Length
        invariant 0 <= i <= shards.Length
        invariant IsTally(counts, shards[..i])
      {
        var gid := shards[i];
        assert shards[..i + 1][..i] == shards[..i];
        counts := counts[gid := Tally(counts, gid) + 1];
        i := i + 1;
      }
      assert shards[..i] == shards[..];
    }

    method Rebalance()
      requires groups != map[] ==> shards.Length <= SENTINEL * |groups|
      modifies shards
      ensures shards[..] == Rebalanced(old(shards[..]), groups.Keys)
    {
      if |groups| < 1 {
        var i := 0;
        while i < shards.Length
          invariant 0 <= i <= shards.Length
          invariant forall j :: 0 <= j < i ==> shards[j] == 0
        {
          shards[i] := 0;
          i := i + 1;
        }
        return;
      }
      FillMembers(shards[..], groups.Keys, 0);
      AssignUnassigned();
      LevelLoads();
    }

    /** The first loop: shards of groups that are gone. */
    method AssignUnassigned()
      requires groups != map[]
      modifies shards
      ensures shards[..] == Fill(old(shards[..]), groups.Keys, 0)
    {
      var i := 0;
      while i < shards.Length
        invariant 0 <= i <= shards.Length
        invariant Fill(shards[..], groups.Keys, i) == Fill(old(shards[..]), groups.Keys, 0)
      {
        if shards[i] !in groups {
          ghost var s := shards[..];
          var _, _, leastGroup, _ := Analyze();
          shards[i] := leastGroup;
          assert shards[..] == s[i := leastGroup];
        }
        i := i + 1;
      }
    }

    /** The second loop: from the most to the least loaded. */
    method LevelLoads()
      requires shards.Length <= SENTINEL * |groups| && groups != map[] && OnMembers(shards[..], groups.Keys)
      modifies shards
      ensures shards[..] == Level(old(shards[..]), groups.Keys)
    {
      ghost var S := groups.Keys;
      while true
        invariant OnMembers(shards[..], S)
        invariant Level(shards[..], S) == Level(old(shards[..]), S)
        decreases Sum(Squares(shards[..]), S)
      {
        ghost var s := shards[..];
        var mostGroup, mostNum, leastGroup, leastNum := Analyze();
        if Count(s, Least(s, S)) >= SENTINEL { FullIsLevel(s, S); }
        if mostNum < leastNum + 2 { break; }
        CountBound(s, mostGroup);
        SquaresDrop(s, S, First(s, mostGroup), leastGroup);
        MoveOne(mostGroup, leastGroup);
      }
    }

    method MoveOne(mostGroup: int, leastGroup: int)
      requires mostGroup in shards[..]
      modifies shards
      ensures shards[..] == old(shards[..])[First(old(shards[..]), mostGroup) := leastGroup]
    {
      ghost var s := shards[..];
      var k := 0;
      while shards[k] != mostGroup
        invariant 0 <= k <= First(s, mostGroup) && mostGroup !in s[..k]
        decreases |s| - k
      {
        k := k + 1;
      }
      FirstIs(s, mostGroup, k);
      shards[k] := leastGroup;
      assert shards[..] == s[k := leastGroup];
    }

    /** Adds groups. A gid that exists refuses (some others may have been added), a shared server is fatal. */
    method Join(servers: map<int, seq<string>>) returns (r: Outcome)
      modifies this
      ensures r == Done <==> Joins(old(groups), servers)
      ensures r == Done ==> groups == old(groups) + servers && num == old(num) + 1
      ensures r != Done ==> num == old(num)
      ensures r == Refused ==> servers.Keys * old(groups).Keys != {} && PartlyJoined(old(groups), groups, servers)
      ensures r == Died ==> servers == map[] || Collides(old(groups), servers)
    {
      ghost var was := groups;
      var todo := servers.Keys;
      while todo != {}
        invariant JoinedTo(was, groups, servers, todo) && num == old(num)
      {
        SomeMember(todo);
        var gid :| gid in todo;
        if gid in groups {
          StillJoining(was, groups, servers, todo, gid);
          return Refused;
        }
        if exists x :: x in groups && Share(groups[x], servers[gid]) {
          ghost var x :| x in groups && Share(groups[x], servers[gid]);
          ClashSeen(was, groups, servers, todo, gid, x);
          return Died;
        }
        JoinOne(was, groups, servers, todo, gid);
        groups := groups[gid := servers[gid]];
        todo := todo - {gid};
      }
      JoinedAll(was, groups, servers);
      if servers == map[] { return Died; }
      num := num + 1;
      return Done;
    }

    /** Removes groups; a gid that is not (or no longer) there refuses. */
    method Leave(gids: seq<int>) returns (r: Outcome)
      modifies this
      ensures r == Done <==> Leaves(old(groups), gids)
      ensures r == Died <==> gids == []
      ensures r == Done ==> groups == old(groups) - (set g | g in gids) && num == old(num) + 1
      ensures r != Done ==> num == old(num)
      ensures r == Refused ==> PartlyLeft(old(groups), groups, gids)
    {
      ghost var was := groups;
      var i := 0;
      while i < |gids|
        invariant 0 <= i <= |gids| && num == old(num)
        invariant groups == was - (set g | g in gids[..i])
        invariant forall j :: 0 <= j < i ==> gids[j] in was
        invariant forall j, k :: 0 <= j < k < i ==> gids[j] != gids[k]
      {
        if gids[i] !in groups { return Refused; }
        groups := groups - {gids[i]};
        i := i + 1;
      }
      assert gids[..i] == gids;
      if gids == [] { return Died; }
      num := num + 1;
      return Done;
    }

    method JoinBalance(servers: map<int, seq<string>>) returns (r: Outcome)
      requires shards.Length <= SENTINEL
      modifies this, shards
      ensures r == Done <==> Joins(old(groups), servers)
      ensures r == Done ==> groups == old(groups) + servers && num == old(num) + 1
                            && shards[..] == Rebalanced(old(shards[..]), groups.Keys)
      ensures r != Done ==> num == old(num) && shards[..] == old(shards[..])
      ensures r == Refused ==> servers.Keys * old(groups).Keys != {} && PartlyJoined(old(groups), groups, servers)
      ensures r == Died ==> servers == map[] || Collides(old(groups), servers)
    {
      r := Join(servers);
      if r == Done { Rebalance(); }
    }

    method LeaveBalance(gids: seq<int>) returns (r: Outcome)
      requires shards.Length <= SENTINEL
      modifies this, shards
      ensures r == Done <==> Leaves(old(groups), gids)
      ensures r == Died <==> gids == []
      ensures r == Done ==> groups == old(groups) - (set g | g in gids) && num == old(num) + 1
                            && shards[..] == Rebalanced(old(shards[..]), groups.Keys)
      ensures r != Done ==> num == old(num) && shards[..] == old(shards[..])
      ensures r == Refused ==> PartlyLeft(old(groups), groups, gids)
    {
      r := Leave(gids);
      if r == Done { Rebalance(); }
    }
  }

  function Tally(counts: map<int, nat>, g: int): nat { if g in counts then counts[g] else 0 }

  /** The counts of a Go map, where an absent key reads as zero. */
  ghost predicate IsTally(counts: map<int, nat>, s: seq<int>) {
    forall g :: Tally(counts, g) == Count(s, g)
  }

  /** The scan over the sorted gids. */
  method Extremes(ghost s: seq<int>, counts: map<int, nat>, gids: seq<int>)
    returns (mostGroup: int, mostNum: int, leastGroup: int, leastNum: int)
    requires IsTally(counts, s) && forall i, j :: 0 <= i < j < |gids| ==> gids[i] < gids[j]
    ensures gids == [] ==> mostGroup == -1 && mostNum == -1
    ensures gids != [] ==> Top(s, gids, mostGroup, mostNum)
    ensures Bottom(s, gids, leastGroup, leastNum)
  {
    mostGroup, mostNum, leastGroup, leastNum := -1, -1, -1, SENTINEL;
    var i := 0;
    while i < |gids|
      invariant 0 <= i <= |gids|
      invariant i == 0 ==> mostGroup == -1 && mostNum == -1
      invariant i > 0 ==> Top(s, gids[..i], mostGroup, mostNum)
      invariant Bottom(s, gids[..i], leastGroup, leastNum)
    {
      var n := Tally(counts, gids[i]);
      assert gids[..i + 1] == gids[..i] + [gids[i]];
      if n < leastNum { leastNum, leastGroup := n, gids[i]; }
      if n > mostNum { mostNum, mostGroup := n, gids[i]; }
      i := i + 1;
    }
    assert gids[..i] == gids;
  }

  ghost predicate Top(s: seq<int>, gs: seq<int>, m: int, mn: int) {
    && m in gs && mn == Count(s, m)
    && forall x :: x in gs ==> Count(s, x) <= mn && (Count(s, x) == mn ==> m <= x)
  }

  ghost predicate Bottom(s: seq<int>, gs: seq<int>, l: int, ln: int) {
    && ln <= SENTINEL && (ln == SENTINEL ==> l == -1) && (ln < SENTINEL ==> l in gs && ln == Count(s, l))
    && forall x :: x in gs ==> Count(s, x) >= ln && (Count(s, x) == ln < SENTINEL ==> l <= x)
  }

  /** Half-way through a join: the groups so far, with those of todo still to come. */
  ghost predicate JoinedTo(was: map<int, seq<string>>, now: map<int, seq<string>>, servers: map<int, seq<string>>, todo: set<int>) {
    && todo <= servers.Keys && (servers.Keys - todo) !! was.Keys
    && (forall g :: g in now <==> g in was || (g in servers && g !in todo))
    && (forall g :: g in now ==> now[g] == if g in servers && g !in todo then servers[g] else was[g])
    && (forall x, g :: x in now && g in servers && g !in todo && x != g ==> !Share(now[x], servers[g]))
  }

  lemma JoinOne(was: map<int, seq<string>>, now: map<int, seq<string>>, servers: map<int, seq<string>>, todo: set<int>, gid: int)
    requires JoinedTo(was, now, servers, todo) && gid in todo && gid !in now
    requires forall x :: x in now ==> !Share(now[x], servers[gid])
    ensures JoinedTo(was, now[gid := servers[gid]], servers, todo - {gid})
  {
    forall x | x in now
      ensures !Share(servers[gid], now[x])
    {
      if Share(servers[gid], now[x]) { ShareBoth(servers[gid], now[x]); }
    }
  }

  lemma ShareBoth(a: seq<string>, b: seq<string>)
    requires Share(a, b)
    ensures Share(b, a)
  {
    var i :| 0 <= i < |a| && a[i] in b;
    var j :| 0 <= j < |b| && b[j] == a[i];
    assert b[j] in a;
  }

  lemma JoinedAll(was: map<int, seq<string>>, now: map<int, seq<string>>, servers: map<int, seq<string>>)
    requires JoinedTo(was, now, servers, {})
    ensures now == was + servers && servers.Keys !! was.Keys && !Clash(was + servers, servers)
  {
    assert servers.Keys - {} == servers.Keys;
    forall g
      ensures g in now <==> g in was + servers
      ensures g in now ==> now[g] == (was + servers)[g]
    {
    }
    assert now == was + servers;
  }

  lemma StillJoining(was: map<int, seq<string>>, now: map<int, seq<string>>, servers: map<int, seq<string>>, todo: set<int>, gid: int)
    requires JoinedTo(was, now, servers, todo) && gid in todo && gid in now
    ensures servers.Keys * was.Keys != {} && PartlyJoined(was, now, servers)
  {
    assert gid in servers.Keys * was.Keys;
    assert forall g :: g in was ==> g !in servers.Keys - todo;
  }

  lemma ClashSeen(was: map<int, seq<string>>, now: map<int, seq<string>>, servers: map<int, seq<string>>, todo: set<int>, g: int, x: int)
    requires JoinedTo(was, now, servers, todo) && g in todo && g !in now && x in now && Share(now[x], servers[g])
    ensures !Joins(was, servers) && Collides(was, servers)
  {
    assert x != g && ((x in was && Share(was[x], servers[g])) || (x in servers && Share(servers[x], servers[g])));
    assert servers.Keys !! was.Keys ==> x in was + servers && now[x] == (was + servers)[x];
  }

  lemma AnalysisIsRight(s: seq<int>, S: set<int>, gs: seq<int>, m: int, mn: int, l: int, ln: int)
    requires S != {} && (forall x :: x in S <==> x in gs) && Top(s, gs, m, mn) && Bottom(s, gs, l, ln)
    ensures m == Most(s, S) && mn == Count(s, m) && l == LeastFound(s, S)
    ensures ln == if Count(s, Least(s, S)) < SENTINEL then Count(s, Least(s, S)) else SENTINEL
  {
    assert IsMost(s, S, m);
    assert ln < SENTINEL ==> IsLeast(s, S, l);
  }

  lemma {:induction false} FirstIs(s: seq<int>, g: int, k: nat)
    requires k < |s| && s[k] == g && g !in s[..k]
    ensures g in s && First(s, g) == k
  {
    var i := First(s, g);
    assert forall j :: 0 <= j < k ==> s[..k][j] == s[j] != g;
    assert forall j :: 0 <= j < i ==> s[..i][j] == s[j] != g;
  }
}
