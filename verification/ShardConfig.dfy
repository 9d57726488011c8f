/**
 * Balancing shards over groups in place (src/shardkv/shardcfg/shardcfg.go).
 *
 * `Fair` is what the greedy loops keep; it makes the outcome minimal and, from a balanced start,
 * confines the moves to groups that join or leave.
 */
module ShardConfig {
  import opened ShardGroup
  import opened ShardCounting

  // ----- what the loops keep -----

  ghost predicate Gained(a: Shards, b: Shards, g: Gid)
    requires |a| == |b|
  {
    Left(b, a, g) > 0
  }

  ghost predicate Gave(a: Shards, b: Shards, g: Gid)
    requires |a| == |b|
  {
    Left(a, b, g) > 0
  }

  /**
   * From a to b, g did not both gain and give; if it gained it is among the least loaded, if it
   * gave it is among the most loaded, and a gainer is not above it.
   */
  ghost predicate FairAt(a: Shards, b: Shards, g: Gid, h: Gid)
    requires |a| == |b|
  {
    && !(Gained(a, b, g) && Gave(a, b, g))
    && (Gained(a, b, g) ==> Count(b, g) <= Count(b, h) + 1)
    && (Gave(a, b, g) ==> Count(b, h) <= Count(b, g) + 1)
    && (Gave(a, b, g) && Gained(a, b, h) ==> Count(b, h) <= Count(b, g))
  }

  ghost predicate Fair(groups: set<Gid>, a: Shards, b: Shards) {
    && |a| == |b|
    && forall g, h {:trigger FairAt(a, b, g, h)} :: g in groups && h in groups ==> FairAt(a, b, g, h)
  }

  ghost predicate IsMost(groups: set<Gid>, a: Shards, m: Gid) {
    m in groups && forall g :: g in groups ==> Count(a, g) <= Count(a, m)
  }

  ghost predicate IsLeast(groups: set<Gid>, a: Shards, l: Gid) {
    l in groups && forall g :: g in groups ==> Count(a, l) <= Count(a, g)
  }

  /** The smallest id among the most loaded groups, and its load. */
  ghost predicate FirstMost(groups: set<Gid>, a: Shards, m: int, n: int) {
    m >= 0 && IsMost(groups, a, m) && n == Count(a, m) && forall g :: g in groups && Count(a, g) == n ==> m <= g
  }

  ghost predicate FirstLeast(groups: set<Gid>, a: Shards, l: int, n: int) {
    l >= 0 && IsLeast(groups, a, l) && n == Count(a, l) && forall g :: g in groups && Count(a, g) == n ==> l <= g
  }

  /** A group with a larger id replaces the first one only if its load is larger. */
  lemma MostExtends(seen: set<Gid>, a: Shards, m: int, n: int, g: Gid)
    requires if seen == {} then n == -1 else FirstMost(seen, a, m, n)
    requires forall h :: h in seen ==> h < g
    ensures if Count(a, g) > n then FirstMost(seen + {g}, a, g, Count(a, g)) else FirstMost(seen + {g}, a, m, n)
  {
  }

  lemma LeastExtends(seen: set<Gid>, a: Shards, l: int, n: int, g: Gid)
    requires if seen == {} then n > Count(a, g) else FirstLeast(seen, a, l, n)
    requires forall h :: h in seen ==> h < g
    ensures if Count(a, g) < n then FirstLeast(seen + {g}, a, g, Count(a, g)) else FirstLeast(seen + {g}, a, l, n)
  {
  }

  lemma StartIsFair(groups: set<Gid>, a: Shards)
    ensures Fair(groups, a, a)
  {
    ChangedBounds(a, a);
  }

  /** Where the counts of a group stand after one shard is reassigned. */
  lemma Reassigned(a: Shards, b: Shards, b': Shards, s: nat, to: Gid, g: Gid)
    requires |a| == |b| && s < |a| && b' == b[s := to] && b[s] == a[s] != to
    ensures Left(a, b', g) == Left(a, b, g) + if g == a[s] then 1 else 0
    ensures Left(b', a, g) == Left(b, a, g) + if g == to then 1 else 0
    ensures Count(b', g) + (if g == a[s] then 1 else 0) == Count(b, g) + if g == to then 1 else 0
  {
    LeftUpdate(a, b, s, to, g);
    GainUpdate(a, b, s, to, g);
    CountUpdate(b, s, to, g);
  }

  /** An orphan goes to a least loaded group. */
  lemma FillIsFair(groups: set<Gid>, a: Shards, b: Shards, b': Shards, s: nat, l: Gid)
    requires Fair(groups, a, b) && IsLeast(groups, b, l)
    requires forall g :: g in groups ==> !Gave(a, b, g)
    requires s < |a| && a[s] !in groups && b[s] == a[s] && b' == b[s := l]
    ensures Fair(groups, a, b')
    ensures forall g :: g in groups ==> !Gave(a, b', g)
  {
    forall g, h | g in groups && h in groups ensures FairAt(a, b', g, h) && !Gave(a, b', g) {
      assert FairAt(a, b, g, h);
      Reassigned(a, b, b', s, l, g);
      Reassigned(a, b, b', s, l, h);
    }
  }

  /** A shard goes from a most to a least loaded group, two or more apart: it was not moved before. */
  lemma MoveIsFair(groups: set<Gid>, a: Shards, b: Shards, b': Shards, s: nat, m: Gid, l: Gid)
    requires Fair(groups, a, b) && IsMost(groups, b, m) && IsLeast(groups, b, l) && Count(b, m) >= Count(b, l) + 2
    requires s < |a| && b[s] == m && b' == b[s := l]
    ensures a[s] == m
    ensures Fair(groups, a, b')
  {
    assert FairAt(a, b, m, l) && FairAt(a, b, l, m);
    LeftPositive(b, a, m);
    forall g, h | g in groups && h in groups ensures FairAt(a, b', g, h) {
      assert FairAt(a, b, g, h) && FairAt(a, b, g, l) && FairAt(a, b, g, m);
      assert FairAt(a, b, h, g) && FairAt(a, b, h, l) && FairAt(a, b, h, m);
      MovePair(a, b, b', s, m, l, g, h);
    }
  }

  lemma MovePair(a: Shards, b: Shards, b': Shards, s: nat, m: Gid, l: Gid, g: Gid, h: Gid)
    requires |a| == |b| && s < |a| && a[s] == b[s] == m && b' == b[s := l] && Count(b, m) >= Count(b, l) + 2
    requires Count(b, l) <= Count(b, g) <= Count(b, m) && Count(b, l) <= Count(b, h) <= Count(b, m)
    requires FairAt(a, b, g, h) && FairAt(a, b, g, l) && FairAt(a, b, g, m)
    requires FairAt(a, b, h, l) && FairAt(a, b, h, m)
    ensures FairAt(a, b', g, h)
  {
    Reassigned(a, b, b', s, l, g);
    Reassigned(a, b, b', s, l, h);
  }

  // ----- what follows -----

  lemma FairMeansMinimal(groups: set<Gid>, a: Shards, b: Shards, t: Shards)
    requires groups != {} && Fair(groups, a, b) && Full(groups, b) && Balanced(groups, b)
    requires |t| == |a| && Full(groups, t) && Balanced(groups, t)
    ensures Changed(a, b) <= Changed(a, t)
  {
    forall g | g in groups ensures Left(a, b, g) == 0 || Left(b, a, g) == 0 {
      assert FairAt(a, b, g, g);
    }
    forall g, h | g in groups && h in groups && Count(b, g) < Count(a, g) && Count(b, h) > Count(a, h)
      ensures Count(b, h) <= Count(b, g)
    {
      assert FairAt(a, b, g, h);
      CountBalance(a, b, g);
      CountBalance(a, b, h);
    }
    FairIsMinimal(groups, a, b, t);
  }

  /** No balanced assignment to the groups reassigns fewer shards than b does. */
  ghost predicate Minimal(groups: set<Gid>, a: Shards, b: Shards)
    requires |a| == |b|
  {
    forall t: Shards {:trigger Changed(a, t)} ::
      |t| == |a| && Full(groups, t) && Balanced(groups, t) ==> Changed(a, b) <= Changed(a, t)
  }

  lemma FairIsMinimalForAll(groups: set<Gid>, a: Shards, b: Shards)
    requires groups != {} && Fair(groups, a, b) && Full(groups, b) && Balanced(groups, b)
    ensures Minimal(groups, a, b)
  {
    forall t: Shards | |t| == |a| && Full(groups, t) && Balanced(groups, t) ensures Changed(a, b) <= Changed(a, t) {
      FairMeansMinimal(groups, a, b, t);
    }
  }

  /** A gainer and a giver were two apart to begin with. */
  lemma FairApart(groups: set<Gid>, a: Shards, b: Shards, g: Gid, h: Gid)
    requires Fair(groups, a, b) && g in groups && h in groups && Gave(a, b, g) && Gained(a, b, h)
    ensures Count(a, h) + 2 <= Count(a, g)
  {
    assert FairAt(a, b, g, h) && FairAt(a, b, h, g);
    CountBalance(a, b, g);
    CountBalance(a, b, h);
  }

  /** From a balanced, full configuration, shards move only to groups that join. */
  lemma JoinMovesToJoiners(before: set<Gid>, joining: set<Gid>, a: Shards, b: Shards, s: nat)
    requires Full(before, a) && Balanced(before, a) && before !! joining
    requires Fair(before + joining, a, b) && Full(before + joining, b)
    requires s < |a| && b[s] != a[s]
    ensures b[s] in joining
  {
    LeftPositive(a, b, a[s]);
    LeftPositive(b, a, b[s]);
    FairApart(before + joining, a, b, a[s], b[s]);
  }

  /** From a balanced, full configuration, exactly the shards of groups that leave move. */
  lemma LeaveMovesLeavers(before: set<Gid>, leaving: set<Gid>, a: Shards, b: Shards, s: nat)
    requires Full(before, a) && Balanced(before, a)
    requires Fair(before - leaving, a, b) && Full(before - leaving, b)
    requires s < |a|
    ensures b[s] != a[s] <==> a[s] in leaving
  {
    if b[s] != a[s] && a[s] !in leaving {
      LeftPositive(a, b, a[s]);
      LeftPositive(b, a, b[s]);
      FairApart(before - leaving, a, b, a[s], b[s]);
    }
  }

  // ----- the configuration -----

  datatype Result = Exits | Returned(ok: bool)

  ghost predicate Share(a: seq<string>, b: seq<string>) {
    exists name :: name in a && name in b
  }

  /** None of the joining groups lists a server of a group that is there, or of another that joins. */
  ghost predicate NoClash(before: map<Gid, seq<string>>, servers: map<Gid, seq<string>>, joining: set<Gid>)
    requires joining <= servers.Keys
  {
    forall g :: g in joining ==>
      && (forall x :: x in before ==> !Share(servers[g], before[x]))
      && (forall x :: x in joining && x != g ==> !Share(servers[g], servers[x]))
  }

  /** The groups are those before and the ones that joined, which are new. */
  ghost predicate IsJoined(before: map<Gid, seq<string>>, servers: map<Gid, seq<string>>, joined: set<Gid>,
                           groups: map<Gid, seq<string>>)
  {
    && joined <= servers.Keys && before.Keys !! joined
    && groups.Keys == before.Keys + joined
    && forall g :: g in groups ==> groups[g] == if g in joined then servers[g] else before[g]
  }

  lemma JoinOne(before: map<Gid, seq<string>>, servers: map<Gid, seq<string>>, joined: set<Gid>,
                groups: map<Gid, seq<string>>, gid: Gid)
    requires IsJoined(before, servers, joined, groups) && NoClash(before, servers, joined)
    requires gid in servers && gid !in groups
    ensures IsJoined(before, servers, joined + {gid}, groups[gid := servers[gid]])
    ensures if exists x :: x in groups && Share(servers[gid], groups[x])
            then !NoClash(before, servers, servers.Keys)
            else NoClash(before, servers, joined + {gid})
  {
    if x :| x in groups && Share(servers[gid], groups[x]) {
      assert x in servers || x in before;
    } else {
      forall x | x in joined ensures !Share(servers[gid], servers[x]) && !Share(servers[x], servers[gid]) {
        assert x in groups;
      }
      forall x | x in before ensures !Share(servers[gid], before[x]) {
        assert x in groups;
      }
    }
  }

  ghost predicate MayJoin(before: map<Gid, seq<string>>, servers: map<Gid, seq<string>>) {
    servers != map[] && before.Keys !! servers.Keys && NoClash(before, servers, servers.Keys)
  }

  /** The first group in the list that is not there, or no longer. */
  ghost predicate StopsAt(before: map<Gid, seq<string>>, gids: seq<Gid>, i: nat) {
    && i < |gids| && (gids[i] !in before || gids[i] in gids[..i])
    && Distinct(gids[..i]) && forall g :: g in gids[..i] ==> g in before
  }

  lemma OneStop(before: map<Gid, seq<string>>, gids: seq<Gid>, i: nat)
    requires StopsAt(before, gids, i)
    ensures forall j: nat :: StopsAt(before, gids, j) ==> j == i
  {
    forall j: nat | StopsAt(before, gids, j) ensures j == i {
      if j < i { StopsOnce(before, gids, j, i); }
      if i < j { StopsOnce(before, gids, i, j); }
    }
  }

  lemma StopsOnce(before: map<Gid, seq<string>>, gids: seq<Gid>, i: nat, j: nat)
    requires i < j && StopsAt(before, gids, i)
    ensures !StopsAt(before, gids, j)
  {
    if j < |gids| {
      assert gids[..j][i] == gids[i];
      if gids[i] in gids[..i] {
        var k :| 0 <= k < i && gids[k] == gids[i];
        assert gids[..j][k] == gids[..j][i];
      }
    }
  }

  ghost predicate MayLeave(before: map<Gid, seq<string>>, gids: seq<Gid>) {
    gids != [] && Distinct(gids) && forall g :: g in gids ==> g in before
  }

  ghost predicate Sorted(gs: seq<Gid>) {
    forall i, j :: 0 <= i < j < |gs| ==> gs[i] < gs[j]
  }

  lemma HasLeast(left: set<Gid>) returns (g: Gid)
    requires left != {}
    ensures g in left && forall h :: h in left ==> g <= h
  {
    var e :| e in left;
    if left == {e} {
      g := e;
    } else {
      var f := HasLeast(left - {e});
      g := if f < e then f else e;
      assert forall h :: h in left ==> h == e || h in left - {e};
    }
  }

  method SortedGids(groups: set<Gid>) returns (gs: seq<Gid>)
    ensures Sorted(gs) && forall g :: g in gs <==> g in groups
  {
    gs := [];
    var left := groups;
    while left != {}
      invariant left <= groups && Sorted(gs)
      invariant forall g :: g in gs <==> g in groups && g !in left
      invariant forall i, h :: 0 <= i < |gs| && h in left ==> gs[i] < h
    {
      ghost var least := HasLeast(left);
      var g :| g in left && forall h :: h in left ==> g <= h;
      gs := gs + [g];
      left := left - {g};
    }
  }

  class ShardConfig {
    var num: nat
    const shards: array<Gid>
    var groups: map<Gid, seq<string>>

    ghost predicate Valid() {
      shards.Length == NSHARDS
    }

    constructor ()
      ensures Valid() && num == 0 && groups == map[] && forall s: Shard :: shards[s] == 0
    {
      num := 0;
      shards := new Gid[NSHARDS](_ => 0);
      groups := map[];
    }

    method CountShards() returns (counts: map<Gid, nat>)
      requires Valid()
      ensures forall g: Gid :: (if g in counts then counts[g] else 0) == Count(shards[..], g)
    {
      counts := map[];
      for i := 0 to NSHARDS
        invariant forall g: Gid :: (if g in counts then counts[g] else 0) == Count(shards[..i], g)
      {
        assert shards[..i + 1][..i] == shards[..i];
        var g := shards[i];
        counts := counts[g := (if g in counts then counts[g] else 0) + 1];
      }
      assert shards[..NSHARDS] == shards[..];
    }

    /** The most and the least loaded group, of several the one with the smallest id. */
    method Analyze() returns (mg: int, mn: int, lg: int, ln: int)
      requires Valid()
      ensures groups == map[] ==> (mg, mn, lg, ln) == (-1, -1, -1, 257)
      ensures groups != map[] ==> FirstMost(groups.Keys, shards[..], mg, mn) && FirstLeast(groups.Keys, shards[..], lg, ln)
    {
      ghost var a := shards[..];
      var counts := CountShards();
      mg, mn, lg, ln := -1, -1, -1, 257;
      var gs := SortedGids(groups.Keys);
      ghost var seen: set<Gid> := {};
      for i := 0 to |gs|
        invariant seen == set j | 0 <= j < i :: gs[j]
        invariant i == 0 ==> (mg, mn, lg, ln) == (-1, -1, -1, 257)
        invariant i > 0 ==> FirstMost(seen, a, mg, mn) && FirstLeast(seen, a, lg, ln)
      {
        var g := gs[i];
        var n := if g in counts then counts[g] else 0;
        CountPositive(a, g);
        MostExtends(seen, a, mg, mn, g);
        LeastExtends(seen, a, lg, ln, g);
        if n < ln {
          ln, lg := n, g;
        }
        if n > mn {
          mn, mg := n, g;
        }
        seen := seen + {g};
      }
      assert seen == groups.Keys by {
        assert forall g :: g in gs ==> exists j :: 0 <= j < |gs| && gs[j] == g;
      }
      if groups != map[] {
        var g :| g in groups.Keys;
        assert g in gs;
      }
    }

    /**
     * Every shard goes to a group of the configuration, the groups end up balanced, and no shard is
     * written twice: `written` lists the writes. Without groups every shard is unassigned.
     */
    method Rebalance() returns (ghost written: seq<nat>)
      requires Valid()
      modifies shards
      ensures groups == map[] ==> forall s: Shard :: shards[s] == 0
      ensures groups != map[] ==>
        && Full(groups.Keys, shards[..]) && Balanced(groups.Keys, shards[..])
        && Fair(groups.Keys, old(shards[..]), shards[..])
        && Tracks(old(shards[..]), written)
        && Minimal(groups.Keys, old(shards[..]), shards[..])
    {
      written := [];
      if groups == map[] {
        for s := 0 to NSHARDS
          invariant forall t: Shard :: t < s ==> shards[t] == 0
        {
          shards[s] := 0;
        }
        return;
      }
      written := AssignOrphans();
      written := MoveShards(old(shards[..]), written);
      FairIsMinimalForAll(groups.Keys, old(shards[..]), shards[..]);
    }

    /** The shards listed are those that differ from a, each listed once. */
    ghost predicate Tracks(a: Shards, written: seq<nat>)
      requires Valid() && |a| == NSHARDS
      reads shards
    {
      Distinct(written) && forall s: nat :: s in written <==> s < NSHARDS && shards[s] != a[s]
    }

    method AssignOrphans() returns (ghost written: seq<nat>)
      requires Valid() && groups != map[]
      modifies shards
      ensures Full(groups.Keys, shards[..]) && Fair(groups.Keys, old(shards[..]), shards[..])
      ensures Tracks(old(shards[..]), written)
      ensures forall s: Shard :: old(shards[s]) in groups ==> shards[s] == old(shards[s])
    {
      written := [];
      ghost var a := shards[..];
      ghost var b := a;
      StartIsFair(groups.Keys, a);
      ChangedBounds(a, a);
      for s := 0 to NSHARDS
        invariant b == shards[..]
        invariant Fair(groups.Keys, a, b) && forall g :: g in groups ==> !Gave(a, b, g)
        invariant forall t: Shard :: if t < s then b[t] in groups else b[t] == a[t]
        invariant forall t: Shard :: a[t] in groups ==> b[t] == a[t]
        invariant Tracks(a, written)
      {
        if shards[s] !in groups {
          var _, _, lg, _ := Analyze();
          FillIsFair(groups.Keys, a, b, b[s := lg as Gid], s, lg);
          shards[s] := lg;
          b := b[s := lg as Gid];
          written := written + [s];
        }
      }
    }

    method MoveShards(ghost a: Shards, ghost before: seq<nat>) returns (ghost written: seq<nat>)
      requires Valid() && groups != map[] && |a| == NSHARDS
      requires Full(groups.Keys, shards[..]) && Fair(groups.Keys, a, shards[..]) && Tracks(a, before)
      modifies shards
      ensures Full(groups.Keys, shards[..]) && Fair(groups.Keys, a, shards[..]) && Balanced(groups.Keys, shards[..])
      ensures Tracks(a, written) && before <= written
    {
      written := before;
      ghost var b := shards[..];
      ChangedBounds(a, b);
      while true
        invariant b == shards[..]
        invariant Full(groups.Keys, b) && Fair(groups.Keys, a, b)
        invariant Tracks(a, written) && before <= written
        invariant Changed(a, b) <= NSHARDS
        decreases NSHARDS - Changed(a, b)
      {
        var mg, mn, lg, ln := Analyze();
        if mn < ln + 2 {
          break;
        }
        var s := FindShard(mg);
        ghost var b' := b[s := lg as Gid];
        MoveIsFair(groups.Keys, a, b, b', s, mg, lg);
        ChangedUpdate(a, b, s, lg);
        ChangedBounds(a, b');
        shards[s] := lg;
        b := b';
        written := written + [s];
      }
    }

    /** The first shard of the group. */
    method FindShard(g: Gid) returns (s: Shard)
      requires Valid() && Count(shards[..], g) > 0
      ensures shards[s] == g && forall t: Shard :: t < s ==> shards[t] != g
    {
      CountPositive(shards[..], g);
      s := 0;
      while shards[s] != g
        invariant forall t: Shard :: t < s ==> shards[t] != g
        decreases NSHARDS - s
      {
        assert g in shards[..];
        assert exists t: Shard :: shards[t] == g;
        s := s + 1;
      }
    }

    // ----- Join and Leave -----

    /** Does any group list one of these servers? */
    method FindClash(names: seq<string>) returns (clash: bool)
      ensures clash <==> exists x :: x in groups && Share(names, groups[x])
    {
      var left := groups.Keys;
      while left != {}
        invariant left <= groups.Keys
        invariant forall x :: x in groups && x !in left ==> !Share(names, groups[x])
      {
        var x :| x in left;
        for i := 0 to |groups[x]|
          invariant forall k :: 0 <= k < i ==> groups[x][k] !in names
        {
          for j := 0 to |names|
            invariant forall k :: 0 <= k < j ==> groups[x][i] != names[k]
          {
            if groups[x][i] == names[j] {
              assert names[j] in names && names[j] in groups[x];
              return true;
            }
          }
        }
        left := left - {x};
      }
      clash := false;
    }

    /**
     * The groups are taken in any order. A group that is already there ends the call after the
     * ones before it were added; a server listed twice ends the process.
     */
    method Join(servers: map<Gid, seq<string>>) returns (o: Result)
      modifies this
      ensures o == Returned(true) ==> MayJoin(old(groups), servers) && groups == old(groups) + servers && num == old(num) + 1
      ensures o == Returned(false) ==> old(groups).Keys * servers.Keys != {}
      ensures o != Returned(true) ==> num == old(num)
      ensures o == Exits ==> servers == map[] || !NoClash(old(groups), servers, servers.Keys)
      ensures forall g :: g in old(groups) ==> g in groups && groups[g] == old(groups)[g]
      ensures forall g :: g in groups && g !in old(groups) ==> g in servers && groups[g] == servers[g]
    {
      ghost var before, joined: set<Gid> := groups, {};
      var left := servers.Keys;
      while left != {}
        invariant joined == servers.Keys - left && left <= servers.Keys
        invariant IsJoined(before, servers, joined, groups) && NoClash(before, servers, joined)
        invariant num == old(num)
      {
        var gid :| gid in left;
        if gid in groups {
          return Returned(false);
        }
        var clash := FindClash(servers[gid]);
        JoinOne(before, servers, joined, groups, gid);
        if clash {
          return Exits;
        }
        groups := groups[gid := servers[gid]];
        left, joined := left - {gid}, joined + {gid};
      }
      assert joined == servers.Keys;
      if servers == map[] {
        return Exits;
      }
      num := num + 1;
      o := Returned(true);
    }

    /** A group that is not there ends the call after the ones before it were removed. */
    method Leave(gids: seq<Gid>) returns (o: Result)
      modifies this
      ensures o == Exits <==> gids == []
      ensures o == Returned(true) <==> MayLeave(old(groups), gids)
      ensures o == Returned(true) ==> groups == old(groups) - (set g | g in gids) && num == old(num) + 1
      ensures o != Returned(true) ==> num == old(num)
      ensures forall i: nat :: StopsAt(old(groups), gids, i) ==> groups == old(groups) - (set g | g in gids[..i])
      ensures o == Exits ==> groups == old(groups)
      ensures forall g :: g in groups ==> g in old(groups) && groups[g] == old(groups)[g]
    {
      for i := 0 to |gids|
        invariant groups == old(groups) - (set g | g in gids[..i])
        invariant Distinct(gids[..i]) && forall g :: g in gids[..i] ==> g in old(groups)
        invariant num == old(num)
      {
        if gids[i] !in groups {
          assert !MayLeave(old(groups), gids);
          OneStop(old(groups), gids, i);
          return Returned(false);
        }
        groups := groups - {gids[i]};
        assert gids[..i + 1] == gids[..i] + [gids[i]];
      }
      assert gids[..|gids|] == gids;
      if gids == [] {
        return Exits;
      }
      num := num + 1;
      o := Returned(true);
    }

    /** A balanced configuration gives shards only to the groups that join, and as few as can be. */
    method JoinBalance(servers: map<Gid, seq<string>>) returns (o: Result)
      requires Valid()
      modifies this, shards
      ensures o == Returned(true) ==>
        && groups == old(groups) + servers && num == old(num) + 1
        && Full(groups.Keys, shards[..]) && Balanced(groups.Keys, shards[..])
        && Minimal(groups.Keys, old(shards[..]), shards[..])
      ensures o == Returned(true) && Full(old(groups).Keys, old(shards[..])) && Balanced(old(groups).Keys, old(shards[..])) ==>
        forall s: Shard :: shards[s] != old(shards[s]) ==> shards[s] in servers
      ensures o != Returned(true) ==> shards[..] == old(shards[..]) && num == old(num)
    {
      o := Join(servers);
      if o == Returned(true) {
        assert groups.Keys == old(groups).Keys + servers.Keys;
        ghost var _ := Rebalance();
        if Full(old(groups).Keys, old(shards[..])) && Balanced(old(groups).Keys, old(shards[..])) {
          forall s: Shard | shards[s] != old(shards[s]) ensures shards[s] in servers {
            JoinMovesToJoiners(old(groups).Keys, servers.Keys, old(shards[..]), shards[..], s);
          }
        }
      }
    }

    /** A balanced configuration that keeps a group moves exactly the leavers' shards. */
    method LeaveBalance(gids: seq<Gid>) returns (o: Result)
      requires Valid()
      modifies this, shards
      ensures o == Returned(true) <==> MayLeave(old(groups), gids)
      ensures o == Returned(true) ==> groups == old(groups) - (set g | g in gids) && num == old(num) + 1
      ensures o == Returned(true) && groups == map[] ==> forall s: Shard :: shards[s] == 0
      ensures o == Returned(true) && groups != map[] ==>
        && Full(groups.Keys, shards[..]) && Balanced(groups.Keys, shards[..])
        && Minimal(groups.Keys, old(shards[..]), shards[..])
      ensures o == Returned(true) && groups != map[] &&
              Full(old(groups).Keys, old(shards[..])) && Balanced(old(groups).Keys, old(shards[..])) ==>
        forall s: Shard :: shards[s] != old(shards[s]) <==> old(shards[s]) in gids
      ensures o != Returned(true) ==> shards[..] == old(shards[..]) && num == old(num)
    {
      o := Leave(gids);
      if o == Returned(true) {
        ghost var leaving := set g | g in gids;
        assert groups.Keys == old(groups).Keys - leaving;
        ghost var _ := Rebalance();
        if groups != map[] && Full(old(groups).Keys, old(shards[..])) && Balanced(old(groups).Keys, old(shards[..])) {
          forall s: Shard ensures shards[s] != old(shards[s]) <==> old(shards[s]) in gids {
            LeaveMovesLeavers(old(groups).Keys, leaving, old(shards[..]), shards[..], s);
          }
        }
      }
    }
  }
}
