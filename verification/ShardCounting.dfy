/** Counting the shards of each group, and why a fair redistribution moves as few shards as possible. */
module ShardCounting {
  import opened ShardGroup

  type Shards = seq<Gid>

  function Count(a: Shards, g: Gid): nat {
    if a == [] then 0 else Count(a[..|a| - 1], g) + if a[|a| - 1] == g then 1 else 0
  }

  /** How many shards of g under a are elsewhere under b. With a and b exchanged: how many g has gained. */
  function Left(a: Shards, b: Shards, g: Gid): nat
    requires |a| == |b|
  {
    if a == [] then 0
    else Left(a[..|a| - 1], b[..|a| - 1], g) + if a[|a| - 1] == g != b[|a| - 1] then 1 else 0
  }

  /** How many shards are assigned differently. */
  function Changed(a: Shards, b: Shards): nat
    requires |a| == |b|
  {
    if a == [] then 0 else Changed(a[..|a| - 1], b[..|a| - 1]) + if a[|a| - 1] != b[|a| - 1] then 1 else 0
  }

  /** How many shards belong to none of the groups. */
  function Orphans(gs: seq<Gid>, a: Shards): nat {
    if a == [] then 0 else Orphans(gs, a[..|a| - 1]) + if a[|a| - 1] !in gs then 1 else 0
  }

  ghost predicate Full(groups: set<Gid>, a: Shards) {
    forall s :: 0 <= s < |a| ==> a[s] in groups
  }

  ghost predicate Balanced(groups: set<Gid>, a: Shards) {
    forall g, h :: g in groups && h in groups ==> Count(a, g) <= Count(a, h) + 1
  }

  // ----- one shard is reassigned -----

  lemma {:induction false} CountUpdate(a: Shards, s: nat, to: Gid, g: Gid)
    requires s < |a|
    ensures Count(a[s := to], g) + (if a[s] == g then 1 else 0) == Count(a, g) + if to == g then 1 else 0
  {
    var n := |a| - 1;
    if s == n {
      assert a[s := to][..n] == a[..n];
    } else {
      assert a[s := to][..n] == a[..n][s := to];
      CountUpdate(a[..n], s, to, g);
    }
  }

  lemma {:induction false} LeftUpdate(a: Shards, b: Shards, s: nat, to: Gid, g: Gid)
    requires |a| == |b| && s < |a|
    ensures Left(a, b[s := to], g) + (if a[s] == g != b[s] then 1 else 0) == Left(a, b, g) + if a[s] == g != to then 1 else 0
  {
    var n := |a| - 1;
    if s == n {
      assert b[s := to][..n] == b[..n];
    } else {
      assert b[s := to][..n] == b[..n][s := to];
      LeftUpdate(a[..n], b[..n], s, to, g);
    }
  }

  lemma {:induction false} GainUpdate(a: Shards, b: Shards, s: nat, to: Gid, g: Gid)
    requires |a| == |b| && s < |a|
    ensures Left(b[s := to], a, g) + (if b[s] == g != a[s] then 1 else 0) == Left(b, a, g) + if to == g != a[s] then 1 else 0
  {
    var n := |a| - 1;
    if s == n {
      assert b[s := to][..n] == b[..n];
    } else {
      assert b[s := to][..n] == b[..n][s := to];
      GainUpdate(a[..n], b[..n], s, to, g);
    }
  }

  lemma {:induction false} ChangedUpdate(a: Shards, b: Shards, s: nat, to: Gid)
    requires |a| == |b| && s < |a|
    ensures Changed(a, b[s := to]) + (if a[s] != b[s] then 1 else 0) == Changed(a, b) + if a[s] != to then 1 else 0
  {
    var n := |a| - 1;
    if s == n {
      assert b[s := to][..n] == b[..n];
    } else {
      assert b[s := to][..n] == b[..n][s := to];
      ChangedUpdate(a[..n], b[..n], s, to);
    }
  }

  lemma {:induction false} CountPositive(a: Shards, g: Gid)
    ensures Count(a, g) > 0 <==> g in a
    ensures Count(a, g) <= |a|
  {
    if a != [] { CountPositive(a[..|a| - 1], g); }
  }

  lemma {:induction false} LeftPositive(a: Shards, b: Shards, g: Gid)
    requires |a| == |b|
    ensures Left(a, b, g) > 0 <==> exists s :: 0 <= s < |a| && a[s] == g != b[s]
  {
    if a != [] {
      var n := |a| - 1;
      LeftPositive(a[..n], b[..n], g);
      if Left(a, b, g) > 0 {
        if a[n] == g != b[n] {
        } else {
          var s :| 0 <= s < n && a[..n][s] == g != b[..n][s];
          assert a[s] == g != b[s];
        }
      }
      if s :| 0 <= s < |a| && a[s] == g != b[s] {
        assert s < n ==> a[..n][s] == g != b[..n][s];
      }
    }
  }

  lemma {:induction false} ChangedBounds(a: Shards, b: Shards)
    requires |a| == |b|
    ensures Changed(a, b) <= |a|
    ensures a == b ==> Changed(a, b) == 0
    ensures forall g :: a == b ==> Left(a, b, g) == 0
  {
    if a != [] {
      var n := |a| - 1;
      ChangedBounds(a[..n], b[..n]);
    }
  }

  /** What a group has is what it had, less what left, plus what it gained. */
  lemma {:induction false} CountBalance(a: Shards, b: Shards, g: Gid)
    requires |a| == |b|
    ensures Count(b, g) + Left(a, b, g) == Count(a, g) + Left(b, a, g)
  {
    if a != [] { CountBalance(a[..|a| - 1], b[..|a| - 1], g); }
  }

  // ----- sums over the groups -----

  ghost predicate Distinct<T(!new)>(gs: seq<T>) {
    forall i, j :: 0 <= i < j < |gs| ==> gs[i] != gs[j]
  }

  function Loss(a: Shards, b: Shards, g: Gid): nat {
    if Count(a, g) > Count(b, g) then Count(a, g) - Count(b, g) else 0
  }

  function SumCount(gs: seq<Gid>, a: Shards): nat {
    if gs == [] then 0 else Count(a, gs[0]) + SumCount(gs[1..], a)
  }

  function SumLeft(gs: seq<Gid>, a: Shards, b: Shards): nat
    requires |a| == |b|
  {
    if gs == [] then 0 else Left(a, b, gs[0]) + SumLeft(gs[1..], a, b)
  }

  function SumLoss(gs: seq<Gid>, a: Shards, b: Shards): nat {
    if gs == [] then 0 else Loss(a, b, gs[0]) + SumLoss(gs[1..], a, b)
  }

  lemma {:induction false} SumCountStep(gs: seq<Gid>, a: Shards)
    requires a != [] && Distinct(gs)
    ensures SumCount(gs, a) == SumCount(gs, a[..|a| - 1]) + if a[|a| - 1] in gs then 1 else 0
  {
    if gs != [] { SumCountStep(gs[1..], a); }
  }

  lemma {:induction false} SumLeftStep(gs: seq<Gid>, a: Shards, b: Shards)
    requires |a| == |b| && a != [] && Distinct(gs)
    ensures SumLeft(gs, a, b) == SumLeft(gs, a[..|a| - 1], b[..|a| - 1]) +
              if a[|a| - 1] in gs && a[|a| - 1] != b[|a| - 1] then 1 else 0
  {
    if gs != [] { SumLeftStep(gs[1..], a, b); }
  }

  /** Every shard is counted once. */
  lemma {:induction false} SumCountFull(gs: seq<Gid>, a: Shards)
    requires Distinct(gs) && forall s :: 0 <= s < |a| ==> a[s] in gs
    ensures SumCount(gs, a) == |a|
  {
    if a == [] {
      SumCountEmpty(gs);
    } else {
      SumCountStep(gs, a);
      SumCountFull(gs, a[..|a| - 1]);
    }
  }

  lemma {:induction false} SumCountEmpty(gs: seq<Gid>)
    ensures SumCount(gs, []) == 0 && SumLeft(gs, [], []) == 0
  {
    if gs != [] { SumCountEmpty(gs[1..]); }
  }

  /** The reassigned shards are the orphans and those that left their group. */
  lemma {:induction false} ChangedSplit(gs: seq<Gid>, a: Shards, b: Shards)
    requires |a| == |b| && Distinct(gs) && forall s :: 0 <= s < |b| ==> b[s] in gs
    ensures Changed(a, b) == Orphans(gs, a) + SumLeft(gs, a, b)
  {
    if a == [] {
      SumCountEmpty(gs);
    } else {
      SumLeftStep(gs, a, b);
      ChangedSplit(gs, a[..|a| - 1], b[..|a| - 1]);
    }
  }

  lemma {:induction false} SumLeftAtLeast(gs: seq<Gid>, a: Shards, b: Shards)
    requires |a| == |b|
    ensures SumLoss(gs, a, b) <= SumLeft(gs, a, b)
    ensures (forall g :: g in gs ==> Left(a, b, g) == 0 || Left(b, a, g) == 0) ==> SumLoss(gs, a, b) == SumLeft(gs, a, b)
  {
    if gs != [] {
      CountBalance(a, b, gs[0]);
      SumLeftAtLeast(gs[1..], a, b);
    }
  }

  /** Gains less losses is the difference of the totals. */
  lemma {:induction false} GainsAndLosses(gs: seq<Gid>, a: Shards, b: Shards)
    ensures SumLoss(gs, b, a) + SumCount(gs, a) == SumLoss(gs, a, b) + SumCount(gs, b)
  {
    if gs != [] { GainsAndLosses(gs[1..], a, b); }
  }

  lemma {:induction false} SumLossMonotone(gs: seq<Gid>, a: Shards, b: Shards, c: Shards, d: Shards)
    requires forall g :: g in gs ==> Loss(a, b, g) <= Loss(c, d, g)
    ensures SumLoss(gs, a, b) <= SumLoss(gs, c, d)
  {
    if gs != [] { SumLossMonotone(gs[1..], a, b, c, d); }
  }

  lemma {:induction false} SumCountMonotone(gs: seq<Gid>, a: Shards, b: Shards)
    requires forall g :: g in gs ==> Count(a, g) <= Count(b, g)
    ensures SumCount(gs, a) <= SumCount(gs, b)
    ensures (exists g :: g in gs && Count(a, g) < Count(b, g)) ==> SumCount(gs, a) < SumCount(gs, b)
  {
    if gs != [] { SumCountMonotone(gs[1..], a, b); }
  }

  // ----- fair redistributions are minimal -----

  /** No group that lost shards ends with fewer than a group that gained some. */
  ghost predicate DonorsKeepMore(groups: set<Gid>, a: Shards, b: Shards) {
    forall g, h :: g in groups && h in groups && Count(b, g) < Count(a, g) && Count(b, h) > Count(a, h) ==>
      Count(b, h) <= Count(b, g)
  }

  ghost function Listing(groups: set<Gid>): (gs: seq<Gid>)
    ensures Distinct(gs) && forall g :: g in gs <==> g in groups
  {
    if groups == {} then [] else var g :| g in groups; [g] + Listing(groups - {g})
  }

  lemma LeastGroup(groups: set<Gid>, a: Shards) returns (least: Gid)
    requires groups != {}
    ensures least in groups && forall g :: g in groups ==> Count(a, least) <= Count(a, g)
  {
    var g :| g in groups;
    if groups == {g} {
      least := g;
    } else {
      least := LeastGroup(groups - {g}, a);
      if Count(a, g) < Count(a, least) { least := g; }
    }
  }

  /** The counts all lie in q, q + 1. */
  ghost predicate Level(groups: set<Gid>, a: Shards, q: nat) {
    forall g :: g in groups ==> q <= Count(a, g) <= q + 1
  }

  lemma SameLevel(groups: set<Gid>, b: Shards, t: Shards) returns (q: nat)
    requires groups != {} && |b| == |t| && Full(groups, b) && Full(groups, t)
    requires Balanced(groups, b) && Balanced(groups, t)
    ensures Level(groups, b, q) && Level(groups, t, q)
  {
    var x := LeastGroup(groups, b);
    var y := LeastGroup(groups, t);
    q := Count(b, x);
    var gs := Listing(groups);
    SumCountFull(gs, b);
    SumCountFull(gs, t);
    if Count(b, x) < Count(t, y) {
      SumCountMonotone(gs, b, t);
    } else if Count(t, y) < Count(b, x) {
      SumCountMonotone(gs, t, b);
    }
  }

  lemma LossesAreLeast(groups: set<Gid>, a: Shards, b: Shards, t: Shards, q: nat)
    requires |a| == |b| == |t| && Full(groups, b) && Full(groups, t)
    requires Level(groups, b, q) && Level(groups, t, q) && DonorsKeepMore(groups, a, b)
    ensures SumLoss(Listing(groups), a, b) <= SumLoss(Listing(groups), a, t)
  {
    var gs := Listing(groups);
    if d :| d in groups && Count(b, d) < Count(a, d) && Count(b, d) == q {
      // someone gave away down to q, so nobody gained beyond q
      SumLossMonotone(gs, b, a, t, a);
      GainsAndLosses(gs, a, b);
      GainsAndLosses(gs, a, t);
      SumCountFull(gs, b);
      SumCountFull(gs, t);
    } else {
      SumLossMonotone(gs, a, b, a, t);
    }
  }

  /** Each group only loses or only gains shards. */
  ghost predicate OneWay(groups: set<Gid>, a: Shards, b: Shards)
    requires |a| == |b|
  {
    forall g :: g in groups ==> Left(a, b, g) == 0 || Left(b, a, g) == 0
  }

  /** No balanced assignment to the same groups reassigns fewer shards. */
  lemma FairIsMinimal(groups: set<Gid>, a: Shards, b: Shards, t: Shards)
    requires groups != {} && |a| == |b| == |t| && Full(groups, b) && Full(groups, t)
    requires Balanced(groups, b) && Balanced(groups, t)
    requires OneWay(groups, a, b) && DonorsKeepMore(groups, a, b)
    ensures Changed(a, b) <= Changed(a, t)
  {
    var gs := Listing(groups);
    var q := SameLevel(groups, b, t);
    LossesAreLeast(groups, a, b, t, q);
    ChangedSplit(gs, a, b);
    ChangedSplit(gs, a, t);
    SumLeftAtLeast(gs, a, b);
    SumLeftAtLeast(gs, a, t);
  }
}
