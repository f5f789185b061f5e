/** The placement as a whole: every stage keeps the deposit invariant and the exact counters. */
module DepositAccounting {
  import opened Torus
  import opened World
  import opened Sorting
  import opened Deposits
  import opened DepositLaws

  ghost function Carriers(tiles: Tiles, r: Resource): set<Pos> {
    set p | p in tiles && tiles[p].resource == Some(r)
  }

  function NumDeposits(ds: seq<Deposit>, r: Resource): nat {
    if ds == [] then 0
    else NumDeposits(ds[..|ds| - 1], r) + if ds[|ds| - 1].resource == r then 1 else 0
  }

  ghost predicate PlacedExact(st: State) {
    forall r | r in NETWORK_RESOURCES :: Count(st.placed, r) == |Carriers(st.tiles, r)|
  }

  ghost predicate ClustersExact(st: State) {
    forall r :: Count(st.clusters, r) == NumDeposits(st.deposits, r)
  }

  ghost predicate Good(env: Env, st: State) {
    Inv(env, st) && PlacedExact(st)
  }

  /** What one stage of the placement of `r` may do. */
  ghost predicate Kept(env: Env, st: State, st': State, r: Resource, target: nat) {
    && Good(env, st') && ClustersExact(st')
    && (Count(st'.placed, r) <= target || Count(st'.placed, r) == Count(st.placed, r))
    && (forall x | x != r :: Count(st'.placed, x) == Count(st.placed, x))
    && st.deposits <= st'.deposits
  }

  lemma StampCarriers(tiles: Tiles, p: Pos, tile: Tile, r: Resource, x: Resource)
    requires p in tiles && tiles[p].resource.None? && tile.resource == Some(r)
    ensures Carriers(tiles[p := tile], x) == if x == r then Carriers(tiles, x) + {p} else Carriers(tiles, x)
    ensures p !in Carriers(tiles, x)
  {}

  lemma PutIsExact(st: State, r: Resource, p: Pos, tile: Tile)
    requires PlacedExact(st) && p in st.tiles && st.tiles[p].resource.None?
    ensures PlacedExact(Put(st, r, p, tile))
  {
    forall x | x in NETWORK_RESOURCES ensures Count(Put(st, r, p, tile).placed, x) ==
        |Carriers(Put(st, r, p, tile).tiles, x)| {
      StampCarriers(st.tiles, p, tile.(resource := Some(r)), r, x);
    }
  }

  // ---------- growth ----------

  lemma {:induction false} AdjacentElements(tiles: Tiles, around: seq<Pos>, group: seq<Pos>)
    ensures forall p | p in Adjacent(tiles, around, group) :: p in around && p in tiles && p !in group
  {
    if around != [] {
      AdjacentElements(tiles, around[1..], group);
    }
  }

  lemma {:induction false} NeighboursElements(env: Env, tiles: Tiles, members: seq<Pos>, group: seq<Pos>)
    ensures forall p | p in Neighbours(env, tiles, members, group) ::
              p in tiles && p !in group && exists i | 0 <= i < |members| :: Beside(env.grid, members[i], p)
    decreases |members|
  {
    if members != [] {
      AdjacentElements(tiles, env.grid.Compass(members[0]), group);
      NeighboursElements(env, tiles, members[1..], group);
      forall p | p in Neighbours(env, tiles, members, group)
        ensures p in tiles && p !in group && exists i | 0 <= i < |members| :: Beside(env.grid, members[i], p)
      {
        if p in Adjacent(tiles, env.grid.Compass(members[0]), group) {
          assert Beside(env.grid, members[0], p);
        } else {
          var i :| 0 <= i < |members| - 1 && Beside(env.grid, members[1..][i], p);
          assert Beside(env.grid, members[i + 1], p);
        }
      }
    }
  }

  lemma {:induction false} FirstAvailableIsAvailable(env: Env, tiles: Tiles, r: Resource, phase: nat, group: seq<Pos>,
                                                     s: seq<Pos>)
    ensures var f := FirstAvailable(env, tiles, r, phase, group, s);
            f.Some? ==> f.value in s && Available(env, tiles, r, phase, group, f.value)
  {
    if s != [] {
      FirstAvailableIsAvailable(env, tiles, r, phase, group, s[1..]);
    }
  }

  lemma NextMemberFits(env: Env, tiles: Tiles, r: Resource, phase: nat, members: seq<Pos>) returns (i: nat)
    requires NextMember(env, tiles, r, phase, members).Some?
    ensures var p := NextMember(env, tiles, r, phase, members).value;
            Available(env, tiles, r, phase, members, p) && i < |members| && Beside(env.grid, members[i], p)
  {
    var near := Neighbours(env, tiles, members, members);
    var p := NextMember(env, tiles, r, phase, members).value;
    FirstAvailableIsAvailable(env, tiles, r, phase, members, Sort(env.growthBefore(r), near));
    SortElements(env.growthBefore(r), near);
    NeighboursElements(env, tiles, members, members);
    i :| 0 <= i < |members| && Beside(env.grid, members[i], p);
  }

  lemma NextMemberIsEmpty(env: Env, tiles: Tiles, r: Resource, phase: nat, members: seq<Pos>)
    ensures var next := NextMember(env, tiles, r, phase, members);
            next.Some? ==> next.value in tiles && tiles[next.value].resource.None?
  {
    if NextMember(env, tiles, r, phase, members).Some? {
      var i := NextMemberFits(env, tiles, r, phase, members);
    }
  }

  /** A deposit in growth: what it adds is what the counter gains, and nothing else is counted. */
  ghost predicate GrownFrom(st: State, st': State, r: Resource, desired: nat)
    requires Growing(st, r)
  {
    && PlacedExact(st') && Growing(st', r)
    && |Newest(st').members| <= desired
    && Count(st'.placed, r) + |Newest(st).members| == Count(st.placed, r) + |Newest(st').members|
    && (forall x | x != r :: Count(st'.placed, x) == Count(st.placed, x))
    && st'.clusters == st.clusters
    && |st'.deposits| == |st.deposits| && st'.deposits[..|st.deposits| - 1] == st.deposits[..|st.deposits| - 1]
  }

  lemma {:induction false} GrowCounts(env: Env, st: State, r: Resource, phase: nat, desired: nat)
    requires PlacedExact(st) && Growing(st, r) && |Newest(st).members| <= desired
    ensures GrownFrom(st, Grow(env, st, r, phase, desired), r, desired)
    decreases desired - |Newest(st).members|
  {
    var next := NextMember(env, st.tiles, r, phase, Newest(st).members);
    if |Newest(st).members| < desired && next.Some? {
      NextMemberIsEmpty(env, st.tiles, r, phase, Newest(st).members);
      PutIsExact(st, r, next.value, st.tiles[next.value]);
      GrowCounts(env, Add(st, next.value, st.tiles[next.value]), r, phase, desired);
    }
  }

  lemma {:induction false} GrowKeepsInv(env: Env, st: State, r: Resource, phase: nat, desired: nat)
    requires Inv(env, st) && Growing(st, r) && desired <= MAX_DEPOSIT_TILES
    ensures Inv(env, Grow(env, st, r, phase, desired))
    decreases desired - |Newest(st).members|
  {
    var next := NextMember(env, st.tiles, r, phase, Newest(st).members);
    if |Newest(st).members| < desired && next.Some? {
      var i := NextMemberFits(env, st.tiles, r, phase, Newest(st).members);
      AddKeepsInv(env, st, phase, i, next.value);
      GrowKeepsInv(env, Add(st, next.value, st.tiles[next.value]), r, phase, desired);
    }
  }

  lemma FinishKeepsInv(env: Env, st: State, r: Resource, phase: nat, desired: nat, st': State)
    requires Inv(env, st) && Growing(st, r) && desired <= MAX_DEPOSIT_TILES
    requires st' == Finish(env, st, r, phase, desired)
    ensures Inv(env, st')
  {
    var grown := Grow(env, st, r, phase, desired);
    GrowKeepsInv(env, st, r, phase, desired);
    SameExceptClusters(env, grown, st');
  }

  lemma SameExceptClusters(env: Env, a: State, b: State)
    requires Inv(env, a) && a.tiles == b.tiles && a.deposits == b.deposits
    ensures Inv(env, b)
  {}

  lemma PlaceKeepsInv(env: Env, st: State, r: Resource, phase: nat, target: nat, centre: Pos, st': State)
    requires Inv(env, st) && Count(st.placed, r) < target
    requires Available(env, st.tiles, r, phase, [], centre)
    requires st' == Place(env, st, r, phase, target, centre)
    ensures Inv(env, st')
  {
    var seeded := Open(st, r, centre, env.sites[centre]);
    var desired := DesiredSize(env, r, target - Count(st.placed, r), centre);
    assert Inv(env, seeded) by {
      OpenKeepsInv(env, st, r, phase, centre);
    }
    assert desired <= MAX_DEPOSIT_TILES;
    FinishKeepsInv(env, seeded, r, phase, desired, st');
  }

  lemma OpenCounts(st: State, r: Resource, p: Pos, tile: Tile)
    requires PlacedExact(st) && p in st.tiles && st.tiles[p].resource.None?
    ensures var st' := Open(st, r, p, tile);
            && PlacedExact(st') && st'.deposits[..|st'.deposits| - 1] == st.deposits
            && Count(st'.placed, r) == Count(st.placed, r) + 1
            && (forall x | x != r :: Count(st'.placed, x) == Count(st.placed, x))
  {
    PutIsExact(st, r, p, tile);
  }

  lemma ClustersStep(st: State, st': State, r: Resource)
    requires ClustersExact(st) && st'.deposits != [] && Newest(st').resource == r
    requires st'.deposits[..|st'.deposits| - 1] == st.deposits && st'.clusters == Bump(st.clusters, r)
    ensures ClustersExact(st') && st.deposits <= st'.deposits
  {}

  ghost predicate PlacedFrom(st: State, st': State, r: Resource, room: nat) {
    && PlacedExact(st') && ClustersExact(st') && st.deposits <= st'.deposits
    && Count(st'.placed, r) <= Count(st.placed, r) + room
    && (forall x | x != r :: Count(st'.placed, x) == Count(st.placed, x))
  }

  lemma FinishCounts(env: Env, st: State, seeded: State, r: Resource, phase: nat, desired: nat)
    requires ClustersExact(st) && PlacedExact(seeded) && Growing(seeded, r) && |Newest(seeded).members| == 1 <= desired
    requires seeded.deposits[..|seeded.deposits| - 1] == st.deposits && seeded.clusters == st.clusters
    requires Count(seeded.placed, r) == Count(st.placed, r) + 1
    requires forall x | x != r :: Count(seeded.placed, x) == Count(st.placed, x)
    ensures PlacedFrom(st, Finish(env, seeded, r, phase, desired), r, desired)
  {
    GrowCounts(env, seeded, r, phase, desired);
    ClustersStep(st, Finish(env, seeded, r, phase, desired), r);
  }

  lemma PlaceCounts(env: Env, st: State, r: Resource, phase: nat, target: nat, centre: Pos, st': State)
    requires PlacedExact(st) && ClustersExact(st) && Count(st.placed, r) < target
    requires centre in env.sites && centre in st.tiles && st.tiles[centre].resource.None?
    requires st' == Place(env, st, r, phase, target, centre)
    ensures PlacedFrom(st, st', r, target - Count(st.placed, r))
  {
    OpenCounts(st, r, centre, env.sites[centre]);
    FinishCounts(env, st, Open(st, r, centre, env.sites[centre]), r, phase,
                 DesiredSize(env, r, target - Count(st.placed, r), centre));
  }

  lemma PlaceKeeps(env: Env, st: State, r: Resource, phase: nat, target: nat, centre: Pos, st': State)
    requires Good(env, st) && ClustersExact(st) && Count(st.placed, r) < target
    requires Available(env, st.tiles, r, phase, [], centre)
    requires st' == Place(env, st, r, phase, target, centre)
    ensures Kept(env, st, st', r, target) && Count(st'.placed, r) <= target
  {
    PlaceKeepsInv(env, st, r, phase, target, centre, st');
    PlaceCounts(env, st, r, phase, target, centre, st');
  }

  // ---------- passes, rounds, phases, resources ----------

  lemma {:induction false} SweepKeeps(env: Env, st: State, r: Resource, phase: nat, target: nat, pools: seq<seq<Pos>>)
    requires Good(env, st) && ClustersExact(st) && Count(st.placed, r) < target
    ensures Kept(env, st, Sweep(env, st, r, phase, target, pools).st, r, target)
    ensures Count(Sweep(env, st, r, phase, target, pools).st.placed, r) <= target
    decreases |pools|
  {
    if pools != [] {
      var (centre, rest) := PopCentre(env, st.tiles, r, phase, pools[0]);
      if centre.None? {
        SweepKeeps(env, st, r, phase, target, pools[1..]);
      } else {
        var st1 := Place(env, st, r, phase, target, centre.value);
        PlaceKeeps(env, st, r, phase, target, centre.value, st1);
        if Count(st1.placed, r) < target {
          SweepKeeps(env, st1, r, phase, target, pools[1..]);
        }
      }
    }
  }

  lemma {:induction false} RoundsKeeps(env: Env, st: State, r: Resource, phase: nat, target: nat, pools: seq<seq<Pos>>)
    requires Good(env, st) && ClustersExact(st)
    ensures Kept(env, st, Rounds(env, st, r, phase, target, pools), r, target)
    decreases PoolSize(pools)
  {
    if Count(st.placed, r) < target {
      SweepKeeps(env, st, r, phase, target, pools);
      var swept := Sweep(env, st, r, phase, target, pools);
      if swept.progress {
        RoundsKeeps(env, swept.st, r, phase, target, swept.pools);
      }
    }
  }

  lemma {:induction false} PhasesKeep(env: Env, st: State, r: Resource, target: nat, phases: seq<nat>, sites: seq<Pos>)
    requires Good(env, st) && ClustersExact(st)
    ensures Kept(env, st, Phases(env, st, r, target, phases, sites), r, target)
    decreases |phases|
  {
    if phases != [] {
      RoundsKeeps(env, st, r, phases[0], target, Pools(env, r, phases[0], sites));
      var st1 := Rounds(env, st, r, phases[0], target, Pools(env, r, phases[0], sites));
      if Count(st1.placed, r) < target {
        PhasesKeep(env, st1, r, target, phases[1..], sites);
      }
    }
  }

  /** No counter ends above the larger of its initial value and its target. */
  ghost predicate WithinTargets(env: Env, st: State, st': State, towns: nat) {
    forall r :: Count(st'.placed, r) <= SiteTarget(r, env.grid, towns) || Count(st'.placed, r) == Count(st.placed, r)
  }

  lemma {:induction false} SeedKeeps(env: Env, st: State, towns: nat, resources: seq<Resource>, sites: seq<Pos>)
    requires Good(env, st) && ClustersExact(st)
    ensures var st' := Seed(env, st, towns, resources, sites);
            Good(env, st') && ClustersExact(st') && WithinTargets(env, st, st', towns)
    decreases |resources|
  {
    if resources != [] {
      var target := SiteTarget(resources[0], env.grid, towns);
      PhasesKeep(env, st, resources[0], target, PhasesOf(env.grid), sites);
      SeedKeeps(env, Phases(env, st, resources[0], target, PhasesOf(env.grid), sites), towns, resources[1..], sites);
    }
  }
}
