/** A target is missed only on a saturated map, and a deposit stays small only when it is hemmed in. */
module DepositSaturation {
  import opened Torus
  import opened World
  import opened Sorting
  import opened Deposits
  import opened DepositLaws
  import opened DepositAccounting
  import opened DepositTheorems

  // ---------- resources only accumulate ----------

  /** Resources are only ever added to the map, and no counter falls. */
  ghost predicate Fuller(a: State, b: State) {
    && a.tiles.Keys == b.tiles.Keys
    && (forall p | p in a.tiles && a.tiles[p].resource.Some? :: b.tiles[p].resource == a.tiles[p].resource)
    && (forall r :: Count(b.placed, r) >= Count(a.placed, r))
  }

  /** What is unavailable stays so as the map fills. */
  lemma StaysUnavailable(env: Env, a: State, b: State, r: Resource, phase: nat, p: Pos)
    requires Fuller(a, b) && !Available(env, a.tiles, r, phase, [], p)
    ensures !Available(env, b.tiles, r, phase, [], p)
  {}

  lemma {:induction false} GrowFills(env: Env, st: State, r: Resource, phase: nat, desired: nat)
    requires Growing(st, r)
    ensures Fuller(st, Grow(env, st, r, phase, desired))
    decreases desired - |Newest(st).members|
  {
    if |Newest(st).members| < desired {
      NextMemberIsEmpty(env, st.tiles, r, phase, Newest(st).members);
      var next := NextMember(env, st.tiles, r, phase, Newest(st).members);
      if next.Some? {
        var st1 := Add(st, next.value, st.tiles[next.value]);
        assert Fuller(st, st1);
        GrowFills(env, st1, r, phase, desired);
      }
    }
  }

  lemma FinishFills(env: Env, st: State, r: Resource, phase: nat, desired: nat, st': State)
    requires Growing(st, r) && st' == Finish(env, st, r, phase, desired)
    ensures Fuller(st, st')
  {
    GrowFills(env, st, r, phase, desired);
  }

  /** Placing a deposit fills the map, its centre included. */
  lemma PlaceFills(env: Env, st: State, r: Resource, phase: nat, target: nat, centre: Pos, st1: State)
    requires Count(st.placed, r) < target && Available(env, st.tiles, r, phase, [], centre)
    requires st1 == Place(env, st, r, phase, target, centre)
    ensures Fuller(st, st1) && !Available(env, st1.tiles, r, phase, [], centre)
  {
    var seeded := Open(st, r, centre, env.sites[centre]);
    assert Fuller(st, seeded);
    assert seeded.tiles[centre].resource == Some(r);
    FinishFills(env, seeded, r, phase, DesiredSize(env, r, target - Count(st.placed, r), centre), st1);
  }

  // ---------- pools are consumed ----------

  ghost function Listed(pools: seq<seq<Pos>>): set<Pos> {
    if pools == [] then {} else (set p | p in pools[0]) + Listed(pools[1..])
  }

  /** A tile taken off a pool is the centre found or was not available. */
  lemma {:induction false} PopConsumes(env: Env, tiles: Tiles, r: Resource, phase: nat, pool: seq<Pos>)
    ensures var (centre, rest) := PopCentre(env, tiles, r, phase, pool);
            && (centre.None? ==> rest == [])
            && (forall p | p in pool && p !in rest :: centre == Some(p) || !Available(env, tiles, r, phase, [], p))
    decreases |pool|
  {
    if pool != [] {
      var tile, before := pool[|pool| - 1], pool[..|pool| - 1];
      assert pool == before + [tile];
      if !Available(env, tiles, r, phase, [], tile) {
        PopConsumes(env, tiles, r, phase, before);
      }
    }
  }

  /** The tiles of `pools` that are not in `left` are no longer available. */
  ghost predicate Consumed(env: Env, st: State, r: Resource, phase: nat, pools: set<Pos>, left: set<Pos>) {
    forall p | p in pools && p !in left :: !Available(env, st.tiles, r, phase, [], p)
  }

  lemma ConsumedStays(env: Env, a: State, b: State, r: Resource, phase: nat, pools: set<Pos>, left: set<Pos>)
    requires Fuller(a, b) && Consumed(env, a, r, phase, pools, left)
    ensures Consumed(env, b, r, phase, pools, left)
  {
    forall p | p in pools && p !in left ensures !Available(env, b.tiles, r, phase, [], p) {
      StaysUnavailable(env, a, b, r, phase, p);
    }
  }

  /** What one pool of a pass loses is used up by the time its centre, if any, is placed. */
  lemma PopThenPlace(env: Env, st: State, r: Resource, phase: nat, target: nat, pool: seq<Pos>, st1: State)
    requires Count(st.placed, r) < target
    requires var centre := PopCentre(env, st.tiles, r, phase, pool).0;
             st1 == if centre.None? then st else Place(env, st, r, phase, target, centre.value)
    ensures Fuller(st, st1)
    ensures Consumed(env, st1, r, phase, set p | p in pool, set p | p in PopCentre(env, st.tiles, r, phase, pool).1)
  {
    var (centre, rest) := PopCentre(env, st.tiles, r, phase, pool);
    PopConsumes(env, st.tiles, r, phase, pool);
    if centre.Some? {
      PlaceFills(env, st, r, phase, target, centre.value, st1);
      forall p | p in pool && p !in rest ensures !Available(env, st1.tiles, r, phase, [], p) {
        if p != centre.value {
          StaysUnavailable(env, st, st1, r, phase, p);
        }
      }
    }
  }

  /** A pass uses up whatever it takes off the pools, and a pass without progress empties them. */
  lemma {:induction false} SweepConsumes(env: Env, st: State, r: Resource, phase: nat, target: nat,
                                         pools: seq<seq<Pos>>, res: Swept)
    requires Count(st.placed, r) < target && res == Sweep(env, st, r, phase, target, pools)
    ensures Fuller(st, res.st) && Consumed(env, res.st, r, phase, Listed(pools), Listed(res.pools))
    ensures !res.progress ==> Listed(res.pools) == {}
    decreases |pools|
  {
    if pools != [] {
      var (centre, rest) := PopCentre(env, st.tiles, r, phase, pools[0]);
      PopConsumes(env, st.tiles, r, phase, pools[0]);
      var st1 := if centre.None? then st else Place(env, st, r, phase, target, centre.value);
      PopThenPlace(env, st, r, phase, target, pools[0], st1);
      var popped, kept := set p | p in pools[0], set p | p in rest;
      if Count(st1.placed, r) >= target {
        assert res.pools == [rest] + pools[1..];
        assert res.pools[1..] == pools[1..];
      } else {
        var tail := Sweep(env, st1, r, phase, target, pools[1..]);
        SweepConsumes(env, st1, r, phase, target, pools[1..], tail);
        ConsumedStays(env, st1, tail.st, r, phase, popped, kept);
        assert res.st == tail.st && res.pools == [rest] + tail.pools;
        assert res.pools[1..] == tail.pools;
      }
    }
  }

  ghost predicate Saturated(env: Env, st: State, r: Resource, phase: nat, sites: set<Pos>) {
    forall p | p in sites :: !Available(env, st.tiles, r, phase, [], p)
  }

  lemma {:induction false} RoundsSaturate(env: Env, st: State, r: Resource, phase: nat, target: nat,
                                          pools: seq<seq<Pos>>, st': State)
    requires st' == Rounds(env, st, r, phase, target, pools)
    ensures Fuller(st, st') && (Count(st'.placed, r) >= target || Saturated(env, st', r, phase, Listed(pools)))
    decreases PoolSize(pools)
  {
    if Count(st.placed, r) < target {
      var swept := Sweep(env, st, r, phase, target, pools);
      SweepConsumes(env, st, r, phase, target, pools, swept);
      if swept.progress {
        RoundsSaturate(env, swept.st, r, phase, target, swept.pools, st');
        ConsumedStays(env, swept.st, st', r, phase, Listed(pools), Listed(swept.pools));
      }
    }
  }

  // ---------- the pools list every site ----------

  lemma {:induction false} PoolsOfList(env: Env, r: Resource, phase: nat, sites: seq<Pos>, sectors: seq<Pos>, p: Pos)
    requires Distinct(sites) && p in sites && env.habitat(r, p) == Some(phase) && SectorOf(p) in sectors
    ensures p in Listed(PoolsOf(env, r, phase, sites, sectors))
    decreases |sectors|
  {
    if SectorOf(p) == sectors[0] {
      PoolSitesElements(env, r, phase, sectors[0], sites);
      SortElements(PoolOrder(env, r), PoolSites(env, r, phase, sectors[0], sites));
    } else {
      PoolsOfList(env, r, phase, sites, sectors[1..], p);
    }
  }

  lemma PoolsList(env: Env, r: Resource, phase: nat, sites: seq<Pos>, p: Pos)
    requires Distinct(sites) && p in sites && env.habitat(r, p) == Some(phase)
    ensures p in Listed(Pools(env, r, phase, sites))
  {
    SectorsOfElements(sites);
    SortElements(env.sectorBefore, SectorsOf(sites));
    PoolsOfList(env, r, phase, sites, Sort(env.sectorBefore, SectorsOf(sites)), p);
  }

  // ---------- phases and resources ----------

  /** The sites whose habitat for the resource is of the given rank. */
  ghost function Suited(env: Env, r: Resource, phase: nat, sites: seq<Pos>): set<Pos> {
    set p | p in sites && env.habitat(r, p) == Some(phase)
  }

  ghost predicate AllSaturated(env: Env, st: State, r: Resource, phases: seq<nat>, sites: seq<Pos>) {
    forall k | k in phases :: Saturated(env, st, r, k, Suited(env, r, k, sites))
  }

  lemma SaturatedStays(env: Env, a: State, b: State, r: Resource, phase: nat, sites: set<Pos>)
    requires Fuller(a, b) && Saturated(env, a, r, phase, sites)
    ensures Saturated(env, b, r, phase, sites)
  {
    forall p | p in sites ensures !Available(env, b.tiles, r, phase, [], p) {
      StaysUnavailable(env, a, b, r, phase, p);
    }
  }

  /** One phase: the target is met or every suited site is used up. */
  lemma PhaseSaturates(env: Env, st: State, r: Resource, phase: nat, target: nat, sites: seq<Pos>, st': State)
    requires Distinct(sites) && st' == Rounds(env, st, r, phase, target, Pools(env, r, phase, sites))
    ensures Fuller(st, st') && (Count(st'.placed, r) >= target ||
                                Saturated(env, st', r, phase, Suited(env, r, phase, sites)))
  {
    RoundsSaturate(env, st, r, phase, target, Pools(env, r, phase, sites), st');
    forall p | p in Suited(env, r, phase, sites) ensures p in Listed(Pools(env, r, phase, sites)) {
      PoolsList(env, r, phase, sites, p);
    }
  }

  lemma {:induction false} PhasesSaturate(env: Env, st: State, r: Resource, target: nat, phases: seq<nat>,
                                          sites: seq<Pos>, st': State)
    requires Distinct(sites) && st' == Phases(env, st, r, target, phases, sites)
    ensures Fuller(st, st') && (Count(st'.placed, r) >= target || AllSaturated(env, st', r, phases, sites))
    decreases |phases|
  {
    if phases != [] {
      var k := phases[0];
      var st1 := Rounds(env, st, r, k, target, Pools(env, r, k, sites));
      PhaseSaturates(env, st, r, k, target, sites, st1);
      if Count(st1.placed, r) < target {
        PhasesSaturate(env, st1, r, target, phases[1..], sites, st');
        SaturatedStays(env, st1, st', r, k, Suited(env, r, k, sites));
        assert forall j | j in phases :: j == k || j in phases[1..];
      }
    }
  }

  /** A resource has its target or no site left to use. */
  ghost predicate Exhausted(env: Env, st: State, r: Resource, towns: nat, sites: seq<Pos>) {
    Count(st.placed, r) >= SiteTarget(r, env.grid, towns) || AllSaturated(env, st, r, PhasesOf(env.grid), sites)
  }

  lemma ExhaustedStays(env: Env, a: State, b: State, r: Resource, towns: nat, sites: seq<Pos>)
    requires Fuller(a, b) && Exhausted(env, a, r, towns, sites)
    ensures Exhausted(env, b, r, towns, sites)
  {
    if Count(a.placed, r) < SiteTarget(r, env.grid, towns) {
      forall k | k in PhasesOf(env.grid) ensures Saturated(env, b, r, k, Suited(env, r, k, sites)) {
        SaturatedStays(env, a, b, r, k, Suited(env, r, k, sites));
      }
    }
  }

  lemma {:induction false} SeedSaturates(env: Env, st: State, towns: nat, resources: seq<Resource>, sites: seq<Pos>,
                                         st': State)
    requires Distinct(sites) && st' == Seed(env, st, towns, resources, sites)
    ensures Fuller(st, st') && forall r | r in resources :: Exhausted(env, st', r, towns, sites)
    decreases |resources|
  {
    if resources != [] {
      var r := resources[0];
      var st1 := Phases(env, st, r, SiteTarget(r, env.grid, towns), PhasesOf(env.grid), sites);
      PhasesSaturate(env, st, r, SiteTarget(r, env.grid, towns), PhasesOf(env.grid), sites, st1);
      SeedSaturates(env, st1, towns, resources[1..], sites, st');
      ExhaustedStays(env, st1, st', r, towns, sites);
    }
  }

  /** The placement gives up early on nothing: where a resource falls short of its target, no site whose habitat the map
      may use is available any more. */
  lemma ShortfallMeansSaturated(env: Env, order: seq<Pos>, r: Resource, p: Pos, k: nat)
    requires Iterates(order, env.sites) && r in NETWORK_RESOURCES
    requires Count(SeedResourceNetworks(env, order).placed, r) < SiteTarget(r, env.grid, TownCount(env.sites, order))
    requires k in PhasesOf(env.grid) && env.habitat(r, p) == Some(k)
    ensures !Available(env, SeedResourceNetworks(env, order).tiles, r, k, [], p)
  {
    var st := SeedResourceNetworks(env, order);
    SitesInElements(env, order);
    SeedSaturates(env, Start(env, order), TownCount(env.sites, order), NETWORK_RESOURCES, SitesIn(env, order), st);
    assert Exhausted(env, st, r, TownCount(env.sites, order), SitesIn(env, order));
    if p in SitesIn(env, order) {
      assert p in Suited(env, r, k, SitesIn(env, order));
    }
  }

  // ---------- hemmed-in deposits ----------

  lemma {:induction false} AdjacentMissesNone(tiles: Tiles, around: seq<Pos>, group: seq<Pos>, p: Pos)
    requires p in around && p in tiles && p !in group
    ensures p in Adjacent(tiles, around, group)
  {
    if p != around[0] {
      AdjacentMissesNone(tiles, around[1..], group, p);
    }
  }

  lemma {:induction false} NeighboursMissNone(env: Env, tiles: Tiles, members: seq<Pos>, group: seq<Pos>, i: nat,
                                              p: Pos)
    requires i < |members| && Beside(env.grid, members[i], p) && p in tiles && p !in group
    ensures p in Neighbours(env, tiles, members, group)
    decreases |members|
  {
    if i == 0 {
      AdjacentMissesNone(tiles, env.grid.Compass(members[0]), group, p);
    } else {
      NeighboursMissNone(env, tiles, members[1..], group, i - 1, p);
    }
  }

  lemma {:induction false} NoneAvailable(env: Env, tiles: Tiles, r: Resource, phase: nat, group: seq<Pos>,
                                         s: seq<Pos>, p: Pos)
    requires FirstAvailable(env, tiles, r, phase, group, s).None? && p in s
    ensures !Available(env, tiles, r, phase, group, p)
  {
    if p != s[0] {
      NoneAvailable(env, tiles, r, phase, group, s[1..], p);
    }
  }

  /** Growth stops short of the desired size only when no neighbour of any member is available. */
  lemma {:induction false} GrowthStopsHemmedIn(env: Env, st: State, r: Resource, phase: nat, desired: nat, st': State)
    requires Growing(st, r) && st' == Grow(env, st, r, phase, desired)
    ensures |Newest(st').members| >= desired ||
            forall i, p | 0 <= i < |Newest(st').members| && Beside(env.grid, Newest(st').members[i], p) &&
                p !in Newest(st').members ::
              !Available(env, st'.tiles, r, phase, Newest(st').members, p)
    decreases desired - |Newest(st).members|
  {
    var members := Newest(st).members;
    if |members| < desired {
      var next := NextMember(env, st.tiles, r, phase, members);
      if next.Some? {
        NextMemberIsEmpty(env, st.tiles, r, phase, members);
        GrowthStopsHemmedIn(env, Add(st, next.value, st.tiles[next.value]), r, phase, desired, st');
      } else {
        forall i, p | 0 <= i < |members| && Beside(env.grid, members[i], p) && p !in members
          ensures !Available(env, st.tiles, r, phase, members, p)
        {
          if p in st.tiles {
            NeighboursMissNone(env, st.tiles, members, members, i, p);
            SortElements(env.growthBefore(r), Neighbours(env, st.tiles, members, members));
            NoneAvailable(env, st.tiles, r, phase, members,
                          Sort(env.growthBefore(r), Neighbours(env, st.tiles, members, members)), p);
          }
        }
      }
    }
  }
}
