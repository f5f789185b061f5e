/** The placement as it runs: nested loops that pop pools and overwrite the tile map in place. */
module DepositSeeding {
  import opened Torus
  import opened World
  import opened Deposits
  import opened DepositTheorems
  import opened DepositRules
  import opened DepositTerms
  import opened Sorting

  /** The tail of a sweep, from pool `i` on, with the pools before `i` already drained to `done`. */
  function SweepTail(env: Env, st: State, r: Resource, phase: nat, target: nat, done: seq<seq<Pos>>,
                     rest: seq<seq<Pos>>,
                     progress: bool): Swept
    requires Count(st.placed, r) < target
  {
    var tail := Sweep(env, st, r, phase, target, rest);
    Swept(tail.st, done + tail.pools, progress || tail.progress)
  }

  lemma PlaceInSteps(env: Env, st: State, r: Resource, phase: nat, target: nat, centre: Pos, st1: State, desired: nat,
                     st': State)
    requires Count(st.placed, r) < target && centre in env.sites
    requires st1 == Open(st, r, centre, env.sites[centre])
    requires desired == DesiredSize(env, r, target - Count(st.placed, r), centre)
    requires st' == Finish(env, st1, r, phase, desired)
    ensures st' == Place(env, st, r, phase, target, centre)
  {}

  lemma SweepTailEnds(env: Env, st: State, r: Resource, phase: nat, target: nat, pools: seq<seq<Pos>>, progress: bool)
    requires Count(st.placed, r) < target
    ensures SweepTail(env, st, r, phase, target, [], pools, false) == Sweep(env, st, r, phase, target, pools)
    ensures SweepTail(env, st, r, phase, target, pools, [], progress) == Swept(st, pools, progress)
  {
    assert [] + Sweep(env, st, r, phase, target, pools).pools == Sweep(env, st, r, phase, target, pools).pools;
    assert pools + [] == pools;
  }

  class DepositSeeder {
    const env: Env
    var tiles: Tiles
    var placed: Counts
    var clusters: Counts
    ghost var deposits: seq<Deposit>

    constructor (env: Env)
      ensures this.env == env && St() == State(env.sites, NO_SITES, NO_SITES, [])
    {
      this.env := env;
      tiles, placed, clusters, deposits := env.sites, NO_SITES, NO_SITES, [];
    }

    ghost function St(): State
      reads this
    {
      State(tiles, placed, clusters, deposits)
    }

    /** Adds neighbours to the newest deposit until it is as large as desired or hemmed in. */
    method GrowNewest(r: Resource, phase: nat, desired: nat, centre: Pos)
      requires Growing(St(), r) && Newest(St()).members == [centre]
      modifies this`tiles, this`placed, this`deposits
      ensures St() == Grow(env, old(St()), r, phase, desired)
    {
      var members := [centre];
      while |members| < desired
        invariant Growing(St(), r) && Newest(St()).members == members
        invariant Grow(env, St(), r, phase, desired) == Grow(env, old(St()), r, phase, desired)
        decreases desired - |members|
      {
        var next := NextMember(env, tiles, r, phase, members);
        if next.None? || next.value !in tiles {
          return;
        }
        deposits := Add(St(), next.value, tiles[next.value]).deposits;
        members := members + [next.value];
        tiles, placed := tiles[next.value := tiles[next.value].(resource := Some(r))], Bump(placed, r);
      }
    }

    /** Writes the first tile of a new deposit. */
    method OpenDeposit(r: Resource, centre: Pos)
      requires centre in env.sites
      modifies this`tiles, this`placed, this`deposits
      ensures St() == Open(old(St()), r, centre, env.sites[centre])
    {
      tiles, placed := tiles[centre := env.sites[centre].(resource := Some(r))], Bump(placed, r);
      deposits := deposits + [Deposit(r, [centre])];
    }

    /** Grows the newest deposit and counts it. */
    method FinishDeposit(r: Resource, phase: nat, desired: nat, centre: Pos)
      requires Growing(St(), r) && Newest(St()).members == [centre]
      modifies this`tiles, this`placed, this`clusters, this`deposits
      ensures St() == Finish(env, old(St()), r, phase, desired)
    {
      GrowNewest(r, phase, desired, centre);
      clusters := Bump(clusters, r);
    }

    method PlaceDeposit(r: Resource, phase: nat, target: nat, centre: Pos)
      requires Count(placed, r) < target && centre in env.sites
      modifies this`tiles, this`placed, this`clusters, this`deposits
      ensures St() == Place(env, old(St()), r, phase, target, centre)
    {
      var desired := DesiredSize(env, r, target - Count(placed, r), centre);
      OpenDeposit(r, centre);
      ghost var st1 := St();
      FinishDeposit(r, phase, desired, centre);
      PlaceInSteps(env, old(St()), r, phase, target, centre, st1, desired, St());
    }

    method TakeCentre(r: Resource, phase: nat, pool: seq<Pos>) returns (centre: Option<Pos>, rest: seq<Pos>)
      ensures (centre, rest) == PopCentre(env, tiles, r, phase, pool)
    {
      rest := pool;
      while rest != []
        invariant PopCentre(env, tiles, r, phase, rest) == PopCentre(env, tiles, r, phase, pool)
        decreases |rest|
      {
        var tile := rest[|rest| - 1];
        rest := rest[..|rest| - 1];
        if Available(env, tiles, r, phase, [], tile) {
          return Some(tile), rest;
        }
      }
      centre := None;
    }

    /** Takes a centre from one pool and places its deposit. */
    method SweepPool(r: Resource, phase: nat, target: nat, pool: seq<Pos>, done: seq<seq<Pos>>,
                     ghost rest: seq<seq<Pos>>,
                     progress: bool)
      returns (done': seq<seq<Pos>>, progress': bool)
      requires Count(placed, r) < target
      modifies this`tiles, this`placed, this`clusters, this`deposits
      ensures SweepTail(env, old(St()), r, phase, target, done, [pool] + rest, progress) ==
              if Count(placed, r) >= target then Swept(St(), done' + rest, progress')
              else SweepTail(env, St(), r, phase, target, done', rest, progress')
    {
      var centre, left := TakeCentre(r, phase, pool);
      done', progress' := done + [left], progress || centre.Some?;
      if centre.Some? {
        PlaceDeposit(r, phase, target, centre.value);
        SweepPlaces(env, old(St()), r, phase, target, done, pool, centre.value, left, rest, progress, St());
      } else {
        SweepSkips(env, St(), r, phase, target, done, pool, left, rest, progress);
      }
    }

    /** One pass over the pools. */
    method SweepPools(r: Resource, phase: nat, target: nat, pools: seq<seq<Pos>>)
      returns (pools': seq<seq<Pos>>, progress: bool)
      requires Count(placed, r) < target
      modifies this`tiles, this`placed, this`clusters, this`deposits
      ensures Swept(St(), pools', progress) == Sweep(env, old(St()), r, phase, target, pools)
    {
      pools', progress := [], false;
      ghost var swept := Sweep(env, St(), r, phase, target, pools);
      SweepTailEnds(env, St(), r, phase, target, pools, progress);
      var rest := pools;
      while rest != []
        invariant Count(placed, r) < target
        invariant SweepTail(env, St(), r, phase, target, pools', rest, progress) == swept
        decreases |rest|
      {
        assert rest == [rest[0]] + rest[1..];
        pools', progress := SweepPool(r, phase, target, rest[0], pools', rest[1..], progress);
        rest := rest[1..];
        if Count(placed, r) >= target {
          pools' := pools' + rest;
          return;
        }
      }
      SweepTailEnds(env, St(), r, phase, target, pools', progress);
    }

    /** Rounds over the pools while they yield centres and the target is not met. */
    method SeedPhase(r: Resource, phase: nat, target: nat, pools: seq<seq<Pos>>)
      modifies this`tiles, this`placed, this`clusters, this`deposits
      ensures St() == Rounds(env, old(St()), r, phase, target, pools)
    {
      var rest, progress := pools, true;
      while Count(placed, r) < target && progress
        invariant (if progress then Rounds(env, St(), r, phase, target, rest) else St()) ==
                  Rounds(env, old(St()), r, phase, target, pools)
        decreases PoolSize(rest) + if progress then 1 else 0
      {
        rest, progress := SweepPools(r, phase, target, rest);
      }
    }

    method SeedResource(r: Resource, target: nat, sites: seq<Pos>)
      modifies this`tiles, this`placed, this`clusters, this`deposits
      ensures St() == Phases(env, old(St()), r, target, PhasesOf(env.grid), sites)
    {
      var phases := PhasesOf(env.grid);
      while phases != []
        invariant Phases(env, St(), r, target, phases, sites) ==
                    Phases(env, old(St()), r, target, PhasesOf(env.grid), sites)
        decreases |phases|
      {
        SeedPhase(r, phases[0], target, Pools(env, r, phases[0], sites));
        if Count(placed, r) >= target {
          break;
        }
        phases := phases[1..];
      }
    }

    /** The whole placement, with `order` the iteration order of the tile map. */
    method Run(order: seq<Pos>)
      requires St() == State(env.sites, NO_SITES, NO_SITES, [])
      modifies this`tiles, this`placed, this`clusters, this`deposits
      ensures St() == SeedResourceNetworks(env, order)
      ensures Iterates(order, env.sites) && OnGrid(env.grid, env.sites) && StrictTotal(env.sectorBefore) &&
                GrowsByHash(env)
              ==> Finished(env, St())
    {
      var towns := 0;
      for i := 0 to |order|
        invariant towns == TownCount(env.sites, order[..i])
        invariant placed == InitialCounts(env.sites, order[..i])
        invariant St() == State(env.sites, placed, NO_SITES, [])
      {
        assert order[..i + 1][..i] == order[..i];
        var p := order[i];
        if p in tiles && tiles[p].town.Some? {
          towns := towns + 1;
        }
        if p in tiles && tiles[p].resource.Some? && IsNetworkResource(tiles[p].resource.value) {
          placed := Bump(placed, tiles[p].resource.value);
        }
      }
      assert order[..|order|] == order;
      var sites, resources := SitesIn(env, order), NETWORK_RESOURCES;
      while resources != []
        invariant Seed(env, St(), towns, resources, sites) == SeedResourceNetworks(env, order)
        decreases |resources|
      {
        SeedResource(resources[0], SiteTarget(resources[0], env.grid, towns), sites);
        resources := resources[1..];
      }
      if Iterates(order, env.sites) && OnGrid(env.grid, env.sites) && StrictTotal(env.sectorBefore) &&
          GrowsByHash(env) {
        PlacementIsFinished(env, order, St());
      }
    }
  }

  /** A pool without an available tile. */
  lemma SweepSkips(env: Env, st: State, r: Resource, phase: nat, target: nat, done: seq<seq<Pos>>, pool: seq<Pos>,
                   left: seq<Pos>, rest: seq<seq<Pos>>, progress: bool)
    requires Count(st.placed, r) < target && PopCentre(env, st.tiles, r, phase, pool) == (None, left)
    ensures SweepTail(env, st, r, phase, target, done, [pool] + rest, progress) ==
            SweepTail(env, st, r, phase, target, done + [left], rest, progress)
  {
    var tail := Sweep(env, st, r, phase, target, rest);
    assert ([pool] + rest)[1..] == rest;
    assert done + ([left] + tail.pools) == done + [left] + tail.pools;
  }

  /** A pool with one: its deposit is placed, and the sweep stops if that meets the target. */
  lemma SweepPlaces(env: Env, st: State, r: Resource, phase: nat, target: nat, done: seq<seq<Pos>>, pool: seq<Pos>,
                    centre: Pos, left: seq<Pos>, rest: seq<seq<Pos>>, progress: bool, st1: State)
    requires Count(st.placed, r) < target && PopCentre(env, st.tiles, r, phase, pool) == (Some(centre), left)
    requires centre in env.sites && st1 == Place(env, st, r, phase, target, centre)
    ensures SweepTail(env, st, r, phase, target, done, [pool] + rest, progress) ==
            if Count(st1.placed, r) >= target then Swept(st1, done + [left] + rest, true)
            else SweepTail(env, st1, r, phase, target, done + [left], rest, true)
  {
    assert ([pool] + rest)[1..] == rest;
    if Count(st1.placed, r) >= target {
      assert done + ([left] + rest) == done + [left] + rest;
    } else {
      var tail := Sweep(env, st1, r, phase, target, rest);
      assert done + ([left] + tail.pools) == done + [left] + tail.pools;
    }
  }
}
