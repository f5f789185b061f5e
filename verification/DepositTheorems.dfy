/** The promises of deposit placement about the finished map. */
module DepositTheorems {
  import opened Torus
  import opened World
  import opened Sorting
  import opened Deposits
  import opened DepositLaws
  import opened DepositAccounting
  import Graph = Reachability

  // ---------- deposits never merge ----------

  /** Two tiles of one vein: both carry the resource and at most a row and a column lie between them. */
  ghost function Touching(grid: Grid, tiles: Tiles, r: Resource): (Pos, Pos) -> bool {
    (p, q) => p in tiles && q in tiles && tiles[p].resource == Some(r) && tiles[q].resource == Some(r) &&
              grid.Touches(p, q)
  }

  ghost function Vein(grid: Grid, tiles: Tiles, r: Resource, p: Pos): set<Pos> {
    set q | q in tiles && Graph.Connected(Touching(grid, tiles, r), p, q)
  }

  lemma {:induction false} ReachMember(env: Env, tiles: Tiles, d: Deposit, j: nat)
    requires WellShaped(env.grid, d) && MembersStamped(env, tiles, d) && j < |d.members|
    ensures Graph.Connected(Touching(env.grid, tiles, d.resource), d.members[0], d.members[j])
    decreases j
  {
    var e := Touching(env.grid, tiles, d.resource);
    if j == 0 {
      Graph.Reflexive(e, d.members[0]);
    } else {
      assert BesideEarlier(env.grid, d.members, j);
      var i :| 0 <= i < j && Beside(env.grid, d.members[i], d.members[j]);
      ReachMember(env, tiles, d, i);
      env.grid.CompassInRing(d.members[i], d.members[j]);
      env.grid.RingIsTouching(d.members[i], d.members[j]);
      assert d.members[i] in d.members && d.members[j] in d.members;
      Graph.Extend(e, d.members[0], d.members[i], d.members[j]);
    }
  }

  /** The whole vein around a placed tile is its deposit: it merges with no other deposit and no older resource tile. */
  lemma VeinIsDeposit(env: Env, st: State, d: Deposit, p: Pos)
    requires Inv(env, st) && d in st.deposits && p in d.members
    ensures Vein(env.grid, st.tiles, d.resource, p) == set q | q in d.members
    ensures |Vein(env.grid, st.tiles, d.resource, p)| <= 6
  {
    var e := Touching(env.grid, st.tiles, d.resource);
    var members := set q | q in d.members;
    forall a, b | a in members && e(a, b) ensures b in members {
      env.grid.RingIsTouching(a, b);
    }
    forall q | q in Vein(env.grid, st.tiles, d.resource, p) ensures q in members {
      Graph.ClosedContains(e, members, p, q);
    }
    forall q | q in members ensures q in Vein(env.grid, st.tiles, d.resource, p) {
      var i :| 0 <= i < |d.members| && d.members[i] == p;
      var j :| 0 <= j < |d.members| && d.members[j] == q;
      ReachMember(env, st.tiles, d, i);
      ReachMember(env, st.tiles, d, j);
      forall a, b | e(a, b) ensures e(b, a) {
        env.grid.RingIsTouching(a, b);
        env.grid.RingSymmetric(a, b);
        env.grid.RingIsTouching(b, a);
      }
      Graph.Symmetric(e, d.members[0], p);
      Graph.Transitive(e, p, d.members[0], q);
    }
    assert Vein(env.grid, st.tiles, d.resource, p) == members;
    SetSize(d.members);
  }

  lemma {:induction false} SetSize(s: seq<Pos>)
    ensures |set q | q in s| <= |s|
  {
    if s != [] {
      SetSize(s[1..]);
      assert (set q | q in s) == (set q | q in s[1..]) + {s[0]};
    }
  }

  /** Touching tiles of one resource, at least one of them placed here, are in one deposit. */
  lemma TouchingTilesShareDeposit(env: Env, st: State, p: Pos, q: Pos, r: Resource)
    requires Inv(env, st) && Touching(env.grid, st.tiles, r)(p, q) && st.tiles[p] != env.sites[p]
    ensures exists d | d in st.deposits :: d.resource == r && p in d.members && q in d.members
  {
    env.grid.RingIsTouching(p, q);
    var d :| d in st.deposits && p in d.members;
  }

  /** A changed tile was an unprotected empty site, only its resource changed, and exactly one deposit accounts for
      it. */
  lemma ChangedTile(env: Env, st: State, p: Pos)
    requires Inv(env, st) && p in st.tiles && st.tiles[p] != env.sites[p]
    ensures var was := env.sites[p];
            && was.terrain == Land && !env.isProtected(p)
            && was.resource == None && was.town == None && was.economicStructure == None && was.complex == None
            && !was.dock && !was.naturalWonder && !was.watchtower && !was.waystation
    ensures exists r :: st.tiles[p] == env.sites[p].(resource := Some(r))
    ensures exists i | 0 <= i < |st.deposits| ::
              p in st.deposits[i].members && st.deposits[i].resource == st.tiles[p].resource.value
              && forall j | 0 <= j < |st.deposits| && p in st.deposits[j].members :: j == i
  {
    var d :| d in st.deposits && p in d.members;
    var i :| 0 <= i < |st.deposits| && st.deposits[i] == d;
    assert st.tiles[p] == env.sites[p].(resource := Some(d.resource));
  }

  // ---------- the whole placement ----------

  function InitialCounts(tiles: Tiles, order: seq<Pos>): Counts {
    if order == [] then NO_SITES
    else
      var before := InitialCounts(tiles, order[..|order| - 1]);
      var p := order[|order| - 1];
      if p in tiles && tiles[p].resource.Some? && IsNetworkResource(tiles[p].resource.value)
      then Bump(before, tiles[p].resource.value) else before
  }

  function TownCount(tiles: Tiles, order: seq<Pos>): nat {
    if order == [] then 0
    else
      var p := order[|order| - 1];
      TownCount(tiles, order[..|order| - 1]) + if p in tiles && tiles[p].town.Some? then 1 else 0
  }

  /** `order` is an iteration order of the tile map. */
  ghost predicate Iterates(order: seq<Pos>, tiles: Tiles) {
    Distinct(order) && forall p :: p in order <==> p in tiles
  }

  function Start(env: Env, order: seq<Pos>): State {
    State(env.sites, InitialCounts(env.sites, order), NO_SITES, [])
  }

  function SeedResourceNetworks(env: Env, order: seq<Pos>): State {
    Seed(env, Start(env, order), TownCount(env.sites, order), NETWORK_RESOURCES, SitesIn(env, order))
  }

  ghost function CarriersAmong(tiles: Tiles, order: seq<Pos>, r: Resource): set<Pos> {
    set p | p in order && Carries(tiles, p, r)
  }

  lemma CarriersAmongStep(tiles: Tiles, before: seq<Pos>, last: Pos, r: Resource)
    requires last !in before
    ensures |CarriersAmong(tiles, before + [last], r)| ==
              |CarriersAmong(tiles, before, r)| + if Carries(tiles, last, r) then 1 else 0
  {
    var was := CarriersAmong(tiles, before, r);
    assert CarriersAmong(tiles, before + [last], r) == if Carries(tiles, last, r) then was + {last} else was;
  }

  lemma {:induction false} InitialCountsExact(tiles: Tiles, order: seq<Pos>, r: Resource)
    requires Distinct(order) && IsNetworkResource(r)
    ensures Count(InitialCounts(tiles, order), r) == |CarriersAmong(tiles, order, r)|
    decreases |order|
  {
    if order == [] {
      assert CarriersAmong(tiles, order, r) == {};
    } else {
      var before, last := order[..|order| - 1], order[|order| - 1];
      assert order == before + [last];
      InitialCountsExact(tiles, before, r);
      CarriersAmongStep(tiles, before, last, r);
      assert Count(InitialCounts(tiles, order), r) ==
             Count(InitialCounts(tiles, before), r) + if Carries(tiles, last, r) then 1 else 0;
    }
  }

  ghost function TownsAmong(tiles: Tiles, order: seq<Pos>): set<Pos> {
    set p | p in order && p in tiles && tiles[p].town.Some?
  }

  lemma {:induction false} TownCountExact(tiles: Tiles, order: seq<Pos>)
    requires Distinct(order)
    ensures TownCount(tiles, order) == |TownsAmong(tiles, order)|
    decreases |order|
  {
    if order == [] {
      assert TownsAmong(tiles, order) == {};
    } else {
      var before, last := order[..|order| - 1], order[|order| - 1];
      assert order == before + [last] && last !in before;
      TownCountExact(tiles, before);
      if last in tiles && tiles[last].town.Some? {
        assert TownsAmong(tiles, order) == TownsAmong(tiles, before) + {last};
      } else {
        assert TownsAmong(tiles, order) == TownsAmong(tiles, before);
      }
    }
  }

  /** The finished map keeps the deposit invariant, its counters equal a recount, every counter stays within the larger
      of its start and its target, and every deposit is counted as one cluster. */
  lemma PlacementIsSound(env: Env, order: seq<Pos>)
    requires Iterates(order, env.sites) && forall p | p in env.sites :: env.grid.Holds(p)
    ensures var st := SeedResourceNetworks(env, order);
            && Inv(env, st)
            && (forall r | r in NETWORK_RESOURCES :: Count(st.placed, r) == |Carriers(st.tiles, r)|)
            && (forall r | r in NETWORK_RESOURCES ::
                  || Count(st.placed, r) <= SiteTarget(r, env.grid, TownCount(env.sites, order))
                  || Count(st.placed, r) == |Carriers(env.sites, r)|)
            && (forall r :: Count(st.clusters, r) == NumDeposits(st.deposits, r))
  {
    var st := Start(env, order);
    forall r | r in NETWORK_RESOURCES ensures Count(st.placed, r) == |Carriers(st.tiles, r)| {
      InitialCountsExact(env.sites, order, r);
      assert Carriers(env.sites, r) == CarriersAmong(env.sites, order, r);
    }
    assert Inv(env, st);
    SeedKeeps(env, st, TownCount(env.sites, order), NETWORK_RESOURCES, SitesIn(env, order));
  }

  // ---------- independence of the iteration order ----------

  lemma {:induction false} SitesInElements(env: Env, order: seq<Pos>)
    requires Distinct(order)
    ensures Distinct(SitesIn(env, order))
    ensures forall p :: p in SitesIn(env, order) <==> p in order && IsSite(env, p)
  {
    if order != [] {
      SitesInElements(env, order[1..]);
      assert order == [order[0]] + order[1..];
      assert order[0] !in order[1..];
    }
  }

  lemma {:induction false} PoolSitesElements(env: Env, r: Resource, phase: nat, sector: Pos, sites: seq<Pos>)
    requires Distinct(sites)
    ensures Distinct(PoolSites(env, r, phase, sector, sites))
    ensures forall p :: p in PoolSites(env, r, phase, sector, sites) <==>
                          p in sites && SectorOf(p) == sector && env.habitat(r, p) == Some(phase)
  {
    if sites != [] {
      PoolSitesElements(env, r, phase, sector, sites[1..]);
      assert sites == [sites[0]] + sites[1..];
      assert sites[0] !in sites[1..];
    }
  }

  lemma {:induction false} SectorsOfElements(sites: seq<Pos>)
    ensures Distinct(SectorsOf(sites))
    ensures forall s :: s in SectorsOf(sites) <==> exists p | p in sites :: SectorOf(p) == s
  {
    if sites != [] {
      SectorsOfElements(sites[1..]);
      assert sites == [sites[0]] + sites[1..];
    }
  }

  /** The pool comparator ranks any two different tiles. */
  lemma PoolOrderIsTotal(env: Env, r: Resource)
    ensures StrictTotal(PoolOrder(env, r))
  {}

  lemma {:induction false} PoolsOfIgnoreOrder(env: Env, r: Resource, phase: nat, a: seq<Pos>, b: seq<Pos>,
                                              sectors: seq<Pos>)
    requires Distinct(a) && Distinct(b) && forall p :: p in a <==> p in b
    ensures PoolsOf(env, r, phase, a, sectors) == PoolsOf(env, r, phase, b, sectors)
    decreases |sectors|
  {
    if sectors != [] {
      PoolSitesElements(env, r, phase, sectors[0], a);
      PoolSitesElements(env, r, phase, sectors[0], b);
      PoolOrderIsTotal(env, r);
      SortIgnoresOrder(PoolOrder(env, r), PoolSites(env, r, phase, sectors[0], a),
                       PoolSites(env, r, phase, sectors[0], b));
      PoolsOfIgnoreOrder(env, r, phase, a, b, sectors[1..]);
    }
  }

  lemma PoolsIgnoreOrder(env: Env, r: Resource, phase: nat, a: seq<Pos>, b: seq<Pos>)
    requires StrictTotal(env.sectorBefore)
    requires Distinct(a) && Distinct(b) && forall p :: p in a <==> p in b
    ensures Pools(env, r, phase, a) == Pools(env, r, phase, b)
  {
    SectorsOfElements(a);
    SectorsOfElements(b);
    SortIgnoresOrder(env.sectorBefore, SectorsOf(a), SectorsOf(b));
    PoolsOfIgnoreOrder(env, r, phase, a, b, Sort(env.sectorBefore, SectorsOf(b)));
  }

  lemma {:induction false} PhasesIgnoreOrder(env: Env, st: State, r: Resource, target: nat, phases: seq<nat>,
                                             a: seq<Pos>, b: seq<Pos>)
    requires StrictTotal(env.sectorBefore)
    requires Distinct(a) && Distinct(b) && forall p :: p in a <==> p in b
    ensures Phases(env, st, r, target, phases, a) == Phases(env, st, r, target, phases, b)
    decreases |phases|
  {
    if phases != [] {
      PoolsIgnoreOrder(env, r, phases[0], a, b);
      PhasesIgnoreOrder(env, Rounds(env, st, r, phases[0], target, Pools(env, r, phases[0], a)), r, target,
                        phases[1..], a, b);
    }
  }

  lemma {:induction false} SeedIgnoresOrder(env: Env, st: State, towns: nat, resources: seq<Resource>, a: seq<Pos>,
                                            b: seq<Pos>)
    requires StrictTotal(env.sectorBefore)
    requires Distinct(a) && Distinct(b) && forall p :: p in a <==> p in b
    ensures Seed(env, st, towns, resources, a) == Seed(env, st, towns, resources, b)
    decreases |resources|
  {
    if resources != [] {
      var target := SiteTarget(resources[0], env.grid, towns);
      PhasesIgnoreOrder(env, st, resources[0], target, PhasesOf(env.grid), a, b);
      SeedIgnoresOrder(env, Phases(env, st, resources[0], target, PhasesOf(env.grid), a), towns, resources[1..], a, b);
    }
  }

  lemma {:induction false} InitialCountsKeys(tiles: Tiles, order: seq<Pos>)
    ensures InitialCounts(tiles, order).Keys == NO_SITES.Keys
    decreases |order|
  {
    if order != [] {
      InitialCountsKeys(tiles, order[..|order| - 1]);
    }
  }

  /** Two insertion orders of the same tile map give the same map, counters and deposits. */
  lemma PlacementIgnoresIterationOrder(env: Env, a: seq<Pos>, b: seq<Pos>)
    requires StrictTotal(env.sectorBefore) && Iterates(a, env.sites) && Iterates(b, env.sites)
    ensures SeedResourceNetworks(env, a) == SeedResourceNetworks(env, b)
  {
    TownCountExact(env.sites, a);
    TownCountExact(env.sites, b);
    assert TownsAmong(env.sites, a) == TownsAmong(env.sites, b);
    InitialCountsKeys(env.sites, a);
    InitialCountsKeys(env.sites, b);
    forall r | r in NO_SITES ensures InitialCounts(env.sites, a)[r] == InitialCounts(env.sites, b)[r] {
      InitialCountsExact(env.sites, a, r);
      InitialCountsExact(env.sites, b, r);
      assert CarriersAmong(env.sites, a, r) == CarriersAmong(env.sites, b, r);
    }
    assert InitialCounts(env.sites, a) == InitialCounts(env.sites, b);
    SitesInElements(env, a);
    SitesInElements(env, b);
    SeedIgnoresOrder(env, Start(env, a), TownCount(env.sites, a), NETWORK_RESOURCES, SitesIn(env, a), SitesIn(env, b));
  }
}
