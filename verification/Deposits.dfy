/** World generation of resource deposits, as functions on the tile map and the counters. */
module Deposits {
  import opened Torus
  import opened World
  import opened Sorting

  const MIN_DEPOSIT_TILES: nat := 3
  const MAX_DEPOSIT_TILES: nat := 6
  const STANDARD_MAP_AREA: nat := 640 * 320
  const SECTOR_SIZE: nat := 32
  const NETWORK_RESOURCES: seq<Resource> :=
    [NeuralResin, ConductiveMinerals, CatalyticDeposit, LuxuryBiota, PrecursorSalvage]

  predicate IsNetworkResource(r: Resource) {
    r in NETWORK_RESOURCES
  }

  function SitesPerStandardMap(r: Resource): nat {
    match r
    case LuxuryBiota => 540
    case PrecursorSalvage => 90
    case _ => 160
  }

  /** Rounds a non-negative quotient to the nearest whole number, halves up. */
  function RoundedQuotient(a: nat, b: Extent): nat {
    (2 * a + b) / (2 * b)
  }

  /** The tile budget of a resource: luxury biota follows the towns at 1.5 tiles a town, the rest follow the area. */
  function SiteTarget(r: Resource, grid: Grid, towns: nat): nat {
    if r == LuxuryBiota && towns > 0 then RoundedQuotient(3 * towns, 2)
    else RoundedQuotient(SitesPerStandardMap(r) * (grid.w * grid.h), STANDARD_MAP_AREA)
  }

  /** What world generation is given: the tiles as they were at the start, how well a resource suits a site
      (0 preferred, 1 secondary), the protected landing keys, the placement hash, the comparator that ranks growth
      (any comparator will do; the source compares a hash), and the order of the sectors. */
  datatype Env = Env(
    grid: Grid,
    sites: Tiles,
    habitat: (Resource, Pos) -> Option<nat>,
    isProtected: Pos -> bool,
    seed: Resource -> int,
    hash: (int, Pos) -> nat,
    growthBefore: Resource -> ((Pos, Pos) -> bool),
    sectorBefore: (Pos, Pos) -> bool)

  predicate EmptySite(tile: Tile) {
    && tile.terrain == Land && tile.resource.None? && tile.town.None? && !tile.dock && tile.complex.None?
    && !tile.naturalWonder && !tile.watchtower && !tile.waystation && tile.economicStructure.None?
  }

  predicate IsSite(env: Env, p: Pos) {
    p in env.sites && EmptySite(env.sites[p]) && !env.isProtected(p)
  }

  datatype Deposit = Deposit(resource: Resource, members: seq<Pos>)

  /** Counters by resource; a resource that is not listed counts zero. */
  type Counts = map<Resource, nat>

  const NO_SITES: Counts := map r: Resource | r in NETWORK_RESOURCES :: 0

  function Count(counts: Counts, r: Resource): nat {
    if r in counts then counts[r] else 0
  }

  function Bump(counts: Counts, r: Resource): (bumped: Counts)
    ensures forall x :: Count(bumped, x) == Count(counts, x) + if x == r then 1 else 0
  {
    counts[r := Count(counts, r) + 1]
  }

  /** The tile map and the counters, with the deposits placed so far. */
  datatype State = State(tiles: Tiles, placed: Counts, clusters: Counts, deposits: seq<Deposit>)

  function Carries(tiles: Tiles, p: Pos, r: Resource): bool {
    p in tiles && tiles[p].resource == Some(r)
  }

  /** A site that suits the resource in this phase, is still empty, and touches no tile of the resource outside
      `group`. */
  predicate Available(env: Env, tiles: Tiles, r: Resource, phase: nat, group: seq<Pos>, p: Pos) {
    && IsSite(env, p) && p in tiles && tiles[p].resource.None?
    && env.habitat(r, p).Some? && env.habitat(r, p).value <= phase
    && (forall q | q in env.grid.Ring(p) + [p] :: Carries(tiles, q, r) ==> q in group)
  }

  // ---------- growing one deposit ----------

  function Neighbours(env: Env, tiles: Tiles, members: seq<Pos>, group: seq<Pos>): seq<Pos> {
    if members == [] then []
    else Adjacent(tiles, env.grid.Compass(members[0]), group) + Neighbours(env, tiles, members[1..], group)
  }

  function Adjacent(tiles: Tiles, around: seq<Pos>, group: seq<Pos>): seq<Pos> {
    if around == [] then []
    else (if around[0] in tiles && around[0] !in group then [around[0]] else []) + Adjacent(tiles, around[1..], group)
  }

  function FirstAvailable(env: Env, tiles: Tiles, r: Resource, phase: nat, group: seq<Pos>, s: seq<Pos>): Option<Pos> {
    if s == [] then None
    else if Available(env, tiles, r, phase, group, s[0]) then Some(s[0])
    else FirstAvailable(env, tiles, r, phase, group, s[1..])
  }

  function NextMember(env: Env, tiles: Tiles, r: Resource, phase: nat, members: seq<Pos>): Option<Pos> {
    FirstAvailable(env, tiles, r, phase, members, Sort(env.growthBefore(r), Neighbours(env, tiles, members, members)))
  }

  function Put(st: State, r: Resource, p: Pos, tile: Tile): State
  {
    st.(tiles := st.tiles[p := tile.(resource := Some(r))], placed := Bump(st.placed, r))
  }

  /** Puts the first tile of a new deposit. */
  function Open(st: State, r: Resource, p: Pos, tile: Tile): State
  {
    Put(st, r, p, tile).(deposits := st.deposits + [Deposit(r, [p])])
  }

  /** The deposit being grown is the last one. */
  function Newest(st: State): Deposit
    requires st.deposits != []
  {
    st.deposits[|st.deposits| - 1]
  }

  function Add(st: State, p: Pos, tile: Tile): State
    requires st.deposits != []
  {
    Put(st, Newest(st).resource, p, tile)
      .(deposits := st.deposits[|st.deposits| - 1 := Newest(st).(members := Newest(st).members + [p])])
  }

  ghost predicate Growing(st: State, r: Resource) {
    st.deposits != [] && Newest(st).resource == r
  }

  function Grow(env: Env, st: State, r: Resource, phase: nat, desired: nat): (st': State)
    requires Growing(st, r)
    ensures Growing(st', r)
    decreases desired - |Newest(st).members|
  {
    if |Newest(st).members| >= desired then st
    else
      match NextMember(env, st.tiles, r, phase, Newest(st).members)
      case None => st
      case Some(p) => if p in st.tiles then Grow(env, Add(st, p, st.tiles[p]), r, phase, desired) else st
  }

  function DesiredSize(env: Env, r: Resource, room: nat, centre: Pos): nat {
    var wish := MIN_DEPOSIT_TILES + env.hash(env.seed(r) + 19, centre) % (MAX_DEPOSIT_TILES - MIN_DEPOSIT_TILES + 1);
    if wish <= room then wish else room
  }

  /** Grows the newest deposit and counts it. */
  function Finish(env: Env, st: State, r: Resource, phase: nat, desired: nat): State
    requires Growing(st, r)
  {
    var grown := Grow(env, st, r, phase, desired);
    grown.(clusters := Bump(grown.clusters, r))
  }

  function Place(env: Env, st: State, r: Resource, phase: nat, target: nat, centre: Pos): State
    requires Count(st.placed, r) < target && centre in env.sites
  {
    Finish(env, Open(st, r, centre, env.sites[centre]), r, phase,
           DesiredSize(env, r, target - Count(st.placed, r), centre))
  }

  // ---------- pools, rounds, phases, resources ----------

  /** Takes tiles off the end of a pool until one is available. */
  function PopCentre(env: Env, tiles: Tiles, r: Resource, phase: nat, pool: seq<Pos>): (res: (Option<Pos>, seq<Pos>))
    ensures |res.1| + (if res.0.Some? then 1 else 0) <= |pool|
    ensures res.0.Some? ==> Available(env, tiles, r, phase, [], res.0.value)
  {
    if pool == [] then (None, [])
    else
      var tile, rest := pool[|pool| - 1], pool[..|pool| - 1];
      if Available(env, tiles, r, phase, [], tile) then (Some(tile), rest) else PopCentre(env, tiles, r, phase, rest)
  }

  function PoolSize(pools: seq<seq<Pos>>): nat {
    if pools == [] then 0 else |pools[0]| + PoolSize(pools[1..])
  }

  datatype Swept = Swept(st: State, pools: seq<seq<Pos>>, progress: bool)

  /** One pass over the pools: at most one new deposit from each. */
  function Sweep(env: Env, st: State, r: Resource, phase: nat, target: nat, pools: seq<seq<Pos>>): (res: Swept)
    requires Count(st.placed, r) < target
    ensures PoolSize(res.pools) + (if res.progress then 1 else 0) <= PoolSize(pools)
    decreases |pools|
  {
    if pools == [] then Swept(st, [], false)
    else
      var (centre, rest) := PopCentre(env, st.tiles, r, phase, pools[0]);
      if centre.None? then
        var tail := Sweep(env, st, r, phase, target, pools[1..]);
        tail.(pools := [rest] + tail.pools)
      else
        var st1 := Place(env, st, r, phase, target, centre.value);
        if Count(st1.placed, r) >= target then Swept(st1, [rest] + pools[1..], true)
        else
          var tail := Sweep(env, st1, r, phase, target, pools[1..]);
          Swept(tail.st, [rest] + tail.pools, true)
  }

  function Rounds(env: Env, st: State, r: Resource, phase: nat, target: nat, pools: seq<seq<Pos>>): State
    decreases PoolSize(pools)
  {
    if Count(st.placed, r) >= target then st
    else
      var swept := Sweep(env, st, r, phase, target, pools);
      if !swept.progress then swept.st else Rounds(env, swept.st, r, phase, target, swept.pools)
  }

  function SectorOf(p: Pos): Pos {
    Pos(p.x / SECTOR_SIZE, p.y / SECTOR_SIZE)
  }

  /** The sites of `order`, in that order. */
  function SitesIn(env: Env, order: seq<Pos>): seq<Pos> {
    if order == [] then []
    else (if IsSite(env, order[0]) then [order[0]] else []) + SitesIn(env, order[1..])
  }

  /** The sectors met along `sites`, each once. */
  function SectorsOf(sites: seq<Pos>): seq<Pos> {
    if sites == [] then []
    else
      var rest := SectorsOf(sites[1..]);
      if SectorOf(sites[0]) in rest then rest else [SectorOf(sites[0])] + rest
  }

  function PoolSites(env: Env, r: Resource, phase: nat, sector: Pos, sites: seq<Pos>): seq<Pos> {
    if sites == [] then []
    else (if SectorOf(sites[0]) == sector && env.habitat(r, sites[0]) == Some(phase) then [sites[0]] else [])
         + PoolSites(env, r, phase, sector, sites[1..])
  }

  /** Descending by hash, then by row, then by column; the pools are consumed from the end. */
  function PoolOrder(env: Env, r: Resource): (Pos, Pos) -> bool {
    (a, b) =>
      var ha, hb := env.hash(env.seed(r), a), env.hash(env.seed(r), b);
      hb < ha || (hb == ha && (b.y < a.y || (b.y == a.y && b.x < a.x)))
  }

  function PoolsOf(env: Env, r: Resource, phase: nat, sites: seq<Pos>, sectors: seq<Pos>): seq<seq<Pos>> {
    if sectors == [] then []
    else
      var pool := Sort(PoolOrder(env, r), PoolSites(env, r, phase, sectors[0], sites));
      [pool] + PoolsOf(env, r, phase, sites, sectors[1..])
  }

  function Pools(env: Env, r: Resource, phase: nat, sites: seq<Pos>): seq<seq<Pos>> {
    PoolsOf(env, r, phase, sites, Sort(env.sectorBefore, SectorsOf(sites)))
  }

  /** Standard-size maps use only the preferred habitat; smaller ones fall back to the secondary. */
  function PhasesOf(grid: Grid): seq<nat> {
    if grid.w * grid.h >= STANDARD_MAP_AREA then [0] else [0, 1]
  }

  function Phases(env: Env, st: State, r: Resource, target: nat, phases: seq<nat>, sites: seq<Pos>): State
    decreases |phases|
  {
    if phases == [] then st
    else
      var st1 := Rounds(env, st, r, phases[0], target, Pools(env, r, phases[0], sites));
      if Count(st1.placed, r) >= target then st1 else Phases(env, st1, r, target, phases[1..], sites)
  }

  function Seed(env: Env, st: State, towns: nat, resources: seq<Resource>, sites: seq<Pos>): State
    decreases |resources|
  {
    if resources == [] then st
    else
      var st1 := Phases(env, st, resources[0], SiteTarget(resources[0], env.grid, towns), PhasesOf(env.grid), sites);
      Seed(env, st1, towns, resources[1..], sites)
  }
}
