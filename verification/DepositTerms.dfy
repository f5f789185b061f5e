/** Deposit placement in the map's own terms: what the deposits placed so far leave usable, and the rule by which the
    next one is placed. */
module DepositTerms {
  import opened Torus
  import opened World
  import opened Deposits
  import opened DepositLaws
  import opened DepositAccounting

  // ---------- the map with some deposits placed ----------

  /** `p` carries the resource: from the start, or as a member of a deposit. */
  ghost predicate Bears(env: Env, ds: seq<Deposit>, p: Pos, r: Resource) {
    p in env.sites && (env.sites[p].resource == Some(r) || exists d | d in ds :: d.resource == r && p in d.members)
  }

  /** Unprotected land with nothing on it, and no deposit there yet. */
  ghost predicate Bare(env: Env, ds: seq<Deposit>, p: Pos) {
    && p in env.sites && !env.isProtected(p) && (forall d | d in ds :: p !in d.members)
    && var tile := env.sites[p];
       && tile.terrain == Land && tile.resource == None && tile.town == None && tile.complex == None
       && tile.economicStructure == None && !tile.dock && !tile.naturalWonder && !tile.watchtower && !tile.waystation
  }

  /** A bare site that suits the resource well enough, where neither it nor anything it touches carries the resource
      already, but for the tiles of `group`. */
  ghost predicate Usable(env: Env, ds: seq<Deposit>, r: Resource, phase: nat, group: seq<Pos>, p: Pos) {
    && Bare(env, ds, p) && env.habitat(r, p).Some? && env.habitat(r, p).value <= phase
    && forall q | (q == p || env.grid.Touches(p, q)) && Bears(env, ds, q, r) :: q in group
  }

  ghost function Stock(env: Env, ds: seq<Deposit>, r: Resource): nat {
    |set p | p in env.sites && Bears(env, ds, p, r)|
  }

  lemma BearsIsCarries(env: Env, st: State, p: Pos, r: Resource)
    requires Inv(env, st)
    ensures Bears(env, st.deposits, p, r) <==> Carries(st.tiles, p, r)
  {
    if Bears(env, st.deposits, p, r) && env.sites[p].resource == Some(r) {
      assert forall d | d in st.deposits :: p !in d.members;
    }
  }

  lemma BareIsSite(env: Env, st: State, p: Pos)
    requires Inv(env, st)
    ensures Bare(env, st.deposits, p) <==> IsSite(env, p) && p in st.tiles && st.tiles[p].resource.None?
  {}

  lemma UsableIsAvailable(env: Env, st: State, r: Resource, phase: nat, group: seq<Pos>, p: Pos)
    requires Inv(env, st)
    ensures Usable(env, st.deposits, r, phase, group, p) <==> Available(env, st.tiles, r, phase, group, p)
  {
    BareIsSite(env, st, p);
    forall q
      ensures (q == p || env.grid.Touches(p, q)) && Bears(env, st.deposits, q, r) <==>
                q in env.grid.Ring(p) + [p] && Carries(st.tiles, q, r)
    {
      env.grid.RingIsTouching(p, q);
      BearsIsCarries(env, st, q, r);
    }
  }

  lemma StockIsPlaced(env: Env, st: State, r: Resource)
    requires Good(env, st) && r in NETWORK_RESOURCES
    ensures Stock(env, st.deposits, r) == Count(st.placed, r)
  {
    forall p ensures Bears(env, st.deposits, p, r) <==> Carries(st.tiles, p, r) {
      BearsIsCarries(env, st, p, r);
    }
    assert Carriers(st.tiles, r) == set p | p in env.sites && Bears(env, st.deposits, p, r);
  }

  // ---------- targets ----------

  /** `n` is a / b rounded to the nearest whole number, halves up. */
  predicate Nearest(n: int, a: int, b: int) {
    (2 * n - 1) * b <= 2 * a < (2 * n + 1) * b
  }

  /** The tile budget: one and a half tiles a town for luxury biota where there are towns; otherwise 540, 90 or 160
      tiles for each 640 by 320 of map. */
  ghost predicate IsBudget(env: Env, towns: nat, r: Resource, n: int) {
    if r == LuxuryBiota && towns > 0 then Nearest(n, 3 * towns, 2)
    else
      var density := if r == LuxuryBiota then 540 else if r == PrecursorSalvage then 90 else 160;
      Nearest(n, density * (env.grid.w * env.grid.h), 204800)
  }

  lemma RoundedIsNearest(a: nat, b: Extent)
    ensures Nearest(RoundedQuotient(a, b), a, b)
  {
    var n, rest := RoundedQuotient(a, b), (2 * a + b) % (2 * b);
    assert 2 * a + b == n * (2 * b) + rest;
    assert (2 * n - 1) * b == n * (2 * b) - b;
    assert (2 * n + 1) * b == n * (2 * b) + b;
  }

  lemma TargetIsBudget(env: Env, towns: nat, r: Resource)
    ensures IsBudget(env, towns, r, SiteTarget(r, env.grid, towns))
  {
    RoundedIsNearest(3 * towns, 2);
    RoundedIsNearest(SitesPerStandardMap(r) * (env.grid.w * env.grid.h), 204800);
  }

  // ---------- the rule for one deposit ----------

  /** The 32 by 32 sector a tile lies in. */
  function Sector(p: Pos): Pos {
    Pos(p.x / 32, p.y / 32)
  }

  /** `a` ranks before `b` for a centre: by hash, then by row, then by column. */
  predicate Ranks(env: Env, r: Resource, a: Pos, b: Pos) {
    var ha, hb := env.hash(env.seed(r), a), env.hash(env.seed(r), b);
    ha < hb || (ha == hb && (a.y < b.y || (a.y == b.y && a.x < b.x)))
  }

  /** How well the centre suits the resource; the deposit grows on sites that suit it as well. */
  function PhaseOf(env: Env, d: Deposit): Option<nat> {
    if d.members == [] then None else env.habitat(d.resource, d.members[0])
  }

  /** The secondary habitat is used on maps under the standard size only. */
  predicate AllowedPhase(grid: Grid, phase: nat) {
    phase == 0 || (phase == 1 && grid.w * grid.h < 204800)
  }

  /** The sector of the deposit placed last, if it was for the same resource and habitat. */
  function LastSector(env: Env, ds: seq<Deposit>, r: Resource, phase: nat): Option<Pos> {
    if ds == [] then None
    else
      var d := ds[|ds| - 1];
      if d.resource == r && d.members != [] && PhaseOf(env, d) == Some(phase) then Some(Sector(d.members[0])) else None
  }

  /** Going round the sectors in order, from the one after `last` to `next`, sector `u` is passed by. */
  predicate PassedBy(env: Env, last: Option<Pos>, next: Pos, u: Pos) {
    match last
    case None => env.sectorBefore(u, next)
    case Some(s) =>
      if env.sectorBefore(s, next) then env.sectorBefore(s, u) && env.sectorBefore(u, next)
      else env.sectorBefore(s, u) || env.sectorBefore(u, next)
  }

  /** The centre is usable; every usable site suits the resource no better, lies in no sector passed by, and ranks
      behind the centre if it lies in the same sector. */
  ghost predicate WellCentred(env: Env, ds: seq<Deposit>, r: Resource, phase: nat, centre: Pos) {
    && env.habitat(r, centre) == Some(phase) && Usable(env, ds, r, phase, [], centre)
    && forall q | Usable(env, ds, r, phase, [], q) ::
         && env.habitat(r, q) == Some(phase)
         && !PassedBy(env, LastSector(env, ds, r, phase), Sector(centre), Sector(q))
         && (Sector(q) == Sector(centre) && q != centre ==> Ranks(env, r, centre, q))
  }

  ghost predicate BordersSome(grid: Grid, members: seq<Pos>, p: Pos) {
    p !in members && exists m | m in members :: grid.Borders(m, p)
  }

  /** The edge neighbours of the members, member by member, each clockwise from north. */
  function Around(grid: Grid, members: seq<Pos>): seq<Pos> {
    if members == [] then []
    else
      var m := members[0];
      [grid.At(m.x, m.y - 1), grid.At(m.x + 1, m.y), grid.At(m.x, m.y + 1), grid.At(m.x - 1, m.y)]
      + Around(grid, members[1..])
  }

  function FirstIn(s: seq<Pos>, p: Pos): nat {
    if s == [] || s[0] == p then 0 else 1 + FirstIn(s[1..], p)
  }

  /** `p` is a usable neighbour of the deposit so far, no other comes before it in growth order, and none that is
      tied with it lies before it around the deposit. */
  ghost predicate WellGrown(env: Env, ds: seq<Deposit>, r: Resource, phase: nat, group: seq<Pos>, p: Pos) {
    var now := ds + [Deposit(r, group)];
    && Usable(env, now, r, phase, group, p) && BordersSome(env.grid, group, p)
    && forall q | Usable(env, now, r, phase, group, q) && BordersSome(env.grid, group, q) ::
         && !env.growthBefore(r)(q, p)
         && (!env.growthBefore(r)(p, q) ==> FirstIn(Around(env.grid, group), p) <= FirstIn(Around(env.grid, group), q))
  }

  /** No neighbour of the deposit is usable. */
  ghost predicate Hemmed(env: Env, ds: seq<Deposit>, r: Resource, phase: nat, group: seq<Pos>) {
    forall q | BordersSome(env.grid, group, q) :: !Usable(env, ds + [Deposit(r, group)], r, phase, group, q)
  }

  /** The size asked for: three to six by the centre's hash, less if the budget runs out before. */
  function SizeFor(env: Env, r: Resource, room: nat, centre: Pos): nat {
    var wish := 3 + env.hash(env.seed(r) + 19, centre) % 4;
    if wish <= room then wish else room
  }

  ghost predicate WellSized(env: Env, ds: seq<Deposit>, r: Resource, phase: nat, budget: nat, members: seq<Pos>)
    requires members != []
  {
    && Stock(env, ds, r) < budget
    && var size := SizeFor(env, r, budget - Stock(env, ds, r), members[0]);
       |members| == size || (|members| < size && Hemmed(env, ds, r, phase, members))
  }

  /** Deposit `d` continues the placement `ds` as the rules say. */
  ghost predicate Continues(env: Env, towns: nat, ds: seq<Deposit>, d: Deposit, phase: nat) {
    && d.members != [] && AllowedPhase(env.grid, phase)
    && WellCentred(env, ds, d.resource, phase, d.members[0])
    && (forall j | 0 < j < |d.members| :: WellGrown(env, ds, d.resource, phase, d.members[..j], d.members[j]))
    && exists budget: nat :: IsBudget(env, towns, d.resource, budget) &&
                             WellSized(env, ds, d.resource, phase, budget, d.members)
  }

  /** The order in which the resources are placed. */
  predicate PlacedBefore(a: Resource, b: Resource) {
    || (a == NeuralResin && b in {ConductiveMinerals, CatalyticDeposit, LuxuryBiota, PrecursorSalvage})
    || (a == ConductiveMinerals && b in {CatalyticDeposit, LuxuryBiota, PrecursorSalvage})
    || (a == CatalyticDeposit && b in {LuxuryBiota, PrecursorSalvage})
    || (a == LuxuryBiota && b == PrecursorSalvage)
  }

  ghost predicate PlacedByTheRules(env: Env, towns: nat, ds: seq<Deposit>, d: Deposit) {
    exists phase :: Continues(env, towns, ds, d, phase)
  }

  /** Every deposit continues the placement before it as the rules say. */
  ghost predicate EachByTheRules(env: Env, towns: nat, ds: seq<Deposit>) {
    forall i | 0 <= i < |ds| :: PlacedByTheRules(env, towns, ds[..i], ds[i])
  }

  /** One resource after another. */
  ghost predicate ResourcesInTurn(ds: seq<Deposit>) {
    forall i, j | 0 <= i < j < |ds| ::
      ds[i].resource == ds[j].resource || PlacedBefore(ds[i].resource, ds[j].resource)
  }

  ghost predicate ByTheRules(env: Env, towns: nat, ds: seq<Deposit>) {
    EachByTheRules(env, towns, ds) && ResourcesInTurn(ds)
  }

  /** The placement stops only when each resource has its budget or no usable site. */
  ghost predicate NothingLeft(env: Env, towns: nat, ds: seq<Deposit>) {
    forall r, budget: nat, phase, p |
        r in {NeuralResin, ConductiveMinerals, CatalyticDeposit, LuxuryBiota, PrecursorSalvage} &&
        IsBudget(env, towns, r, budget) && AllowedPhase(env.grid, phase) ::
      Stock(env, ds, r) >= budget || !Usable(env, ds, r, phase, [], p)
  }

  /** The map shows the deposits and nothing else new: each member is as it was but for the resource it carries. */
  ghost predicate ShowsDeposits(env: Env, tiles: Tiles, ds: seq<Deposit>) {
    && tiles.Keys == env.sites.Keys
    && (forall d, p | d in ds && p in d.members ::
          p in env.sites && p in tiles && tiles[p] == env.sites[p].(resource := Some(d.resource)))
    && (forall p | p in tiles :: (forall d | d in ds :: p !in d.members) ==> tiles[p] == env.sites[p])
  }

  ghost function TownsOn(env: Env): nat {
    |set p | p in env.sites && env.sites[p].town.Some?|
  }

  /** Neighbours are tried in the order of a hash. */
  ghost predicate GrowsByHash(env: Env) {
    forall r, a, b :: env.growthBefore(r)(a, b) <==> env.hash(env.seed(r) + 31, a) < env.hash(env.seed(r) + 31, b)
  }

  ghost function DepositsOf(ds: seq<Deposit>, r: Resource): set<int> {
    set i | 0 <= i < |ds| && ds[i].resource == r
  }

  /** The counters: tiles that carry each resource, and deposits placed of it. */
  ghost predicate CountsDeposits(env: Env, st: State) {
    && (forall r | r in {NeuralResin, ConductiveMinerals, CatalyticDeposit, LuxuryBiota, PrecursorSalvage} ::
          Count(st.placed, r) == Stock(env, st.deposits, r))
    && (forall r :: Count(st.clusters, r) == |DepositsOf(st.deposits, r)|)
  }

  /** All that the placement promises about the map it leaves. */
  ghost predicate Finished(env: Env, st: State) {
    && ByTheRules(env, TownsOn(env), st.deposits) && NothingLeft(env, TownsOn(env), st.deposits)
    && ShowsDeposits(env, st.tiles, st.deposits) && CountsDeposits(env, st)
  }
}
