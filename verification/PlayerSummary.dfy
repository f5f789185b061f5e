/** Per-player summaries kept up to date tile by tile, and the recount they must agree with. */
module PlayerSummary {
  import opened Torus
  import opened World
  import opened Sums

  const WORLD_RELIC_LIMIT: nat := 9

  /** Income per minute, in exact units. */
  datatype Rates = Rates(settlement: nat, town: TownTier -> nat, dock: nat)

  function TierOf(town: Option<TownTier>): TownTier {
    if town.Some? then town.value else Settlement
  }

  function IsSettled(tile: Tile): bool {
    tile.ownership == Some(Settled)
  }

  function GoldOf(rates: Rates, tile: Tile): nat {
    if !IsSettled(tile) then 0
    else if tile.town.Some? then
      var tier := TierOf(tile.town.value);
      if tier == Settlement then rates.settlement else rates.town(tier)
    else if tile.complex.Some? then rates.settlement
    else if tile.dock then rates.dock
    else 0
  }

  function InProcess(s: Option<Structure>, owner: PlayerId): nat {
    if s.Some? && s.value.ownerId == owner && (s.value.status == UnderConstruction || s.value.status == Removing) then
        1 else 0
  }

  function ProcessesOn(tile: Tile, owner: PlayerId): nat {
    InProcess(tile.fort, owner) + InProcess(tile.observatory, owner) +
    InProcess(tile.siegeBattery, owner) + InProcess(tile.economicStructure, owner)
  }

  function ControlsComplex(tile: Tile, owner: PlayerId): bool {
    tile.complex.Some? && tile.complex.value.ownerId == owner
  }

  function OperatesComplex(tile: Tile, owner: PlayerId): bool {
    IsSettled(tile) && ControlsComplex(tile, owner) && tile.complex.value.status == Active
  }

  /** The counters of a summary. */
  datatype Counter = SettledTiles | Towns | Complexes | Gold | FishFood | Processes

  /** What one of a player's tiles adds to a counter; fish food is counted in tiles. */
  function Adds(rates: Rates, k: Counter, tile: Tile, owner: PlayerId): nat {
    match k
    case SettledTiles => if IsSettled(tile) then 1 else 0
    case Towns => if IsSettled(tile) && tile.town.Some? then 1 else 0
    case Complexes => if ControlsComplex(tile, owner) then 1 else 0
    case Gold => GoldOf(rates, tile)
    case FishFood => if IsSettled(tile) && tile.resource == Some(Fish) then 1 else 0
    case Processes => ProcessesOn(tile, owner)
  }

  /** A player's summary; a counter that is not listed is zero. */
  datatype Summary = Summary(
    territory: set<Pos>, relics: set<Pos>, frontier: set<Pos>, complexes: set<Pos>,
    townTier: map<Pos, TownTier>, counters: Counter -> nat)

  function EmptySummary(): Summary {
    Summary({}, {}, {}, {}, map[], _ => 0)
  }

  /** Two summaries agree when every set, map and counter does. */
  ghost predicate Same(a: Summary, b: Summary) {
    && a.territory == b.territory && a.relics == b.relics && a.frontier == b.frontier && a.complexes == b.complexes
    && a.townTier == b.townTier && forall k :: a.counters(k) == b.counters(k)
  }

  function WithIf(s: set<Pos>, key: Pos, add: bool): set<Pos> {
    if add then s + {key} else s
  }

  /** Adding an owned tile; the tenth relic is refused, after the territory has been extended. */
  function Apply(rates: Rates, s: Summary, key: Pos, tile: Tile): (Summary, bool) {
    if tile.ownerId.None? then (s, true)
    else if tile.naturalWonder && key !in s.relics && |s.relics| >= WORLD_RELIC_LIMIT
    then (s.(territory := s.territory + {key}), false)
    else
      var owner := tile.ownerId.value;
      (Summary(
         s.territory + {key},
         WithIf(s.relics, key, tile.naturalWonder),
         WithIf(s.frontier, key, tile.ownership == Some(Frontier)),
         WithIf(s.complexes, key, OperatesComplex(tile, owner)),
         if IsSettled(tile) && tile.town.Some? then s.townTier[key := TierOf(tile.town.value)] else s.townTier,
         k => s.counters(k) + Adds(rates, k, tile, owner)), true)
  }

  function Clamped(n: int): nat { if n < 0 then 0 else n }

  /** Removing an owned tile; counters are clamped at zero. */
  function Remove(rates: Rates, s: Summary, key: Pos, tile: Tile): Summary {
    if tile.ownerId.None? then s
    else
      Summary(
        s.territory - {key}, s.relics - {key}, s.frontier - {key}, s.complexes - {key},
        if IsSettled(tile) && tile.town.Some? then s.townTier - {key} else s.townTier,
        k => Clamped(s.counters(k) - Adds(rates, k, tile, tile.ownerId.value)))
  }

  // ---------- the recount ----------

  predicate Owns(tiles: Tiles, player: PlayerId, p: Pos) {
    p in tiles && tiles[p].ownerId == Some(player)
  }

  ghost function Terms(rates: Rates, tiles: Tiles, player: PlayerId, k: Counter): Pos -> int {
    p => if Owns(tiles, player, p) then Adds(rates, k, tiles[p], player) else 0
  }

  ghost function Territory(tiles: Tiles, player: PlayerId): set<Pos> {
    set p | p in tiles && Owns(tiles, player, p)
  }

  ghost function Relics(tiles: Tiles, player: PlayerId): set<Pos> {
    set p | p in tiles && Owns(tiles, player, p) && tiles[p].naturalWonder
  }

  ghost function FrontierKeys(tiles: Tiles, player: PlayerId): set<Pos> {
    set p | p in tiles && Owns(tiles, player, p) && tiles[p].ownership == Some(Frontier)
  }

  ghost function ComplexKeys(tiles: Tiles, player: PlayerId): set<Pos> {
    set p | p in tiles && Owns(tiles, player, p) && OperatesComplex(tiles[p], player)
  }

  ghost function TownTiers(tiles: Tiles, player: PlayerId): map<Pos, TownTier> {
    map p | p in tiles && Owns(tiles, player, p) && IsSettled(tiles[p]) && tiles[p].town.Some? ::
        TierOf(tiles[p].town.value)
  }

  ghost function Counted(rates: Rates, tiles: Tiles, player: PlayerId, k: Counter): nat {
    SumNonNegative(tiles.Keys, Terms(rates, tiles, player, k));
    Sum(tiles.Keys, Terms(rates, tiles, player, k))
  }

  ghost function Recount(rates: Rates, tiles: Tiles, player: PlayerId): Summary {
    Summary(Territory(tiles, player), Relics(tiles, player), FrontierKeys(tiles, player), ComplexKeys(tiles, player),
            TownTiers(tiles, player), k => Counted(rates, tiles, player, k))
  }

  // ---------- the world and its summaries ----------

  datatype Index = Index(tiles: Tiles, summaries: map<PlayerId, Summary>)

  function SummaryFor(w: Index, player: PlayerId): Summary {
    if player in w.summaries then w.summaries[player] else EmptySummary()
  }

  /** Every player's summary equals a recount of the current tiles. */
  ghost predicate Exact(rates: Rates, w: Index) {
    forall player :: Same(SummaryFor(w, player), Recount(rates, w.tiles, player))
  }

  function Detach(rates: Rates, w: Index, key: Pos): Index {
    if key !in w.tiles then w
    else
      var tile := w.tiles[key];
      Index(w.tiles - {key},
            if tile.ownerId.None? then w.summaries
            else w.summaries[tile.ownerId.value := Remove(rates, SummaryFor(w, tile.ownerId.value), key, tile)])
  }

  function Attach(rates: Rates, w: Index, key: Pos, tile: Tile): (Index, bool) {
    if tile.ownerId.None? then (w.(tiles := w.tiles[key := tile]), true)
    else
      var (s, ok) := Apply(rates, SummaryFor(w, tile.ownerId.value), key, tile);
      (Index(w.tiles[key := tile], w.summaries[tile.ownerId.value := s]), ok)
  }

  /** Replacing a tile: out of its old owner's summary, then into its new owner's. */
  function Replace(rates: Rates, w: Index, key: Pos, tile: Tile): (Index, bool) {
    Attach(rates, Detach(rates, w, key), key, tile)
  }

  /** No player holds more relics than the limit. */
  ghost predicate RelicsFit(tiles: Tiles) {
    forall player :: |Relics(tiles, player)| <= WORLD_RELIC_LIMIT
  }

  /** A run of tile replacements, and whether every one of them was accepted. */
  function RunReplacements(rates: Rates, w: Index, writes: seq<(Pos, Tile)>): (Index, bool)
    decreases |writes|
  {
    if writes == [] then (w, true)
    else
      var (w1, ok) := RunReplacements(rates, w, writes[..|writes| - 1]);
      var (w2, ok') := Replace(rates, w1, writes[|writes| - 1].0, writes[|writes| - 1].1);
      (w2, ok && ok')
  }

  function TilesAfter(tiles: Tiles, writes: seq<(Pos, Tile)>): Tiles
    decreases |writes|
  {
    if writes == [] then tiles
    else TilesAfter(tiles, writes[..|writes| - 1])[writes[|writes| - 1].0 := writes[|writes| - 1].1]
  }
}
