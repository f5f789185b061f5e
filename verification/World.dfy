/** Tiles of the world map, with the fields the modelled components read or write. */
module World {
  import opened Torus

  datatype Option<+T> = None | Some(value: T)

  type PlayerId = string

  datatype Terrain = Land | Sea | CoastalSea | Mountain

  datatype Ownership = Frontier | Settled | Barbarian

  datatype DecayKind = Encirclement | OutOfReach

  datatype TownTier = Settlement | Town | City | GreatCity | Metropolis

  datatype BuildStatus = UnderConstruction | Active | Inactive | Removing

  datatype Resource =
    | NeuralResin | ConductiveMinerals | CatalyticDeposit | LuxuryBiota | PrecursorSalvage
    | Farm | Titanium | Gems | Fish | Umbrite

  /** A fort, observatory, siege battery or economic structure, or the fabrication complex. */
  datatype Structure = Structure(ownerId: PlayerId, status: BuildStatus)

  datatype Tile = Tile(
    terrain: Terrain,
    ownerId: Option<PlayerId>,
    ownership: Option<Ownership>,
    frontierDecayAt: Option<int>,
    frontierDecayKind: Option<DecayKind>,
    captureHoldUntil: Option<int>,
    resource: Option<Resource>,
    town: Option<Option<TownTier>>,
    dock: bool,
    naturalWonder: bool,
    watchtower: bool,
    waystation: bool,
    fort: Option<Structure>,
    observatory: Option<Structure>,
    siegeBattery: Option<Structure>,
    economicStructure: Option<Structure>,
    complex: Option<Structure>)

  type Tiles = map<Pos, Tile>

  /** Every tile is stored under its own wrapped coordinates. */
  ghost predicate OnGrid(grid: Grid, tiles: Tiles) {
    forall p | p in tiles :: grid.Holds(p)
  }

  predicate OwnedBy(tile: Tile, player: PlayerId, ownership: Ownership) {
    tile.ownerId == Some(player) && tile.ownership == Some(ownership)
  }

  /** A captured tile stays under its capture hold until the recorded time. */
  predicate CaptureHoldActive(tile: Tile, now: int) {
    tile.ownership == Some(Frontier) && tile.captureHoldUntil.Some? && tile.captureHoldUntil.value > now
  }
}
