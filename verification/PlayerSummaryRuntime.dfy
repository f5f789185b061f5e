/** The summaries as the runtime keeps them: one record per player, updated in place on every tile write. */
module PlayerSummaryRuntime {
  import opened Torus
  import opened World
  import opened PlayerSummary
  import opened PlayerSummaryLaws
  import opened PlayerSummaryTerms

  class PlayerSummaryRecord {
    var territory: set<Pos>
    var relics: set<Pos>
    var frontier: set<Pos>
    var complexes: set<Pos>
    var townTier: map<Pos, TownTier>
    var settledTiles: nat
    var towns: nat
    var controlledComplexes: nat
    var gold: nat
    var fishFood: nat
    var processes: nat

    constructor ()
      ensures Same(Value(), EmptySummary())
    {
      territory, relics, frontier, complexes, townTier := {}, {}, {}, {}, map[];
      settledTiles, towns, controlledComplexes, gold, fishFood, processes := 0, 0, 0, 0, 0, 0;
    }

    static function Table(settledTiles: nat, towns: nat, complexes: nat, gold: nat, fishFood: nat,
                          processes: nat): Counter -> nat {
      (k: Counter) =>
        match k
        case SettledTiles => settledTiles
        case Towns => towns
        case Complexes => complexes
        case Gold => gold
        case FishFood => fishFood
        case Processes => processes
    }

    ghost function Value(): Summary
      reads this
    {
      Summary(territory, relics, frontier, complexes, townTier,
              Table(settledTiles, towns, controlledComplexes, gold, fishFood, processes))
    }

    /** The counters of an added tile; every field is spelled out because the whole state is the contract. */
    method CountIn(rates: Rates, tile: Tile)
      requires tile.ownerId.Some?
      modifies `settledTiles, `towns, `controlledComplexes, `gold, `fishFood, `processes
      ensures var owner := tile.ownerId.value;
              && settledTiles == old(settledTiles) + Adds(rates, SettledTiles, tile, owner)
              && towns == old(towns) + Adds(rates, Towns, tile, owner)
              && controlledComplexes == old(controlledComplexes) + Adds(rates, Complexes, tile, owner)
              && gold == old(gold) + Adds(rates, Gold, tile, owner)
              && fishFood == old(fishFood) + Adds(rates, FishFood, tile, owner)
              && processes == old(processes) + Adds(rates, Processes, tile, owner)
    {
      if tile.ownership == Some(Settled) {
        settledTiles := settledTiles + 1;
        if tile.resource == Some(Fish) {
          fishFood := fishFood + 1;
        }
        if tile.town.Some? {
          towns := towns + 1;
        }
      }
      if ControlsComplex(tile, tile.ownerId.value) {
        controlledComplexes := controlledComplexes + 1;
      }
      gold := gold + GoldOf(rates, tile);
      processes := processes + ProcessesOn(tile, tile.ownerId.value);
    }

    /** The counters of a removed tile, each clamped at zero. */
    method CountOut(rates: Rates, tile: Tile)
      requires tile.ownerId.Some?
      modifies `settledTiles, `towns, `controlledComplexes, `gold, `fishFood, `processes
      ensures var owner := tile.ownerId.value;
              && settledTiles == Clamped(old(settledTiles) - Adds(rates, SettledTiles, tile, owner))
              && towns == Clamped(old(towns) - Adds(rates, Towns, tile, owner))
              && controlledComplexes == Clamped(old(controlledComplexes) - Adds(rates, Complexes, tile, owner))
              && gold == Clamped(old(gold) - Adds(rates, Gold, tile, owner))
              && fishFood == Clamped(old(fishFood) - Adds(rates, FishFood, tile, owner))
              && processes == Clamped(old(processes) - Adds(rates, Processes, tile, owner))
    {
      if tile.ownership == Some(Settled) {
        settledTiles := Clamped(settledTiles - 1);
        if tile.resource == Some(Fish) {
          fishFood := Clamped(fishFood - 1);
        }
        if tile.town.Some? {
          towns := Clamped(towns - 1);
        }
      }
      if ControlsComplex(tile, tile.ownerId.value) {
        controlledComplexes := Clamped(controlledComplexes - 1);
      }
      gold := Clamped(gold - GoldOf(rates, tile));
      processes := Clamped(processes - ProcessesOn(tile, tile.ownerId.value));
    }

    /** Extends the territory, then the relics unless the limit is reached. */
    method ExtendTerritory(key: Pos, tile: Tile) returns (ok: bool)
      modifies `territory, `relics
      ensures ok == (tile.naturalWonder ==> key in old(relics) || |old(relics)| < WORLD_RELIC_LIMIT)
      ensures territory == old(territory) + {key} && relics == WithIf(old(relics), key, tile.naturalWonder && ok)
    {
      territory := territory + {key};
      if tile.naturalWonder {
        if key !in relics && |relics| >= WORLD_RELIC_LIMIT {
          return false;
        }
        relics := relics + {key};
      }
      return true;
    }

    /** The key sets and the town map of an accepted tile. */
    method IndexKeys(key: Pos, tile: Tile)
      requires tile.ownerId.Some?
      modifies `frontier, `townTier, `complexes
      ensures frontier == WithIf(old(frontier), key, tile.ownership == Some(Frontier))
      ensures complexes == WithIf(old(complexes), key, OperatesComplex(tile, tile.ownerId.value))
      ensures townTier == if IsSettled(tile) && tile.town.Some? then old(townTier)[key := TierOf(tile.town.value)]
                else old(townTier)
    {
      if tile.ownership == Some(Frontier) {
        frontier := frontier + {key};
      }
      if IsSettled(tile) && tile.town.Some? {
        townTier := townTier[key := TierOf(tile.town.value)];
      }
      if OperatesComplex(tile, tile.ownerId.value) {
        complexes := complexes + {key};
      }
    }

    /** Adds an owned tile; `ok` is false when the relic limit raises an error, with the territory already extended. */
    method ApplyTile(rates: Rates, key: Pos, tile: Tile) returns (ok: bool)
      modifies this
      ensures ok == Apply(rates, old(Value()), key, tile).1
      ensures Same(Value(), Apply(rates, old(Value()), key, tile).0)
    {
      if tile.ownerId.None? {
        return true;
      }
      ok := ExtendTerritory(key, tile);
      if !ok {
        return;
      }
      IndexKeys(key, tile);
      CountIn(rates, tile);
      AppliedByField(rates, old(Value()), Value(), key, tile);
    }

    method DropKeys(key: Pos, tile: Tile)
      modifies `territory, `relics, `frontier, `complexes, `townTier
      ensures territory == old(territory) - {key} && relics == old(relics) - {key}
      ensures frontier == old(frontier) - {key} && complexes == old(complexes) - {key}
      ensures townTier == if IsSettled(tile) && tile.town.Some? then old(townTier) - {key} else old(townTier)
    {
      territory, relics, frontier, complexes := territory - {key}, relics - {key}, frontier - {key}, complexes - {key};
      if IsSettled(tile) && tile.town.Some? {
        townTier := townTier - {key};
      }
    }

    /** Takes an owned tile out, clamping the counters at zero. */
    method RemoveTile(rates: Rates, key: Pos, tile: Tile)
      modifies this
      ensures Same(Value(), Remove(rates, old(Value()), key, tile))
    {
      if tile.ownerId.None? {
        return;
      }
      DropKeys(key, tile);
      CountOut(rates, tile);
      EveryCounter(Value().counters, Remove(rates, old(Value()), key, tile).counters);
    }
  }

  /** An accepted tile, field by field. */
  lemma AppliedByField(rates: Rates, was: Summary, now: Summary, key: Pos, tile: Tile)
    requires tile.ownerId.Some? && (tile.naturalWonder ==> key in was.relics || |was.relics| < WORLD_RELIC_LIMIT)
    requires now.territory == was.territory + {key} && now.relics == WithIf(was.relics, key, tile.naturalWonder)
    requires now.frontier == WithIf(was.frontier, key, tile.ownership == Some(Frontier))
    requires now.complexes == WithIf(was.complexes, key, OperatesComplex(tile, tile.ownerId.value))
    requires now.townTier == if IsSettled(tile) && tile.town.Some? then was.townTier[key := TierOf(tile.town.value)]
               else was.townTier
    requires var owner := tile.ownerId.value;
             && now.counters(SettledTiles) == was.counters(SettledTiles) + Adds(rates, SettledTiles, tile, owner)
             && now.counters(Towns) == was.counters(Towns) + Adds(rates, Towns, tile, owner)
             && now.counters(Complexes) == was.counters(Complexes) + Adds(rates, Complexes, tile, owner)
             && now.counters(Gold) == was.counters(Gold) + Adds(rates, Gold, tile, owner)
             && now.counters(FishFood) == was.counters(FishFood) + Adds(rates, FishFood, tile, owner)
             && now.counters(Processes) == was.counters(Processes) + Adds(rates, Processes, tile, owner)
    ensures Apply(rates, was, key, tile).1 && Same(now, Apply(rates, was, key, tile).0)
  {
    EveryCounter(now.counters, Apply(rates, was, key, tile).0.counters);
  }

  /** The counters are the six listed ones. */
  lemma EveryCounter(a: Counter -> nat, b: Counter -> nat)
    requires a(SettledTiles) == b(SettledTiles) && a(Towns) == b(Towns) && a(Complexes) == b(Complexes)
    requires a(Gold) == b(Gold) && a(FishFood) == b(FishFood) && a(Processes) == b(Processes)
    ensures forall k :: a(k) == b(k)
  {
    forall k ensures a(k) == b(k) {
      match k {
        case SettledTiles =>
        case Towns =>
        case Complexes =>
        case Gold =>
        case FishFood =>
        case Processes =>
      }
    }
  }

  /** The tile map and the players' summaries. */
  class SummaryIndex {
    var tiles: Tiles
    var summaries: map<PlayerId, PlayerSummaryRecord>

    constructor ()
      ensures Valid() && fresh(summaries.Values) && tiles == map[]
      ensures forall player :: SummaryOf(player) == EmptySummary()
    {
      tiles, summaries := map[], map[];
    }

    /** No two players share a record. */
    ghost predicate Valid()
      reads this
    {
      forall p, q | p in summaries && q in summaries && p != q :: summaries[p] != summaries[q]
    }

    ghost function SummaryOf(player: PlayerId): Summary
      reads this, summaries.Values
    {
      if player in summaries then summaries[player].Value() else EmptySummary()
    }

    /** Every summary equals a recount of the given tiles. */
    ghost predicate Exact(rates: Rates, ts: Tiles)
      reads this, summaries.Values
    {
      forall player :: Same(SummaryOf(player), Recount(rates, ts, player))
    }

    /** A player's summary, created empty on first use. */
    method SummaryForPlayer(player: PlayerId) returns (record: PlayerSummaryRecord)
      requires Valid()
      modifies this`summaries
      ensures Valid() && player in summaries && summaries[player] == record
      ensures summaries.Keys == old(summaries.Keys) + {player}
      ensures forall p | p in old(summaries) :: summaries[p] == old(summaries)[p]
      ensures player !in old(summaries) ==> fresh(record)
      ensures forall p :: Same(SummaryOf(p), old(SummaryOf(p)))
    {
      if player in summaries {
        return summaries[player];
      }
      record := new PlayerSummaryRecord();
      summaries := summaries[player := record];
    }

    method RemoveTileFromPlayerSummaries(rates: Rates, key: Pos, tile: Tile)
      requires Valid()
      modifies this`summaries, summaries.Values
      ensures Valid() && fresh(summaries.Values - old(summaries.Values))
      ensures forall p :: Same(SummaryOf(p), if tile.ownerId == Some(p) then Remove(rates, old(SummaryOf(p)), key, tile)
                                             else old(SummaryOf(p)))
    {
      if tile.ownerId.Some? {
        var record := SummaryForPlayer(tile.ownerId.value);
        record.RemoveTile(rates, key, tile);
      }
    }

    method ApplyTileToPlayerSummaries(rates: Rates, key: Pos, tile: Tile) returns (ok: bool)
      requires Valid()
      modifies this`summaries, summaries.Values
      ensures Valid() && fresh(summaries.Values - old(summaries.Values))
      ensures ok == (tile.ownerId.Some? ==> Apply(rates, old(SummaryOf(tile.ownerId.value)), key, tile).1)
      ensures forall p :: Same(SummaryOf(p),
                               if tile.ownerId == Some(p) then Apply(rates, old(SummaryOf(p)), key, tile).0
                                             else old(SummaryOf(p)))
    {
      ok := true;
      if tile.ownerId.Some? {
        var record := SummaryForPlayer(tile.ownerId.value);
        ok := record.ApplyTile(rates, key, tile);
      }
    }

    /** Takes the old tile out of its owner's summary, ahead of the write. */
    method ForgetTile(rates: Rates, key: Pos)
      requires Valid() && Exact(rates, tiles) && RelicsFit(tiles)
      modifies this`summaries, summaries.Values
      ensures Valid() && fresh(summaries.Values - old(summaries.Values))
      ensures Exact(rates, tiles - {key}) && RelicsFit(tiles - {key})
    {
      if key in tiles {
        RemoveTileFromPlayerSummaries(rates, key, tiles[key]);
      }
      forall p ensures Same(SummaryOf(p), Recount(rates, tiles - {key}, p)) &&
          |Relics(tiles - {key}, p)| <= WORLD_RELIC_LIMIT {
        AfterRemoval(rates, tiles, key, p, old(SummaryOf(p)), SummaryOf(p));
      }
    }

    /** Adds a written tile to its owner's summary; `before` is the map without it. */
    method CountTile(rates: Rates, ghost before: Tiles, key: Pos, tile: Tile) returns (ok: bool)
      requires Valid() && Exact(rates, before) && RelicsFit(before) && key !in before
      modifies this`summaries, summaries.Values
      ensures Valid() && fresh(summaries.Values - old(summaries.Values))
      ensures ok <==> RelicsFit(before[key := tile])
      ensures ok <==> Exact(rates, before[key := tile])
    {
      ok := ApplyTileToPlayerSummaries(rates, key, tile);
      forall p
        ensures tile.ownerId != Some(p) || ok <==> Same(SummaryOf(p), Recount(rates, before[key := tile], p))
        ensures |Relics(before[key := tile], p)| <= WORLD_RELIC_LIMIT <==> tile.ownerId != Some(p) || ok
      {
        AfterAdding(rates, before, key, tile, p, old(SummaryOf(p)), SummaryOf(p));
      }
      if !ok {
        ghost var owner := tile.ownerId.value;
        assert !Same(SummaryOf(owner), Recount(rates, before[key := tile], owner));
        assert |Relics(before[key := tile], owner)| > WORLD_RELIC_LIMIT;
      }
    }

    /** Writes one tile: the old owner's summary loses the old tile and the new owner's gains the new one. */
    method ReplaceTileState(rates: Rates, key: Pos, tile: Tile) returns (ok: bool)
      requires Valid() && Exact(rates, tiles) && RelicsFit(tiles)
      modifies this, summaries.Values
      ensures Valid() && fresh(summaries.Values - old(summaries.Values))
      ensures tiles == old(tiles)[key := tile]
      ensures ok <==> RelicsFit(tiles)
      ensures ok <==> Exact(rates, tiles)
      ensures ok <==> forall player :: AtMostNineRelics(tiles, player)
      ensures ok <==> forall player :: ReadsOffMap(rates, tiles, player, SummaryOf(player))
    {
      ForgetTile(rates, key);
      ghost var before := tiles - {key};
      tiles := tiles[key := tile];
      assert tiles == before[key := tile];
      ok := CountTile(rates, before, key, tile);
      RelicsFitInTerms(tiles);
      forall player
        ensures Same(SummaryOf(player), Recount(rates, tiles, player)) <==>
                  ReadsOffMap(rates, tiles, player, SummaryOf(player))
      {
        RecountInTerms(rates, tiles, player, SummaryOf(player));
      }
    }
  }

  lemma AfterRemoval(rates: Rates, tiles: Tiles, key: Pos, player: PlayerId, was: Summary, now: Summary)
    requires Same(was, Recount(rates, tiles, player)) && |Relics(tiles, player)| <= WORLD_RELIC_LIMIT
    requires Same(now, if key in tiles && tiles[key].ownerId == Some(player) then
                  Remove(rates, was, key, tiles[key]) else was)
    ensures Same(now, Recount(rates, tiles - {key}, player)) && |Relics(tiles - {key}, player)| <= WORLD_RELIC_LIMIT
  {
    RelicsShrink(tiles, key, player);
    if key in tiles {
      RemoveIsExact(rates, tiles, key, player, was);
    } else {
      assert tiles - {key} == tiles;
    }
  }

  lemma AfterAdding(rates: Rates, tiles: Tiles, key: Pos, tile: Tile, player: PlayerId, was: Summary, now: Summary)
    requires key !in tiles && Same(was, Recount(rates, tiles, player)) && |Relics(tiles, player)| <= WORLD_RELIC_LIMIT
    requires Same(now, if tile.ownerId == Some(player) then Apply(rates, was, key, tile).0 else was)
    ensures tile.ownerId != Some(player) || Apply(rates, was, key, tile).1 <==>
              Same(now, Recount(rates, tiles[key := tile], player))
    ensures |Relics(tiles[key := tile], player)| <= WORLD_RELIC_LIMIT <==>
              tile.ownerId != Some(player) || Apply(rates, was, key, tile).1
  {
    if tile.ownerId == Some(player) {
      RefusedIffOverLimit(rates, tiles, key, tile, player, was);
      if Apply(rates, was, key, tile).1 {
        ApplyIsExact(rates, tiles, key, tile, player, was);
      } else {
        RefusedIsInexact(rates, tiles, key, tile, player, was);
      }
    } else {
      KeysWith(tiles, key, tile, player);
      OthersUnaffected(rates, tiles, key, tile, player, was);
    }
  }
}
