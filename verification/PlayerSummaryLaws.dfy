/** The incremental summaries agree with a recount of the tiles over every run of tile replacements. */
module PlayerSummaryLaws {
  import opened Torus
  import opened World
  import opened Sums
  import opened PlayerSummary

  lemma KeysWithout(tiles: Tiles, key: Pos, player: PlayerId)
    ensures Territory(tiles - {key}, player) == Territory(tiles, player) - {key}
    ensures Relics(tiles - {key}, player) == Relics(tiles, player) - {key}
    ensures FrontierKeys(tiles - {key}, player) == FrontierKeys(tiles, player) - {key}
    ensures ComplexKeys(tiles - {key}, player) == ComplexKeys(tiles, player) - {key}
  {}

  lemma TiersWithout(tiles: Tiles, key: Pos, player: PlayerId)
    ensures TownTiers(tiles - {key}, player) == TownTiers(tiles, player) - {key}
    ensures key in TownTiers(tiles, player) <==>
              Owns(tiles, player, key) && IsSettled(tiles[key]) && tiles[key].town.Some?
    ensures key !in TownTiers(tiles, player) ==> TownTiers(tiles, player) - {key} == TownTiers(tiles, player)
  {}

  lemma KeysWith(tiles: Tiles, key: Pos, tile: Tile, player: PlayerId)
    requires key !in tiles
    ensures var after, owned := tiles[key := tile], tile.ownerId == Some(player);
            && Territory(after, player) == WithIf(Territory(tiles, player), key, owned)
            && Relics(after, player) == WithIf(Relics(tiles, player), key, owned && tile.naturalWonder)
            && FrontierKeys(after, player) ==
                WithIf(FrontierKeys(tiles, player), key, owned && tile.ownership == Some(Frontier))
            && ComplexKeys(after, player) ==
                WithIf(ComplexKeys(tiles, player), key, owned && OperatesComplex(tile, player))
  {}

  lemma TiersWith(tiles: Tiles, key: Pos, tile: Tile, player: PlayerId)
    requires key !in tiles
    ensures TownTiers(tiles[key := tile], player) ==
            if tile.ownerId == Some(player) && IsSettled(tile) && tile.town.Some?
            then TownTiers(tiles, player)[key := TierOf(tile.town.value)] else TownTiers(tiles, player)
  {}

  /** Taking a tile away lowers each recounted counter by exactly what the tile added. */
  lemma CounterWithout(rates: Rates, tiles: Tiles, key: Pos, player: PlayerId, k: Counter)
    requires key in tiles
    ensures Counted(rates, tiles - {key}, player, k) ==
            Counted(rates, tiles, player, k) - (if tiles[key].ownerId == Some(player) then
                                                Adds(rates, k, tiles[key], player) else 0)
  {
    var was, now := Terms(rates, tiles, player, k), Terms(rates, tiles - {key}, player, k);
    assert (tiles - {key}).Keys == tiles.Keys - {key};
    TakeOut(tiles.Keys, was, key);
    SameTerms(tiles.Keys - {key}, was, now);
  }

  lemma CounterWith(rates: Rates, tiles: Tiles, key: Pos, tile: Tile, player: PlayerId, k: Counter)
    requires key !in tiles
    ensures Counted(rates, tiles[key := tile], player, k) ==
            Counted(rates, tiles, player, k) + if tile.ownerId == Some(player) then Adds(rates, k, tile, player) else 0
  {
    CounterWithout(rates, tiles[key := tile], key, player, k);
    assert tiles[key := tile] - {key} == tiles;
  }

  lemma NotOwnedNotKept(tiles: Tiles, key: Pos, player: PlayerId)
    requires !Owns(tiles, player, key)
    ensures Territory(tiles, player) - {key} == Territory(tiles, player) &&
              Relics(tiles, player) - {key} == Relics(tiles, player)
    ensures FrontierKeys(tiles, player) - {key} == FrontierKeys(tiles, player)
    ensures ComplexKeys(tiles, player) - {key} == ComplexKeys(tiles, player)
  {}

  /** Removing a tile from its owner's exact summary gives the exact summary of the map without it: no clamp fires. */
  lemma RemoveIsExact(rates: Rates, tiles: Tiles, key: Pos, player: PlayerId, s: Summary)
    requires key in tiles && Same(s, Recount(rates, tiles, player))
    ensures tiles[key].ownerId == Some(player) ==>
              Same(Remove(rates, s, key, tiles[key]), Recount(rates, tiles - {key}, player)) &&
              forall k :: s.counters(k) >= Adds(rates, k, tiles[key], player)
    ensures tiles[key].ownerId != Some(player) ==> Same(s, Recount(rates, tiles - {key}, player))
  {
    forall k
      ensures Counted(rates, tiles - {key}, player, k) ==
              s.counters(k) - (if tiles[key].ownerId == Some(player) then Adds(rates, k, tiles[key], player) else 0)
      {
      CounterWithout(rates, tiles, key, player, k);
    }
    KeysWithout(tiles, key, player);
    TiersWithout(tiles, key, player);
    if !Owns(tiles, player, key) {
      NotOwnedNotKept(tiles, key, player);
    }
  }

  /** Another player's tile leaves a summary exact. */
  lemma OthersUnaffected(rates: Rates, tiles: Tiles, key: Pos, tile: Tile, player: PlayerId, s: Summary)
    requires key !in tiles && tile.ownerId != Some(player) && Same(s, Recount(rates, tiles, player))
    ensures Same(s, Recount(rates, tiles[key := tile], player))
  {
    forall k ensures Counted(rates, tiles[key := tile], player, k) == s.counters(k) {
      CounterWith(rates, tiles, key, tile, player, k);
    }
    KeysWith(tiles, key, tile, player);
    TiersWith(tiles, key, tile, player);
  }

  /** The relic limit refuses a tile exactly when its owner would hold more relics than the limit. */
  lemma RefusedIffOverLimit(rates: Rates, tiles: Tiles, key: Pos, tile: Tile, player: PlayerId, s: Summary)
    requires key !in tiles && tile.ownerId == Some(player)
    requires s.relics == Relics(tiles, player) && |s.relics| <= WORLD_RELIC_LIMIT
    ensures Apply(rates, s, key, tile).1 <==> |Relics(tiles[key := tile], player)| <= WORLD_RELIC_LIMIT
  {
    KeysWith(tiles, key, tile, player);
    assert key !in s.relics;
  }

  /** Adding a tile to its owner's exact summary gives the exact summary of the map with it. */
  lemma ApplyIsExact(rates: Rates, tiles: Tiles, key: Pos, tile: Tile, player: PlayerId, s: Summary)
    requires key !in tiles && tile.ownerId == Some(player) && Same(s, Recount(rates, tiles, player))
    requires Apply(rates, s, key, tile).1
    ensures Same(Apply(rates, s, key, tile).0, Recount(rates, tiles[key := tile], player))
  {
    var after := tiles[key := tile];
    var r := Apply(rates, s, key, tile).0;
    forall k ensures r.counters(k) == Counted(rates, after, player, k) {
      CounterWith(rates, tiles, key, tile, player, k);
    }
    assert r.townTier == TownTiers(after, player) by {
      TiersWith(tiles, key, tile, player);
    }
    KeysWith(tiles, key, tile, player);
  }

  /** Taking any tile off the map keeps every player's summary exact. */
  lemma DetachIsExact(rates: Rates, w: Index, key: Pos)
    requires Exact(rates, w)
    ensures Exact(rates, Detach(rates, w, key)) && Detach(rates, w, key).tiles == w.tiles - {key}
  {
    var w1 := Detach(rates, w, key);
    if key in w.tiles {
      forall player ensures Same(SummaryFor(w1, player), Recount(rates, w1.tiles, player)) {
        RemoveIsExact(rates, w.tiles, key, player, SummaryFor(w, player));
      }
    } else {
      assert w.tiles - {key} == w.tiles;
    }
  }

  lemma RelicsShrink(tiles: Tiles, key: Pos, player: PlayerId)
    ensures |Relics(tiles - {key}, player)| <= |Relics(tiles, player)|
  {
    KeysWithout(tiles, key, player);
    if key in Relics(tiles, player) {
      assert Relics(tiles, player) == Relics(tiles - {key}, player) + {key};
    } else {
      assert Relics(tiles, player) == Relics(tiles - {key}, player);
    }
  }

  /** A refused tile leaves its owner's summary inexact: the territory was extended and nothing else. */
  lemma RefusedIsInexact(rates: Rates, tiles: Tiles, key: Pos, tile: Tile, player: PlayerId, s: Summary)
    requires key !in tiles && tile.ownerId == Some(player) && Same(s, Recount(rates, tiles, player))
    requires !Apply(rates, s, key, tile).1
    ensures !Same(Apply(rates, s, key, tile).0, Recount(rates, tiles[key := tile], player))
  {
    KeysWith(tiles, key, tile, player);
    assert key !in s.relics && key in Relics(tiles[key := tile], player);
  }

  /** Putting a tile on the map is accepted exactly when no player then holds more relics than the limit, and exactly
      then every player's summary stays exact. */
  lemma AttachIsExact(rates: Rates, w: Index, key: Pos, tile: Tile)
    requires Exact(rates, w) && key !in w.tiles && RelicsFit(w.tiles)
    ensures Attach(rates, w, key, tile).1 <==> RelicsFit(w.tiles[key := tile])
    ensures Attach(rates, w, key, tile).1 <==> Exact(rates, Attach(rates, w, key, tile).0)
  {
    var (w1, ok) := Attach(rates, w, key, tile);
    forall player | tile.ownerId != Some(player)
      ensures |Relics(w.tiles[key := tile], player)| <= WORLD_RELIC_LIMIT
      ensures Same(SummaryFor(w1, player), Recount(rates, w1.tiles, player))
    {
      KeysWith(w.tiles, key, tile, player);
      OthersUnaffected(rates, w.tiles, key, tile, player, SummaryFor(w, player));
    }
    if tile.ownerId.Some? {
      var owner := tile.ownerId.value;
      RefusedIffOverLimit(rates, w.tiles, key, tile, owner, SummaryFor(w, owner));
      if ok {
        ApplyIsExact(rates, w.tiles, key, tile, owner, SummaryFor(w, owner));
      } else {
        RefusedIsInexact(rates, w.tiles, key, tile, owner, SummaryFor(w, owner));
        assert !Same(SummaryFor(w1, owner), Recount(rates, w1.tiles, owner));
      }
    }
  }

  /** Replacing a tile is accepted exactly when the relics then fit, and exactly then keeps every summary exact. */
  lemma ReplaceIsExact(rates: Rates, w: Index, key: Pos, tile: Tile)
    requires Exact(rates, w) && RelicsFit(w.tiles)
    ensures var (w', ok) := Replace(rates, w, key, tile);
            (ok <==> RelicsFit(w.tiles[key := tile])) && (ok <==> Exact(rates, w')) && w'.tiles == w.tiles[key := tile]
  {
    DetachIsExact(rates, w, key);
    forall player ensures |Relics(w.tiles - {key}, player)| <= WORLD_RELIC_LIMIT {
      RelicsShrink(w.tiles, key, player);
    }
    assert (w.tiles - {key})[key := tile] == w.tiles[key := tile];
    AttachIsExact(rates, Detach(rates, w, key), key, tile);
  }

  /** Over any run of tile replacements: none is refused exactly when no intermediate map gives a player too many
      relics, and then every summary equals a recount of the final tiles. */
  lemma {:induction false} SummariesStayExact(rates: Rates, w: Index, writes: seq<(Pos, Tile)>)
    requires Exact(rates, w) && RelicsFit(w.tiles)
    ensures var (w', ok) := RunReplacements(rates, w, writes);
            && (ok <==> forall n | 0 <= n <= |writes| :: RelicsFit(TilesAfter(w.tiles, writes[..n])))
            && (ok ==> Exact(rates, w') && w'.tiles == TilesAfter(w.tiles, writes))
    decreases |writes|
  {
    if writes == [] {
      assert writes[..0] == writes;
    } else {
      var last := |writes| - 1;
      var before := writes[..last];
      SummariesStayExact(rates, w, before);
      assert forall n | 0 <= n <= last :: before[..n] == writes[..n];
      assert before[..last] == before && writes[..|writes|] == writes;
      var (w1, ok) := RunReplacements(rates, w, before);
      if ok {
        assert RelicsFit(TilesAfter(w.tiles, before[..last]));
        ReplaceIsExact(rates, w1, writes[last].0, writes[last].1);
      }
    }
  }

  /** An empty world starts exact. */
  lemma EmptyWorldIsExact(rates: Rates)
    ensures Exact(rates, Index(map[], map[])) && RelicsFit(map[])
  {}
}
