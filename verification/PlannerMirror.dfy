/** The planner's territory and frontier arrays, kept beside one player's summary on every tile write. */
module PlannerMirror {
  import opened Torus
  import opened World
  import opened PlayerSummary
  import opened PlayerSummaryRuntime
  import opened PlayerSummaryTerms
  import opened PlannerKeys

  class MirroredPlayer {
    const player: PlayerId
    var tiles: Tiles
    const record: PlayerSummaryRecord
    const territory: KeyArray
    const frontier: KeyArray

    /** The first export builds the arrays from the summary. */
    constructor (player: PlayerId, tiles: Tiles, record: PlayerSummaryRecord)
      ensures this.player == player && this.tiles == tiles && this.record == record
      ensures Valid() && fresh(territory) && fresh(frontier) && Agrees()
    {
      this.player, this.tiles, this.record := player, tiles, record;
      territory := new KeyArray();
      frontier := new KeyArray();
      new;
      territory.ResetFrom(record.territory);
      frontier.ResetFrom(record.frontier);
    }

    ghost predicate Valid()
      reads this, territory, frontier
    {
      territory != frontier && territory.Valid() && frontier.Valid()
    }

    /** Both arrays hold exactly the summary's keys. */
    ghost predicate Agrees()
      reads this, record, territory, frontier
    {
      territory.Members() == record.territory && frontier.Members() == record.frontier
    }

    /** The summary equals a recount of the tiles, with no more relics than the limit. */
    ghost predicate Counts(rates: Rates)
      reads this, record
    {
      Same(record.Value(), Recount(rates, tiles, player)) && |Relics(tiles, player)| <= WORLD_RELIC_LIMIT
    }

    /** Adds one of the player's tiles; the arrays follow only if the summary took it. */
    method ApplyTile(rates: Rates, key: Pos, tile: Tile) returns (ok: bool)
      requires Valid() && Agrees() && tile.ownerId == Some(player)
      modifies record, territory, frontier
      ensures Valid() && ok == Apply(rates, old(record.Value()), key, tile).1
      ensures Same(record.Value(), Apply(rates, old(record.Value()), key, tile).0)
      ensures ok ==> Agrees()
    {
      ok := record.ApplyTile(rates, key, tile);
      if ok {
        territory.Add(key);
        if tile.ownership == Some(Frontier) {
          frontier.Add(key);
        }
      }
    }

    method RemoveTile(rates: Rates, key: Pos, tile: Tile)
      requires Valid() && Agrees() && tile.ownerId == Some(player)
      modifies record, territory, frontier
      ensures Valid() && Agrees()
      ensures Same(record.Value(), Remove(rates, old(record.Value()), key, tile))
    {
      record.RemoveTile(rates, key, tile);
      territory.Remove(key);
      frontier.Remove(key);
    }

    /** One tile write, as this player's summary and arrays see it. */
    method ReplaceTile(rates: Rates, key: Pos, tile: Tile) returns (ok: bool)
      requires Valid() && Agrees() && Counts(rates)
      modifies this`tiles, record, territory, frontier
      ensures Valid() && tiles == old(tiles)[key := tile]
      ensures ok <==> |Relics(tiles, player)| <= WORLD_RELIC_LIMIT
      ensures ok ==> Agrees() && Counts(rates)
    {
      ghost var before := tiles - {key};
      if key in tiles && tiles[key].ownerId == Some(player) {
        RemoveTile(rates, key, tiles[key]);
      }
      AfterRemoval(rates, tiles, key, player, old(record.Value()), record.Value());
      tiles := tiles[key := tile];
      assert tiles == before[key := tile];
      ghost var was := record.Value();
      ok := true;
      if tile.ownerId == Some(player) {
        ok := ApplyTile(rates, key, tile);
      }
      AfterAdding(rates, before, key, tile, player, was, record.Value());
    }

    /** Over any run of accepted writes the arrays hold exactly the player's tiles, and exactly its frontier. */
    method Replay(rates: Rates, writes: seq<(Pos, Tile)>) returns (ok: bool)
      requires Valid() && Agrees() && Counts(rates)
      modifies this`tiles, record, territory, frontier
      ensures Valid()
      ensures ok <==> forall n | 0 <= n <= |writes| ::
                AtMostNineRelics(TilesAfter(old(tiles), writes[..n]), player)
      ensures ok ==> Agrees() && tiles == TilesAfter(old(tiles), writes)
      ensures ok ==>
                && territory.Members() == (set p | p in tiles && tiles[p].ownerId == Some(player))
                && frontier.Members() ==
                     (set p | p in tiles && tiles[p].ownerId == Some(player) && tiles[p].ownership == Some(Frontier))
    {
      forall n | 0 <= n <= |writes|
        ensures |Relics(TilesAfter(tiles, writes[..n]), player)| <= WORLD_RELIC_LIMIT <==>
                  AtMostNineRelics(TilesAfter(tiles, writes[..n]), player)
      {
        RelicsInTerms(TilesAfter(tiles, writes[..n]), player);
      }
      assert writes[..0] == [];
      for i := 0 to |writes|
        invariant Valid() && Agrees() && Counts(rates) && tiles == TilesAfter(old(tiles), writes[..i])
        invariant forall n | 0 <= n <= i :: |Relics(TilesAfter(old(tiles), writes[..n]), player)| <= WORLD_RELIC_LIMIT
      {
        assert writes[..i + 1][..i] == writes[..i] && writes[..i + 1][i] == writes[i];
        ok := ReplaceTile(rates, writes[i].0, writes[i].1);
        assert tiles == TilesAfter(old(tiles), writes[..i + 1]);
        if !ok {
          return;
        }
      }
      ok := true;
      assert writes[..|writes|] == writes;
    }
  }
}
