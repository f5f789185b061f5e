/** The auto-fill entry points as the runtime calls them, on the live tile map and the live cooldown table. */
module AutoFillRuntime {
  import opened Torus
  import opened World
  import opened AutoFill
  import opened AutoFillApply
  import opened AutoFillTerms

  class AutoFiller {
    const r: Rules
    var tiles: Tiles
    var cooldownUntil: map<Pos, int>

    constructor (r: Rules, tiles: Tiles, cooldownUntil: map<Pos, int>)
      ensures this.r == r && this.tiles == tiles && this.cooldownUntil == cooldownUntil
    {
      this.r, this.tiles, this.cooldownUntil := r, tiles, cooldownUntil;
    }

    ghost predicate Valid()
      reads this
    {
      r.maxCap > 0 && OnGrid(r.grid, tiles)
    }

    method FindEnclosedRegionsAdjacentTo(centre: Pos, window: Option<ScanWindow>) returns (results: seq<set<Pos>>)
      requires Valid()
      modifies this`cooldownUntil
      ensures Valid()
      ensures forall area :: area in results <==> FillRegion(r, tiles, window, old(cooldownUntil), centre, area)
      ensures forall i, j | 0 <= i < j < |results| :: results[i] !! results[j]
      ensures CooldownStep(r, tiles, window, centre, old(cooldownUntil), cooldownUntil)
      ensures CapFailuresRecorded(r, tiles, window, centre, old(cooldownUntil), cooldownUntil)
    {
      var checked: set<Pos> := {};
      results := [];
      for i := 0 to 4
        invariant ScanState(r, tiles, window, old(cooldownUntil), centre, cooldownUntil, checked, results, i)
      {
        var key := r.grid.Cardinals(centre)[i];
        ghost var until := cooldownUntil;
        if key in checked || Cooled(window, cooldownUntil, key) {
          NothingAtNeighbour(r, tiles, window, old(cooldownUntil), centre, until, checked, results, i, key);
          checked := checked + {key};
          continue;
        }
        var region, hitSizeCap := FindEnclosedRegion(r, tiles, key);
        if region.Some? {
          FoundRegionIsNew(r, tiles, window, old(cooldownUntil), centre, until, checked, results, i, key);
          checked := checked + region.value;
          results := results + [region.value];
        } else {
          if window.Some? && hitSizeCap {
            cooldownUntil := cooldownUntil[key := window.value.now + window.value.cooldownMs];
            CapAtNeighbour(r, tiles, window, old(cooldownUntil), centre, until, checked, results, i, key,
                           cooldownUntil);
          } else {
            NothingAtNeighbour(r, tiles, window, old(cooldownUntil), centre, until, checked, results, i, key);
          }
          checked := checked + {key};
        }
      }
      ScanFinished(r, tiles, window, old(cooldownUntil), centre, cooldownUntil, checked, results);
    }

    /** Claims the claimable tiles of one pocket, in any order. */
    method FillTiles(region: set<Pos>, now: Option<int>, ghost before: Tiles, ghost done: set<Pos>,
                     settled: seq<(Pos, Tile)>)
      returns (settled': seq<(Pos, Tile)>)
      requires Valid() && region <= before.Keys && region !! done
      requires Progress(r, before, tiles, now, done, settled)
      modifies this`tiles
      ensures Valid() && Progress(r, before, tiles, now, done + region, settled')
      ensures tiles.Keys == old(tiles).Keys && settled <= settled'
      ensures forall p | p in tiles :: tiles[p] == if p in region && MaySettle(r, old(tiles)[p], p, now, None)
                                                   then old(tiles)[p].(ownerId := Some(r.owner),
                                                                       ownership := Some(Settled),
                                                                       frontierDecayAt := None,
                                                                       frontierDecayKind := None)
                                                   else old(tiles)[p]
    {
      settled' := settled;
      var rest := region;
      while rest != {}
        invariant rest <= region
        invariant Progress(r, before, tiles, now, done + (region - rest), settled') && settled <= settled'
        decreases rest
      {
        var key :| key in rest;
        FillOneMore(r, before, tiles, now, done + (region - rest), settled', key);
        assert done + (region - rest) + {key} == done + (region - (rest - {key}));
        rest := rest - {key};
        if Claimable(r, tiles[key], key, now) {
          var filled := Claimed(r, tiles[key]);
          tiles := tiles[key := filled];
          settled' := settled' + [(key, filled)];
        }
      }
      assert done + (region - rest) == done + region;
    }

    /** The bare fill of every pocket found around `centre`. */
    method FillFoundPockets(centre: Pos, now: Option<int>, window: Option<ScanWindow>)
      returns (settled: seq<(Pos, Tile)>)
      requires Valid()
      modifies this
      ensures Valid()
      ensures Progress(r, old(tiles), tiles, HoldTime(now, window),
                       FillArea(r, old(tiles), window, old(cooldownUntil), centre), settled)
      ensures CooldownStep(r, old(tiles), window, centre, old(cooldownUntil), cooldownUntil)
      ensures CapFailuresRecorded(r, old(tiles), window, centre, old(cooldownUntil), cooldownUntil)
    {
      var regions := FindEnclosedRegionsAdjacentTo(centre, window);
      settled := [];
      ghost var scanned, done: set<Pos> := cooldownUntil, {};
      assert tiles == Filled(r, old(tiles), HoldTime(now, window), {});
      for i := 0 to |regions|
        invariant Valid() && cooldownUntil == scanned
        invariant forall p :: p in done <==> exists j :: 0 <= j < i && p in regions[j]
        invariant Progress(r, old(tiles), tiles, HoldTime(now, window), done, settled)
      {
        assert FillRegion(r, old(tiles), window, old(cooldownUntil), centre, regions[i]);
        settled := FillTiles(regions[i], HoldTime(now, window), old(tiles), done, settled);
        done := done + regions[i];
      }
      AreaIsUnion(r, old(tiles), window, old(cooldownUntil), centre, regions, done);
    }

    /** Fills every pocket found around `centre`; returns the tiles it settled, in the order it settled them. */
    method ApplyAutoFill(centre: Pos, now: Option<int>, window: Option<ScanWindow>) returns (settled: seq<(Pos, Tile)>)
      requires Valid()
      modifies this
      ensures Valid()
      ensures Progress(r, old(tiles), tiles, HoldTime(now, window),
                       FillArea(r, old(tiles), window, old(cooldownUntil), centre), settled)
      ensures FilledInTerms(r, old(tiles), tiles, window, old(cooldownUntil), now, centre)
      ensures ListsSettled(r, old(tiles), tiles, window, old(cooldownUntil), now, centre, settled)
      ensures CooldownStep(r, old(tiles), window, centre, old(cooldownUntil), cooldownUntil)
      ensures CapFailuresRecorded(r, old(tiles), window, centre, old(cooldownUntil), cooldownUntil)
    {
      settled := FillFoundPockets(centre, now, window);
      FillInTerms(r, old(tiles), tiles, window, old(cooldownUntil), now, centre, settled);
    }
  }
}
