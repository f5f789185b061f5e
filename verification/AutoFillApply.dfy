/** Which pockets around a just-settled tile are filled, what the fill writes, and why filling twice is filling once. */
module AutoFillApply {
  import opened Torus
  import opened World
  import opened AutoFill

  /** The caller's scan window suppresses origins whose last scan ran into the size cap. */
  predicate Cooled(window: Option<ScanWindow>, until: map<Pos, int>, p: Pos) {
    window.Some? && (if p in until then until[p] else 0) > window.value.now
  }

  ghost predicate FillOrigin(r: Rules, tiles: Tiles, window: Option<ScanWindow>, until: map<Pos, int>, centre: Pos,
                             n: Pos) {
    && n in r.grid.Cardinals(centre)
    && !Cooled(window, until, n)
    && Eligible(r, tiles, n)
    && Enclosed(r, tiles, Component(r, tiles, n))
  }

  ghost predicate FillRegion(r: Rules, tiles: Tiles, window: Option<ScanWindow>, until: map<Pos, int>, centre: Pos,
                             area: set<Pos>)
  {
    exists n :: FillOrigin(r, tiles, window, until, centre, n) && area == Component(r, tiles, n)
  }

  ghost predicate InFillArea(r: Rules, tiles: Tiles, window: Option<ScanWindow>, until: map<Pos, int>, centre: Pos,
                             p: Pos) {
    exists n :: FillOrigin(r, tiles, window, until, centre, n) && p in Component(r, tiles, n)
  }

  /** Every tile of every pocket the scan around `centre` finds. */
  ghost function FillArea(r: Rules, tiles: Tiles, window: Option<ScanWindow>, until: map<Pos, int>,
                          centre: Pos): set<Pos> {
    set p | p in tiles && InFillArea(r, tiles, window, until, centre, p)
  }

  predicate Claimable(r: Rules, tile: Tile, p: Pos, now: Option<int>) {
    && (tile.ownerId.None? || OwnedBy(tile, r.owner, Frontier))
    && !(OwnedBy(tile, r.owner, Frontier) && now.Some? && CaptureHoldActive(tile, now.value))
    && r.inReach(p)
  }

  function Claimed(r: Rules, tile: Tile): Tile {
    tile.(ownerId := Some(r.owner), ownership := Some(Settled), frontierDecayAt := None, frontierDecayKind := None)
  }

  ghost function Filled(r: Rules, tiles: Tiles, now: Option<int>, area: set<Pos>): Tiles {
    map p | p in tiles :: if p in area && Claimable(r, tiles[p], p, now) then Claimed(r, tiles[p]) else tiles[p]
  }

  /** What a scan may do to the cooldown table: only cap failures are recorded, and running cooldowns are left alone. */
  ghost predicate CooldownStep(r: Rules, tiles: Tiles, window: Option<ScanWindow>, centre: Pos,
                               before: map<Pos, int>, after: map<Pos, int>)
  {
    && (forall p | p in before :: p in after)
    && (forall p | p in after && (p !in before || before[p] != after[p]) ::
          && p in r.grid.Cardinals(centre) && !Cooled(window, before, p)
          && window.Some? && after[p] == window.value.now + window.value.cooldownMs
          && Eligible(r, tiles, p) && |Component(r, tiles, p)| > r.maxCap)
  }

  /** A scan of `p` is bound to run into the main cap. */
  ghost predicate BoundForCap(r: Rules, tiles: Tiles, window: Option<ScanWindow>, until: map<Pos, int>, p: Pos) {
    window.Some? && !Cooled(window, until, p) && Eligible(r, tiles, p) && |Component(r, tiles, p)| > r.maxCap &&
    !Leaks(r, tiles, Component(r, tiles, p))
  }

  predicate CoolsFrom(window: Option<ScanWindow>, until: map<Pos, int>, p: Pos) {
    window.Some? && p in until && until[p] == window.value.now + window.value.cooldownMs
  }

  /** Every neighbour whose scan is bound to run into the cap is on cooldown from now on. */
  ghost predicate CapFailuresRecorded(r: Rules, tiles: Tiles, window: Option<ScanWindow>, centre: Pos,
                                      before: map<Pos, int>, after: map<Pos, int>)
  {
    forall p | p in r.grid.Cardinals(centre) && BoundForCap(r, tiles, window, before, p) :: CoolsFrom(window, after, p)
  }

  /** The scan has handled the first `n` neighbours of `centre`. */
  ghost predicate ScanState(r: Rules, tiles: Tiles, window: Option<ScanWindow>, until0: map<Pos, int>, centre: Pos,
                            until: map<Pos, int>, checked: set<Pos>, results: seq<set<Pos>>, n: nat)
    requires n <= 4
  {
    && CooldownStep(r, tiles, window, centre, until0, until)
    && (forall p | p !in checked :: Cooled(window, until, p) == Cooled(window, until0, p))
    && (forall area | area in results :: FillRegion(r, tiles, window, until0, centre, area) && area <= checked)
    && (forall i, j | 0 <= i < j < |results| :: results[i] !! results[j])
    && (forall p | p in checked ::
          || (exists area | area in results :: p in area)
          || !FillOrigin(r, tiles, window, until0, centre, p))
    && (forall p | p in checked && BoundForCap(r, tiles, window, until0, p) :: CoolsFrom(window, until, p))
    && (forall i | 0 <= i < n :: r.grid.Cardinals(centre)[i] in checked)
  }

  /** A neighbour that yields nothing and is not recorded. */
  lemma NothingAtNeighbour(r: Rules, tiles: Tiles, window: Option<ScanWindow>, until0: map<Pos, int>, centre: Pos,
                           until: map<Pos, int>, checked: set<Pos>, results: seq<set<Pos>>, n: nat, key: Pos)
    requires n < 4 && ScanState(r, tiles, window, until0, centre, until, checked, results, n)
    requires key == r.grid.Cardinals(centre)[n]
    requires key in checked || (!FillOrigin(r, tiles, window, until0, centre, key) &&
                                !BoundForCap(r, tiles, window, until0, key))
    ensures ScanState(r, tiles, window, until0, centre, until, checked + {key}, results, n + 1)
  {}

  /** A neighbour whose scan ran into the cap. */
  lemma CapAtNeighbour(r: Rules, tiles: Tiles, window: Option<ScanWindow>, until0: map<Pos, int>, centre: Pos,
                       until: map<Pos, int>, checked: set<Pos>, results: seq<set<Pos>>, n: nat, key: Pos,
                           until': map<Pos, int>)
    requires n < 4 && ScanState(r, tiles, window, until0, centre, until, checked, results, n)
    requires key == r.grid.Cardinals(centre)[n] && key !in checked
    requires window.Some? && !Cooled(window, until, key) && Eligible(r, tiles, key) &&
               |Component(r, tiles, key)| > r.maxCap
    requires until' == until[key := window.value.now + window.value.cooldownMs]
    ensures ScanState(r, tiles, window, until0, centre, until', checked + {key}, results, n + 1)
  {
    assert CooldownStep(r, tiles, window, centre, until0, until');
    forall p | p in checked + {key} && BoundForCap(r, tiles, window, until0, p) ensures CoolsFrom(window, until', p) {
      assert p != key ==> CoolsFrom(window, until, p);
    }
  }

  lemma FoundRegionIsNew(r: Rules, tiles: Tiles, window: Option<ScanWindow>, until0: map<Pos, int>, centre: Pos,
                         until: map<Pos, int>, checked: set<Pos>, results: seq<set<Pos>>, n: nat, key: Pos)
    requires n < 4 && OnGrid(r.grid, tiles)
    requires ScanState(r, tiles, window, until0, centre, until, checked, results, n)
    requires key == r.grid.Cardinals(centre)[n] && key !in checked && FillOrigin(r, tiles, window, until0, centre, key)
    ensures var area := Component(r, tiles, key);
            ScanState(r, tiles, window, until0, centre, until, checked + area, results + [area], n + 1)
  {
    var area := Component(r, tiles, key);
    ComponentHasOrigin(r, tiles, key);
    forall i | 0 <= i < |results| ensures results[i] !! area {
      assert results[i] in results;
      var m :| FillOrigin(r, tiles, window, until0, centre, m) && results[i] == Component(r, tiles, m);
      ComponentsDisjoint(r, tiles, key, m);
    }
    assert area in results + [area];
    forall p | p in area ensures !BoundForCap(r, tiles, window, until0, p) {
      SameComponent(r, tiles, key, p);
    }
    forall p | p in checked + area
      ensures || (exists a | a in results + [area] :: p in a)
              || !FillOrigin(r, tiles, window, until0, centre, p)
    {
      if p in checked && exists a | a in results :: p in a {
        var a :| a in results && p in a;
        assert a in results + [area];
      }
    }
  }

  lemma ScanFinished(r: Rules, tiles: Tiles, window: Option<ScanWindow>, until0: map<Pos, int>, centre: Pos,
                     until: map<Pos, int>, checked: set<Pos>, results: seq<set<Pos>>)
    requires OnGrid(r.grid, tiles)
    requires ScanState(r, tiles, window, until0, centre, until, checked, results, 4)
    ensures forall area :: area in results <==> FillRegion(r, tiles, window, until0, centre, area)
    ensures CapFailuresRecorded(r, tiles, window, centre, until0, until)
  {
    forall n | FillOrigin(r, tiles, window, until0, centre, n)
      ensures Component(r, tiles, n) in results
    {
      assert n in checked;
      var area :| area in results && n in area;
      var m :| FillOrigin(r, tiles, window, until0, centre, m) && area == Component(r, tiles, m);
      SameComponent(r, tiles, m, n);
    }
  }

  function HoldTime(now: Option<int>, window: Option<ScanWindow>): Option<int> {
    if now.Some? then now else if window.Some? then Some(window.value.now) else None
  }

  /** The tiles in `done` have been filled, and `settled` lists exactly those that were claimed. */
  ghost predicate Progress(r: Rules, before: Tiles, tiles: Tiles, now: Option<int>, done: set<Pos>,
                           settled: seq<(Pos, Tile)>) {
    && tiles == Filled(r, before, now, done)
    && (forall e :: e in settled <==>
          && e.0 in done && e.0 in before && Claimable(r, before[e.0], e.0, now) && e.1 == tiles[e.0])
    && (forall i, j | 0 <= i < j < |settled| :: settled[i].0 != settled[j].0)
  }

  lemma FillOneMore(r: Rules, before: Tiles, tiles: Tiles, now: Option<int>, done: set<Pos>,
                    settled: seq<(Pos, Tile)>, key: Pos)
    requires Progress(r, before, tiles, now, done, settled) && key in before && key !in done
    ensures tiles.Keys == before.Keys && tiles[key] == before[key]
    ensures if Claimable(r, tiles[key], key, now)
            then var filled := Claimed(r, tiles[key]);
                 Progress(r, before, tiles[key := filled], now, done + {key}, settled + [(key, filled)])
            else Progress(r, before, tiles, now, done + {key}, settled)
  {
    var filled := Claimed(r, tiles[key]);
    if Claimable(r, tiles[key], key, now) {
      assert tiles[key := filled] == Filled(r, before, now, done + {key});
      forall e
        ensures e in settled + [(key, filled)] <==>
          && e.0 in done + {key} && e.0 in before && Claimable(r, before[e.0], e.0, now) &&
              e.1 == tiles[key := filled][e.0]
      {
        assert e in settled + [(key, filled)] <==> e in settled || e == (key, filled);
      }
    } else {
      assert tiles == Filled(r, before, now, done + {key});
    }
  }

  lemma AreaIsUnion(r: Rules, tiles: Tiles, window: Option<ScanWindow>, until: map<Pos, int>, centre: Pos,
                    regions: seq<set<Pos>>, done: set<Pos>)
    requires forall area :: area in regions <==> FillRegion(r, tiles, window, until, centre, area)
    requires forall p :: p in done <==> exists area | area in regions :: p in area
    ensures done == FillArea(r, tiles, window, until, centre)
  {
    forall p ensures p in done <==> p in FillArea(r, tiles, window, until, centre) {
      if p in done {
        var area :| area in regions && p in area;
        var n :| FillOrigin(r, tiles, window, until, centre, n) && area == Component(r, tiles, n);
      }
      if p in FillArea(r, tiles, window, until, centre) {
        var n :| FillOrigin(r, tiles, window, until, centre, n) && p in Component(r, tiles, n);
        assert FillRegion(r, tiles, window, until, centre, Component(r, tiles, n));
      }
    }
  }
}
