/** Auto-fill in the map's own terms: which tiles a settled tile causes to be settled, read off the tiles before. */
module AutoFillTerms {
  import opened Torus
  import opened World
  import opened AutoFill
  import opened AutoFillApply
  import Graph = Reachability

  /** Land inside a pocket: unowned, or the player's own but not settled. */
  predicate Walkable(r: Rules, tiles: Tiles, p: Pos) {
    && p in tiles && tiles[p].terrain == Land
    && (tiles[p].ownerId == None || (tiles[p].ownerId == Some(r.owner) && tiles[p].ownership != Some(Settled)))
  }

  /** A walk over the land of a pocket, from edge to edge. */
  ghost predicate IsWalk(r: Rules, tiles: Tiles, walk: seq<Pos>) {
    && |walk| > 0
    && (forall i | 0 <= i < |walk| :: Walkable(r, tiles, walk[i]))
    && (forall i | 0 < i < |walk| :: r.grid.Borders(walk[i - 1], walk[i]))
  }

  ghost predicate WalksTo(r: Rules, tiles: Tiles, walk: seq<Pos>, a: Pos, b: Pos) {
    IsWalk(r, tiles, walk) && walk[0] == a && walk[|walk| - 1] == b
  }

  /** The pocket around `n`: what can be walked to from there. */
  ghost function Pocket(r: Rules, tiles: Tiles, n: Pos): set<Pos> {
    set p | p in tiles && exists walk :: WalksTo(r, tiles, walk, n, p)
  }

  /** The player's own settled tile. */
  predicate OwnWall(r: Rules, tiles: Tiles, q: Pos) {
    q in tiles && tiles[q].ownerId == Some(r.owner) && tiles[q].ownership == Some(Settled)
  }

  /** Water, mountain or the end of the known map, in nobody else's hands. */
  predicate NaturalBarrier(r: Rules, tiles: Tiles, q: Pos) {
    q in tiles ==> tiles[q].terrain != Land && (tiles[q].ownerId == None || tiles[q].ownerId == Some(r.owner))
  }

  ghost predicate Beside(r: Rules, area: set<Pos>, q: Pos) {
    q !in area && exists p | p in area :: r.grid.Borders(p, q)
  }

  /** All that lies beside the pocket is a wall or a barrier within reach, and the pocket is small enough. */
  ghost predicate SealedPocket(r: Rules, tiles: Tiles, area: set<Pos>) {
    && (forall q | Beside(r, area, q) :: r.inReach(q) && (OwnWall(r, tiles, q) || NaturalBarrier(r, tiles, q)))
    && |area| <= r.maxCap
    && (|area| <= r.barrierCap || forall q | Beside(r, area, q) :: OwnWall(r, tiles, q))
  }

  /** Where a scan starts: an edge neighbour of the settled tile that is free land or own frontier, not cooling down. */
  predicate ScanStart(r: Rules, tiles: Tiles, window: Option<ScanWindow>, until: map<Pos, int>, centre: Pos, n: Pos) {
    && r.grid.Borders(centre, n)
    && n in tiles && tiles[n].terrain == Land
    && (tiles[n].ownerId == None || (tiles[n].ownerId == Some(r.owner) && tiles[n].ownership == Some(Frontier)))
    && (window.Some? ==> (if n in until then until[n] else 0) <= window.value.now)
  }

  /** A tile the fill may take: in reach, and unowned or the player's frontier with no capture hold running. */
  predicate MaySettle(r: Rules, tile: Tile, p: Pos, now: Option<int>, window: Option<ScanWindow>) {
    && r.inReach(p)
    && (|| tile.ownerId == None
        || (&& tile.ownerId == Some(r.owner) && tile.ownership == Some(Frontier)
            && (tile.captureHoldUntil.Some? ==>
                  && (now.Some? ==> tile.captureHoldUntil.value <= now.value)
                  && (now.None? && window.Some? ==> tile.captureHoldUntil.value <= window.value.now))))
  }

  /** `p` is a tile that the settling of `centre` causes to be settled. */
  ghost predicate Due(r: Rules, tiles: Tiles, window: Option<ScanWindow>, until: map<Pos, int>, now: Option<int>,
                      centre: Pos, p: Pos) {
    && p in tiles && MaySettle(r, tiles[p], p, now, window)
    && exists n :: ScanStart(r, tiles, window, until, centre, n) && SealedPocket(r, tiles, Pocket(r, tiles, n)) &&
                   p in Pocket(r, tiles, n)
  }

  /** Every due tile is settled, with no decay pending, and nothing else about the map changes. */
  ghost predicate FilledInTerms(r: Rules, before: Tiles, after: Tiles, window: Option<ScanWindow>,
                                until: map<Pos, int>, now: Option<int>, centre: Pos) {
    && after.Keys == before.Keys
    && forall p | p in before ::
         after[p] == if Due(r, before, window, until, now, centre, p)
                     then before[p].(ownerId := Some(r.owner), ownership := Some(Settled),
                                     frontierDecayAt := None, frontierDecayKind := None)
                     else before[p]
  }

  /** The returned list: each newly settled tile once, as it now is. */
  ghost predicate ListsSettled(r: Rules, before: Tiles, after: Tiles, window: Option<ScanWindow>,
                               until: map<Pos, int>, now: Option<int>, centre: Pos, settled: seq<(Pos, Tile)>)
  {
    && (forall e :: e in settled <==>
          Due(r, before, window, until, now, centre, e.0) && e.0 in after && e.1 == after[e.0])
    && (forall i, j | 0 <= i < j < |settled| :: settled[i].0 != settled[j].0)
  }

  lemma WalkIsPath(r: Rules, tiles: Tiles, walk: seq<Pos>, a: Pos, b: Pos)
    requires a in tiles && KindOf(r, tiles, a) == Interior
    ensures WalksTo(r, tiles, walk, a, b) <==> Graph.IsPathFromTo(Edge(r, tiles), walk, a, b)
  {
    if Graph.IsPathFromTo(Edge(r, tiles), walk, a, b) {
      forall i | 0 <= i < |walk| ensures Walkable(r, tiles, walk[i]) {
        assert i > 0 ==> Edge(r, tiles)(walk[i - 1], walk[i]);
      }
      forall i | 0 < i < |walk| ensures r.grid.Borders(walk[i - 1], walk[i]) {
        r.grid.CardinalsAreBorders(walk[i - 1], walk[i]);
      }
    }
    if WalksTo(r, tiles, walk, a, b) {
      forall i | 0 < i < |walk| ensures Edge(r, tiles)(walk[i - 1], walk[i]) {
        r.grid.CardinalsAreBorders(walk[i - 1], walk[i]);
        assert Walkable(r, tiles, walk[i - 1]) && Walkable(r, tiles, walk[i]);
      }
    }
  }

  /** The pocket the flood explores is what can be walked to. */
  lemma PocketIsComponent(r: Rules, tiles: Tiles, n: Pos)
    requires n in tiles && KindOf(r, tiles, n) == Interior
    ensures Pocket(r, tiles, n) == Component(r, tiles, n)
  {
    forall p ensures p in Pocket(r, tiles, n) <==> p in Component(r, tiles, n) {
      if p in Pocket(r, tiles, n) {
        var walk :| WalksTo(r, tiles, walk, n, p);
        WalkIsPath(r, tiles, walk, n, p);
      }
      if p in Component(r, tiles, n) {
        var path :| Graph.IsPathFromTo(Edge(r, tiles), path, n, p);
        WalkIsPath(r, tiles, path, n, p);
      }
    }
  }

  lemma BesideIsBounds(r: Rules, tiles: Tiles, n: Pos, q: Pos)
    requires n in tiles && KindOf(r, tiles, n) == Interior
    ensures var area := Component(r, tiles, n);
            Beside(r, area, q) <==> KindOf(r, tiles, q) != Interior && Bounds(r, tiles, area, KindOf(r, tiles, q), q)
  {
    var area := Component(r, tiles, n);
    if Beside(r, area, q) {
      var p :| p in area && r.grid.Borders(p, q);
      r.grid.CardinalsAreBorders(p, q);
      ComponentInterior(r, tiles, n, p);
      if KindOf(r, tiles, q) == Interior {
        ComponentGrows(r, tiles, n, p, q);
      }
    }
    if KindOf(r, tiles, q) != Interior && Bounds(r, tiles, area, KindOf(r, tiles, q), q) {
      var p :| p in area && q in r.grid.Cardinals(p);
      r.grid.CardinalsAreBorders(p, q);
      if q in area {
        ComponentInterior(r, tiles, n, q);
      }
    }
  }

  /** The flood's verdict in terms of the tiles beside the pocket. */
  lemma EnclosedIsSealed(r: Rules, tiles: Tiles, n: Pos)
    requires n in tiles && KindOf(r, tiles, n) == Interior
    ensures Enclosed(r, tiles, Component(r, tiles, n)) <==> SealedPocket(r, tiles, Pocket(r, tiles, n))
  {
    var area := Component(r, tiles, n);
    PocketIsComponent(r, tiles, n);
    forall q
      ensures Beside(r, area, q) <==>
                Bounds(r, tiles, area, Foreign, q) || Bounds(r, tiles, area, Wall, q) ||
                Bounds(r, tiles, area, Barrier, q)
    {
      BesideIsBounds(r, tiles, n, q);
    }
    if Enclosed(r, tiles, area) {
      forall q | Beside(r, area, q) ensures OwnWall(r, tiles, q) || NaturalBarrier(r, tiles, q) {
        assert !Bounds(r, tiles, area, Foreign, q);
      }
    }
  }

  /** A start with a sealed pocket is an origin whose pocket is filled. */
  lemma StartIsOrigin(r: Rules, tiles: Tiles, window: Option<ScanWindow>, until: map<Pos, int>, centre: Pos, n: Pos)
    ensures FillOrigin(r, tiles, window, until, centre, n) <==>
              ScanStart(r, tiles, window, until, centre, n) && SealedPocket(r, tiles, Pocket(r, tiles, n))
    ensures ScanStart(r, tiles, window, until, centre, n) ==> Pocket(r, tiles, n) == Component(r, tiles, n)
  {
    r.grid.CardinalsAreBorders(centre, n);
    if n in tiles && KindOf(r, tiles, n) == Interior {
      PocketIsComponent(r, tiles, n);
      EnclosedIsSealed(r, tiles, n);
    }
  }

  lemma ClaimableIsMaySettle(r: Rules, tile: Tile, p: Pos, now: Option<int>, window: Option<ScanWindow>)
    ensures Claimable(r, tile, p, HoldTime(now, window)) <==> MaySettle(r, tile, p, now, window)
  {}

  lemma DueIsInFillArea(r: Rules, tiles: Tiles, window: Option<ScanWindow>, until: map<Pos, int>, now: Option<int>,
                        centre: Pos, p: Pos)
    ensures Due(r, tiles, window, until, now, centre, p) <==>
              && p in FillArea(r, tiles, window, until, centre)
              && Claimable(r, tiles[p], p, HoldTime(now, window))
  {
    if p in tiles {
      ClaimableIsMaySettle(r, tiles[p], p, now, window);
      if InFillArea(r, tiles, window, until, centre, p) {
        var n :| FillOrigin(r, tiles, window, until, centre, n) && p in Component(r, tiles, n);
        StartIsOrigin(r, tiles, window, until, centre, n);
      }
      if n :| ScanStart(r, tiles, window, until, centre, n) && SealedPocket(r, tiles, Pocket(r, tiles, n)) &&
              p in Pocket(r, tiles, n)
      {
        StartIsOrigin(r, tiles, window, until, centre, n);
        assert FillOrigin(r, tiles, window, until, centre, n) && p in Component(r, tiles, n);
      }
    }
  }

  /** What the fill does, read off the tiles as they were. */
  lemma FillInTerms(r: Rules, before: Tiles, after: Tiles, window: Option<ScanWindow>, until: map<Pos, int>,
                    now: Option<int>, centre: Pos, settled: seq<(Pos, Tile)>)
    requires Progress(r, before, after, HoldTime(now, window), FillArea(r, before, window, until, centre), settled)
    ensures FilledInTerms(r, before, after, window, until, now, centre)
    ensures ListsSettled(r, before, after, window, until, now, centre, settled)
  {
    forall p ensures Due(r, before, window, until, now, centre, p) <==>
                       && p in FillArea(r, before, window, until, centre)
                       && Claimable(r, before[p], p, HoldTime(now, window))
    {
      DueIsInFillArea(r, before, window, until, now, centre, p);
    }
  }
}
