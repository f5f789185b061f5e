/** What auto-fill promises over the whole map: pockets are filled as units, safely, and once. */
module AutoFillLaws {
  import opened Torus
  import opened World
  import opened AutoFill
  import opened AutoFillApply
  import opened AutoFillTerms

  /** An area made of whole pockets: interior land that no interior edge enters or leaves. */
  ghost predicate WholePockets(r: Rules, tiles: Tiles, area: set<Pos>) {
    && area <= tiles.Keys
    && (forall p | p in area :: KindOf(r, tiles, p) == Interior)
    && (forall p, q :: Edge(r, tiles)(p, q) ==> (p in area <==> q in area))
  }

  lemma PocketIsWhole(r: Rules, tiles: Tiles, n: Pos)
    requires OnGrid(r.grid, tiles) && n in tiles && KindOf(r, tiles, n) == Interior
    ensures WholePockets(r, tiles, Component(r, tiles, n))
  {
    var c := Component(r, tiles, n);
    forall p | p in c ensures KindOf(r, tiles, p) == Interior {
      ComponentInterior(r, tiles, n, p);
    }
    forall p, q | Edge(r, tiles)(p, q) ensures p in c <==> q in c {
      r.grid.CardinalsSymmetric(p, q);
      if p in c { ComponentGrows(r, tiles, n, p, q); }
      if q in c { ComponentGrows(r, tiles, n, q, p); }
    }
  }

  lemma FillAreaIsWhole(r: Rules, tiles: Tiles, window: Option<ScanWindow>, until: map<Pos, int>, centre: Pos)
    requires OnGrid(r.grid, tiles)
    ensures WholePockets(r, tiles, FillArea(r, tiles, window, until, centre))
  {
    var area := FillArea(r, tiles, window, until, centre);
    forall p | p in area ensures KindOf(r, tiles, p) == Interior {
      var n :| FillOrigin(r, tiles, window, until, centre, n) && p in Component(r, tiles, n);
      PocketIsWhole(r, tiles, n);
    }
    forall p, q | Edge(r, tiles)(p, q) ensures p in area <==> q in area {
      forall n | FillOrigin(r, tiles, window, until, centre, n)
        ensures p in Component(r, tiles, n) <==> q in Component(r, tiles, n)
      {
        PocketIsWhole(r, tiles, n);
      }
    }
  }

  /** Filling only turns interior land of the area into walls. */
  lemma KindsAfterFill(r: Rules, tiles: Tiles, now: Option<int>, area: set<Pos>, p: Pos)
    ensures var after := KindOf(r, Filled(r, tiles, now, area), p);
            after == KindOf(r, tiles, p) || (p in area && after == Wall)
  {}

  lemma FillOnlyRemovesEdges(r: Rules, tiles: Tiles, now: Option<int>, area: set<Pos>)
    requires WholePockets(r, tiles, area)
    ensures forall p, q :: Edge(r, Filled(r, tiles, now, area))(p, q) ==> Edge(r, tiles)(p, q)
  {
    forall p, q | Edge(r, Filled(r, tiles, now, area))(p, q) ensures Edge(r, tiles)(p, q) {
      KindsAfterFill(r, tiles, now, area, p);
      KindsAfterFill(r, tiles, now, area, q);
    }
  }

  /** Distinct pockets are never adjacent, so a fill leaves the surroundings of every other pocket alone. */
  lemma SurroundingsUnchanged(r: Rules, tiles: Tiles, now: Option<int>, area: set<Pos>, n: Pos, p: Pos)
    requires OnGrid(r.grid, tiles) && WholePockets(r, tiles, area)
    requires n in tiles && n !in area && KindOf(r, tiles, n) == Interior && p in Component(r, tiles, n)
    ensures p !in area && KindOf(r, tiles, p) == Interior
    ensures KindOf(r, Filled(r, tiles, now, area), p) == Interior
    ensures forall q | q in r.grid.Cardinals(p) :: KindOf(r, Filled(r, tiles, now, area), q) == KindOf(r, tiles, q)
  {
    var outside := Component(r, tiles, n) - area;
    ComponentHasOrigin(r, tiles, n);
    PocketIsWhole(r, tiles, n);
    ComponentWithin(r, tiles, n, outside);
    forall q | q in r.grid.Cardinals(p) ensures KindOf(r, Filled(r, tiles, now, area), q) == KindOf(r, tiles, q) {
      assert !(q in area && Edge(r, tiles)(p, q));
    }
  }

  lemma OtherPocketsUnchanged(r: Rules, tiles: Tiles, now: Option<int>, area: set<Pos>, n: Pos)
    requires OnGrid(r.grid, tiles) && WholePockets(r, tiles, area)
    requires n in tiles && n !in area && KindOf(r, tiles, n) == Interior
    ensures Component(r, Filled(r, tiles, now, area), n) == Component(r, tiles, n)
  {
    var after := Filled(r, tiles, now, area);
    var c, c' := Component(r, tiles, n), Component(r, after, n);
    ComponentHasOrigin(r, tiles, n);
    ComponentHasOrigin(r, after, n);
    forall p, q | p in c && Edge(r, after)(p, q) ensures q in c {
      FillOnlyRemovesEdges(r, tiles, now, area);
      ComponentGrows(r, tiles, n, p, q);
    }
    ComponentWithin(r, after, n, c);
    forall p, q | p in c' && Edge(r, tiles)(p, q) ensures q in c' {
      SurroundingsUnchanged(r, tiles, now, area, n, p);
      assert Edge(r, after)(p, q);
      ComponentGrows(r, after, n, p, q);
    }
    ComponentWithin(r, tiles, n, c');
  }

  lemma VerdictUnchanged(r: Rules, tiles: Tiles, now: Option<int>, area: set<Pos>, n: Pos)
    requires OnGrid(r.grid, tiles) && WholePockets(r, tiles, area)
    requires n in tiles && n !in area && KindOf(r, tiles, n) == Interior
    ensures Verdict(r, Filled(r, tiles, now, area), n) == Verdict(r, tiles, n)
  {
    var after := Filled(r, tiles, now, area);
    OtherPocketsUnchanged(r, tiles, now, area, n);
    var c := Component(r, tiles, n);
    forall p | p in c
      ensures forall q | q in r.grid.Cardinals(p) :: KindOf(r, after, q) == KindOf(r, tiles, q)
    {
      SurroundingsUnchanged(r, tiles, now, area, n, p);
    }
    forall k, q ensures Bounds(r, after, c, k, q) <==> Bounds(r, tiles, c, k, q) {}
  }

  /** Tiles left over inside a filled pocket can only regroup within it. */
  lemma LeftoversStayInside(r: Rules, tiles: Tiles, now: Option<int>, area: set<Pos>, n: Pos)
    requires WholePockets(r, tiles, area) && n in area
    ensures Component(r, Filled(r, tiles, now, area), n) <= area
  {
    FillOnlyRemovesEdges(r, tiles, now, area);
    ComponentWithin(r, Filled(r, tiles, now, area), n, area);
  }

  /** A second run, at the same time and reach, scans only origins that the first run filled around. */
  lemma SecondScanStaysInside(r: Rules, tiles: Tiles, window: Option<ScanWindow>, until: map<Pos, int>,
                              until': map<Pos, int>,
                              now: Option<int>, centre: Pos, n: Pos)
    requires OnGrid(r.grid, tiles) && CooldownStep(r, tiles, window, centre, until, until')
    requires FillOrigin(r, Filled(r, tiles, now, FillArea(r, tiles, window, until, centre)), window, until', centre, n)
    ensures n in FillArea(r, tiles, window, until, centre)
  {
    var area := FillArea(r, tiles, window, until, centre);
    FillAreaIsWhole(r, tiles, window, until, centre);
    ComponentHasOrigin(r, tiles, n);
    if n !in area {
      VerdictUnchanged(r, tiles, now, area, n);
    }
  }

  /** A second run from the same tile finds nothing left to claim. */
  lemma SecondFillClaimsNothing(r: Rules, tiles: Tiles, window: Option<ScanWindow>, until: map<Pos, int>,
                                until': map<Pos, int>,
                                now: Option<int>, centre: Pos, p: Pos)
    requires OnGrid(r.grid, tiles) && CooldownStep(r, tiles, window, centre, until, until')
    requires p in FillArea(r, Filled(r, tiles, now, FillArea(r, tiles, window, until, centre)), window, until', centre)
    ensures !Claimable(r, Filled(r, tiles, now, FillArea(r, tiles, window, until, centre))[p], p, now)
  {
    var area := FillArea(r, tiles, window, until, centre);
    var after := Filled(r, tiles, now, area);
    var n :| FillOrigin(r, after, window, until', centre, n) && p in Component(r, after, n);
    SecondScanStaysInside(r, tiles, window, until, until', now, centre, n);
    FillAreaIsWhole(r, tiles, window, until, centre);
    LeftoversStayInside(r, tiles, now, area, n);
  }

  /** Filling again changes no tile. */
  lemma FillIsIdempotent(r: Rules, tiles: Tiles, window: Option<ScanWindow>, until: map<Pos, int>,
                         until': map<Pos, int>,
                         now: Option<int>, centre: Pos)
    requires OnGrid(r.grid, tiles) && CooldownStep(r, tiles, window, centre, until, until')
    ensures var after := Filled(r, tiles, now, FillArea(r, tiles, window, until, centre));
            Filled(r, after, now, FillArea(r, after, window, until', centre)) == after
  {
    var after := Filled(r, tiles, now, FillArea(r, tiles, window, until, centre));
    forall p | p in after
      ensures Filled(r, after, now, FillArea(r, after, window, until', centre))[p] == after[p]
    {
      if p in FillArea(r, after, window, until', centre) {
        SecondFillClaimsNothing(r, tiles, window, until, until', now, centre, p);
      }
    }
  }

  /** Whatever a fill changes was interior land in reach, free or the player's own unheld frontier, in a sealed pocket
      touching the settled tile; and it becomes the player's settled land. */
  lemma FillIsSafe(r: Rules, tiles: Tiles, window: Option<ScanWindow>, until: map<Pos, int>, now: Option<int>,
                   centre: Pos, p: Pos)
    requires OnGrid(r.grid, tiles) && p in tiles
    requires Filled(r, tiles, now, FillArea(r, tiles, window, until, centre))[p] != tiles[p]
    ensures tiles[p].terrain == Land && r.inReach(p)
    ensures tiles[p].ownerId.None? || tiles[p].ownerId.value == r.owner
    ensures now.Some? && tiles[p].ownerId.Some? ==> !CaptureHoldActive(tiles[p], now.value)
    ensures OwnedBy(Filled(r, tiles, now, FillArea(r, tiles, window, until, centre))[p], r.owner, Settled)
    ensures Verdict(r, tiles, p) == Some(Component(r, tiles, p))
    ensures exists n | n in r.grid.Cardinals(centre) :: n in Component(r, tiles, p)
  {
    var n :| FillOrigin(r, tiles, window, until, centre, n) && p in Component(r, tiles, n);
    ComponentHasOrigin(r, tiles, n);
    ComponentInterior(r, tiles, n, p);
    SameComponent(r, tiles, n, p);
  }

  /** Nothing is missed: around a settled tile, an uncooled start in a sealed pocket gets every tile of the pocket that
      may be settled, its own unheld frontier and unowned land alike. */
  lemma SealedPocketIsFilled(r: Rules, tiles: Tiles, window: Option<ScanWindow>, until: map<Pos, int>, now: Option<int>,
                             centre: Pos, n: Pos, p: Pos)
    requires ScanStart(r, tiles, window, until, centre, n) && SealedPocket(r, tiles, Pocket(r, tiles, n))
    requires p in Pocket(r, tiles, n) && MaySettle(r, tiles[p], p, now, window)
    ensures Filled(r, tiles, HoldTime(now, window), FillArea(r, tiles, window, until, centre))[p] ==
              tiles[p].(ownerId := Some(r.owner), ownership := Some(Settled),
                        frontierDecayAt := None, frontierDecayKind := None)
  {
    DueIsInFillArea(r, tiles, window, until, now, centre, p);
  }
}
