/** Auto-fill: a capped flood decides whether a pocket of land is sealed by a player's walls, and claims it. */
module AutoFill {
  import opened Torus
  import opened World
  import Graph = Reachability

  datatype Rules = Rules(grid: Grid, owner: PlayerId, inReach: Pos -> bool, maxCap: nat, barrierCap: nat)

  datatype ScanWindow = ScanWindow(now: int, cooldownMs: int)

  /** How the flood sees a position. The order of the tests is the order of the scan. */
  datatype Kind = Wall | Foreign | Interior | Barrier

  function KindOf(r: Rules, tiles: Tiles, p: Pos): Kind {
    if p in tiles && OwnedBy(tiles[p], r.owner, Settled) then Wall
    else if p in tiles && tiles[p].ownerId.Some? && tiles[p].ownerId.value != r.owner then Foreign
    else if p in tiles && tiles[p].terrain == Land then Interior
    else Barrier
  }

  /** Where a scan may start: land that nobody owns, or the player's own frontier. */
  predicate Eligible(r: Rules, tiles: Tiles, p: Pos) {
    p in tiles && tiles[p].terrain == Land &&
    (tiles[p].ownerId.None? || OwnedBy(tiles[p], r.owner, Frontier))
  }

  ghost function Edge(r: Rules, tiles: Tiles): (Pos, Pos) -> bool {
    (p, q) => KindOf(r, tiles, p) == Interior && KindOf(r, tiles, q) == Interior && q in r.grid.Cardinals(p)
  }

  /** The pocket around `p`: everything connected to it through interior land. */
  ghost function Component(r: Rules, tiles: Tiles, p: Pos): set<Pos> {
    set q | q in tiles && Graph.Connected(Edge(r, tiles), p, q)
  }

  ghost predicate Bounds(r: Rules, tiles: Tiles, area: set<Pos>, kind: Kind, q: Pos) {
    KindOf(r, tiles, q) == kind && exists p | p in area :: q in r.grid.Cardinals(p)
  }

  /** When a pocket counts as sealed. */
  ghost predicate Enclosed(r: Rules, tiles: Tiles, area: set<Pos>) {
    && (forall q :: !Bounds(r, tiles, area, Foreign, q))
    && (forall q :: Bounds(r, tiles, area, Wall, q) || Bounds(r, tiles, area, Barrier, q) ==> r.inReach(q))
    && |area| <= r.maxCap
    && ((exists q :: Bounds(r, tiles, area, Barrier, q)) ==> |area| <= r.barrierCap)
  }

  /** Somewhere around the pocket the flood leaks: a foreign tile, or a wall or barrier out of reach. */
  ghost predicate Leaks(r: Rules, tiles: Tiles, area: set<Pos>) {
    exists q :: Bounds(r, tiles, area, Foreign, q) ||
                ((Bounds(r, tiles, area, Wall, q) || Bounds(r, tiles, area, Barrier, q)) && !r.inReach(q))
  }

  // ---------- components are the classes of an equivalence ----------

  lemma ComponentHasOrigin(r: Rules, tiles: Tiles, p: Pos)
    requires p in tiles
    ensures p in Component(r, tiles, p)
  {
    Graph.Reflexive(Edge(r, tiles), p);
  }

  lemma ComponentGrows(r: Rules, tiles: Tiles, o: Pos, p: Pos, q: Pos)
    requires p in Component(r, tiles, o) && Edge(r, tiles)(p, q)
    ensures q in Component(r, tiles, o)
  {
    Graph.Extend(Edge(r, tiles), o, p, q);
  }

  lemma ComponentWithin(r: Rules, tiles: Tiles, o: Pos, area: set<Pos>)
    requires o in area
    requires forall p, q :: p in area && Edge(r, tiles)(p, q) ==> q in area
    ensures Component(r, tiles, o) <= area
  {
    forall q | q in Component(r, tiles, o) ensures q in area {
      Graph.ClosedContains(Edge(r, tiles), area, o, q);
    }
  }

  lemma ComponentInterior(r: Rules, tiles: Tiles, o: Pos, q: Pos)
    requires KindOf(r, tiles, o) == Interior && q in Component(r, tiles, o)
    ensures KindOf(r, tiles, q) == Interior
  {
    var land := set p | p in tiles && KindOf(r, tiles, p) == Interior;
    ComponentWithin(r, tiles, o, land);
  }

  /** Any tile of a pocket has the same pocket: the verdict does not depend on the origin. */
  lemma SameComponent(r: Rules, tiles: Tiles, o: Pos, q: Pos)
    requires OnGrid(r.grid, tiles) && o in tiles && q in Component(r, tiles, o)
    ensures Component(r, tiles, q) == Component(r, tiles, o)
  {
    var e := Edge(r, tiles);
    forall a, b | e(a, b) ensures e(b, a) {
      r.grid.CardinalsSymmetric(a, b);
    }
    Graph.Symmetric(e, o, q);
    forall x | x in tiles
      ensures x in Component(r, tiles, q) <==> x in Component(r, tiles, o)
    {
      if Graph.Connected(e, q, x) { Graph.Transitive(e, o, q, x); }
      if Graph.Connected(e, o, x) { Graph.Transitive(e, q, o, x); }
    }
  }

  lemma ComponentsDisjoint(r: Rules, tiles: Tiles, a: Pos, b: Pos)
    requires OnGrid(r.grid, tiles) && a in tiles && b in tiles
    ensures a in Component(r, tiles, b) || Component(r, tiles, a) !! Component(r, tiles, b)
  {
    if x :| x in Component(r, tiles, a) && x in Component(r, tiles, b) {
      SameComponent(r, tiles, a, x);
      SameComponent(r, tiles, b, x);
      ComponentHasOrigin(r, tiles, a);
    }
  }

  // ---------- the flood ----------

  ghost predicate Flood(r: Rules, tiles: Tiles, origin: Pos, region: set<Pos>, queue: seq<Pos>) {
    && origin in region
    && |region| == |queue|
    && (forall p | p in queue :: p in region)
    && (forall p | p in region :: p in queue)
    && region <= Component(r, tiles, origin)
    && (forall p | p in region :: KindOf(r, tiles, p) == Interior)
  }

  /** A scanned neighbour is in the region or seals it. */
  ghost predicate Sealed(r: Rules, tiles: Tiles, region: set<Pos>, usedBarrier: bool, q: Pos) {
    || q in region
    || (KindOf(r, tiles, q) == Wall && r.inReach(q))
    || (KindOf(r, tiles, q) == Barrier && r.inReach(q) && usedBarrier)
  }

  ghost predicate SealedUpTo(r: Rules, tiles: Tiles, region: set<Pos>, usedBarrier: bool, p: Pos, n: nat)
    requires n <= 4
  {
    forall j | 0 <= j < n :: Sealed(r, tiles, region, usedBarrier, r.grid.Cardinals(p)[j])
  }

  /** The flood has scanned every neighbour of the first `done` queue entries, and the first `n` of the next one. */
  ghost predicate Scanned(r: Rules, tiles: Tiles, origin: Pos, region: set<Pos>, queue: seq<Pos>, usedBarrier: bool,
                          done: nat, n: nat)
    requires n <= 4
  {
    && Flood(r, tiles, origin, region, queue)
    && |queue| <= r.maxCap
    && done <= |queue|
    && (forall i | 0 <= i < done :: SealedUpTo(r, tiles, region, usedBarrier, queue[i], 4))
    && (n > 0 ==> done < |queue| && SealedUpTo(r, tiles, region, usedBarrier, queue[done], n))
    && (usedBarrier ==> exists q :: Bounds(r, tiles, Component(r, tiles, origin), Barrier, q))
  }

  lemma ScanKnown(r: Rules, tiles: Tiles, origin: Pos, region: set<Pos>, queue: seq<Pos>, used: bool, done: nat, n: nat)
    requires n < 4 && done < |queue| && Scanned(r, tiles, origin, region, queue, used, done, n)
    requires Sealed(r, tiles, region, used, r.grid.Cardinals(queue[done])[n])
    ensures Scanned(r, tiles, origin, region, queue, used, done, n + 1)
  {}

  lemma ScanInterior(r: Rules, tiles: Tiles, origin: Pos, region: set<Pos>, queue: seq<Pos>, used: bool, done: nat,
                     n: nat)
    requires n < 4 && done < |queue| < r.maxCap && Scanned(r, tiles, origin, region, queue, used, done, n)
    requires var q := r.grid.Cardinals(queue[done])[n]; q !in region && KindOf(r, tiles, q) == Interior
    ensures var q := r.grid.Cardinals(queue[done])[n];
            Scanned(r, tiles, origin, region + {q}, queue + [q], used, done, n + 1)
  {
    var q := r.grid.Cardinals(queue[done])[n];
    ComponentGrows(r, tiles, origin, queue[done], q);
    assert Flood(r, tiles, origin, region + {q}, queue + [q]);
    forall i | 0 <= i < done ensures SealedUpTo(r, tiles, region + {q}, used, (queue + [q])[i], 4) {
      assert SealedUpTo(r, tiles, region, used, queue[i], 4);
    }
  }

  lemma ScanBarrier(r: Rules, tiles: Tiles, origin: Pos, region: set<Pos>, queue: seq<Pos>, used: bool, done: nat,
                    n: nat)
    requires n < 4 && done < |queue| && Scanned(r, tiles, origin, region, queue, used, done, n)
    requires var q := r.grid.Cardinals(queue[done])[n]; KindOf(r, tiles, q) == Barrier && r.inReach(q)
    ensures Scanned(r, tiles, origin, region, queue, true, done, n + 1)
  {
    var q := r.grid.Cardinals(queue[done])[n];
    assert Bounds(r, tiles, Component(r, tiles, origin), Barrier, q);
    forall i | 0 <= i < done ensures SealedUpTo(r, tiles, region, true, queue[i], 4) {
      assert SealedUpTo(r, tiles, region, used, queue[i], 4);
    }
  }

  lemma AllSealed(r: Rules, tiles: Tiles, origin: Pos, region: set<Pos>, queue: seq<Pos>, used: bool, p: Pos, q: Pos)
    requires Scanned(r, tiles, origin, region, queue, used, |queue|, 0)
    requires p in region && q in r.grid.Cardinals(p)
    ensures Sealed(r, tiles, region, used, q)
  {
    var i :| 0 <= i < |queue| && queue[i] == p;
    assert SealedUpTo(r, tiles, region, used, queue[i], 4);
    var j :| 0 <= j < 4 && r.grid.Cardinals(p)[j] == q;
  }

  lemma FloodComplete(r: Rules, tiles: Tiles, origin: Pos, region: set<Pos>, queue: seq<Pos>, used: bool)
    requires Scanned(r, tiles, origin, region, queue, used, |queue|, 0)
    ensures region == Component(r, tiles, origin)
    ensures Enclosed(r, tiles, region) <==> !(used && |region| > r.barrierCap)
  {
    forall p, q | p in region && q in r.grid.Cardinals(p)
      ensures Sealed(r, tiles, region, used, q)
    {
      AllSealed(r, tiles, origin, region, queue, used, p, q);
    }
    ComponentWithin(r, tiles, origin, region);
  }

  lemma LeakBreaksEnclosure(r: Rules, tiles: Tiles, origin: Pos, p: Pos, q: Pos)
    requires p in Component(r, tiles, origin) && q in r.grid.Cardinals(p)
    requires KindOf(r, tiles, q) == Foreign || (KindOf(r, tiles, q) != Interior && !r.inReach(q))
    ensures Leaks(r, tiles, Component(r, tiles, origin)) && !Enclosed(r, tiles, Component(r, tiles, origin))
  {
    assert Bounds(r, tiles, Component(r, tiles, origin), KindOf(r, tiles, q), q);
  }

  lemma TooBig(r: Rules, tiles: Tiles, origin: Pos, region: set<Pos>, p: Pos, q: Pos)
    requires region <= Component(r, tiles, origin) && |region| >= r.maxCap
    requires p in region && q !in region && Edge(r, tiles)(p, q)
    ensures |Component(r, tiles, origin)| > r.maxCap
    ensures !Enclosed(r, tiles, Component(r, tiles, origin))
  {
    var c := Component(r, tiles, origin);
    ComponentGrows(r, tiles, origin, p, q);
    assert c == region + (c - region) && q in c - region;
    assert |c| == |region| + |c - region|;
  }

  /** The verdict for a whole pocket. */
  ghost function Verdict(r: Rules, tiles: Tiles, origin: Pos): Option<set<Pos>> {
    if Eligible(r, tiles, origin) && Enclosed(r, tiles, Component(r, tiles, origin))
    then Some(Component(r, tiles, origin))
    else None
  }

  datatype Outcome = Continue | Leak | OverCap

  /** Looks at neighbour `i` of the queued tile at `head`. */
  method ScanNeighbour(r: Rules, tiles: Tiles, ghost origin: Pos, region: set<Pos>, queue: seq<Pos>, used: bool,
                       head: nat, i: nat)
    returns (outcome: Outcome, region': set<Pos>, queue': seq<Pos>, used': bool)
    requires i < 4 && head < |queue| && Scanned(r, tiles, origin, region, queue, used, head, i)
    ensures outcome == Continue ==> queue <= queue' && Scanned(r, tiles, origin, region', queue', used', head, i + 1)
    ensures outcome != Continue ==> !Enclosed(r, tiles, Component(r, tiles, origin))
    ensures outcome == Leak ==> Leaks(r, tiles, Component(r, tiles, origin))
    ensures outcome == OverCap ==> |Component(r, tiles, origin)| > r.maxCap
  {
    outcome, region', queue', used' := Continue, region, queue, used;
    var q := r.grid.Cardinals(queue[head])[i];
    var kind := KindOf(r, tiles, q);
    if q in region {
      ScanKnown(r, tiles, origin, region, queue, used, head, i);
    } else if kind == Foreign || (kind != Interior && !r.inReach(q)) {
      LeakBreaksEnclosure(r, tiles, origin, queue[head], q);
      outcome := Leak;
    } else if kind == Wall {
      ScanKnown(r, tiles, origin, region, queue, used, head, i);
    } else if kind == Interior {
      region' := region + {q};
      if |region'| > r.maxCap {
        TooBig(r, tiles, origin, region, queue[head], q);
        outcome := OverCap;
        return;
      }
      ScanInterior(r, tiles, origin, region, queue, used, head, i);
      queue' := queue + [q];
    } else {
      ScanBarrier(r, tiles, origin, region, queue, used, head, i);
      used' := true;
    }
  }

  method FindEnclosedRegion(r: Rules, tiles: Tiles, origin: Pos) returns (region: Option<set<Pos>>, hitSizeCap: bool)
    requires r.maxCap > 0
    ensures region == Verdict(r, tiles, origin)
    ensures hitSizeCap ==> Eligible(r, tiles, origin) && |Component(r, tiles, origin)| > r.maxCap
    ensures Eligible(r, tiles, origin) && |Component(r, tiles, origin)| > r.maxCap &&
              !Leaks(r, tiles, Component(r, tiles, origin))
            ==> hitSizeCap
  {
    if !Eligible(r, tiles, origin) {
      return None, false;
    }
    ComponentHasOrigin(r, tiles, origin);
    var seen, queue, head, usedBarrier := {origin}, [origin], 0, false;
    while head < |queue|
      invariant Scanned(r, tiles, origin, seen, queue, usedBarrier, head, 0)
      decreases r.maxCap - head
    {
      for i := 0 to 4
        invariant head < |queue| && Scanned(r, tiles, origin, seen, queue, usedBarrier, head, i)
      {
        var outcome;
        outcome, seen, queue, usedBarrier := ScanNeighbour(r, tiles, origin, seen, queue, usedBarrier, head, i);
        if outcome != Continue {
          return None, outcome == OverCap;
        }
      }
      head := head + 1;
    }
    FloodComplete(r, tiles, origin, seen, queue, usedBarrier);
    if usedBarrier && |seen| > r.barrierCap {
      return None, false;
    }
    return Some(seen), false;
  }
}
