/** Reconnection in the map's own terms: which tiles are cut off, which are linked, and which a landing reconnects. */
module ReconnectionTerms {
  import opened Torus
  import opened World
  import opened Reconnection
  import Graph = Reachability

  /** The player's frontier, marked to decay because it was cut off. */
  predicate CutOff(player: PlayerId, tiles: Tiles, q: Pos) {
    && q in tiles && tiles[q].ownerId == Some(player) && tiles[q].ownership == Some(Frontier)
    && tiles[q].frontierDecayKind == Some(Encirclement)
  }

  /** Supply passes between touching tiles, along a bridge either way, and along a listed sea lane. */
  predicate Linked(s: Supply, p: Pos, q: Pos) {
    || s.grid.Touches(p, q)
    || (exists b | b in s.bridges :: b == Bridge(p, q) || b == Bridge(q, p))
    || (p in s.seaLanes && q in s.seaLanes[p])
  }

  /** Cut-off tiles that lead from the target to `q`, each linked to the one before it. */
  ghost predicate LeadsTo(s: Supply, tiles: Tiles, target: Pos, path: seq<Pos>, q: Pos) {
    && |path| > 0 && Linked(s, target, path[0]) && path[|path| - 1] == q
    && (forall i | 0 <= i < |path| :: CutOff(s.player, tiles, path[i]))
    && (forall i | 0 < i < |path| :: Linked(s, path[i - 1], path[i]))
  }

  ghost predicate Reconnects(s: Supply, tiles: Tiles, target: Pos, q: Pos) {
    exists path :: LeadsTo(s, tiles, target, path, q)
  }

  /** The tiles a search that runs to its end looks at. */
  ghost predicate LookedAt(s: Supply, tiles: Tiles, target: Pos, q: Pos) {
    || (CutOff(s.player, tiles, q) && Linked(s, target, q))
    || (exists p :: Reconnects(s, tiles, target, p) && Linked(s, p, q))
  }

  /** Every reconnected tile keeps its place on the frontier and loses its decay, and nothing else changes. */
  ghost predicate Healed(s: Supply, before: Tiles, after: Tiles, target: Pos) {
    && after.Keys == before.Keys
    && forall q | q in before ::
         after[q] == if Reconnects(s, before, target, q)
                     then before[q].(frontierDecayAt := None, frontierDecayKind := None) else before[q]
  }

  lemma {:induction false} BridgeEndsInTerms(bridges: seq<Bridge>, p: Pos, q: Pos)
    ensures q in BridgeEnds(bridges, p) <==> exists b | b in bridges :: b == Bridge(p, q) || b == Bridge(q, p)
    decreases |bridges|
  {
    if bridges != [] {
      var before, last := bridges[..|bridges| - 1], bridges[|bridges| - 1];
      assert bridges == before + [last];
      BridgeEndsInTerms(before, p, q);
      if b :| b in bridges && (b == Bridge(p, q) || b == Bridge(q, p)) {
        assert b == last ==> q in OneBridge(last, p);
      } else {
        assert last in bridges && q !in OneBridge(last, p);
        assert forall b | b in before :: b in bridges;
      }
    }
  }

  lemma LinksInTerms(s: Supply, p: Pos, q: Pos)
    ensures q in s.Links(p) <==> Linked(s, p, q)
  {
    s.grid.RingIsTouching(p, q);
    BridgeEndsInTerms(s.bridges, p, q);
  }

  lemma {:induction false} PathFrom(s: Supply, tiles: Tiles, target: Pos, path: seq<Pos>, q: Pos)
    requires LeadsTo(s, tiles, target, path, q)
    ensures q in Reached(s, tiles, target)
    decreases |path|
  {
    if |path| == 1 {
      LinksInTerms(s, target, q);
      SeedReached(s, tiles, target, q);
    } else {
      var before := path[..|path| - 1];
      PathFrom(s, tiles, target, before, before[|before| - 1]);
      LinksInTerms(s, before[|before| - 1], q);
      StepReached(s, tiles, target, before[|before| - 1], q);
    }
  }

  /** What the search reaches is what the landing reconnects. */
  lemma ReachedIsReconnected(s: Supply, tiles: Tiles, target: Pos, q: Pos)
    ensures q in Reached(s, tiles, target) <==> Reconnects(s, tiles, target, q)
  {
    if Reconnects(s, tiles, target, q) {
      var path :| LeadsTo(s, tiles, target, path, q);
      PathFrom(s, tiles, target, path, q);
    }
    if q in Reached(s, tiles, target) {
      var seed :| Step(s, tiles)(target, seed) && Graph.Connected(Step(s, tiles), seed, q);
      var path :| Graph.IsPathFromTo(Step(s, tiles), path, seed, q);
      LinksInTerms(s, target, seed);
      forall i | 0 < i < |path| ensures Linked(s, path[i - 1], path[i]) && CutOff(s.player, tiles, path[i]) {
        assert Step(s, tiles)(path[i - 1], path[i]);
        LinksInTerms(s, path[i - 1], path[i]);
      }
      assert LeadsTo(s, tiles, target, path, q);
    }
  }

  lemma TouchedIsLookedAt(s: Supply, tiles: Tiles, target: Pos, q: Pos)
    ensures q in Touched(s, tiles, target) <==> LookedAt(s, tiles, target, q)
  {
    LinksInTerms(s, target, q);
    forall p ensures p in Reached(s, tiles, target) && q in s.Links(p) <==>
                       Reconnects(s, tiles, target, p) && Linked(s, p, q)
    {
      ReachedIsReconnected(s, tiles, target, p);
      LinksInTerms(s, p, q);
    }
    if exists p :: Reconnects(s, tiles, target, p) && Linked(s, p, q) {
      var p :| Reconnects(s, tiles, target, p) && Linked(s, p, q);
      assert p in Reached(s, tiles, target) && q in s.Links(p);
    }
  }

  lemma ClearedIsHealed(s: Supply, tiles: Tiles, target: Pos)
    ensures Healed(s, tiles, Cleared(tiles, Reached(s, tiles, target)), target)
  {
    forall q ensures q in Reached(s, tiles, target) <==> Reconnects(s, tiles, target, q) {
      ReachedIsReconnected(s, tiles, target, q);
    }
  }
}
