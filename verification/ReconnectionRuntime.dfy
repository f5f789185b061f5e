/** Reconnection as it runs: the seeds, the breadth-first search and the clearing of the live tile map. */
module ReconnectionRuntime {
  import opened Torus
  import opened World
  import opened Reconnection
  import opened ReconnectionTerms

  class EncirclementRuntime {
    var tiles: Tiles

    constructor (tiles: Tiles)
      ensures this.tiles == tiles
    {
      this.tiles := tiles;
    }

    /** The marked tiles linked to the target, each link in turn. */
    method FindSeeds(s: Supply, target: Pos) returns (seeds: seq<Pos>)
      ensures forall q :: q in seeds <==> q in Seeds(s, tiles, target)
      ensures forall q :: q in seeds <==> CutOff(s.player, tiles, q) && Linked(s, target, q)
      ensures |seeds| <= |s.Links(target)|
    {
      forall q ensures q in s.Links(target) <==> Linked(s, target, q) {
        LinksInTerms(s, target, q);
      }
      seeds := [];
      var links := s.Links(target);
      for i := 0 to |links|
        invariant forall q :: q in seeds <==> q in links[..i] && Marked(s, tiles, q)
        invariant |seeds| <= i
      {
        if Marked(s, tiles, links[i]) {
          seeds := seeds + [links[i]];
        }
      }
    }

    /** Looks along the links of one queue entry. */
    method Expand(s: Supply, ghost target: Pos, visited: set<Pos>, found: set<Pos>, queue: seq<Pos>)
      returns (visited': set<Pos>, found': set<Pos>, queue': seq<Pos>)
      requires queue != [] && Searching(s, tiles, target, visited, found, queue)
      ensures Searching(s, tiles, target, visited', found', queue')
      ensures found <= found' && (found' == found ==> |queue'| < |queue|)
      ensures |visited'| <= |visited| + |s.Links(queue[0])|
    {
      var current := queue[0];
      visited', found', queue' := visited, found, queue[1..];
      ExpandStarts(s, tiles, target, visited, found, queue);
      var links := s.Links(current);
      for i := 0 to |links|
        invariant Expanding(s, tiles, target, visited', found', queue', current, i)
        invariant found <= found' && (found' == found ==> |queue'| < |queue|)
        invariant |visited'| <= |visited| + i
      {
        var q := links[i];
        FollowLink(s, tiles, target, visited', found', queue', current, i);
        if q !in visited' {
          visited' := visited' + {q};
          if Marked(s, tiles, q) {
            found' := found' + {q};
            queue' := queue' + [q];
          }
        }
      }
      ExpandEnds(s, tiles, target, visited', found', queue', current);
    }

    /** Clears the mark of every reconnected tile that still carries it. */
    method ClearMarks(area: set<Pos>)
      requires forall p | p in area :: p in tiles && tiles[p].frontierDecayKind == Some(Encirclement)
      modifies this`tiles
      ensures tiles == Cleared(old(tiles), area) && tiles.Keys == old(tiles).Keys
      ensures forall q | q in tiles ::
                tiles[q] == if q in area then old(tiles)[q].(frontierDecayAt := None, frontierDecayKind := None)
                            else old(tiles)[q]
    {
      var rest := area;
      assert tiles == Cleared(old(tiles), area - rest);
      while rest != {}
        invariant rest <= area && tiles == Cleared(old(tiles), area - rest)
        decreases rest
      {
        var key :| key in rest;
        tiles := tiles[key := Unmarked(tiles[key])];
        rest := rest - {key};
      }
      assert area - rest == area;
    }

    /** The breadth-first search from non-empty seeds. */
    method Search(s: Supply, target: Pos, cap: nat, seeds: seq<Pos>) returns (capped: bool, found: set<Pos>)
      requires seeds != [] && forall q :: q in seeds <==> q in Seeds(s, tiles, target)
      ensures capped ==> 0 < cap < |Touched(s, tiles, target)|
      ensures !capped ==> found == Reached(s, tiles, target)
      ensures !capped && cap > 0 ==> exists p | p in found :: |Touched(s, tiles, target)| <= cap + |s.Links(p)|
    {
      found := set p | p in seeds;
      SearchStarts(s, tiles, target, seeds, found);
      var visited, queue := found, seeds;
      ghost var last := target;
      while queue != []
        invariant Searching(s, tiles, target, visited, found, queue)
        invariant queue == [] && cap > 0 ==> last in found && |visited| <= cap + |s.Links(last)|
        decreases |tiles.Keys - found|, |queue|
      {
        if cap > 0 && |visited| > cap {
          SearchShrinks(s, tiles, target, visited, found, found, queue);
          return true, found;
        }
        ghost var was := found;
        last := queue[0];
        visited, found, queue := Expand(s, target, visited, found, queue);
        SearchShrinks(s, tiles, target, visited, was, found, queue);
      }
      SearchComplete(s, tiles, target, visited, found);
      capped := false;
    }

    /** Either the search runs into the cap and changes nothing, or it clears exactly the reachable marked tiles. A
        capped search really had more than `cap` tiles to look at; an uncapped one overran it by at most one step. */
    method ApplyEncirclementForExpand(s: Supply, target: Pos, cap: nat) returns (capped: bool)
      modifies this`tiles
      ensures capped ==> tiles == old(tiles) && 0 < cap < |Touched(s, old(tiles), target)|
      ensures !capped ==> tiles == Cleared(old(tiles), Reached(s, old(tiles), target))
      ensures !capped ==> Healed(s, old(tiles), tiles, target)
      ensures forall q :: q in Touched(s, old(tiles), target) <==> LookedAt(s, old(tiles), target, q)
      ensures !capped && cap > 0 && Reached(s, old(tiles), target) != {} ==>
                exists p | p in Reached(s, old(tiles), target) :: |Touched(s, old(tiles), target)| <= cap + |s.Links(p)|
    {
      forall q ensures q in Touched(s, tiles, target) <==> LookedAt(s, tiles, target, q) {
        TouchedIsLookedAt(s, tiles, target, q);
      }
      ClearedIsHealed(s, tiles, target);
      var seeds := FindSeeds(s, target);
      if seeds == [] {
        NothingToReach(s, tiles, target);
        assert tiles == Cleared(tiles, {});
        return false;
      }
      var found;
      capped, found := Search(s, target, cap, seeds);
      if !capped {
        forall p | p in found ensures Marked(s, tiles, p) {
          ReachedMarked(s, tiles, target, p);
        }
        ClearMarks(found);
      }
    }
  }
}
