/** Reconnecting cut-off frontier when an expansion lands: a capped search that clears all it reaches, or nothing. */
module Reconnection {
  import opened Torus
  import opened World
  import Graph = Reachability

  // ---------- supply links ----------

  datatype Bridge = Bridge(from: Pos, to: Pos)

  function OneBridge(b: Bridge, p: Pos): seq<Pos> {
    (if b.from == p then [b.to] else []) + (if b.to == p then [b.from] else [])
  }

  /** The far ends of the bridges at `p`, in the order the bridges are listed. */
  function BridgeEnds(bridges: seq<Bridge>, p: Pos): seq<Pos> {
    if bridges == [] then []
    else BridgeEnds(bridges[..|bridges| - 1], p) + OneBridge(bridges[|bridges| - 1], p)
  }

  function Lookup(m: map<Pos, seq<Pos>>, p: Pos): seq<Pos> {
    if p in m then m[p] else []
  }

  ghost predicate Indexed(index: map<Pos, seq<Pos>>, bridges: seq<Bridge>) {
    forall p :: Lookup(index, p) == BridgeEnds(bridges, p)
  }

  lemma IndexOneMore(index: map<Pos, seq<Pos>>, bridges: seq<Bridge>, b: Bridge, index': map<Pos, seq<Pos>>)
    requires Indexed(index, bridges)
    requires var half := index[b.from := Lookup(index, b.from) + [b.to]];
             index' == half[b.to := Lookup(half, b.to) + [b.from]]
    ensures Indexed(index', bridges + [b])
  {
    forall p ensures Lookup(index', p) == BridgeEnds(bridges + [b], p) {
      assert (bridges + [b])[..|bridges|] == bridges;
      var ends := Lookup(index, p);
      assert BridgeEnds(bridges + [b], p) == ends + OneBridge(b, p);
      if p == b.from && p == b.to {
        assert (ends + [b.to]) + [b.from] == ends + ([b.to] + [b.from]);
      } else if p == b.from {
        assert [b.to] + [] == [b.to];
      } else if p == b.to {
        assert [] + [b.from] == [b.from];
      }
    }
  }

  /** Indexes the player's active bridges by both ends. */
  method IndexBridges(bridges: seq<Bridge>) returns (index: map<Pos, seq<Pos>>)
    ensures forall p :: Lookup(index, p) == BridgeEnds(bridges, p)
  {
    index := map[];
    for i := 0 to |bridges|
      invariant Indexed(index, bridges[..i])
    {
      var b := bridges[i];
      ghost var was := index;
      index := index[b.from := Lookup(index, b.from) + [b.to]];
      index := index[b.to := Lookup(index, b.to) + [b.from]];
      IndexOneMore(was, bridges[..i], b, index);
      assert bridges[..i] + [b] == bridges[..i + 1];
    }
    assert bridges[..|bridges|] == bridges;
  }

  /** Bridges carry supply both ways. */
  lemma {:induction false} BridgesSymmetric(bridges: seq<Bridge>, p: Pos, q: Pos)
    ensures q in BridgeEnds(bridges, p) <==> p in BridgeEnds(bridges, q)
    decreases |bridges|
  {
    if bridges != [] {
      BridgesSymmetric(bridges[..|bridges| - 1], p, q);
    }
  }

  /** What the search works with: the map's shape, the player's bridges, and the static sea lanes. */
  datatype Supply = Supply(grid: Grid, player: PlayerId, bridges: seq<Bridge>, seaLanes: map<Pos, seq<Pos>>) {
    /** The tiles one step away: the surrounding ring, then the bridges, then the sea lanes. */
    function Links(p: Pos): seq<Pos> {
      grid.Ring(p) + (BridgeEnds(bridges, p) + Lookup(seaLanes, p))
    }
  }

  predicate Marked(s: Supply, tiles: Tiles, p: Pos) {
    p in tiles && OwnedBy(tiles[p], s.player, Frontier) && tiles[p].frontierDecayKind == Some(Encirclement)
  }

  ghost function Step(s: Supply, tiles: Tiles): (Pos, Pos) -> bool {
    (p, q) => q in s.Links(p) && Marked(s, tiles, q)
  }

  ghost predicate Reachable(s: Supply, tiles: Tiles, target: Pos, q: Pos) {
    exists seed :: Step(s, tiles)(target, seed) && Graph.Connected(Step(s, tiles), seed, q)
  }

  /** The marked tiles reachable from the target, in at least one step, through marked tiles. */
  ghost function Reached(s: Supply, tiles: Tiles, target: Pos): set<Pos> {
    set q | q in tiles && Reachable(s, tiles, target, q)
  }

  ghost function Seeds(s: Supply, tiles: Tiles, target: Pos): set<Pos> {
    set q | q in s.Links(target) && Marked(s, tiles, q)
  }

  /** Every tile a full search looks at. */
  ghost function Touched(s: Supply, tiles: Tiles, target: Pos): set<Pos> {
    Seeds(s, tiles, target) + set p, q | p in Reached(s, tiles, target) && q in s.Links(p) :: q
  }

  function Unmarked(tile: Tile): Tile {
    tile.(frontierDecayAt := None, frontierDecayKind := None)
  }

  ghost function Cleared(tiles: Tiles, area: set<Pos>): Tiles {
    map p | p in tiles :: if p in area then Unmarked(tiles[p]) else tiles[p]
  }

  lemma SeedReached(s: Supply, tiles: Tiles, target: Pos, q: Pos)
    requires Step(s, tiles)(target, q)
    ensures q in Reached(s, tiles, target)
  {
    Graph.Reflexive(Step(s, tiles), q);
  }

  lemma StepReached(s: Supply, tiles: Tiles, target: Pos, p: Pos, q: Pos)
    requires p in Reached(s, tiles, target) && Step(s, tiles)(p, q)
    ensures q in Reached(s, tiles, target)
  {
    var seed :| Step(s, tiles)(target, seed) && Graph.Connected(Step(s, tiles), seed, p);
    Graph.Extend(Step(s, tiles), seed, p, q);
  }

  lemma ReachedMarked(s: Supply, tiles: Tiles, target: Pos, q: Pos)
    requires q in Reached(s, tiles, target)
    ensures Marked(s, tiles, q)
  {
    var seed :| Step(s, tiles)(target, seed) && Graph.Connected(Step(s, tiles), seed, q);
    var marked := set x | x in tiles && Marked(s, tiles, x);
    Graph.ClosedContains(Step(s, tiles), marked, seed, q);
  }

  // ---------- the search ----------

  /** The search between two queue entries: found tiles that left the queue have had all their links looked at. */
  ghost predicate Searching(s: Supply, tiles: Tiles, target: Pos, visited: set<Pos>, found: set<Pos>, queue: seq<Pos>) {
    && Seeds(s, tiles, target) <= found <= Reached(s, tiles, target)
    && found <= visited <= Touched(s, tiles, target)
    && (forall p | p in queue :: p in found)
    && (forall p | p in visited && Marked(s, tiles, p) :: p in found)
    && (forall p | p in found && p !in queue :: forall q | q in s.Links(p) :: q in visited)
  }

  lemma SearchStarts(s: Supply, tiles: Tiles, target: Pos, seeds: seq<Pos>, found: set<Pos>)
    requires forall q :: q in seeds <==> q in Seeds(s, tiles, target)
    requires found == set p | p in seeds
    ensures Searching(s, tiles, target, found, found, seeds)
  {
    forall p | p in found ensures p in Reached(s, tiles, target) {
      SeedReached(s, tiles, target, p);
    }
  }

  lemma SearchShrinks(s: Supply, tiles: Tiles, target: Pos, visited: set<Pos>, was: set<Pos>, found: set<Pos>,
                      queue: seq<Pos>)
    requires Searching(s, tiles, target, visited, found, queue) && was <= found
    ensures |tiles.Keys - found| <= |tiles.Keys - was| && (found != was ==> |tiles.Keys - found| < |tiles.Keys - was|)
    ensures |visited| <= |Touched(s, tiles, target)|
  {
    SubsetSize(visited, Touched(s, tiles, target));
    SubsetSize(tiles.Keys - found, tiles.Keys - was);
    if found != was {
      var x :| x in found && x !in was;
      assert x in tiles.Keys - was && x !in tiles.Keys - found;
    }
  }

  /** While the first `n` links of `current`, just taken off the queue, have been followed. */
  ghost predicate Expanding(s: Supply, tiles: Tiles, target: Pos, visited: set<Pos>, found: set<Pos>, queue: seq<Pos>,
                            current: Pos, n: nat)
    requires n <= |s.Links(current)|
  {
    && current in found && Seeds(s, tiles, target) <= found <= Reached(s, tiles, target)
    && found <= visited <= Touched(s, tiles, target)
    && (forall p | p in queue :: p in found)
    && (forall p | p in visited && Marked(s, tiles, p) :: p in found)
    && (forall p | p in found && p !in queue && p != current :: forall q | q in s.Links(p) :: q in visited)
    && (forall i | 0 <= i < n :: s.Links(current)[i] in visited)
  }

  lemma ExpandStarts(s: Supply, tiles: Tiles, target: Pos, visited: set<Pos>, found: set<Pos>, queue: seq<Pos>)
    requires queue != [] && Searching(s, tiles, target, visited, found, queue)
    ensures Expanding(s, tiles, target, visited, found, queue[1..], queue[0], 0)
  {
    assert queue == [queue[0]] + queue[1..];
  }

  lemma ExpandEnds(s: Supply, tiles: Tiles, target: Pos, visited: set<Pos>, found: set<Pos>, queue: seq<Pos>,
                   current: Pos)
    requires Expanding(s, tiles, target, visited, found, queue, current, |s.Links(current)|)
    ensures Searching(s, tiles, target, visited, found, queue)
  {}

  lemma FollowLink(s: Supply, tiles: Tiles, target: Pos, visited: set<Pos>, found: set<Pos>, queue: seq<Pos>,
                   current: Pos, n: nat)
    requires n < |s.Links(current)| && Expanding(s, tiles, target, visited, found, queue, current, n)
    ensures var q := s.Links(current)[n];
            if q in visited then Expanding(s, tiles, target, visited, found, queue, current, n + 1)
            else if Marked(s, tiles, q) then
                Expanding(s, tiles, target, visited + {q}, found + {q}, queue + [q], current, n + 1)
            else Expanding(s, tiles, target, visited + {q}, found, queue, current, n + 1)
  {
    var q := s.Links(current)[n];
    assert q in s.Links(current) && q in Touched(s, tiles, target);
    if q !in visited && Marked(s, tiles, q) {
      StepReached(s, tiles, target, current, q);
    }
  }

  lemma SearchComplete(s: Supply, tiles: Tiles, target: Pos, visited: set<Pos>, found: set<Pos>)
    requires Searching(s, tiles, target, visited, found, [])
    ensures found == Reached(s, tiles, target) && visited == Touched(s, tiles, target)
  {
    forall q | q in Reached(s, tiles, target) ensures q in found {
      var seed :| Step(s, tiles)(target, seed) && Graph.Connected(Step(s, tiles), seed, q);
      assert seed in Seeds(s, tiles, target);
      Graph.ClosedContains(Step(s, tiles), found, seed, q);
    }
  }

  /** Nothing marked is left one step from a cleared tile. */
  lemma NoMarkedNeighbourLeft(s: Supply, tiles: Tiles, target: Pos, p: Pos, q: Pos)
    requires p in Reached(s, tiles, target) && q in s.Links(p)
    ensures !Marked(s, Cleared(tiles, Reached(s, tiles, target)), q)
  {
    if Marked(s, tiles, q) {
      StepReached(s, tiles, target, p, q);
    }
  }

  /** With two-way sea lanes, nothing marked is left that links to a cleared tile either. */
  lemma NoMarkedTileLinksBack(s: Supply, tiles: Tiles, target: Pos, p: Pos, q: Pos)
    requires OnGrid(s.grid, tiles)
    requires forall a, b :: b in Lookup(s.seaLanes, a) ==> a in Lookup(s.seaLanes, b)
    requires p in Reached(s, tiles, target) && q in tiles && p in s.Links(q)
    ensures !Marked(s, Cleared(tiles, Reached(s, tiles, target)), q)
  {
    BridgesSymmetric(s.bridges, p, q);
    if p in s.grid.Ring(q) {
      s.grid.RingSymmetric(q, p);
    }
    NoMarkedNeighbourLeft(s, tiles, target, p, q);
  }

  lemma NothingToReach(s: Supply, tiles: Tiles, target: Pos)
    requires Seeds(s, tiles, target) == {}
    ensures Reached(s, tiles, target) == {}
  {
    assert forall seed :: Step(s, tiles)(target, seed) ==> seed in Seeds(s, tiles, target);
  }

  lemma SubsetSize(a: set<Pos>, b: set<Pos>)
    requires a <= b
    ensures |a| <= |b| && (a != b ==> |a| < |b|)
  {
    assert b == a + (b - a);
    if a != b {
      assert |b| == |a| + |b - a|;
    }
  }
}
