/** The defensibility counts: owned tiles and exposed edges, over an index of keys or over the whole map. */
module Defensibility {
  import opened Torus
  import opened World
  import opened Sums
  import opened PlayerSummary
  import opened PlayerSummaryLaws

  predicate OwnedTile(tiles: Tiles, p: Pos, player: PlayerId, settledOnly: bool) {
    && p in tiles && tiles[p].ownerId == Some(player) && tiles[p].terrain == Land
    && (tiles[p].ownership == Some(Settled) || (!settledOnly && tiles[p].ownership == Some(Frontier)))
  }

  /** Missing tiles count as land; sea and mountains shield an edge. */
  predicate ExposedTo(tiles: Tiles, q: Pos, player: PlayerId, settledOnly: bool) {
    !OwnedTile(tiles, q, player, settledOnly) && (q in tiles ==> tiles[q].terrain == Land)
  }

  /** Which of the first `n` of these positions are exposed. */
  ghost function ExposedBefore(tiles: Tiles, at: seq<Pos>, player: PlayerId, settledOnly: bool, n: int): set<int>
    requires n <= |at|
  {
    set i | 0 <= i < n && ExposedTo(tiles, at[i], player, settledOnly)
  }

  ghost function ExposedSides(grid: Grid, tiles: Tiles, p: Pos, player: PlayerId, settledOnly: bool): set<int> {
    ExposedBefore(tiles, grid.Compass(p), player, settledOnly, 4)
  }

  ghost function Edges(grid: Grid, tiles: Tiles, player: PlayerId, settledOnly: bool): Pos -> int {
    p => |ExposedSides(grid, tiles, p, player, settledOnly)|
  }

  ghost function OwnedAmong(keys: set<Pos>, tiles: Tiles, player: PlayerId, settledOnly: bool): set<Pos> {
    set p | p in keys && OwnedTile(tiles, p, player, settledOnly)
  }

  datatype Metrics = Metrics(T: int, E: int, Ts: int, Es: int)

  function AtLeastOne(n: int): int { if n < 1 then 1 else n }

  /** The counts over the owned tiles among the given keys. */
  ghost function Tally(grid: Grid, keys: set<Pos>, tiles: Tiles, player: PlayerId, skipAllOwnedStats: bool): Metrics {
    var owned, settled := OwnedAmong(keys, tiles, player, false), OwnedAmong(keys, tiles, player, true);
    Metrics(|owned|, if skipAllOwnedStats then 0 else Sum(owned, Edges(grid, tiles, player, false)),
            |settled|, Sum(settled, Edges(grid, tiles, player, true)))
  }

  /** What is reported: neither tile count goes below one. */
  ghost function MetricsOver(grid: Grid, keys: set<Pos>, tiles: Tiles, player: PlayerId,
                             skipAllOwnedStats: bool): Metrics {
    var m := Tally(grid, keys, tiles, player, skipAllOwnedStats);
    m.(T := AtLeastOne(m.T), Ts := AtLeastOne(m.Ts))
  }

  lemma OneMoreSide(tiles: Tiles, at: seq<Pos>, player: PlayerId, settledOnly: bool, i: nat)
    requires i < |at|
    ensures |ExposedBefore(tiles, at, player, settledOnly, i + 1)| ==
            |ExposedBefore(tiles, at, player, settledOnly, i)| + if ExposedTo(tiles, at[i], player, settledOnly) then
                1 else 0
  {
    var was, now := ExposedBefore(tiles, at, player, settledOnly, i),
        ExposedBefore(tiles, at, player, settledOnly, i + 1);
    var hit := if ExposedTo(tiles, at[i], player, settledOnly) then {i} else {};
    assert now == was + hit && was !! hit;
  }

  /** The four sides of `p` that face open land: land, known or not, that the player does not hold. Only settled land
      counts as held if `settledOnly`. */
  ghost function OpenSides(grid: Grid, tiles: Tiles, p: Pos, player: PlayerId, settledOnly: bool): set<(int, int)> {
    set d | d in {(0, -1), (1, 0), (0, 1), (-1, 0)} && OpenTowards(grid, tiles, p, d, player, settledOnly)
  }

  predicate OpenTowards(grid: Grid, tiles: Tiles, p: Pos, d: (int, int), player: PlayerId, settledOnly: bool) {
    var q := grid.At(p.x + d.0, p.y + d.1);
    q in tiles ==>
      && tiles[q].terrain == Land
      && !(tiles[q].ownerId == Some(player) &&
           (tiles[q].ownership == Some(Settled) || (tiles[q].ownership == Some(Frontier) && !settledOnly)))
  }

  lemma ExposedOneByOne(tiles: Tiles, at: seq<Pos>, player: PlayerId, settledOnly: bool)
    requires |at| == 4
    ensures |ExposedBefore(tiles, at, player, settledOnly, 4)| ==
              (if ExposedTo(tiles, at[0], player, settledOnly) then 1 else 0) +
              (if ExposedTo(tiles, at[1], player, settledOnly) then 1 else 0) +
              (if ExposedTo(tiles, at[2], player, settledOnly) then 1 else 0) +
              (if ExposedTo(tiles, at[3], player, settledOnly) then 1 else 0)
  {
    OneMoreSide(tiles, at, player, settledOnly, 0);
    OneMoreSide(tiles, at, player, settledOnly, 1);
    OneMoreSide(tiles, at, player, settledOnly, 2);
    OneMoreSide(tiles, at, player, settledOnly, 3);
    assert ExposedBefore(tiles, at, player, settledOnly, 0) == {};
  }

  /** The members of a set of four, one by one. */
  lemma OneByOne(s: set<(int, int)>)
    requires s <= {(0, -1), (1, 0), (0, 1), (-1, 0)}
    ensures |s| == (if (0, -1) in s then 1 else 0) + (if (1, 0) in s then 1 else 0) +
                   (if (0, 1) in s then 1 else 0) + (if (-1, 0) in s then 1 else 0)
  {
    var s1 := s - {(0, -1)};
    var s2 := s1 - {(1, 0)};
    var s3 := s2 - {(0, 1)};
    var s4 := s3 - {(-1, 0)};
    assert s4 == {};
    assert |s| == |s1| + if (0, -1) in s then 1 else 0;
    assert |s1| == |s2| + if (1, 0) in s then 1 else 0;
    assert |s2| == |s3| + if (0, 1) in s then 1 else 0;
    assert |s3| == |s4| + if (-1, 0) in s then 1 else 0;
  }

  lemma SidesInTerms(grid: Grid, tiles: Tiles, p: Pos, player: PlayerId, settledOnly: bool)
    ensures |ExposedSides(grid, tiles, p, player, settledOnly)| == |OpenSides(grid, tiles, p, player, settledOnly)|
  {
    var at := grid.Compass(p);
    ExposedOneByOne(tiles, at, player, settledOnly);
    OneByOne(OpenSides(grid, tiles, p, player, settledOnly));
    assert ExposedTo(tiles, at[0], player, settledOnly) <==> OpenTowards(grid, tiles, p, (0, -1), player, settledOnly);
    assert ExposedTo(tiles, at[1], player, settledOnly) <==> OpenTowards(grid, tiles, p, (1, 0), player, settledOnly);
    assert ExposedTo(tiles, at[2], player, settledOnly) <==> OpenTowards(grid, tiles, p, (0, 1), player, settledOnly);
    assert ExposedTo(tiles, at[3], player, settledOnly) <==> OpenTowards(grid, tiles, p, (-1, 0), player, settledOnly);
  }

  method ExposedEdgesFor(grid: Grid, tiles: Tiles, p: Pos, player: PlayerId, settledOnly: bool) returns (exposed: nat)
    ensures exposed == |ExposedSides(grid, tiles, p, player, settledOnly)|
    ensures exposed == |OpenSides(grid, tiles, p, player, settledOnly)|
  {
    SidesInTerms(grid, tiles, p, player, settledOnly);
    var neighbours := grid.Compass(p);
    exposed := 0;
    for i := 0 to |neighbours|
      invariant exposed == |ExposedBefore(tiles, neighbours, player, settledOnly, i)|
    {
      OneMoreSide(tiles, neighbours, player, settledOnly, i);
      var next := neighbours[i];
      if OwnedTile(tiles, next, player, settledOnly) {
        continue;
      }
      if next in tiles && tiles[next].terrain != Land {
        continue;
      }
      exposed := exposed + 1;
    }
  }

  lemma OneMoreKey(grid: Grid, keys: set<Pos>, p: Pos, tiles: Tiles, player: PlayerId, settledOnly: bool)
    requires p !in keys
    ensures var was, now, edges :=
              OwnedAmong(keys, tiles, player, settledOnly), OwnedAmong(keys + {p}, tiles, player, settledOnly),
                                   Edges(grid, tiles, player, settledOnly);
            if OwnedTile(tiles, p, player, settledOnly)
            then |now| == |was| + 1 && Sum(now, edges) == Sum(was, edges) + edges(p)
            else now == was
  {
    var was, now := OwnedAmong(keys, tiles, player, settledOnly), OwnedAmong(keys + {p}, tiles, player, settledOnly);
    if OwnedTile(tiles, p, player, settledOnly) {
      assert now == was + {p};
      PutIn(was, Edges(grid, tiles, player, settledOnly), p);
    } else {
      assert now == was;
    }
  }

  /** One owned tile more. */
  ghost function Including(m: Metrics, grid: Grid, p: Pos, tiles: Tiles, player: PlayerId, skip: bool): Metrics {
    var all := m.(T := m.T + 1, E := m.E + if skip then 0 else |ExposedSides(grid, tiles, p, player, false)|);
    if OwnedTile(tiles, p, player, true)
    then all.(Ts := m.Ts + 1, Es := m.Es + |ExposedSides(grid, tiles, p, player, true)|)
    else all
  }

  lemma TallyStep(grid: Grid, keys: set<Pos>, p: Pos, tiles: Tiles, player: PlayerId, skip: bool)
    requires p !in keys
    ensures var m := Tally(grid, keys, tiles, player, skip);
            Tally(grid, keys + {p}, tiles, player, skip) ==
            if OwnedTile(tiles, p, player, false) then Including(m, grid, p, tiles, player, skip) else m
  {
    OneMoreKey(grid, keys, p, tiles, player, false);
    OneMoreKey(grid, keys, p, tiles, player, true);
  }

  method Accumulate(m: Metrics, grid: Grid, p: Pos, tiles: Tiles, player: PlayerId, skip: bool) returns (r: Metrics)
    ensures r == Including(m, grid, p, tiles, player, skip)
  {
    r := m.(T := m.T + 1);
    if !skip {
      var edges := ExposedEdgesFor(grid, tiles, p, player, false);
      r := r.(E := r.E + edges);
    }
    if !OwnedTile(tiles, p, player, true) {
      return;
    }
    var edges := ExposedEdgesFor(grid, tiles, p, player, true);
    r := r.(Ts := r.Ts + 1, Es := r.Es + edges);
  }

  lemma TallyOfNothing(grid: Grid, tiles: Tiles, player: PlayerId, skip: bool)
    ensures Tally(grid, {}, tiles, player, skip) == Metrics(0, 0, 0, 0)
  {
    assert OwnedAmong({}, tiles, player, false) == {} && OwnedAmong({}, tiles, player, true) == {};
  }

  method AccumulateAll(grid: Grid, keys: set<Pos>, tiles: Tiles, player: PlayerId, skip: bool) returns (m: Metrics)
    ensures m == Tally(grid, keys, tiles, player, skip)
  {
    m := Metrics(0, 0, 0, 0);
    TallyOfNothing(grid, tiles, player, skip);
    var left := keys;
    assert keys - left == {};
    while left != {}
      invariant left <= keys
      invariant m == Tally(grid, keys - left, tiles, player, skip)
    {
      var p :| p in left;
      TallyStep(grid, keys - left, p, tiles, player, skip);
      assert keys - (left - {p}) == keys - left + {p};
      left := left - {p};
      if OwnedTile(tiles, p, player, false) {
        m := Accumulate(m, grid, p, tiles, player, skip);
      }
    }
    assert keys - left == keys;
  }

  /** The player's land among the keys, settled or held as frontier. */
  ghost function Holding(keys: set<Pos>, tiles: Tiles, player: PlayerId): set<Pos> {
    set p | p in keys && p in tiles && tiles[p].ownerId == Some(player) && tiles[p].terrain == Land &&
            tiles[p].ownership in {Some(Settled), Some(Frontier)}
  }

  ghost function OpenSidesOf(grid: Grid, tiles: Tiles, player: PlayerId, settledOnly: bool): Pos -> int {
    p => |OpenSides(grid, tiles, p, player, settledOnly)|
  }

  /** The four figures: tiles held and settled, at least one each, and the sides of each that face open land. */
  ghost predicate CountsHolding(grid: Grid, keys: set<Pos>, tiles: Tiles, player: PlayerId, skipAllOwnedStats: bool,
                                m: Metrics) {
    var held := Holding(keys, tiles, player);
    var settled := set p | p in held && tiles[p].ownership == Some(Settled);
    && m.T == (if held == {} then 1 else |held|)
    && m.Ts == (if settled == {} then 1 else |settled|)
    && m.E == (if skipAllOwnedStats then 0 else Sum(held, OpenSidesOf(grid, tiles, player, false)))
    && m.Es == Sum(settled, OpenSidesOf(grid, tiles, player, true))
  }

  lemma MetricsInTerms(grid: Grid, keys: set<Pos>, tiles: Tiles, player: PlayerId, skip: bool)
    ensures CountsHolding(grid, keys, tiles, player, skip, MetricsOver(grid, keys, tiles, player, skip))
  {
    var held := Holding(keys, tiles, player);
    var settled := set p | p in held && tiles[p].ownership == Some(Settled);
    assert held == OwnedAmong(keys, tiles, player, false);
    assert settled == OwnedAmong(keys, tiles, player, true);
    forall p, only ensures Edges(grid, tiles, player, only)(p) == OpenSidesOf(grid, tiles, player, only)(p) {
      SidesInTerms(grid, tiles, p, player, only);
    }
    SameTerms(held, Edges(grid, tiles, player, false), OpenSidesOf(grid, tiles, player, false));
    SameTerms(settled, Edges(grid, tiles, player, true), OpenSidesOf(grid, tiles, player, true));
  }

  /** Accumulates over the player's key index when it is supplied and over every tile of the map otherwise. */
  method BuildPlayerDefensibilityMetrics(grid: Grid, player: PlayerId, tiles: Tiles, ownedTileKeys: Option<set<Pos>>,
                                         skipAllOwnedStats: bool) returns (m: Metrics)
    ensures m == MetricsOver(grid, if ownedTileKeys.Some? then ownedTileKeys.value else tiles.Keys, tiles, player,
                             skipAllOwnedStats)
    ensures CountsHolding(grid, if ownedTileKeys.Some? then ownedTileKeys.value else tiles.Keys, tiles, player,
                          skipAllOwnedStats, m)
  {
    MetricsInTerms(grid, if ownedTileKeys.Some? then ownedTileKeys.value else tiles.Keys, tiles, player,
                   skipAllOwnedStats);
    if ownedTileKeys.Some? {
      m := AccumulateAll(grid, ownedTileKeys.value, tiles, player, skipAllOwnedStats);
    } else {
      m := AccumulateAll(grid, tiles.Keys, tiles, player, skipAllOwnedStats);
    }
    m := m.(T := if m.T < 1 then 1 else m.T, Ts := if m.Ts < 1 then 1 else m.Ts);
  }

  // ---------- what the counts guarantee ----------

  /** An index that misses none of the owned land tiles gives the full-scan counts; its extra keys are skipped. */
  lemma IndexedIsFullScan(grid: Grid, keys: set<Pos>, tiles: Tiles, player: PlayerId, skipAllOwnedStats: bool)
    requires OwnedAmong(tiles.Keys, tiles, player, false) <= keys
    ensures MetricsOver(grid, keys, tiles, player, skipAllOwnedStats) ==
              MetricsOver(grid, tiles.Keys, tiles, player, skipAllOwnedStats)
  {
    assert OwnedAmong(keys, tiles, player, false) == OwnedAmong(tiles.Keys, tiles, player, false);
    forall p | p in OwnedAmong(tiles.Keys, tiles, player, true) ensures p in keys {
      assert p in OwnedAmong(tiles.Keys, tiles, player, false);
    }
    assert OwnedAmong(keys, tiles, player, true) == OwnedAmong(tiles.Keys, tiles, player, true);
  }

  /** After any run of accepted tile writes from an exact state, the indexed counts of every player are the full-scan
      counts. */
  lemma SummaryIndexIsFullScan(grid: Grid, rates: Rates, w: Index, writes: seq<(Pos, Tile)>, player: PlayerId,
                               skip: bool)
    requires Exact(rates, w) && RelicsFit(w.tiles) && RunReplacements(rates, w, writes).1
    ensures var (w', _) := RunReplacements(rates, w, writes);
            MetricsOver(grid, SummaryFor(w', player).territory, w'.tiles, player, skip) ==
            MetricsOver(grid, w'.tiles.Keys, w'.tiles, player, skip)
  {
    SummariesStayExact(rates, w, writes);
    var w' := RunReplacements(rates, w, writes).0;
    assert SummaryFor(w', player).territory == Territory(w'.tiles, player);
    IndexedIsFullScan(grid, SummaryFor(w', player).territory, w'.tiles, player, skip);
  }

  lemma {:induction false} SumAtMost(s: set<Pos>, f: Pos -> int, c: nat)
    requires forall p :: f(p) <= c
    ensures Sum(s, f) <= c * |s|
    decreases |s|
  {
    if s != {} {
      var p :| p in s;
      TakeOut(s, f, p);
      SumAtMost(s - {p}, f, c);
      assert c * |s| == c * |s - {p}| + c;
    }
  }

  lemma FourSides(grid: Grid, tiles: Tiles, p: Pos, player: PlayerId, settledOnly: bool)
    ensures |ExposedSides(grid, tiles, p, player, settledOnly)| <= 4
  {
    var sides := ExposedSides(grid, tiles, p, player, settledOnly);
    Subset(sides, {0, 1, 2, 3});
  }

  lemma Subset(s: set<int>, t: set<int>)
    requires s <= t
    ensures |s| <= |t|
  {
    assert t == s + (t - s);
  }

  /** No tile has more than four exposed edges, so neither count exceeds four per tile. */
  lemma AtMostFourEdgesPerTile(grid: Grid, keys: set<Pos>, tiles: Tiles, player: PlayerId, skip: bool)
    ensures var m := MetricsOver(grid, keys, tiles, player, skip);
            0 <= m.E <= 4 * m.T && 0 <= m.Es <= 4 * m.Ts && 1 <= m.Ts <= m.T
  {
    var owned, settled := OwnedAmong(keys, tiles, player, false), OwnedAmong(keys, tiles, player, true);
    forall p, only ensures Edges(grid, tiles, player, only)(p) <= 4 {
      FourSides(grid, tiles, p, player, only);
    }
    SumAtMost(owned, Edges(grid, tiles, player, false), 4);
    SumAtMost(settled, Edges(grid, tiles, player, true), 4);
    SumNonNegative(owned, Edges(grid, tiles, player, false));
    SumNonNegative(settled, Edges(grid, tiles, player, true));
    assert owned == settled + (owned - settled);
  }

  /** Between two of a player's settled tiles neither side counts an edge, across the seams of the map as well. */
  lemma SettledNeighboursShield(grid: Grid, tiles: Tiles, p: Pos, i: int, player: PlayerId, settledOnly: bool)
    requires grid.Holds(p) && 0 <= i < 4
    requires OwnedTile(tiles, p, player, true) && OwnedTile(tiles, grid.Compass(p)[i], player, true)
    ensures i !in ExposedSides(grid, tiles, p, player, settledOnly)
    ensures exists j | 0 <= j < 4 :: grid.Compass(grid.Compass(p)[i])[j] == p &&
                                     j !in ExposedSides(grid, tiles, grid.Compass(p)[i], player, settledOnly)
  {
    var q := grid.Compass(p)[i];
    var j := (i + 2) % 4;
    grid.AroundBack(p, q, COMPASS_OFFSETS, i, j);
    assert grid.Compass(q)[j] == p;
  }
}
