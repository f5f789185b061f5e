/** A player's summary read off the map: which of its tiles each set lists, and what each counter counts. */
module PlayerSummaryTerms {
  import opened Torus
  import opened World
  import opened Sums
  import opened PlayerSummary
  import opened PlayerSummaryLaws

  /** The player's settled tiles. */
  ghost function SettledOf(tiles: Tiles, player: PlayerId): set<Pos> {
    set p | p in tiles && tiles[p].ownerId == Some(player) && tiles[p].ownership == Some(Settled)
  }

  /** Settled towns of a tier; a town that records none is a settlement. */
  ghost function TownsOf(tiles: Tiles, player: PlayerId, tier: TownTier): set<Pos> {
    set p | p in SettledOf(tiles, player) &&
            (tiles[p].town == Some(Some(tier)) || (tiles[p].town == Some(None) && tier == Settlement))
  }

  /** Some tiles, each worth the same. */
  datatype Part = Part(keys: set<Pos>, worth: nat)

  ghost function WorthAt(parts: seq<Part>, p: Pos): nat {
    if parts == [] then 0 else (if p in parts[0].keys then parts[0].worth else 0) + WorthAt(parts[1..], p)
  }

  ghost function TotalWorth(parts: seq<Part>): nat {
    if parts == [] then 0 else parts[0].worth * |parts[0].keys| + TotalWorth(parts[1..])
  }

  predicate Busy(s: Option<Structure>, player: PlayerId) {
    s.Some? && s.value.ownerId == player && s.value.status in {UnderConstruction, Removing}
  }

  /** The player's own structures under construction or removal, of the four kinds. */
  ghost function BusyStructures(tiles: Tiles, player: PlayerId): seq<Part> {
    [Part((set p | p in tiles && tiles[p].ownerId == Some(player) && Busy(tiles[p].fort, player)), 1),
     Part((set p | p in tiles && tiles[p].ownerId == Some(player) && Busy(tiles[p].observatory, player)), 1),
     Part((set p | p in tiles && tiles[p].ownerId == Some(player) && Busy(tiles[p].siegeBattery, player)), 1),
     Part((set p | p in tiles && tiles[p].ownerId == Some(player) && Busy(tiles[p].economicStructure, player)), 1)]
  }

  /** Towns pay by tier; complexes without a town pay as settlements do; docks with neither pay the dock rate. */
  ghost function PayingTiles(rates: Rates, tiles: Tiles, player: PlayerId): seq<Part> {
    [Part(TownsOf(tiles, player, Settlement), rates.settlement),
     Part(TownsOf(tiles, player, Town), rates.town(Town)),
     Part(TownsOf(tiles, player, City), rates.town(City)),
     Part(TownsOf(tiles, player, GreatCity), rates.town(GreatCity)),
     Part(TownsOf(tiles, player, Metropolis), rates.town(Metropolis)),
     Part((set p | p in SettledOf(tiles, player) && tiles[p].town == None && tiles[p].complex.Some?), rates.settlement),
     Part((set p | p in SettledOf(tiles, player) && tiles[p].town == None && tiles[p].complex == None && tiles[p].dock),
          rates.dock)]
  }

  /** The sets and the town map list exactly the tiles they are named for. */
  ghost predicate ListsTiles(tiles: Tiles, player: PlayerId, s: Summary) {
    && s.territory == (set p | p in tiles && tiles[p].ownerId == Some(player))
    && s.relics == (set p | p in tiles && tiles[p].ownerId == Some(player) && tiles[p].naturalWonder)
    && s.frontier == (set p | p in tiles && tiles[p].ownerId == Some(player) && tiles[p].ownership == Some(Frontier))
    && s.complexes == (set p | p in SettledOf(tiles, player) && tiles[p].complex == Some(Structure(player, Active)))
    && s.townTier == (map p | p in SettledOf(tiles, player) && tiles[p].town.Some? ::
                        match tiles[p].town.value case Some(tier) => tier case None => Settlement)
  }

  /** The counters count exactly the tiles and structures they are named for. */
  ghost predicate CountsTiles(rates: Rates, tiles: Tiles, player: PlayerId, counters: Counter -> nat) {
    && counters(SettledTiles) == |SettledOf(tiles, player)|
    && counters(Towns) == |set p | p in SettledOf(tiles, player) && tiles[p].town.Some?|
    && counters(Complexes) ==
         |set p | p in tiles && tiles[p].ownerId == Some(player) && tiles[p].complex.Some? &&
                  tiles[p].complex.value.ownerId == player|
    && counters(FishFood) == |set p | p in SettledOf(tiles, player) && tiles[p].resource == Some(Fish)|
    && counters(Processes) == TotalWorth(BusyStructures(tiles, player))
    && counters(Gold) == TotalWorth(PayingTiles(rates, tiles, player))
  }

  ghost predicate ReadsOffMap(rates: Rates, tiles: Tiles, player: PlayerId, s: Summary) {
    ListsTiles(tiles, player, s) && CountsTiles(rates, tiles, player, s.counters)
  }

  // ---------- proofs ----------

  lemma {:induction false} SumOfPart(all: set<Pos>, part: Part, f: Pos -> int)
    requires part.keys <= all && forall p | p in all :: f(p) == if p in part.keys then part.worth else 0
    ensures Sum(all, f) == part.worth * |part.keys|
    decreases |part.keys|
  {
    if part.keys == {} {
      SumOfNothing(all, f);
    } else {
      var x :| x in part.keys;
      var rest := part.(keys := part.keys - {x});
      var g := (p: Pos) => if p in rest.keys then part.worth else 0;
      SumOfPart(all, rest, g);
      OneTermChanged(all, g, f, x);
      assert part.worth * |part.keys| == part.worth * |rest.keys| + part.worth;
    }
  }

  lemma {:induction false} SumOfNothing(s: set<Pos>, f: Pos -> int)
    requires forall p | p in s :: f(p) == 0
    ensures Sum(s, f) == 0
    decreases |s|
  {
    if s != {} {
      var x :| x in s;
      TakeOut(s, f, x);
      SumOfNothing(s - {x}, f);
    }
  }

  /** A sum whose terms are what the parts are worth together is what the parts are worth in total. */
  lemma {:induction false} SumOfParts(all: set<Pos>, parts: seq<Part>, f: Pos -> int)
    requires forall part | part in parts :: part.keys <= all
    requires forall p | p in all :: f(p) == WorthAt(parts, p)
    ensures Sum(all, f) == TotalWorth(parts)
    decreases |parts|
  {
    if parts == [] {
      SumOfNothing(all, f);
    } else {
      var first := (p: Pos) => if p in parts[0].keys then parts[0].worth else 0;
      var rest := (p: Pos) => WorthAt(parts[1..], p);
      assert parts[0] in parts;
      assert forall part | part in parts[1..] :: part in parts;
      SumOfPart(all, parts[0], first);
      SumOfParts(all, parts[1..], rest);
      SumOfSums(all, first, rest, f);
    }
  }

  lemma OneCounter(rates: Rates, tiles: Tiles, player: PlayerId, k: Counter, keys: set<Pos>)
    requires keys <= tiles.Keys
    requires forall p | p in tiles :: Terms(rates, tiles, player, k)(p) == if p in keys then 1 else 0
    ensures Counted(rates, tiles, player, k) == |keys|
  {
    SumOfPart(tiles.Keys, Part(keys, 1), Terms(rates, tiles, player, k));
  }

  lemma PlainCounters(rates: Rates, tiles: Tiles, player: PlayerId)
    ensures Counted(rates, tiles, player, SettledTiles) == |SettledOf(tiles, player)|
    ensures Counted(rates, tiles, player, Towns) == |set p | p in SettledOf(tiles, player) && tiles[p].town.Some?|
    ensures Counted(rates, tiles, player, FishFood) ==
              |set p | p in SettledOf(tiles, player) && tiles[p].resource == Some(Fish)|
    ensures Counted(rates, tiles, player, Complexes) ==
              |set p | p in tiles && tiles[p].ownerId == Some(player) && tiles[p].complex.Some? &&
                       tiles[p].complex.value.ownerId == player|
  {
    OneCounter(rates, tiles, player, SettledTiles, SettledOf(tiles, player));
    OneCounter(rates, tiles, player, Towns, set p | p in SettledOf(tiles, player) && tiles[p].town.Some?);
    OneCounter(rates, tiles, player, FishFood,
               set p | p in SettledOf(tiles, player) && tiles[p].resource == Some(Fish));
    OneCounter(rates, tiles, player, Complexes,
               set p | p in tiles && tiles[p].ownerId == Some(player) && tiles[p].complex.Some? &&
                       tiles[p].complex.value.ownerId == player);
  }

  lemma WorthFrom(parts: seq<Part>, i: nat, p: Pos)
    requires i < |parts|
    ensures WorthAt(parts[i..], p) == (if p in parts[i].keys then parts[i].worth else 0) + WorthAt(parts[i + 1..], p)
  {
    assert parts[i..][0] == parts[i] && parts[i..][1..] == parts[i + 1..];
  }

  lemma BusyAt(tiles: Tiles, player: PlayerId, p: Pos)
    requires p in tiles
    ensures WorthAt(BusyStructures(tiles, player), p) ==
              if tiles[p].ownerId == Some(player) then ProcessesOn(tiles[p], player) else 0
  {
    var parts := BusyStructures(tiles, player);
    WorthFrom(parts, 0, p);
    WorthFrom(parts, 1, p);
    WorthFrom(parts, 2, p);
    WorthFrom(parts, 3, p);
    assert parts[0..] == parts && parts[4..] == [];
  }

  lemma PayAt(rates: Rates, tiles: Tiles, player: PlayerId, p: Pos)
    requires p in tiles
    ensures WorthAt(PayingTiles(rates, tiles, player), p) ==
              if tiles[p].ownerId == Some(player) then GoldOf(rates, tiles[p]) else 0
  {
    var parts := PayingTiles(rates, tiles, player);
    WorthFrom(parts, 0, p);
    WorthFrom(parts, 1, p);
    WorthFrom(parts, 2, p);
    WorthFrom(parts, 3, p);
    WorthFrom(parts, 4, p);
    WorthFrom(parts, 5, p);
    WorthFrom(parts, 6, p);
    assert parts[0..] == parts && parts[7..] == [];
  }

  lemma BusyCounter(rates: Rates, tiles: Tiles, player: PlayerId)
    ensures Counted(rates, tiles, player, Processes) == TotalWorth(BusyStructures(tiles, player))
  {
    forall p | p in tiles
      ensures Terms(rates, tiles, player, Processes)(p) == WorthAt(BusyStructures(tiles, player), p)
    {
      BusyAt(tiles, player, p);
    }
    SumOfParts(tiles.Keys, BusyStructures(tiles, player), Terms(rates, tiles, player, Processes));
  }

  lemma GoldCounter(rates: Rates, tiles: Tiles, player: PlayerId)
    ensures Counted(rates, tiles, player, Gold) == TotalWorth(PayingTiles(rates, tiles, player))
  {
    forall p | p in tiles
      ensures Terms(rates, tiles, player, Gold)(p) == WorthAt(PayingTiles(rates, tiles, player), p)
    {
      PayAt(rates, tiles, player, p);
    }
    SumOfParts(tiles.Keys, PayingTiles(rates, tiles, player), Terms(rates, tiles, player, Gold));
  }

  lemma CountersInTerms(rates: Rates, tiles: Tiles, player: PlayerId, counters: Counter -> nat)
    ensures (forall k :: counters(k) == Counted(rates, tiles, player, k)) <==>
              CountsTiles(rates, tiles, player, counters)
  {
    PlainCounters(rates, tiles, player);
    BusyCounter(rates, tiles, player);
    GoldCounter(rates, tiles, player);
    if CountsTiles(rates, tiles, player, counters) {
      forall k ensures counters(k) == Counted(rates, tiles, player, k) {
        match k {
          case SettledTiles =>
          case Towns =>
          case Complexes =>
          case Gold =>
          case FishFood =>
          case Processes =>
        }
      }
    }
  }

  lemma ListsInTerms(rates: Rates, tiles: Tiles, player: PlayerId)
    ensures ListsTiles(tiles, player, Recount(rates, tiles, player))
  {
    assert TownTiers(tiles, player) ==
           map p | p in SettledOf(tiles, player) && tiles[p].town.Some? ::
             match tiles[p].town.value case Some(tier) => tier case None => Settlement;
  }

  /** A summary equals the recount exactly when it reads off the map. */
  lemma RecountInTerms(rates: Rates, tiles: Tiles, player: PlayerId, s: Summary)
    ensures Same(s, Recount(rates, tiles, player)) <==> ReadsOffMap(rates, tiles, player, s)
  {
    ListsInTerms(rates, tiles, player);
    CountersInTerms(rates, tiles, player, s.counters);
  }

  // ---------- runs ----------

  /** The player holds at most nine natural wonders. */
  ghost predicate AtMostNineRelics(tiles: Tiles, player: PlayerId) {
    |set p | p in tiles && tiles[p].ownerId == Some(player) && tiles[p].naturalWonder| <= 9
  }

  lemma RelicsInTerms(tiles: Tiles, player: PlayerId)
    ensures |Relics(tiles, player)| <= WORLD_RELIC_LIMIT <==> AtMostNineRelics(tiles, player)
  {
    assert Relics(tiles, player) == set p | p in tiles && tiles[p].ownerId == Some(player) && tiles[p].naturalWonder;
  }

  lemma RelicsFitInTerms(tiles: Tiles)
    ensures RelicsFit(tiles) <==> forall player :: AtMostNineRelics(tiles, player)
  {
    forall player ensures |Relics(tiles, player)| <= WORLD_RELIC_LIMIT <==> AtMostNineRelics(tiles, player) {
      RelicsInTerms(tiles, player);
    }
  }

  /** Every player's summary reads off the map. */
  ghost predicate AllReadOffMap(rates: Rates, tiles: Tiles, w: Index) {
    forall player :: ReadsOffMap(rates, tiles, player, SummaryFor(w, player))
  }

  lemma ExactInTerms(rates: Rates, w: Index)
    ensures Exact(rates, w) <==> AllReadOffMap(rates, w.tiles, w)
  {
    forall player
      ensures Same(SummaryFor(w, player), Recount(rates, w.tiles, player)) <==>
                ReadsOffMap(rates, w.tiles, player, SummaryFor(w, player))
    {
      RecountInTerms(rates, w.tiles, player, SummaryFor(w, player));
    }
  }

  /** Over any run of tile replacements from an exact state: none is refused exactly when no map on the way gives a
      player a tenth relic, and then every player's summary reads off the final map. */
  lemma SummariesReadOffMap(rates: Rates, w: Index, writes: seq<(Pos, Tile)>)
    requires AllReadOffMap(rates, w.tiles, w) && forall player :: AtMostNineRelics(w.tiles, player)
    ensures var (w', ok) := RunReplacements(rates, w, writes);
            && (ok <==> forall n, player | 0 <= n <= |writes| ::
                          AtMostNineRelics(TilesAfter(w.tiles, writes[..n]), player))
            && (ok ==> AllReadOffMap(rates, TilesAfter(w.tiles, writes), w'))
  {
    ExactInTerms(rates, w);
    RelicsFitInTerms(w.tiles);
    forall n | 0 <= n <= |writes|
      ensures RelicsFit(TilesAfter(w.tiles, writes[..n])) <==>
                forall player :: AtMostNineRelics(TilesAfter(w.tiles, writes[..n]), player)
    {
      RelicsFitInTerms(TilesAfter(w.tiles, writes[..n]));
    }
    SummariesStayExact(rates, w, writes);
    ExactInTerms(rates, RunReplacements(rates, w, writes).0);
  }
}
