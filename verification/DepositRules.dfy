/** Every placement follows the rule: which centre is taken, how its deposit grows and how large it becomes. */
module DepositRules {
  import opened Torus
  import opened World
  import opened Sorting
  import opened Deposits
  import opened DepositLaws
  import opened DepositAccounting
  import opened DepositTheorems
  import opened DepositSaturation
  import opened DepositShapes
  import opened DepositTerms

  // ---------- growth ----------

  lemma {:induction false} FirstIsLeast(env: Env, tiles: Tiles, r: Resource, phase: nat, group: seq<Pos>, s: seq<Pos>,
                                        before: (Pos, Pos) -> bool, q: Pos)
    requires StrictWeak(before) && Ascending(before, s)
    requires q in s && Available(env, tiles, r, phase, group, q)
    ensures var f := FirstAvailable(env, tiles, r, phase, group, s);
            f.Some? && f.value in s && !before(q, f.value)
  {
    if Available(env, tiles, r, phase, group, s[0]) {
      var i :| 0 <= i < |s| && s[i] == q;
    } else {
      FirstIsLeast(env, tiles, r, phase, group, s[1..], before, q);
    }
  }

  lemma BesideIsBorders(grid: Grid, members: seq<Pos>, p: Pos)
    ensures (exists i | 0 <= i < |members| :: Beside(grid, members[i], p)) <==>
              exists m | m in members :: grid.Borders(m, p)
  {
    forall m ensures Beside(grid, m, p) <==> grid.Borders(m, p) {
      grid.CompassAreBorders(m, p);
    }
    if m :| m in members && grid.Borders(m, p) {
      var i :| 0 <= i < |members| && members[i] == m;
      assert Beside(grid, members[i], p);
    }
  }

  lemma {:induction false} FirstOfTied(env: Env, tiles: Tiles, r: Resource, phase: nat, group: seq<Pos>, s: seq<Pos>,
                                       before: (Pos, Pos) -> bool, p: Pos)
    requires StrictWeak(before) && FirstAvailable(env, tiles, r, phase, group, s) == Some(p)
    ensures FirstAvailable(env, tiles, r, phase, group, TiedWith(before, p, s)) == Some(p)
  {
    var tied, rest := TiedWith(before, p, s), TiedWith(before, p, s[1..]);
    assert tied == [s[0]] + rest || tied == rest;
    assert ([s[0]] + rest)[1..] == rest;
    FirstAvailableIsAvailable(env, tiles, r, phase, group, s);
    if !Available(env, tiles, r, phase, group, s[0]) {
      FirstOfTied(env, tiles, r, phase, group, s[1..], before, p);
    }
  }

  lemma {:induction false} TiedComesLater(env: Env, tiles: Tiles, r: Resource, phase: nat, group: seq<Pos>, s: seq<Pos>,
                                          before: (Pos, Pos) -> bool, p: Pos, q: Pos)
    requires FirstAvailable(env, tiles, r, phase, group, TiedWith(before, p, s)) == Some(p)
    requires q in s && Available(env, tiles, r, phase, group, q) && !before(p, q) && !before(q, p)
    ensures FirstIn(s, p) <= FirstIn(s, q)
  {
    var tied, rest := TiedWith(before, p, s), TiedWith(before, p, s[1..]);
    assert tied == [s[0]] + rest || tied == rest;
    assert ([s[0]] + rest)[1..] == rest;
    if s[0] != p && s[0] != q {
      TiedComesLater(env, tiles, r, phase, group, s[1..], before, p, q);
    }
  }

  lemma {:induction false} AdjacentAppend(tiles: Tiles, a: seq<Pos>, b: seq<Pos>, group: seq<Pos>)
    ensures Adjacent(tiles, a + b, group) == Adjacent(tiles, a, group) + Adjacent(tiles, b, group)
  {
    if a == [] {
      assert a + b == b;
    } else {
      assert (a + b)[1..] == a[1..] + b;
      AdjacentAppend(tiles, a[1..], b, group);
    }
  }

  /** The list the growth sorts is what lies around the deposit, without its own tiles and those off the map. */
  lemma {:induction false} NeighboursAreAround(env: Env, tiles: Tiles, members: seq<Pos>, group: seq<Pos>)
    ensures Neighbours(env, tiles, members, group) == Adjacent(tiles, Around(env.grid, members), group)
  {
    if members != [] {
      var m := members[0];
      var compass := env.grid.Compass(m);
      NeighboursAreAround(env, tiles, members[1..], group);
      assert compass == [env.grid.At(m.x, m.y - 1), env.grid.At(m.x + 1, m.y), env.grid.At(m.x, m.y + 1),
                         env.grid.At(m.x - 1, m.y)];
      AdjacentAppend(tiles, compass, Around(env.grid, members[1..]), group);
    }
  }

  lemma {:induction false} AdjacentKeepsFirst(tiles: Tiles, s: seq<Pos>, group: seq<Pos>, p: Pos, q: Pos)
    requires p in tiles && p !in group && q in tiles && q !in group && p in s && q in s
    requires FirstIn(Adjacent(tiles, s, group), p) <= FirstIn(Adjacent(tiles, s, group), q)
    ensures FirstIn(s, p) <= FirstIn(s, q)
  {
    var kept, rest := Adjacent(tiles, s, group), Adjacent(tiles, s[1..], group);
    assert kept == if s[0] in tiles && s[0] !in group then [s[0]] + rest else rest;
    assert ([s[0]] + rest)[1..] == rest;
    if s[0] != p && s[0] != q {
      AdjacentKeepsFirst(tiles, s[1..], group, p, q);
    }
  }

  /** Ties go to the tile that lies first around the deposit. */
  lemma TiedIsListedLater(env: Env, tiles: Tiles, r: Resource, phase: nat, members: seq<Pos>, p: Pos, q: Pos)
    requires StrictWeak(env.growthBefore(r)) && NextMember(env, tiles, r, phase, members) == Some(p)
    requires !env.growthBefore(r)(p, q) && !env.growthBefore(r)(q, p)
    requires q in Neighbours(env, tiles, members, members) && Available(env, tiles, r, phase, members, q)
    ensures FirstIn(Around(env.grid, members), p) <= FirstIn(Around(env.grid, members), q)
  {
    var before, near, around :=
      env.growthBefore(r), Neighbours(env, tiles, members, members), Around(env.grid, members);
    FirstOfTied(env, tiles, r, phase, members, Sort(before, near), before, p);
    SortIsStable(before, near, p);
    TiedComesLater(env, tiles, r, phase, members, near, before, p, q);
    FirstAvailableIsAvailable(env, tiles, r, phase, members, Sort(before, near));
    SortElements(before, near);
    NeighboursAreAround(env, tiles, members, members);
    AdjacentElements(tiles, around, members);
    AdjacentKeepsFirst(tiles, around, members, p, q);
  }

  /** The tile a deposit grows onto. */
  lemma NextIsWellGrown(env: Env, st: State, r: Resource, phase: nat, ds: seq<Deposit>, members: seq<Pos>)
    requires Inv(env, st) && StrictWeak(env.growthBefore(r)) && st.deposits == ds + [Deposit(r, members)]
    requires NextMember(env, st.tiles, r, phase, members).Some?
    ensures WellGrown(env, ds, r, phase, members, NextMember(env, st.tiles, r, phase, members).value)
  {
    var near := Neighbours(env, st.tiles, members, members);
    var p := NextMember(env, st.tiles, r, phase, members).value;
    var i := NextMemberFits(env, st.tiles, r, phase, members);
    UsableIsAvailable(env, st, r, phase, members, p);
    BesideIsBorders(env.grid, members, p);
    FirstAvailableIsAvailable(env, st.tiles, r, phase, members, Sort(env.growthBefore(r), near));
    SortElements(env.growthBefore(r), near);
    NeighboursElements(env, st.tiles, members, members);
    assert BordersSome(env.grid, members, p);
    forall q | Usable(env, st.deposits, r, phase, members, q) && BordersSome(env.grid, members, q)
      ensures !env.growthBefore(r)(q, p)
      ensures !env.growthBefore(r)(p, q) ==>
                FirstIn(Around(env.grid, members), p) <= FirstIn(Around(env.grid, members), q)
    {
      NeighbourIsListed(env, st, r, phase, members, q);
      SortIsStable(env.growthBefore(r), near, q);
      FirstIsLeast(env, st.tiles, r, phase, members, Sort(env.growthBefore(r), near), env.growthBefore(r), q);
      if !env.growthBefore(r)(p, q) {
        TiedIsListedLater(env, st.tiles, r, phase, members, p, q);
      }
    }
  }

  lemma NeighbourIsListed(env: Env, st: State, r: Resource, phase: nat, members: seq<Pos>, q: Pos)
    requires Inv(env, st) && Usable(env, st.deposits, r, phase, members, q) && BordersSome(env.grid, members, q)
    ensures Available(env, st.tiles, r, phase, members, q)
    ensures q in Sort(env.growthBefore(r), Neighbours(env, st.tiles, members, members))
  {
    UsableIsAvailable(env, st, r, phase, members, q);
    BesideIsBorders(env.grid, members, q);
    var i :| 0 <= i < |members| && Beside(env.grid, members[i], q);
    NeighboursMissNone(env, st.tiles, members, members, i, q);
    SortElements(env.growthBefore(r), Neighbours(env, st.tiles, members, members));
  }

  ghost predicate GrownByRule(env: Env, ds: seq<Deposit>, r: Resource, phase: nat, members: seq<Pos>) {
    forall j | 0 < j < |members| :: WellGrown(env, ds, r, phase, members[..j], members[j])
  }

  lemma OneMoreByRule(env: Env, ds: seq<Deposit>, r: Resource, phase: nat, members: seq<Pos>, p: Pos)
    requires members != [] && GrownByRule(env, ds, r, phase, members) && WellGrown(env, ds, r, phase, members, p)
    ensures GrownByRule(env, ds, r, phase, members + [p])
  {
    var more := members + [p];
    forall j | 0 < j < |more| ensures WellGrown(env, ds, r, phase, more[..j], more[j]) {
      assert more[..j] == members[..j];
      assert j == |members| ==> members[..j] == members;
    }
  }

  lemma AddByRule(env: Env, st: State, r: Resource, phase: nat, ds: seq<Deposit>, p: Pos) returns (st1: State)
    requires Inv(env, st) && Growing(st, r) && StrictWeak(env.growthBefore(r))
    requires st.deposits == ds + [Newest(st)] && 0 < |Newest(st).members| < MAX_DEPOSIT_TILES
    requires GrownByRule(env, ds, r, phase, Newest(st).members)
    requires NextMember(env, st.tiles, r, phase, Newest(st).members) == Some(p)
    ensures p in st.tiles && st1 == Add(st, p, st.tiles[p]) && Inv(env, st1) && Growing(st1, r)
    ensures st1.deposits == ds + [Newest(st1)] && Newest(st1).members == Newest(st).members + [p]
    ensures GrownByRule(env, ds, r, phase, Newest(st1).members)
  {
    var members := Newest(st).members;
    var i := NextMemberFits(env, st.tiles, r, phase, members);
    assert Newest(st) == Deposit(r, members);
    NextIsWellGrown(env, st, r, phase, ds, members);
    OneMoreByRule(env, ds, r, phase, members, p);
    AddKeepsInv(env, st, phase, i, p);
    st1 := Add(st, p, st.tiles[p]);
  }

  lemma {:induction false} GrowByRule(env: Env, st: State, r: Resource, phase: nat, desired: nat, ds: seq<Deposit>,
                                      st': State)
    requires Inv(env, st) && Growing(st, r) && desired <= MAX_DEPOSIT_TILES && StrictWeak(env.growthBefore(r))
    requires st.deposits == ds + [Newest(st)] && Newest(st).members != []
    requires GrownByRule(env, ds, r, phase, Newest(st).members) && st' == Grow(env, st, r, phase, desired)
    ensures Inv(env, st') && st'.deposits == ds + [Newest(st')] && Newest(st').resource == r
    ensures GrownByRule(env, ds, r, phase, Newest(st').members)
    ensures Newest(st').members != [] && Newest(st').members[0] == Newest(st).members[0]
    decreases desired - |Newest(st).members|
  {
    var members := Newest(st).members;
    var next := NextMember(env, st.tiles, r, phase, members);
    if |members| < desired && next.Some? {
      var st1 := AddByRule(env, st, r, phase, ds, next.value);
      GrowByRule(env, st1, r, phase, desired, ds, st');
    }
  }

  lemma HemmedInTerms(env: Env, st: State, ds: seq<Deposit>, d: Deposit, phase: nat)
    requires Inv(env, st) && st.deposits == ds + [d] && HemmedIn(env, st, d, phase)
    ensures Hemmed(env, ds, d.resource, phase, d.members)
  {
    assert d == Deposit(d.resource, d.members);
    forall q | BordersSome(env.grid, d.members, q)
      ensures !Usable(env, ds + [Deposit(d.resource, d.members)], d.resource, phase, d.members, q)
    {
      UsableIsAvailable(env, st, d.resource, phase, d.members, q);
      BesideIsBorders(env.grid, d.members, q);
    }
  }

  // ---------- one deposit ----------

  /** How large a growth becomes, and why no larger. */
  lemma GrowToSize(env: Env, ds: seq<Deposit>, seeded: State, r: Resource, phase: nat, desired: nat, grown: State)
    requires PlacedExact(seeded) && Growing(seeded, r) && |Newest(seeded).members| <= desired
    requires grown == Grow(env, seeded, r, phase, desired) && Inv(env, grown) && grown.deposits == ds + [Newest(grown)]
    ensures Newest(grown).resource == r && |Newest(grown).members| <= desired
    ensures |Newest(grown).members| == desired || Hemmed(env, ds, r, phase, Newest(grown).members)
  {
    GrowCounts(env, seeded, r, phase, desired);
    GrowthStopsHemmedIn(env, seeded, r, phase, desired, grown);
    if |Newest(grown).members| < desired {
      HemmedInTerms(env, grown, ds, Newest(grown), phase);
    }
  }

  lemma DesiredIsSizeFor(env: Env, r: Resource, room: nat, centre: Pos)
    ensures DesiredSize(env, r, room, centre) == SizeFor(env, r, room, centre)
  {}

  lemma SizedInTerms(env: Env, st: State, r: Resource, phase: nat, budget: nat, members: seq<Pos>, desired: nat)
    requires Good(env, st) && r in NETWORK_RESOURCES && Count(st.placed, r) < budget && members != []
    requires desired == DesiredSize(env, r, budget - Count(st.placed, r), members[0])
    requires |members| == desired || (|members| < desired && Hemmed(env, st.deposits, r, phase, members))
    ensures WellSized(env, st.deposits, r, phase, budget, members)
  {
    StockIsPlaced(env, st, r);
    DesiredIsSizeFor(env, r, budget - Count(st.placed, r), members[0]);
  }

  /** What a finished growth from one tile amounts to. */
  lemma FinishByRule(env: Env, st: State, seeded: State, r: Resource, phase: nat, budget: nat, centre: Pos,
                     desired: nat, st': State)
    returns (d: Deposit)
    requires Good(env, st) && r in NETWORK_RESOURCES && Count(st.placed, r) < budget
    requires Inv(env, seeded) && PlacedExact(seeded) && StrictWeak(env.growthBefore(r))
    requires seeded.deposits == st.deposits + [Deposit(r, [centre])]
    requires desired == DesiredSize(env, r, budget - Count(st.placed, r), centre)
    requires st' == Finish(env, seeded, r, phase, desired)
    ensures st'.deposits == st.deposits + [d] && d.resource == r && d.members != [] && d.members[0] == centre
    ensures GrownByRule(env, st.deposits, r, phase, d.members)
    ensures WellSized(env, st.deposits, r, phase, budget, d.members)
  {
    var grown := Grow(env, seeded, r, phase, desired);
    DesiredSizeBounds(env, r, budget - Count(st.placed, r), centre);
    GrowByRule(env, seeded, r, phase, desired, st.deposits, grown);
    GrowToSize(env, st.deposits, seeded, r, phase, desired, grown);
    d := Newest(grown);
    SizedInTerms(env, st, r, phase, budget, d.members, desired);
  }

  lemma PlaceByRule(env: Env, towns: nat, st: State, r: Resource, phase: nat, centre: Pos, st': State)
    returns (d: Deposit)
    requires Good(env, st) && r in NETWORK_RESOURCES && StrictWeak(env.growthBefore(r)) && AllowedPhase(env.grid, phase)
    requires Count(st.placed, r) < SiteTarget(r, env.grid, towns) && Available(env, st.tiles, r, phase, [], centre)
    requires WellCentred(env, st.deposits, r, phase, centre)
    requires st' == Place(env, st, r, phase, SiteTarget(r, env.grid, towns), centre)
    ensures st'.deposits == st.deposits + [d] && d.resource == r && d.members != [] && d.members[0] == centre
    ensures Continues(env, towns, st.deposits, d, phase)
  {
    var budget := SiteTarget(r, env.grid, towns);
    var seeded := Open(st, r, centre, env.sites[centre]);
    OpenKeepsInv(env, st, r, phase, centre);
    OpenCounts(st, r, centre, env.sites[centre]);
    PlaceIsFinish(env, st, r, phase, budget, centre);
    d := FinishByRule(env, st, seeded, r, phase, budget, centre,
                      DesiredSize(env, r, budget - Count(st.placed, r), centre), st');
    TargetIsBudget(env, towns, r);
  }

  // ---------- pools ----------

  /** A pool lists every available site of its sector, best last. */
  ghost predicate PoolReady(env: Env, tiles: Tiles, r: Resource, phase: nat, sector: Pos, pool: seq<Pos>) {
    && Increasing(PoolOrder(env, r), pool)
    && (forall p | p in pool :: Sector(p) == sector && env.habitat(r, p) == Some(phase))
    && (forall q | Available(env, tiles, r, phase, [], q) && Sector(q) == sector :: q in pool)
  }

  lemma PoolOrderRanks(env: Env, r: Resource, a: Pos, b: Pos)
    ensures PoolOrder(env, r)(a, b) <==> Ranks(env, r, b, a)
  {}

  /** What popping a ready pool yields: the best available site of the sector, or the proof that there is none; and what
      is left stays ready once that site is taken. */
  lemma {:induction false} PopIsBest(env: Env, tiles: Tiles, r: Resource, phase: nat, sector: Pos, pool: seq<Pos>)
    requires PoolReady(env, tiles, r, phase, sector, pool)
    ensures var (centre, rest) := PopCentre(env, tiles, r, phase, pool);
            && Increasing(PoolOrder(env, r), rest) && (forall p | p in rest :: p in pool)
            && (centre.Some? ==> centre.value in pool)
            && forall q | Available(env, tiles, r, phase, [], q) && Sector(q) == sector ::
                 centre.Some? && (q == centre.value || (q in rest && Ranks(env, r, centre.value, q)))
    decreases |pool|
  {
    if pool != [] {
      var last, before := pool[|pool| - 1], pool[..|pool| - 1];
      assert pool == before + [last];
      if Available(env, tiles, r, phase, [], last) {
        forall q | Available(env, tiles, r, phase, [], q) && Sector(q) == sector && q != last
          ensures q in before && Ranks(env, r, last, q)
        {
          var i :| 0 <= i < |pool| && pool[i] == q;
          PoolOrderRanks(env, r, q, last);
          assert before[i] == q;
        }
      } else {
        PopIsBest(env, tiles, r, phase, sector, before);
      }
    }
  }

  lemma WasAvailable(env: Env, a: State, b: State, r: Resource, phase: nat, p: Pos)
    requires Fuller(a, b) && Available(env, b.tiles, r, phase, [], p)
    ensures Available(env, a.tiles, r, phase, [], p)
  {
    if !Available(env, a.tiles, r, phase, [], p) {
      StaysUnavailable(env, a, b, r, phase, p);
    }
  }

  lemma ReadyStays(env: Env, a: State, b: State, r: Resource, phase: nat, sector: Pos, pool: seq<Pos>)
    requires Fuller(a, b) && PoolReady(env, a.tiles, r, phase, sector, pool)
    ensures PoolReady(env, b.tiles, r, phase, sector, pool)
  {
    forall q | Available(env, b.tiles, r, phase, [], q) && Sector(q) == sector ensures q in pool {
      WasAvailable(env, a, b, r, phase, q);
    }
  }

  ghost predicate PoolsReady(env: Env, tiles: Tiles, r: Resource, phase: nat, sectors: seq<Pos>, pools: seq<seq<Pos>>) {
    |pools| == |sectors| && forall k | 0 <= k < |pools| :: PoolReady(env, tiles, r, phase, sectors[k], pools[k])
  }

  lemma AllReadyStay(env: Env, a: State, b: State, r: Resource, phase: nat, sectors: seq<Pos>, pools: seq<seq<Pos>>)
    requires Fuller(a, b) && PoolsReady(env, a.tiles, r, phase, sectors, pools)
    ensures PoolsReady(env, b.tiles, r, phase, sectors, pools)
  {
    forall k | 0 <= k < |pools| ensures PoolReady(env, b.tiles, r, phase, sectors[k], pools[k]) {
      ReadyStays(env, a, b, r, phase, sectors[k], pools[k]);
    }
  }

  // ---------- going round the sectors ----------

  /** The sectors are in order, each once. */
  ghost predicate InOrder(env: Env, sectors: seq<Pos>) {
    StrictTotal(env.sectorBefore) && Increasing(env.sectorBefore, sectors)
  }

  /** With the first `n` sectors of the pass behind, `u` has been passed by since the last deposit. */
  predicate Passed(env: Env, last: Option<Pos>, sectors: seq<Pos>, n: nat, u: Pos)
    requires n <= |sectors|
  {
    match last
    case None => u in sectors[..n]
    case Some(s) =>
      if s in sectors[..n] then env.sectorBefore(s, u) && u in sectors[..n]
      else env.sectorBefore(s, u) || u in sectors[..n]
  }

  /** Nothing is available in the sectors passed by, and every available site lies in one of the sectors. */
  ghost predicate QuietBehind(env: Env, st: State, r: Resource, phase: nat, sectors: seq<Pos>, n: nat)
    requires n <= |sectors|
  {
    forall q | Available(env, st.tiles, r, phase, [], q) ::
      Sector(q) in sectors && !Passed(env, LastSector(env, st.deposits, r, phase), sectors, n, Sector(q))
  }

  lemma EarlierSector(env: Env, sectors: seq<Pos>, n: nat, u: Pos)
    requires InOrder(env, sectors) && n < |sectors|
    ensures u in sectors[..n] <==> u in sectors && env.sectorBefore(u, sectors[n])
    ensures sectors[..n + 1] == sectors[..n] + [sectors[n]]
  {
    if u in sectors && env.sectorBefore(u, sectors[n]) {
      var i :| 0 <= i < |sectors| && sectors[i] == u;
      assert i < n && sectors[..n][i] == u;
    }
  }

  /** A sector without an available site is passed by. */
  lemma SkipStaysQuiet(env: Env, st: State, r: Resource, phase: nat, sectors: seq<Pos>, n: nat)
    requires InOrder(env, sectors) && n < |sectors| && QuietBehind(env, st, r, phase, sectors, n)
    requires forall q | Available(env, st.tiles, r, phase, [], q) :: Sector(q) != sectors[n]
    ensures QuietBehind(env, st, r, phase, sectors, n + 1)
  {
    var last := LastSector(env, st.deposits, r, phase);
    forall q | Available(env, st.tiles, r, phase, [], q)
      ensures !Passed(env, last, sectors, n + 1, Sector(q))
    {
      EarlierSector(env, sectors, n, Sector(q));
      if last.Some? {
        EarlierSector(env, sectors, n, last.value);
      }
    }
  }

  /** What has been passed by is what the rule means by it. */
  lemma PassedIsPassedBy(env: Env, last: Option<Pos>, sectors: seq<Pos>, n: nat, u: Pos)
    requires InOrder(env, sectors) && n < |sectors| && u in sectors && PassedBy(env, last, sectors[n], u)
    ensures Passed(env, last, sectors, n, u)
  {
    EarlierSector(env, sectors, n, u);
    if last.Some? {
      EarlierSector(env, sectors, n, last.value);
    }
  }

  /** After a deposit in the sector at hand nothing has been passed by yet. */
  lemma PlacedStaysQuiet(env: Env, st: State, st': State, r: Resource, phase: nat, sectors: seq<Pos>, n: nat,
                         d: Deposit)
    requires InOrder(env, sectors) && n < |sectors| && QuietBehind(env, st, r, phase, sectors, n) && Fuller(st, st')
    requires st'.deposits == st.deposits + [d] && d.resource == r && d.members != []
    requires PhaseOf(env, d) == Some(phase) && Sector(d.members[0]) == sectors[n]
    ensures QuietBehind(env, st', r, phase, sectors, n + 1)
  {
    assert LastSector(env, st'.deposits, r, phase) == Some(sectors[n]);
    forall q | Available(env, st'.tiles, r, phase, [], q)
      ensures Sector(q) in sectors && !Passed(env, Some(sectors[n]), sectors, n + 1, Sector(q))
    {
      WasAvailable(env, st, st', r, phase, q);
      EarlierSector(env, sectors, n, Sector(q));
      EarlierSector(env, sectors, n, sectors[n]);
    }
  }

  /** A new pass begins. */
  lemma NextPassIsQuiet(env: Env, st: State, r: Resource, phase: nat, sectors: seq<Pos>)
    requires QuietBehind(env, st, r, phase, sectors, |sectors|)
    ensures QuietBehind(env, st, r, phase, sectors, 0)
  {
    assert sectors[..|sectors|] == sectors;
  }

  // ---------- the placement of one resource ----------

  /** No available site suits the resource better than the phase. */
  ghost predicate NothingBetter(env: Env, st: State, r: Resource, phase: nat) {
    forall q | Available(env, st.tiles, r, phase, [], q) :: env.habitat(r, q) == Some(phase)
  }

  /** The deposits so far are of resources placed earlier, or of this one in this phase or an earlier one. */
  ghost predicate SoFar(env: Env, ds: seq<Deposit>, r: Resource, phase: nat) {
    forall d | d in ds ::
      || PlacedBefore(d.resource, r)
      || (d.resource == r && PhaseOf(env, d).Some? && PhaseOf(env, d).value <= phase)
  }

  /** The placement in the middle of a phase of one resource. */
  ghost predicate Underway(env: Env, towns: nat, st: State, r: Resource, phase: nat) {
    && Good(env, st) && ClustersExact(st) && ByTheRules(env, towns, st.deposits)
    && SoFar(env, st.deposits, r, phase) && NothingBetter(env, st, r, phase)
    && r in NETWORK_RESOURCES && AllowedPhase(env.grid, phase) && StrictWeak(env.growthBefore(r))
  }

  lemma OneMoreContinues(env: Env, towns: nat, ds: seq<Deposit>, d: Deposit)
    requires EachByTheRules(env, towns, ds) && PlacedByTheRules(env, towns, ds, d)
    ensures EachByTheRules(env, towns, ds + [d])
  {
    var more := ds + [d];
    assert more[..|ds|] == ds;
    forall i | 0 <= i < |more| ensures PlacedByTheRules(env, towns, more[..i], more[i]) {
      if i < |ds| {
        assert more[..i] == ds[..i] && more[i] == ds[i];
        assert PlacedByTheRules(env, towns, ds[..i], ds[i]);
      } else {
        assert i == |ds| && more[i] == d;
      }
    }
  }

  lemma OneMoreInTurn(env: Env, ds: seq<Deposit>, d: Deposit, r: Resource, phase: nat)
    requires ResourcesInTurn(ds) && SoFar(env, ds, r, phase) && d.resource == r && PhaseOf(env, d) == Some(phase)
    ensures ResourcesInTurn(ds + [d]) && SoFar(env, ds + [d], r, phase)
  {
    var more := ds + [d];
    forall i, j | 0 <= i < j < |more|
      ensures more[i].resource == more[j].resource || PlacedBefore(more[i].resource, more[j].resource)
    {
      assert more[i] == ds[i] && ds[i] in ds;
    }
  }

  /** The centre a pass takes in a sector. */
  lemma CentreIsWellCentred(env: Env, towns: nat, st: State, r: Resource, phase: nat, sectors: seq<Pos>, n: nat,
                            pool: seq<Pos>)
    requires Underway(env, towns, st, r, phase) && InOrder(env, sectors) && n < |sectors|
    requires QuietBehind(env, st, r, phase, sectors, n) && PoolReady(env, st.tiles, r, phase, sectors[n], pool)
    requires PopCentre(env, st.tiles, r, phase, pool).0.Some?
    ensures WellCentred(env, st.deposits, r, phase, PopCentre(env, st.tiles, r, phase, pool).0.value)
  {
    var centre := PopCentre(env, st.tiles, r, phase, pool).0.value;
    var last := LastSector(env, st.deposits, r, phase);
    PopIsBest(env, st.tiles, r, phase, sectors[n], pool);
    UsableIsAvailable(env, st, r, phase, [], centre);
    forall q | Usable(env, st.deposits, r, phase, [], q)
      ensures env.habitat(r, q) == Some(phase) && !PassedBy(env, last, Sector(centre), Sector(q))
      ensures Sector(q) == Sector(centre) && q != centre ==> Ranks(env, r, centre, q)
    {
      UsableIsAvailable(env, st, r, phase, [], q);
      if PassedBy(env, last, sectors[n], Sector(q)) {
        PassedIsPassedBy(env, last, sectors, n, Sector(q));
      }
    }
  }

  /** A deposit placed by the rules leaves the placement under way. */
  lemma PlaceStaysUnderway(env: Env, towns: nat, st: State, r: Resource, phase: nat, centre: Pos, st1: State)
    returns (d: Deposit)
    requires Underway(env, towns, st, r, phase) && Count(st.placed, r) < SiteTarget(r, env.grid, towns)
    requires Available(env, st.tiles, r, phase, [], centre) && WellCentred(env, st.deposits, r, phase, centre)
    requires st1 == Place(env, st, r, phase, SiteTarget(r, env.grid, towns), centre)
    ensures Underway(env, towns, st1, r, phase) && Fuller(st, st1) && !Available(env, st1.tiles, r, phase, [], centre)
    ensures st1.deposits == st.deposits + [d] && d.resource == r && d.members != [] && d.members[0] == centre
  {
    PlaceFills(env, st, r, phase, SiteTarget(r, env.grid, towns), centre, st1);
    PlaceKeeps(env, st, r, phase, SiteTarget(r, env.grid, towns), centre, st1);
    d := PlaceByRule(env, towns, st, r, phase, centre, st1);
    assert PlacedByTheRules(env, towns, st.deposits, d);
    OneMoreContinues(env, towns, st.deposits, d);
    OneMoreInTurn(env, st.deposits, d, r, phase);
    forall q | Available(env, st1.tiles, r, phase, [], q) ensures env.habitat(r, q) == Some(phase) {
      WasAvailable(env, st, st1, r, phase, q);
    }
  }

  lemma RestIsReady(env: Env, st: State, st1: State, r: Resource, phase: nat, sector: Pos, pool: seq<Pos>)
    requires PoolReady(env, st.tiles, r, phase, sector, pool) && Fuller(st, st1)
    requires var centre := PopCentre(env, st.tiles, r, phase, pool).0;
             centre.Some? ==> !Available(env, st1.tiles, r, phase, [], centre.value)
    ensures PoolReady(env, st1.tiles, r, phase, sector, PopCentre(env, st.tiles, r, phase, pool).1)
  {
    PopIsBest(env, st.tiles, r, phase, sector, pool);
    forall q | Available(env, st1.tiles, r, phase, [], q) && Sector(q) == sector
      ensures q in PopCentre(env, st.tiles, r, phase, pool).1
    {
      WasAvailable(env, st, st1, r, phase, q);
    }
  }

  /** What visiting a pool does: nothing if it has no available tile left, else a deposit. */
  function Visited(env: Env, st: State, r: Resource, phase: nat, target: nat, pool: seq<Pos>): State
    requires Count(st.placed, r) < target
  {
    var centre := PopCentre(env, st.tiles, r, phase, pool).0;
    if centre.None? then st else Place(env, st, r, phase, target, centre.value)
  }

  /** One sector of a pass: its pool is skipped, or yields a deposit placed by the rules. */
  lemma VisitByRule(env: Env, towns: nat, st: State, r: Resource, phase: nat, sectors: seq<Pos>, n: nat,
                    pool: seq<Pos>, st1: State)
    requires Underway(env, towns, st, r, phase) && InOrder(env, sectors) && n < |sectors|
    requires QuietBehind(env, st, r, phase, sectors, n) && PoolReady(env, st.tiles, r, phase, sectors[n], pool)
    requires Count(st.placed, r) < SiteTarget(r, env.grid, towns)
    requires st1 == Visited(env, st, r, phase, SiteTarget(r, env.grid, towns), pool)
    ensures Underway(env, towns, st1, r, phase) && Fuller(st, st1)
    ensures QuietBehind(env, st1, r, phase, sectors, n + 1)
    ensures PoolReady(env, st1.tiles, r, phase, sectors[n], PopCentre(env, st.tiles, r, phase, pool).1)
  {
    var centre := PopCentre(env, st.tiles, r, phase, pool).0;
    PopIsBest(env, st.tiles, r, phase, sectors[n], pool);
    if centre.None? {
      SkipStaysQuiet(env, st, r, phase, sectors, n);
    } else {
      CentreIsWellCentred(env, towns, st, r, phase, sectors, n, pool);
      var d := PlaceStaysUnderway(env, towns, st, r, phase, centre.value, st1);
      assert PhaseOf(env, d) == Some(phase);
      PlacedStaysQuiet(env, st, st1, r, phase, sectors, n, d);
    }
    RestIsReady(env, st, st1, r, phase, sectors[n], pool);
  }

  /** A pass over the pools is a visit to the first and a pass over the others, unless the target is met. */
  lemma SweepVisits(env: Env, st: State, r: Resource, phase: nat, target: nat, pools: seq<seq<Pos>>, st1: State)
    requires pools != [] && Count(st.placed, r) < target
    requires st1 == Visited(env, st, r, phase, target, pools[0])
    ensures var res, rest := Sweep(env, st, r, phase, target, pools), PopCentre(env, st.tiles, r, phase, pools[0]).1;
            if Count(st1.placed, r) >= target then res.st == st1
            else
              var tail := Sweep(env, st1, r, phase, target, pools[1..]);
              res.st == tail.st && res.pools == [rest] + tail.pools
  {}

  /** What a pass from sector `n` on leaves. */
  ghost predicate PassDone(env: Env, r: Resource, phase: nat, sectors: seq<Pos>, n: nat, res: Swept)
    requires n <= |sectors|
  {
    QuietBehind(env, res.st, r, phase, sectors, |sectors|) &&
    PoolsReady(env, res.st.tiles, r, phase, sectors[n..], res.pools)
  }

  lemma OneMorePool(env: Env, st1: State, r: Resource, phase: nat, sectors: seq<Pos>, n: nat, rest: seq<Pos>,
                    tail: Swept, res: Swept)
    requires n < |sectors| && PassDone(env, r, phase, sectors, n + 1, tail) && Fuller(st1, tail.st)
    requires PoolReady(env, st1.tiles, r, phase, sectors[n], rest)
    requires res.st == tail.st && res.pools == [rest] + tail.pools
    ensures PassDone(env, r, phase, sectors, n, res)
  {
    ReadyStays(env, st1, tail.st, r, phase, sectors[n], rest);
    assert sectors[n..] == [sectors[n]] + sectors[n + 1..];
  }

  lemma LaterPoolsReady(env: Env, st: State, st1: State, r: Resource, phase: nat, sectors: seq<Pos>, n: nat,
                        pools: seq<seq<Pos>>)
    requires n < |sectors| && pools != [] && PoolsReady(env, st.tiles, r, phase, sectors[n..], pools) && Fuller(st, st1)
    ensures PoolReady(env, st.tiles, r, phase, sectors[n], pools[0])
    ensures PoolsReady(env, st1.tiles, r, phase, sectors[n + 1..], pools[1..])
  {
    assert sectors[n..][0] == sectors[n] && sectors[n..][1..] == sectors[n + 1..];
    AllReadyStay(env, st, st1, r, phase, sectors[n + 1..], pools[1..]);
  }

  lemma VisitFirstPool(env: Env, towns: nat, st: State, r: Resource, phase: nat, sectors: seq<Pos>, n: nat,
                       pools: seq<seq<Pos>>, st1: State)
    requires Underway(env, towns, st, r, phase) && InOrder(env, sectors) && n < |sectors| && pools != []
    requires QuietBehind(env, st, r, phase, sectors, n) && PoolsReady(env, st.tiles, r, phase, sectors[n..], pools)
    requires Count(st.placed, r) < SiteTarget(r, env.grid, towns)
    requires st1 == Visited(env, st, r, phase, SiteTarget(r, env.grid, towns), pools[0])
    ensures Underway(env, towns, st1, r, phase) && Fuller(st, st1)
    ensures QuietBehind(env, st1, r, phase, sectors, n + 1)
    ensures PoolReady(env, st1.tiles, r, phase, sectors[n], PopCentre(env, st.tiles, r, phase, pools[0]).1)
    ensures PoolsReady(env, st1.tiles, r, phase, sectors[n + 1..], pools[1..])
  {
    assert sectors[n..][0] == sectors[n];
    VisitByRule(env, towns, st, r, phase, sectors, n, pools[0], st1);
    LaterPoolsReady(env, st, st1, r, phase, sectors, n, pools);
  }

  lemma {:induction false} SweepByRule(env: Env, towns: nat, st: State, r: Resource, phase: nat, sectors: seq<Pos>,
                                       n: nat, pools: seq<seq<Pos>>, res: Swept)
    requires Underway(env, towns, st, r, phase) && InOrder(env, sectors) && n <= |sectors|
    requires QuietBehind(env, st, r, phase, sectors, n) && PoolsReady(env, st.tiles, r, phase, sectors[n..], pools)
    requires Count(st.placed, r) < SiteTarget(r, env.grid, towns)
    requires res == Sweep(env, st, r, phase, SiteTarget(r, env.grid, towns), pools)
    ensures Underway(env, towns, res.st, r, phase) && Fuller(st, res.st)
    ensures Count(res.st.placed, r) < SiteTarget(r, env.grid, towns) ==> PassDone(env, r, phase, sectors, n, res)
    decreases |pools|
  {
    if pools != [] {
      var target := SiteTarget(r, env.grid, towns);
      var rest := PopCentre(env, st.tiles, r, phase, pools[0]).1;
      var st1 := Visited(env, st, r, phase, target, pools[0]);
      SweepVisits(env, st, r, phase, target, pools, st1);
      VisitFirstPool(env, towns, st, r, phase, sectors, n, pools, st1);
      if Count(st1.placed, r) < target {
        var tail := Sweep(env, st1, r, phase, target, pools[1..]);
        SweepByRule(env, towns, st1, r, phase, sectors, n + 1, pools[1..], tail);
        if Count(tail.st.placed, r) < target {
          OneMorePool(env, st1, r, phase, sectors, n, rest, tail, res);
        }
      }
    }
  }

  lemma {:induction false} RoundsByRule(env: Env, towns: nat, st: State, r: Resource, phase: nat, sectors: seq<Pos>,
                                        pools: seq<seq<Pos>>, st': State)
    requires Underway(env, towns, st, r, phase) && InOrder(env, sectors)
    requires QuietBehind(env, st, r, phase, sectors, 0) && PoolsReady(env, st.tiles, r, phase, sectors, pools)
    requires st' == Rounds(env, st, r, phase, SiteTarget(r, env.grid, towns), pools)
    ensures Underway(env, towns, st', r, phase)
    decreases PoolSize(pools)
  {
    var target := SiteTarget(r, env.grid, towns);
    if Count(st.placed, r) < target {
      var swept := Sweep(env, st, r, phase, target, pools);
      assert sectors[0..] == sectors;
      SweepByRule(env, towns, st, r, phase, sectors, 0, pools, swept);
      if swept.progress && Count(swept.st.placed, r) < target {
        NextPassIsQuiet(env, swept.st, r, phase, sectors);
        RoundsByRule(env, towns, swept.st, r, phase, sectors, swept.pools, st');
      }
    }
  }

  // ---------- phases and resources ----------

  /** The unprotected empty sites of the map, each once. */
  ghost predicate ListsSites(env: Env, sites: seq<Pos>) {
    Distinct(sites) && forall p :: p in sites <==> IsSite(env, p)
  }

  lemma {:induction false} PoolsOfReady(env: Env, st: State, r: Resource, phase: nat, sites: seq<Pos>,
                                        sectors: seq<Pos>)
    requires ListsSites(env, sites) && NothingBetter(env, st, r, phase)
    ensures PoolsReady(env, st.tiles, r, phase, sectors, PoolsOf(env, r, phase, sites, sectors))
    decreases |sectors|
  {
    if sectors != [] {
      var listed := PoolSites(env, r, phase, sectors[0], sites);
      PoolsOfReady(env, st, r, phase, sites, sectors[1..]);
      PoolSitesElements(env, r, phase, sectors[0], sites);
      PoolOrderIsTotal(env, r);
      SortElements(PoolOrder(env, r), listed);
      SortIncreasing(PoolOrder(env, r), listed);
      assert forall p :: SectorOf(p) == Sector(p);
      assert PoolReady(env, st.tiles, r, phase, sectors[0], Sort(PoolOrder(env, r), listed));
    }
  }

  /** The pools a phase starts from. */
  lemma PhaseStartsReady(env: Env, st: State, r: Resource, phase: nat, sites: seq<Pos>) returns (sectors: seq<Pos>)
    requires ListsSites(env, sites) && NothingBetter(env, st, r, phase) && StrictTotal(env.sectorBefore)
    requires LastSector(env, st.deposits, r, phase) == None
    ensures InOrder(env, sectors) && QuietBehind(env, st, r, phase, sectors, 0)
    ensures PoolsReady(env, st.tiles, r, phase, sectors, Pools(env, r, phase, sites))
  {
    sectors := Sort(env.sectorBefore, SectorsOf(sites));
    SectorsOfElements(sites);
    SortElements(env.sectorBefore, SectorsOf(sites));
    SortIncreasing(env.sectorBefore, SectorsOf(sites));
    PoolsOfReady(env, st, r, phase, sites, sectors);
    forall q | Available(env, st.tiles, r, phase, [], q) ensures Sector(q) in sectors {
      assert q in sites && SectorOf(q) == Sector(q);
    }
  }

  /** The deposits so far are of resources placed earlier, or of this one in an earlier phase. */
  ghost predicate Before(env: Env, ds: seq<Deposit>, r: Resource, phase: nat) {
    forall d | d in ds ::
      || PlacedBefore(d.resource, r)
      || (d.resource == r && PhaseOf(env, d).Some? && PhaseOf(env, d).value < phase)
  }

  lemma NoneOfThisPhase(env: Env, ds: seq<Deposit>, r: Resource, phase: nat)
    requires Before(env, ds, r, phase)
    ensures LastSector(env, ds, r, phase) == None
  {
    if ds != [] {
      assert ds[|ds| - 1] in ds;
    }
  }

  lemma PhaseByRule(env: Env, towns: nat, st: State, r: Resource, phase: nat, sites: seq<Pos>, st1: State)
    requires Underway(env, towns, st, r, phase) && Before(env, st.deposits, r, phase)
    requires ListsSites(env, sites) && StrictTotal(env.sectorBefore)
    requires st1 == Rounds(env, st, r, phase, SiteTarget(r, env.grid, towns), Pools(env, r, phase, sites))
    ensures Underway(env, towns, st1, r, phase)
  {
    NoneOfThisPhase(env, st.deposits, r, phase);
    var sectors := PhaseStartsReady(env, st, r, phase, sites);
    RoundsByRule(env, towns, st, r, phase, sectors, Pools(env, r, phase, sites), st1);
  }

  lemma UsedUp(env: Env, st: State, r: Resource, target: nat, sites: seq<Pos>, st1: State)
    requires ListsSites(env, sites) && NothingBetter(env, st1, r, 0)
    requires st1 == Rounds(env, st, r, 0, target, Pools(env, r, 0, sites)) && Count(st1.placed, r) < target
    ensures NothingBetter(env, st1, r, 1)
  {
    PhaseSaturates(env, st, r, 0, target, sites, st1);
    forall q ensures env.habitat(r, q) == Some(0) && q in sites ==> !Available(env, st1.tiles, r, 0, [], q) {
      assert q in Suited(env, r, 0, sites) <==> env.habitat(r, q) == Some(0) && q in sites;
    }
  }

  lemma LaterPhase(env: Env, towns: nat, st: State, r: Resource)
    requires Underway(env, towns, st, r, 0) && AllowedPhase(env.grid, 1) && NothingBetter(env, st, r, 1)
    ensures Underway(env, towns, st, r, 1) && Before(env, st.deposits, r, 1)
  {}

  /** The phases of a resource, on a standard map and on a smaller one. */
  lemma PhasesInTurn(env: Env, st: State, r: Resource, target: nat, sites: seq<Pos>)
    ensures var st1 := Rounds(env, st, r, 0, target, Pools(env, r, 0, sites));
            Phases(env, st, r, target, PhasesOf(env.grid), sites) ==
            if Count(st1.placed, r) >= target || env.grid.w * env.grid.h >= 204800 then st1
            else Rounds(env, st1, r, 1, target, Pools(env, r, 1, sites))
  {
    var phases := PhasesOf(env.grid);
    assert phases[0] == 0;
    if env.grid.w * env.grid.h >= 204800 {
      assert phases[1..] == [];
    } else {
      assert phases[1..] == [1] && [1][1..] == [];
    }
  }

  /** The placement between two resources. */
  ghost predicate Settled(env: Env, towns: nat, st: State) {
    Good(env, st) && ClustersExact(st) && ByTheRules(env, towns, st.deposits)
  }

  ghost predicate PlacedUpTo(ds: seq<Deposit>, r: Resource) {
    forall d | d in ds :: PlacedBefore(d.resource, r) || d.resource == r
  }

  lemma NothingBetterAtFirst(env: Env, st: State, r: Resource)
    ensures NothingBetter(env, st, r, 0)
  {}

  lemma EarlierOnly(env: Env, ds: seq<Deposit>, r: Resource)
    requires forall d | d in ds :: PlacedBefore(d.resource, r)
    ensures SoFar(env, ds, r, 0) && Before(env, ds, r, 0)
  {}

  lemma FirstPhase(env: Env, towns: nat, st: State, r: Resource)
    requires Settled(env, towns, st) && r in NETWORK_RESOURCES && StrictWeak(env.growthBefore(r))
    requires SoFar(env, st.deposits, r, 0) && NothingBetter(env, st, r, 0)
    ensures Underway(env, towns, st, r, 0)
  {}

  lemma ResourceByRule(env: Env, towns: nat, st: State, r: Resource, sites: seq<Pos>, st': State)
    requires Settled(env, towns, st) && r in NETWORK_RESOURCES && ListsSites(env, sites)
    requires StrictTotal(env.sectorBefore) && StrictWeak(env.growthBefore(r))
    requires forall d | d in st.deposits :: PlacedBefore(d.resource, r)
    requires st' == Phases(env, st, r, SiteTarget(r, env.grid, towns), PhasesOf(env.grid), sites)
    ensures Settled(env, towns, st') && PlacedUpTo(st'.deposits, r)
  {
    var target := SiteTarget(r, env.grid, towns);
    var st1 := Rounds(env, st, r, 0, target, Pools(env, r, 0, sites));
    PhasesInTurn(env, st, r, target, sites);
    NothingBetterAtFirst(env, st, r);
    EarlierOnly(env, st.deposits, r);
    FirstPhase(env, towns, st, r);
    PhaseByRule(env, towns, st, r, 0, sites, st1);
    if Count(st1.placed, r) < target && env.grid.w * env.grid.h < 204800 {
      UsedUp(env, st, r, target, sites, st1);
      LaterPhase(env, towns, st1, r);
      PhaseByRule(env, towns, st1, r, 1, sites, st');
    }
  }

  lemma NextResource(ds: seq<Deposit>, k: nat)
    requires k + 1 < |NETWORK_RESOURCES| && PlacedUpTo(ds, NETWORK_RESOURCES[k])
    ensures forall d | d in ds :: PlacedBefore(d.resource, NETWORK_RESOURCES[k + 1])
  {}

  lemma {:induction false} SeedByRule(env: Env, towns: nat, st: State, k: nat, sites: seq<Pos>, st': State)
    requires k <= |NETWORK_RESOURCES| && Settled(env, towns, st) && ListsSites(env, sites)
    requires StrictTotal(env.sectorBefore) && forall r :: StrictWeak(env.growthBefore(r))
    requires k < |NETWORK_RESOURCES| ==> forall d | d in st.deposits :: PlacedBefore(d.resource, NETWORK_RESOURCES[k])
    requires st' == Seed(env, st, towns, NETWORK_RESOURCES[k..], sites)
    ensures ByTheRules(env, towns, st'.deposits)
    decreases |NETWORK_RESOURCES| - k
  {
    if k < |NETWORK_RESOURCES| {
      var r := NETWORK_RESOURCES[k];
      var st1 := Phases(env, st, r, SiteTarget(r, env.grid, towns), PhasesOf(env.grid), sites);
      SeedUnfolds(env, st, towns, k, sites);
      ResourceByRule(env, towns, st, r, sites, st1);
      if k + 1 < |NETWORK_RESOURCES| {
        NextResource(st1.deposits, k);
      }
      SeedByRule(env, towns, st1, k + 1, sites, st');
    }
  }

  lemma SeedUnfolds(env: Env, st: State, towns: nat, k: nat, sites: seq<Pos>)
    requires k < |NETWORK_RESOURCES|
    ensures var r := NETWORK_RESOURCES[k];
            Seed(env, st, towns, NETWORK_RESOURCES[k..], sites) ==
            Seed(env, Phases(env, st, r, SiteTarget(r, env.grid, towns), PhasesOf(env.grid), sites), towns,
                 NETWORK_RESOURCES[k + 1..], sites)
  {
    assert NETWORK_RESOURCES[k..][0] == NETWORK_RESOURCES[k] &&
             NETWORK_RESOURCES[k..][1..] == NETWORK_RESOURCES[k + 1..];
  }

  // ---------- the finished placement ----------

  lemma TownsAreOnMap(env: Env, order: seq<Pos>)
    requires Iterates(order, env.sites)
    ensures TownCount(env.sites, order) == TownsOn(env)
  {
    TownCountExact(env.sites, order);
    assert TownsAmong(env.sites, order) == set p | p in env.sites && env.sites[p].town.Some?;
  }

  lemma StartIsSettled(env: Env, order: seq<Pos>)
    requires Iterates(order, env.sites) && forall p | p in env.sites :: env.grid.Holds(p)
    ensures Settled(env, TownCount(env.sites, order), Start(env, order))
    ensures ListsSites(env, SitesIn(env, order))
  {
    var st := Start(env, order);
    forall r | r in NETWORK_RESOURCES ensures Count(st.placed, r) == |Carriers(st.tiles, r)| {
      InitialCountsExact(env.sites, order, r);
      assert Carriers(env.sites, r) == CarriersAmong(env.sites, order, r);
    }
    SitesInElements(env, order);
  }

  /** The deposits are placed one by one by the rules, whatever the map: each resource in turn, a sector at a time
      around the map, at the best usable site of the sector, grown tile by tile onto the first usable neighbour in
      growth order, to the size asked for or until hemmed in. */
  lemma PlacementFollowsRules(env: Env, order: seq<Pos>, st: State)
    requires Iterates(order, env.sites) && forall p | p in env.sites :: env.grid.Holds(p)
    requires StrictTotal(env.sectorBefore) && forall r :: StrictWeak(env.growthBefore(r))
    requires st == SeedResourceNetworks(env, order)
    ensures ByTheRules(env, TownsOn(env), st.deposits)
  {
    TownsAreOnMap(env, order);
    StartIsSettled(env, order);
    assert NETWORK_RESOURCES[0..] == NETWORK_RESOURCES;
    SeedByRule(env, TownCount(env.sites, order), Start(env, order), 0, SitesIn(env, order), st);
  }

  lemma NoneUsable(env: Env, st: State, r: Resource, phase: nat, p: Pos)
    requires Inv(env, st) && AllowedPhase(env.grid, phase)
    requires env.habitat(r, p).Some? && env.habitat(r, p).value in PhasesOf(env.grid) ==>
               !Available(env, st.tiles, r, env.habitat(r, p).value, [], p)
    ensures !Usable(env, st.deposits, r, phase, [], p)
  {
    UsableIsAvailable(env, st, r, phase, [], p);
  }

  /** It stops only when each resource has its budget or no usable site is left for it. */
  lemma PlacementLeavesNothing(env: Env, order: seq<Pos>, st: State)
    requires Iterates(order, env.sites) && forall p | p in env.sites :: env.grid.Holds(p)
    requires st == SeedResourceNetworks(env, order)
    ensures NothingLeft(env, TownsOn(env), st.deposits)
  {
    var towns := TownCount(env.sites, order);
    TownsAreOnMap(env, order);
    PlacementIsSound(env, order);
    forall r, budget: nat, phase, p |
        r in {NeuralResin, ConductiveMinerals, CatalyticDeposit, LuxuryBiota, PrecursorSalvage} &&
        IsBudget(env, towns, r, budget) && AllowedPhase(env.grid, phase)
      ensures Stock(env, st.deposits, r) >= budget || !Usable(env, st.deposits, r, phase, [], p)
    {
      StockIsPlaced(env, st, r);
      TargetIsBudget(env, towns, r);
      OneBudget(env, towns, r, budget, SiteTarget(r, env.grid, towns));
      if Count(st.placed, r) < SiteTarget(r, env.grid, towns) {
        if env.habitat(r, p).Some? && env.habitat(r, p).value in PhasesOf(env.grid) {
          ShortfallMeansSaturated(env, order, r, p, env.habitat(r, p).value);
        }
        NoneUsable(env, st, r, phase, p);
      }
    }
  }

  lemma OneBudget(env: Env, towns: nat, r: Resource, a: int, b: int)
    requires IsBudget(env, towns, r, a) && IsBudget(env, towns, r, b)
    ensures a == b
  {}

  lemma InvShowsDeposits(env: Env, st: State)
    requires Inv(env, st)
    ensures ShowsDeposits(env, st.tiles, st.deposits)
  {}

  lemma OneMoreDeposit(ds: seq<Deposit>, d: Deposit, r: Resource)
    ensures |DepositsOf(ds + [d], r)| == |DepositsOf(ds, r)| + if d.resource == r then 1 else 0
  {
    var was, now := DepositsOf(ds, r), DepositsOf(ds + [d], r);
    forall i ensures i in now <==> i in was || (i == |ds| && d.resource == r) {}
    assert now == if d.resource == r then was + {|ds|} else was;
  }

  lemma {:induction false} NumDepositsCounts(ds: seq<Deposit>, r: Resource)
    ensures NumDeposits(ds, r) == |DepositsOf(ds, r)|
    decreases |ds|
  {
    if ds == [] {
      assert DepositsOf(ds, r) == {};
    } else {
      var before, last := ds[..|ds| - 1], ds[|ds| - 1];
      NumDepositsCounts(before, r);
      OneMoreDeposit(before, last, r);
      assert before + [last] == ds;
    }
  }

  lemma CountersInTerms(env: Env, st: State)
    requires Good(env, st) && ClustersExact(st)
    ensures CountsDeposits(env, st)
  {
    forall r | r in NETWORK_RESOURCES ensures Count(st.placed, r) == Stock(env, st.deposits, r) {
      StockIsPlaced(env, st, r);
    }
    forall r ensures Count(st.clusters, r) == |DepositsOf(st.deposits, r)| {
      NumDepositsCounts(st.deposits, r);
    }
  }

  lemma PlacementIsGood(env: Env, order: seq<Pos>, st: State)
    requires Iterates(order, env.sites) && forall p | p in env.sites :: env.grid.Holds(p)
    requires st == SeedResourceNetworks(env, order)
    ensures Good(env, st) && ClustersExact(st)
  {
    PlacementIsSound(env, order);
  }

  lemma HashIsWeak(env: Env)
    requires GrowsByHash(env)
    ensures forall r :: StrictWeak(env.growthBefore(r))
  {}

  /** The finished map, read off the map it started from. */
  lemma PlacementIsFinished(env: Env, order: seq<Pos>, st: State)
    requires Iterates(order, env.sites) && forall p | p in env.sites :: env.grid.Holds(p)
    requires StrictTotal(env.sectorBefore) && GrowsByHash(env) && st == SeedResourceNetworks(env, order)
    ensures Finished(env, st)
  {
    HashIsWeak(env);
    PlacementFollowsRules(env, order, st);
    PlacementLeavesNothing(env, order, st);
    PlacementIsGood(env, order, st);
    InvShowsDeposits(env, st);
    CountersInTerms(env, st);
  }
}
