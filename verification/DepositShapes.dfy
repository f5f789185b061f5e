/** Why a finished deposit is small: it is hemmed in, or it was cut to meet its resource's target. */
module DepositShapes {
  import opened Torus
  import opened World
  import opened Deposits
  import opened DepositLaws
  import opened DepositAccounting
  import opened DepositTheorems
  import opened DepositSaturation

  /** No tile beside the deposit is available to it in the given phase. */
  ghost predicate HemmedIn(env: Env, st: State, d: Deposit, phase: nat) {
    forall i, p | 0 <= i < |d.members| && Beside(env.grid, d.members[i], p) && p !in d.members ::
      !Available(env, st.tiles, d.resource, phase, d.members, p)
  }

  ghost predicate LastOfItsResource(ds: seq<Deposit>, i: nat)
    requires i < |ds|
  {
    forall j | i < j < |ds| :: ds[j].resource != ds[i].resource
  }

  /** A deposit has the least size, is hemmed in for a phase the map uses, or is the one that met its resource's
      target. */
  ghost predicate Explained(env: Env, st: State, towns: nat, i: nat)
    requires i < |st.deposits|
  {
    var d := st.deposits[i];
    || |d.members| >= MIN_DEPOSIT_TILES
    || (exists k | k in PhasesOf(env.grid) :: HemmedIn(env, st, d, k))
    || (Count(st.placed, d.resource) >= SiteTarget(d.resource, env.grid, towns) && LastOfItsResource(st.deposits, i))
  }

  ghost predicate AllExplained(env: Env, st: State, towns: nat) {
    forall i | 0 <= i < |st.deposits| :: Explained(env, st, towns, i)
  }

  lemma HemmedStays(env: Env, a: State, b: State, d: Deposit, phase: nat)
    requires Fuller(a, b) && HemmedIn(env, a, d, phase)
    ensures HemmedIn(env, b, d, phase)
  {
    forall i, p | 0 <= i < |d.members| && Beside(env.grid, d.members[i], p) && p !in d.members
      ensures !Available(env, b.tiles, d.resource, phase, d.members, p)
    {
      assert !Available(env, a.tiles, d.resource, phase, d.members, p);
    }
  }

  /** A finished growth: where its deposit is recorded, what it counts, and why it is no larger. */
  lemma FinishShape(env: Env, seeded: State, r: Resource, phase: nat, desired: nat, st': State) returns (d: Deposit)
    requires PlacedExact(seeded) && Growing(seeded, r) && |Newest(seeded).members| == 1 <= desired
    requires st' == Finish(env, seeded, r, phase, desired)
    ensures st'.deposits == seeded.deposits[..|seeded.deposits| - 1] + [d] && d.resource == r && |d.members| <= desired
    ensures Count(st'.placed, r) + 1 == Count(seeded.placed, r) + |d.members|
    ensures forall x | x != r :: Count(st'.placed, x) == Count(seeded.placed, x)
    ensures HemmedIn(env, st', d, phase) || |d.members| == desired
  {
    var grown := Grow(env, seeded, r, phase, desired);
    GrowCounts(env, seeded, r, phase, desired);
    GrowthStopsHemmedIn(env, seeded, r, phase, desired, grown);
    d := Newest(grown);
    assert grown.deposits == grown.deposits[..|seeded.deposits| - 1] + [d];
  }

  lemma DesiredSizeBounds(env: Env, r: Resource, room: nat, centre: Pos)
    ensures DesiredSize(env, r, room, centre) >= MIN_DEPOSIT_TILES || DesiredSize(env, r, room, centre) == room
    ensures room > 0 ==> DesiredSize(env, r, room, centre) > 0
  {}

  lemma OpenShape(env: Env, st: State, r: Resource, centre: Pos, seeded: State)
    requires PlacedExact(st) && centre in env.sites && centre in st.tiles && st.tiles[centre].resource.None?
    requires seeded == Open(st, r, centre, env.sites[centre])
    ensures PlacedExact(seeded) && Growing(seeded, r) && |Newest(seeded).members| == 1
    ensures seeded.deposits[..|seeded.deposits| - 1] == st.deposits
    ensures forall x :: Count(seeded.placed, x) == Count(st.placed, x) + if x == r then 1 else 0
  {
    OpenCounts(st, r, centre, env.sites[centre]);
  }

  lemma PlaceIsFinish(env: Env, st: State, r: Resource, phase: nat, target: nat, centre: Pos)
    requires Count(st.placed, r) < target && centre in env.sites
    ensures Place(env, st, r, phase, target, centre) ==
            Finish(env, Open(st, r, centre, env.sites[centre]), r, phase,
                   DesiredSize(env, r, target - Count(st.placed, r), centre))
  {}

  /** A placed deposit is as large as its kind asks for, hemmed in, or meets the target. */
  lemma PlaceShape(env: Env, st: State, r: Resource, phase: nat, target: nat, centre: Pos, seeded: State,
                   desired: nat, st': State)
    returns (d: Deposit)
    requires PlacedExact(st) && Count(st.placed, r) < target
    requires centre in env.sites && centre in st.tiles && st.tiles[centre].resource.None?
    requires seeded == Open(st, r, centre, env.sites[centre])
    requires desired == DesiredSize(env, r, target - Count(st.placed, r), centre)
    requires st' == Finish(env, seeded, r, phase, desired)
    ensures st'.deposits == st.deposits + [d] && d.resource == r
    ensures forall x | x != r :: Count(st'.placed, x) == Count(st.placed, x)
    ensures HemmedIn(env, st', d, phase) || |d.members| >= MIN_DEPOSIT_TILES || Count(st'.placed, r) == target
  {
    DesiredSizeBounds(env, r, target - Count(st.placed, r), centre);
    OpenShape(env, st, r, centre, seeded);
    d := FinishShape(env, seeded, r, phase, desired, st');
  }

  /** One more explained deposit. */
  lemma OneMoreExplained(env: Env, st: State, st': State, r: Resource, phase: nat, towns: nat, d: Deposit)
    requires AllExplained(env, st, towns) && Fuller(st, st') && phase in PhasesOf(env.grid)
    requires Count(st.placed, r) < SiteTarget(r, env.grid, towns)
    requires st'.deposits == st.deposits + [d] && d.resource == r
    requires forall x | x != r :: Count(st'.placed, x) == Count(st.placed, x)
    requires HemmedIn(env, st', d, phase) || |d.members| >= MIN_DEPOSIT_TILES ||
             Count(st'.placed, r) == SiteTarget(r, env.grid, towns)
    ensures AllExplained(env, st', towns)
  {
    forall i | 0 <= i < |st'.deposits| ensures Explained(env, st', towns, i) {
      if i < |st.deposits| {
        EarlierStaysExplained(env, st, st', r, d, towns, i);
      } else {
        assert st'.deposits[i] == d;
      }
    }
  }

  lemma PlaceExplains(env: Env, st: State, r: Resource, phase: nat, towns: nat, centre: Pos, st': State)
    requires Good(env, st) && AllExplained(env, st, towns) && phase in PhasesOf(env.grid)
    requires Count(st.placed, r) < SiteTarget(r, env.grid, towns) && Available(env, st.tiles, r, phase, [], centre)
    requires st' == Place(env, st, r, phase, SiteTarget(r, env.grid, towns), centre)
    ensures AllExplained(env, st', towns)
  {
    var target := SiteTarget(r, env.grid, towns);
    PlaceFills(env, st, r, phase, target, centre, st');
    PlaceIsFinish(env, st, r, phase, target, centre);
    var d := PlaceShape(env, st, r, phase, target, centre, Open(st, r, centre, env.sites[centre]),
                        DesiredSize(env, r, target - Count(st.placed, r), centre), st');
    OneMoreExplained(env, st, st', r, phase, towns, d);
  }

  lemma EarlierStaysExplained(env: Env, st: State, st': State, r: Resource, d: Deposit, towns: nat, i: nat)
    requires i < |st.deposits| && Explained(env, st, towns, i) && Fuller(st, st')
    requires st'.deposits == st.deposits + [d] && d.resource == r
    requires Count(st.placed, r) < SiteTarget(r, env.grid, towns)
    requires forall x | x != r :: Count(st'.placed, x) == Count(st.placed, x)
    ensures Explained(env, st', towns, i)
  {
    assert st'.deposits[i] == st.deposits[i];
    if k :| k in PhasesOf(env.grid) && HemmedIn(env, st, st.deposits[i], k) {
      HemmedStays(env, st, st', st.deposits[i], k);
    } else if |st.deposits[i].members| < MIN_DEPOSIT_TILES {
      assert st.deposits[i].resource != r;
    }
  }

  // ---------- passes, rounds, phases, resources ----------

  lemma {:induction false} SweepExplains(env: Env, st: State, r: Resource, phase: nat, towns: nat,
                                         pools: seq<seq<Pos>>, res: Swept)
    requires Good(env, st) && ClustersExact(st) && AllExplained(env, st, towns) && phase in PhasesOf(env.grid)
    requires Count(st.placed, r) < SiteTarget(r, env.grid, towns)
    requires res == Sweep(env, st, r, phase, SiteTarget(r, env.grid, towns), pools)
    ensures AllExplained(env, res.st, towns)
    decreases |pools|
  {
    if pools != [] {
      var target := SiteTarget(r, env.grid, towns);
      var (centre, rest) := PopCentre(env, st.tiles, r, phase, pools[0]);
      if centre.None? {
        SweepExplains(env, st, r, phase, towns, pools[1..], Sweep(env, st, r, phase, target, pools[1..]));
      } else {
        var st1 := Place(env, st, r, phase, target, centre.value);
        PlaceExplains(env, st, r, phase, towns, centre.value, st1);
        PlaceKeeps(env, st, r, phase, target, centre.value, st1);
        if Count(st1.placed, r) < target {
          SweepExplains(env, st1, r, phase, towns, pools[1..], Sweep(env, st1, r, phase, target, pools[1..]));
        }
      }
    }
  }

  lemma {:induction false} RoundsExplain(env: Env, st: State, r: Resource, phase: nat, towns: nat,
                                         pools: seq<seq<Pos>>, st': State)
    requires Good(env, st) && ClustersExact(st) && AllExplained(env, st, towns) && phase in PhasesOf(env.grid)
    requires st' == Rounds(env, st, r, phase, SiteTarget(r, env.grid, towns), pools)
    ensures AllExplained(env, st', towns)
    decreases PoolSize(pools)
  {
    var target := SiteTarget(r, env.grid, towns);
    if Count(st.placed, r) < target {
      var swept := Sweep(env, st, r, phase, target, pools);
      SweepExplains(env, st, r, phase, towns, pools, swept);
      SweepKeeps(env, st, r, phase, target, pools);
      if swept.progress {
        RoundsExplain(env, swept.st, r, phase, towns, swept.pools, st');
      }
    }
  }

  lemma {:induction false} PhasesExplain(env: Env, st: State, r: Resource, towns: nat, phases: seq<nat>,
                                         sites: seq<Pos>, st': State)
    requires Good(env, st) && ClustersExact(st) && AllExplained(env, st, towns)
    requires forall k | k in phases :: k in PhasesOf(env.grid)
    requires st' == Phases(env, st, r, SiteTarget(r, env.grid, towns), phases, sites)
    ensures AllExplained(env, st', towns)
    decreases |phases|
  {
    if phases != [] {
      var target := SiteTarget(r, env.grid, towns);
      var pools := Pools(env, r, phases[0], sites);
      var st1 := Rounds(env, st, r, phases[0], target, pools);
      RoundsExplain(env, st, r, phases[0], towns, pools, st1);
      RoundsKeeps(env, st, r, phases[0], target, pools);
      if Count(st1.placed, r) < target {
        PhasesExplain(env, st1, r, towns, phases[1..], sites, st');
      }
    }
  }

  lemma {:induction false} SeedExplains(env: Env, st: State, towns: nat, resources: seq<Resource>, sites: seq<Pos>,
                                        st': State)
    requires Good(env, st) && ClustersExact(st) && AllExplained(env, st, towns)
    requires st' == Seed(env, st, towns, resources, sites)
    ensures AllExplained(env, st', towns)
    decreases |resources|
  {
    if resources != [] {
      var r := resources[0];
      var target := SiteTarget(r, env.grid, towns);
      var st1 := Phases(env, st, r, target, PhasesOf(env.grid), sites);
      PhasesExplain(env, st, r, towns, PhasesOf(env.grid), sites, st1);
      PhasesKeep(env, st, r, target, PhasesOf(env.grid), sites);
      SeedExplains(env, st1, towns, resources[1..], sites, st');
    }
  }

  /** On the finished map every deposit under the least size is hemmed in or is the one that met its resource's
      target. */
  lemma SmallDepositsExplained(env: Env, order: seq<Pos>)
    requires Iterates(order, env.sites) && forall p | p in env.sites :: env.grid.Holds(p)
    ensures AllExplained(env, SeedResourceNetworks(env, order), TownCount(env.sites, order))
  {
    var st := Start(env, order);
    forall r | r in NETWORK_RESOURCES ensures Count(st.placed, r) == |Carriers(st.tiles, r)| {
      InitialCountsExact(env.sites, order, r);
      assert Carriers(env.sites, r) == CarriersAmong(env.sites, order, r);
    }
    assert Inv(env, st);
    SeedExplains(env, st, TownCount(env.sites, order), NETWORK_RESOURCES, SitesIn(env, order),
                 SeedResourceNetworks(env, order));
  }
}
