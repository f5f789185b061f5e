/** Deposits stay small, connected and apart, and the counters stay exact, whatever is placed. */
module DepositLaws {
  import opened Torus
  import opened World
  import opened Sorting
  import opened Deposits

  // ---------- the invariant ----------

  ghost predicate Beside(grid: Grid, p: Pos, q: Pos) {
    q in grid.Compass(p)
  }

  ghost predicate BesideEarlier(grid: Grid, members: seq<Pos>, j: nat)
    requires j < |members|
  {
    exists i | 0 <= i < j :: Beside(grid, members[i], members[j])
  }

  /** Every member after the first is an edge neighbour of an earlier one. */
  ghost predicate Chained(grid: Grid, members: seq<Pos>) {
    forall j | 0 < j < |members| :: BesideEarlier(grid, members, j)
  }

  ghost predicate WellShaped(grid: Grid, d: Deposit) {
    0 < |d.members| <= MAX_DEPOSIT_TILES && Distinct(d.members) && Chained(grid, d.members)
  }

  ghost function Stamped(env: Env, p: Pos, r: Resource): Tile
    requires p in env.sites
  {
    env.sites[p].(resource := Some(r))
  }

  /** Members are sites that were empty and now carry the deposit's resource, and nothing else changed on them. */
  ghost predicate MembersStamped(env: Env, tiles: Tiles, d: Deposit) {
    forall p | p in d.members :: IsSite(env, p) && p in tiles && tiles[p] == Stamped(env, p, d.resource)
  }

  /** Only deposit members differ from the initial map. */
  ghost predicate OnlyMembersChanged(env: Env, st: State) {
    && st.tiles.Keys == env.sites.Keys
    && forall p | p in st.tiles && st.tiles[p] != env.sites[p] :: exists d | d in st.deposits :: p in d.members
  }

  /** No tile around a member carries the resource without belonging to the deposit. */
  ghost predicate Apart(env: Env, tiles: Tiles, d: Deposit) {
    forall p, q | p in d.members && q in env.grid.Ring(p) && Carries(tiles, q, d.resource) :: q in d.members
  }

  ghost predicate Disjoint(ds: seq<Deposit>) {
    forall i, j, p | 0 <= i < j < |ds| && p in ds[i].members :: p !in ds[j].members
  }

  ghost predicate Inv(env: Env, st: State) {
    && OnlyMembersChanged(env, st)
    && Disjoint(st.deposits)
    && (forall d | d in st.deposits ::
        WellShaped(env.grid, d) && MembersStamped(env, st.tiles, d) && Apart(env, st.tiles, d))
    && (forall p | p in env.sites :: env.grid.Holds(p))
  }

  // ---------- one more tile ----------

  /** Stamping an available tile keeps every deposit that does not touch it apart. */
  lemma StampKeepsDeposit(env: Env, tiles: Tiles, d: Deposit, r: Resource, phase: nat, group: seq<Pos>, p: Pos)
    requires forall x | x in env.sites :: env.grid.Holds(x)
    requires MembersStamped(env, tiles, d) && Apart(env, tiles, d)
    requires Available(env, tiles, r, phase, group, p)
    requires d.resource == r ==> forall x | x in d.members :: x !in group
    ensures p !in d.members
    ensures var tiles' := tiles[p := Stamped(env, p, r)];
            MembersStamped(env, tiles', d) && Apart(env, tiles', d)
  {
    var tiles' := tiles[p := Stamped(env, p, r)];
    forall x, q | x in d.members && q in env.grid.Ring(x) && Carries(tiles', q, d.resource)
      ensures q in d.members
    {
      if q == p {
        env.grid.RingSymmetric(x, p);
        assert x in env.grid.Ring(p) + [p];
        assert Carries(tiles, x, r);
      }
    }
  }

  /** A deposit extended by an available neighbour is still apart. */
  lemma StampExtends(env: Env, tiles: Tiles, r: Resource, phase: nat, members: seq<Pos>, p: Pos)
    requires forall x | x in env.sites :: env.grid.Holds(x)
    requires MembersStamped(env, tiles, Deposit(r, members)) && Apart(env, tiles, Deposit(r, members))
    requires Available(env, tiles, r, phase, members, p)
    ensures p !in members
    ensures var tiles' := tiles[p := Stamped(env, p, r)];
            MembersStamped(env, tiles', Deposit(r, members + [p])) && Apart(env, tiles', Deposit(r, members + [p]))
  {
    var tiles' := tiles[p := Stamped(env, p, r)];
    forall x, q | x in members + [p] && q in env.grid.Ring(x) && Carries(tiles', q, r)
      ensures q in members + [p]
    {
      if q != p && x == p {
        assert q in env.grid.Ring(p) + [p];
      }
    }
  }

  lemma UntouchedSite(env: Env, st: State, p: Pos)
    requires Inv(env, st) && p in st.tiles && st.tiles[p].resource.None?
    ensures st.tiles[p] == env.sites[p]
  {
    assert forall d | d in st.deposits && p in d.members :: st.tiles[p].resource == Some(d.resource);
  }

  lemma OpenKeepsInv(env: Env, st: State, r: Resource, phase: nat, p: Pos)
    requires Inv(env, st) && Available(env, st.tiles, r, phase, [], p)
    ensures Inv(env, Open(st, r, p, env.sites[p]))
  {
    var st' := Open(st, r, p, env.sites[p]);
    var new_ := Deposit(r, [p]);
    assert MembersStamped(env, st.tiles, Deposit(r, [])) && Apart(env, st.tiles, Deposit(r, []));
    StampExtends(env, st.tiles, r, phase, [], p);
    assert [] + [p] == [p];
    forall d | d in st.deposits
      ensures p !in d.members && MembersStamped(env, st'.tiles, d) && Apart(env, st'.tiles, d)
    {
      StampKeepsDeposit(env, st.tiles, d, r, phase, [], p);
    }
    assert new_ in st'.deposits;
    forall x | x in st'.tiles && st'.tiles[x] != env.sites[x]
      ensures exists d | d in st'.deposits :: x in d.members
    {
      if x == p {
        assert x in new_.members;
      } else {
        var d :| d in st.deposits && x in d.members;
        assert d in st'.deposits;
      }
    }
  }

  lemma AddKeepsOthers(env: Env, st: State, phase: nat, p: Pos, j: nat)
    requires Inv(env, st) && j < |st.deposits| - 1
    requires Available(env, st.tiles, Newest(st).resource, phase, Newest(st).members, p)
    ensures var st' := Add(st, p, st.tiles[p]);
            && st'.deposits[j] == st.deposits[j] && p !in st.deposits[j].members && WellShaped(env.grid, st.deposits[j])
            && MembersStamped(env, st'.tiles, st.deposits[j]) && Apart(env, st'.tiles, st.deposits[j])
  {
    var last := Newest(st);
    UntouchedSite(env, st, p);
    assert st.deposits[j] in st.deposits && last in st.deposits;
    StampKeepsDeposit(env, st.tiles, st.deposits[j], last.resource, phase, last.members, p);
  }

  lemma AddKeepsInv(env: Env, st: State, phase: nat, i: nat, p: Pos)
    requires Inv(env, st) && st.deposits != []
    requires var d := Newest(st);
             && Available(env, st.tiles, d.resource, phase, d.members, p)
             && |d.members| < MAX_DEPOSIT_TILES && i < |d.members| && Beside(env.grid, d.members[i], p)
    ensures Inv(env, Add(st, p, st.tiles[p]))
  {
    var st' := Add(st, p, st.tiles[p]);
    AddKeepsFrame(env, st, p);
    AddKeepsNewest(env, st, phase, i, p);
    forall j | 0 <= j < |st.deposits| - 1
      ensures st'.deposits[j] == st.deposits[j] && p !in st.deposits[j].members && WellShaped(env.grid, st.deposits[j])
      ensures MembersStamped(env, st'.tiles, st.deposits[j]) && Apart(env, st'.tiles, st.deposits[j])
    {
      AddKeepsOthers(env, st, phase, p, j);
    }
  }

  lemma AddKeepsNewest(env: Env, st: State, phase: nat, i: nat, p: Pos)
    requires Inv(env, st) && st.deposits != []
    requires var d := Newest(st);
             && Available(env, st.tiles, d.resource, phase, d.members, p)
             && |d.members| < MAX_DEPOSIT_TILES && i < |d.members| && Beside(env.grid, d.members[i], p)
    ensures var st' := Add(st, p, st.tiles[p]);
            && WellShaped(env.grid, Newest(st'))
            && MembersStamped(env, st'.tiles, Newest(st')) && Apart(env, st'.tiles, Newest(st'))
  {
    var last := Newest(st);
    assert last in st.deposits && last == Deposit(last.resource, last.members);
    UntouchedSite(env, st, p);
    StampExtends(env, st.tiles, last.resource, phase, last.members, p);
    ChainGrows(env.grid, last.members, i, p);
  }

  lemma AddKeepsFrame(env: Env, st: State, p: Pos)
    requires OnlyMembersChanged(env, st) && st.deposits != [] && p in st.tiles
    ensures OnlyMembersChanged(env, Add(st, p, st.tiles[p]))
  {
    var st' := Add(st, p, st.tiles[p]);
    var n := |st.deposits| - 1;
    assert st'.deposits[n] in st'.deposits;
    forall x | x in st'.tiles && st'.tiles[x] != env.sites[x]
      ensures exists d | d in st'.deposits :: x in d.members
    {
      if x != p {
        var d :| d in st.deposits && x in d.members;
        var j :| 0 <= j < |st.deposits| && st.deposits[j] == d;
        assert x in st'.deposits[j].members && st'.deposits[j] in st'.deposits;
      }
    }
  }

  lemma ChainGrows(grid: Grid, members: seq<Pos>, i: nat, p: Pos)
    requires Chained(grid, members) && i < |members| && Beside(grid, members[i], p)
    ensures Chained(grid, members + [p])
  {
    var m := members + [p];
    forall j | 0 < j < |m| ensures BesideEarlier(grid, m, j) {
      if j < |members| {
        assert BesideEarlier(grid, members, j);
        var k :| 0 <= k < j && Beside(grid, members[k], members[j]);
        assert Beside(grid, m[k], m[j]);
      } else {
        assert Beside(grid, m[i], m[j]);
      }
    }
  }
}
