/** Reference-counted reach vision: incremental counts that always equal a recount of the reach border. */
module ReachVision {
  import opened Torus
  import opened World
  import opened Sums

  /** The map and, for each position, the offsets its radius-one vision reaches: the plain square, or what hills, forest
      and mountains make of it. */
  datatype Sight = Sight(grid: Grid, offsets: Pos -> seq<(int, int)>)

  predicate IsBarbarian(id: PlayerId) {
    "barbarian-" <= id
  }

  /** How often the first `n` offsets of `p` land on `c`. */
  function CoverUpTo(sight: Sight, p: Pos, c: Pos, n: nat): nat
    requires n <= |sight.offsets(p)|
  {
    if n == 0 then 0
    else CoverUpTo(sight, p, c, n - 1) + if sight.grid.Shift(p, sight.offsets(p)[n - 1]) == c then 1 else 0
  }

  function Covers(sight: Sight, p: Pos, c: Pos): nat {
    CoverUpTo(sight, p, c, |sight.offsets(p)|)
  }

  type Border = map<Pos, PlayerId>

  /** The players of the game, each with its allies. */
  type Allies = map<PlayerId, set<PlayerId>>

  function Owner(border: Border, k: Pos): Option<PlayerId> {
    if k in border then Some(border[k]) else None
  }

  function ViewersFor(allies: Allies, owner: PlayerId): set<PlayerId> {
    {owner} + if owner in allies then allies[owner] else {}
  }

  predicate Sees(allies: Allies, viewer: PlayerId, owner: Option<PlayerId>) {
    owner.Some? && !IsBarbarian(owner.value) && !IsBarbarian(viewer) && viewer in ViewersFor(allies, owner.value)
  }

  /** What a border tile at `k` with this owner contributes to `viewer` at `c`. */
  function Share(sight: Sight, allies: Allies, owner: Option<PlayerId>, k: Pos, viewer: PlayerId, c: Pos): nat {
    if Sees(allies, viewer, owner) then Covers(sight, k, c) else 0
  }

  ghost function AllPositions(grid: Grid): set<Pos> {
    set x: int, y: int | 0 <= x < grid.w && 0 <= y < grid.h :: Pos(x, y)
  }

  ghost function Terms(sight: Sight, border: Border, allies: Allies, viewer: PlayerId, c: Pos): Pos -> int {
    k => Share(sight, allies, Owner(border, k), k, viewer, c)
  }

  /** The from-scratch count: every border tile whose non-barbarian owner is the viewer or an ally of it. */
  ghost function Recount(sight: Sight, border: Border, allies: Allies, viewer: PlayerId, c: Pos): int {
    Sum(AllPositions(sight.grid), Terms(sight, border, allies, viewer, c))
  }

  function WithOwner(border: Border, k: Pos, owner: Option<PlayerId>): Border {
    if owner.Some? then border[k := owner.value] else border - {k}
  }

  ghost predicate BorderOnGrid(grid: Grid, border: Border) {
    forall k | k in border :: k in AllPositions(grid)
  }

  /** Changing one border tile moves its old owner's share out of the recount and its new owner's in. */
  lemma RecountAfterChange(sight: Sight, border: Border, allies: Allies, k: Pos, owner: Option<PlayerId>,
                           viewer: PlayerId, c: Pos)
    requires k in AllPositions(sight.grid)
    ensures Recount(sight, WithOwner(border, k, owner), allies, viewer, c) ==
            Recount(sight, border, allies, viewer, c)
            - Share(sight, allies, Owner(border, k), k, viewer, c) + Share(sight, allies, owner, k, viewer, c)
    ensures Recount(sight, border, allies, viewer, c) >= Share(sight, allies, Owner(border, k), k, viewer, c)
  {
    var f, g := Terms(sight, border, allies, viewer, c), Terms(sight, WithOwner(border, k, owner), allies, viewer, c);
    OneTermChanged(AllPositions(sight.grid), f, g, k);
    SumNonNegative(AllPositions(sight.grid), f);
    assert f(k) <= Sum(AllPositions(sight.grid), f);
  }

  // ---------- alliances ----------

  /** Alliances are mutual, never with oneself, and only among the players of the game. */
  ghost predicate Mutual(allies: Allies) {
    forall p, q | p in allies && q in allies[p] :: q in allies && p in allies[q] && p != q
  }

  function WithAlliance(allies: Allies, a: PlayerId, b: PlayerId, allied: bool): Allies
    requires a in allies && b in allies && a != b
  {
    if allied then allies[a := allies[a] + {b}][b := allies[b] + {a}]
    else allies[a := allies[a] - {b}][b := allies[b] - {a}]
  }

  /** The part of the border that `source` shares with a new ally. */
  ghost function OwnTerms(sight: Sight, border: Border, source: PlayerId, c: Pos): Pos -> int {
    k => if Owner(border, k) == Some(source) then Covers(sight, k, c) else 0
  }

  ghost function Own(sight: Sight, border: Border, source: PlayerId, c: Pos): nat {
    PartOwn(sight, border, source, c, AllPositions(sight.grid))
  }

  /** The share of some of the positions. */
  ghost function PartOwn(sight: Sight, border: Border, source: PlayerId, c: Pos, part: set<Pos>): nat {
    SumNonNegative(part, OwnTerms(sight, border, source, c));
    Sum(part, OwnTerms(sight, border, source, c))
  }

  /** What an alliance between `a` and `b` adds for `viewer`: the sync pushes each one's border to the other, and the
      tracker ignores barbarian viewers. */
  ghost function Exchange(sight: Sight, border: Border, a: PlayerId, b: PlayerId, viewer: PlayerId, c: Pos): nat {
    (if viewer == b && !IsBarbarian(b) then Own(sight, border, a, c) else 0) +
    (if viewer == a && !IsBarbarian(a) then Own(sight, border, b, c) else 0)
  }

  lemma OwnNonNegative(sight: Sight, border: Border, source: PlayerId, c: Pos)
    ensures forall k | k in AllPositions(sight.grid) && Owner(border, k) == Some(source) ::
              Own(sight, border, source, c) >= Covers(sight, k, c)
  {
    var f := OwnTerms(sight, border, source, c);
    SumNonNegative(AllPositions(sight.grid), f);
    forall k | k in AllPositions(sight.grid) &&
        Owner(border, k) == Some(source) ensures Own(sight, border, source, c) >= Covers(sight, k, c) {
      assert f(k) <= Sum(AllPositions(sight.grid), f);
    }
  }

  lemma SumOfZero(s: set<Pos>, f: Pos -> int)
    requires forall k | k in s :: f(k) == 0
    ensures Sum(s, f) == 0
    decreases |s|
  {
    if s != {} {
      var x :| x in s;
      TakeOut(s, f, x);
      SumOfZero(s - {x}, f);
    }
  }

  lemma RecountAfterAllying(sight: Sight, border: Border, allies: Allies, a: PlayerId, b: PlayerId, viewer: PlayerId,
                            c: Pos)
    requires Mutual(allies) && a in allies && b in allies && a != b && b !in allies[a]
    requires !IsBarbarian(a) && !IsBarbarian(b)
    ensures Recount(sight, border, WithAlliance(allies, a, b, true), viewer, c) ==
            Recount(sight, border, allies, viewer, c) + Exchange(sight, border, a, b, viewer, c)
  {
    var was, now := Terms(sight, border, allies, viewer, c),
        Terms(sight, border, WithAlliance(allies, a, b, true), viewer, c);
    if viewer == b {
      SumOfSums(AllPositions(sight.grid), was, OwnTerms(sight, border, a, c), now);
    } else if viewer == a {
      SumOfSums(AllPositions(sight.grid), was, OwnTerms(sight, border, b, c), now);
    } else {
      SameTerms(AllPositions(sight.grid), was, now);
    }
  }

  lemma UnallyingReverses(allies: Allies, a: PlayerId, b: PlayerId)
    requires Mutual(allies) && a in allies && b in allies && a != b && b in allies[a]
    ensures var apart := WithAlliance(allies, a, b, false);
            Mutual(apart) && a in apart && b in apart && b !in apart[a] && WithAlliance(apart, a, b, true) == allies
  {
    var apart := WithAlliance(allies, a, b, false);
    assert apart[a] + {b} == allies[a] && apart[b] + {a} == allies[b];
  }

  lemma AllyingIsMutual(allies: Allies, a: PlayerId, b: PlayerId)
    requires Mutual(allies) && a in allies && b in allies && a != b
    ensures Mutual(WithAlliance(allies, a, b, true))
    ensures b in allies[a] ==> WithAlliance(allies, a, b, true) == allies
    ensures b !in allies[a] ==> WithAlliance(allies, a, b, false) == allies
  {
    if b in allies[a] {
      assert allies[a] + {b} == allies[a] && allies[b] + {a} == allies[b];
    } else {
      assert allies[a] - {b} == allies[a] && allies[b] - {a} == allies[b];
    }
  }

  /** No barbarian of the pair holds border that the other, a non-barbarian, would be shown anything of. */
  ghost predicate NoBarbarianBorderShown(sight: Sight, border: Border, a: PlayerId, b: PlayerId) {
    forall k | k in border && border[k] in {a, b} && IsBarbarian(border[k]) ::
      IsBarbarian(if border[k] == a then b else a) || sight.offsets(k) == []
  }

  /** Allying keeps the counts equal to the recount exactly when no barbarian of the pair holds border that the other,
      a non-barbarian, would be shown: the sync pushes barbarian border, the recount never has it. */
  lemma AllyingExactIffNoBarbarianBorder(sight: Sight, border: Border, allies: Allies, a: PlayerId, b: PlayerId)
    requires Mutual(allies) && a in allies && b in allies && a != b && b !in allies[a]
    requires BorderOnGrid(sight.grid, border)
    ensures (forall viewer, c ::
              Recount(sight, border, WithAlliance(allies, a, b, true), viewer, c) ==
              Recount(sight, border, allies, viewer, c) + Exchange(sight, border, a, b, viewer, c))
            <==> NoBarbarianBorderShown(sight, border, a, b)
  {
    if !IsBarbarian(a) && !IsBarbarian(b) {
      forall viewer, c { RecountAfterAllying(sight, border, allies, a, b, viewer, c); }
    } else {
      forall viewer, c
        ensures Recount(sight, border, WithAlliance(allies, a, b, true), viewer, c) ==
                  Recount(sight, border, allies, viewer, c)
      {
        BarbarianAllianceShowsNothing(sight, border, allies, a, b, viewer, c);
      }
      if IsBarbarian(a) && !IsBarbarian(b) {
        BarbarianBorderShows(sight, border, a, b);
      } else if IsBarbarian(b) && !IsBarbarian(a) {
        BarbarianBorderShows(sight, border, b, a);
      }
    }
  }

  lemma BarbarianAllianceShowsNothing(sight: Sight, border: Border, allies: Allies, a: PlayerId, b: PlayerId,
                                      viewer: PlayerId, c: Pos)
    requires a in allies && b in allies && a != b && (IsBarbarian(a) || IsBarbarian(b))
    ensures Recount(sight, border, WithAlliance(allies, a, b, true), viewer, c) ==
              Recount(sight, border, allies, viewer, c)
  {
    SameTerms(AllPositions(sight.grid), Terms(sight, border, allies, viewer, c),
              Terms(sight, border, WithAlliance(allies, a, b, true), viewer, c));
  }

  lemma BarbarianBorderShows(sight: Sight, border: Border, barbarian: PlayerId, other: PlayerId)
    requires IsBarbarian(barbarian) && !IsBarbarian(other) && BorderOnGrid(sight.grid, border)
    ensures (forall c :: Exchange(sight, border, barbarian, other, other, c) == 0) <==>
            (forall k | k in border && border[k] == barbarian :: sight.offsets(k) == [])
    ensures forall viewer, c | viewer != other :: Exchange(sight, border, barbarian, other, viewer, c) == 0
    ensures forall viewer, c ::
              Exchange(sight, border, other, barbarian, viewer, c) ==
                  Exchange(sight, border, barbarian, other, viewer, c)
  {
    if k :| k in border && border[k] == barbarian && sight.offsets(k) != [] {
      var c := sight.grid.Shift(k, sight.offsets(k)[0]);
      OwnNonNegative(sight, border, barbarian, c);
      CoverGrows(sight, k, c, 1, |sight.offsets(k)|);
      assert CoverUpTo(sight, k, c, 0) == 0;
      assert Exchange(sight, border, barbarian, other, other, c) > 0;
    } else {
      forall c ensures Own(sight, border, barbarian, c) == 0 {
        SumOfZero(AllPositions(sight.grid), OwnTerms(sight, border, barbarian, c));
      }
    }
  }

  lemma {:induction false} CoverGrows(sight: Sight, p: Pos, c: Pos, m: nat, n: nat)
    requires m <= n <= |sight.offsets(p)|
    ensures CoverUpTo(sight, p, c, m) <= CoverUpTo(sight, p, c, n)
  {
    if m < n {
      CoverGrows(sight, p, c, m, n - 1);
    }
  }
}
