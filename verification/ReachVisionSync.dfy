/** The coverage counters as the runtime drives them: footprints added and removed under border and alliance changes. */
module ReachVisionSync {
  import opened Torus
  import opened World
  import opened Sums
  import opened ReachVision
  import opened ReachVisionTerms

  type Counts = map<(PlayerId, Pos), nat>

  function Level(counts: Counts, viewer: PlayerId, c: Pos): nat {
    if (viewer, c) in counts then counts[(viewer, c)] else 0
  }

  /** A counter raised or lowered by `n`; a counter that would fall below zero is dropped. */
  function Stepped(level: nat, adding: bool, n: nat): nat {
    if adding then level + n else if n <= level then level - n else 0
  }

  /** `after` is `before` with the first `n` cells of the footprint of `p` added or removed for one viewer. */
  ghost predicate Moved(sight: Sight, before: Counts, after: Counts, viewer: PlayerId, p: Pos, n: nat, adding: bool)
    requires n <= |sight.offsets(p)|
  {
    forall v, c :: Level(after, v, c) ==
        Stepped(Level(before, v, c), adding, if v == viewer then CoverUpTo(sight, p, c, n) else 0)
  }

  /** Counters that reach zero are dropped, so a stored counter says that the cell is in sight. */
  ghost predicate NoZeros(counts: Counts) {
    forall k | k in counts :: counts[k] > 0
  }

  ghost predicate StaysTidy(before: Counts, after: Counts) {
    NoZeros(before) ==> NoZeros(after)
  }

  class ReachVisionRuntime {
    const sight: Sight
    var counts: Counts
    var border: Border
    var allies: Allies
    /** What the other vision sources contribute to the shared counters. */
    ghost const others: Counts

    /** The counters start with what the other sources put there. */
    constructor (sight: Sight, players: set<PlayerId>, counts: Counts)
      ensures this.sight == sight && this.counts == counts && others == counts
      ensures border == map[] && allies == map p | p in players :: {}
      ensures Valid() && Exact(border, allies)
    {
      this.sight, this.counts, others := sight, counts, counts;
      border, allies := map[], map p | p in players :: {};
      new;
      forall v, c ensures Recount(sight, border, allies, v, c) == 0 {
        SumOfZero(AllPositions(sight.grid), Terms(sight, border, allies, v, c));
      }
    }

    /** The counters equal the other sources' share and the recount. */
    ghost predicate Exact(border: Border, allies: Allies)
      reads this
    {
      forall v, c :: Level(counts, v, c) == Level(others, v, c) + Recount(sight, border, allies, v, c)
    }

    /** The border lies on the map and alliances are mutual. */
    ghost predicate Valid()
      reads this
    {
      BorderOnGrid(sight.grid, border) && Mutual(allies)
    }

    method AddFootprint(viewer: PlayerId, p: Pos)
      modifies this`counts
      ensures StaysTidy(old(counts), counts)
      ensures Moved(sight, old(counts), counts, viewer, p, |sight.offsets(p)|, true)
      ensures forall v, c :: Level(counts, v, c) ==
                Level(old(counts), v, c) + if v == viewer then |Landing(sight, p, c)| else 0
    {
      assert forall c :: CoverUpTo(sight, p, c, 0) == 0;
      forall c ensures CoverUpTo(sight, p, c, |sight.offsets(p)|) == |Landing(sight, p, c)| {
        CoversIsHits(sight, p, c);
      }
      for i := 0 to |sight.offsets(p)|
        invariant Moved(sight, old(counts), counts, viewer, p, i, true) && StaysTidy(old(counts), counts)
      {
        var c := sight.grid.Shift(p, sight.offsets(p)[i]);
        counts := counts[(viewer, c) := Level(counts, viewer, c) + 1];
      }
    }

    /** Removal drops a counter that would reach zero or less. */
    method RemoveFootprint(viewer: PlayerId, p: Pos)
      modifies this`counts
      ensures StaysTidy(old(counts), counts)
      ensures Moved(sight, old(counts), counts, viewer, p, |sight.offsets(p)|, false)
      ensures forall v, c ::
                var level, gone := Level(old(counts), v, c), if v == viewer then |Landing(sight, p, c)| else 0;
                Level(counts, v, c) == if gone <= level then level - gone else 0
    {
      assert forall c :: CoverUpTo(sight, p, c, 0) == 0;
      forall c ensures CoverUpTo(sight, p, c, |sight.offsets(p)|) == |Landing(sight, p, c)| {
        CoversIsHits(sight, p, c);
      }
      for i := 0 to |sight.offsets(p)|
        invariant Moved(sight, old(counts), counts, viewer, p, i, false) && StaysTidy(old(counts), counts)
      {
        var c := sight.grid.Shift(p, sight.offsets(p)[i]);
        var next := Level(counts, viewer, c) as int - 1;
        if next <= 0 {
          counts := counts - {(viewer, c)};
        } else {
          counts := counts[(viewer, c) := next];
        }
      }
    }

    /** The tracker ignores barbarian viewers. */
    method TileVisionBonus(viewer: PlayerId, p: Pos, adding: bool)
      modifies this`counts
      ensures StaysTidy(old(counts), counts)
      ensures forall v, c :: Level(counts, v, c) ==
                Stepped(Level(old(counts), v, c), adding,
                        if v == viewer && !IsBarbarian(v) then Covers(sight, p, c) else 0)
    {
      if IsBarbarian(viewer) {
        return;
      }
      if adding {
        AddFootprint(viewer, p);
      } else {
        RemoveFootprint(viewer, p);
      }
    }

    /** Adds or removes the share of one border tile for everyone who sees its owner. */
    method ShareTile(owner: Option<PlayerId>, p: Pos, adding: bool)
      modifies this`counts
      ensures StaysTidy(old(counts), counts)
      ensures forall v, c :: Level(counts, v, c) ==
                Stepped(Level(old(counts), v, c), adding, Share(sight, allies, owner, p, v, c))
    {
      if owner.None? || IsBarbarian(owner.value) {
        return;
      }
      var rest := ViewersFor(allies, owner.value);
      while rest != {}
        invariant rest <= ViewersFor(allies, owner.value) && StaysTidy(old(counts), counts)
        invariant forall v, c :: Level(counts, v, c) ==
                    Stepped(Level(old(counts), v, c), adding,
                            if v in rest then 0 else Share(sight, allies, owner, p, v, c))
        decreases rest
      {
        var viewer :| viewer in rest;
        TileVisionBonus(viewer, p, adding);
        rest := rest - {viewer};
      }
    }

    /** Applies a border diff. `before` need only hold the old owners of the changed tiles. */
    method SyncReachVision(before: Border, changed: seq<Pos>, ghost was: Border)
      requires Exact(was, allies) && BorderOnGrid(sight.grid, was) && BorderOnGrid(sight.grid, border)
      requires forall i, j | 0 <= i < j < |changed| :: changed[i] != changed[j]
      requires forall k | k in changed :: k in AllPositions(sight.grid) && Owner(before, k) == Owner(was, k)
      requires forall k | k !in changed :: Owner(border, k) == Owner(was, k)
      modifies this`counts
      ensures StaysTidy(old(counts), counts)
      ensures Exact(border, allies)
      ensures forall v, c :: Level(counts, v, c) == Level(others, v, c) + Shown(sight, border, allies, v, c)
    {
      ghost var mixed := was;
      for i := 0 to |changed|
        invariant Exact(mixed, allies) && StaysTidy(old(counts), counts)
        invariant forall k :: Owner(mixed, k) == Owner(if k in changed[..i] then border else was, k)
      {
        var key := changed[i];
        assert key !in changed[..i];
        assert changed[..i + 1] == changed[..i] + [key];
        var oldOwner, newOwner := Owner(before, key), Owner(border, key);
        if oldOwner == newOwner {
          continue;
        }
        MoveTile(key, oldOwner, newOwner, mixed);
        mixed := WithOwner(mixed, key, newOwner);
      }
      assert changed[..|changed|] == changed;
      assert mixed == border by {
        forall k ensures k in mixed <==> k in border { assert Owner(mixed, k) == Owner(border, k); }
        forall k | k in mixed ensures mixed[k] == border[k] { assert Owner(mixed, k) == Owner(border, k); }
      }
      forall v, c ensures Recount(sight, border, allies, v, c) == Shown(sight, border, allies, v, c) {
        RecountInTerms(sight, border, allies, v, c);
      }
    }

    /** One border tile changes hands: out with the old owner's share, in with the new owner's. No counter is dropped
        short. */
    method MoveTile(key: Pos, oldOwner: Option<PlayerId>, newOwner: Option<PlayerId>, ghost mixed: Border)
      requires Exact(mixed, allies) && key in AllPositions(sight.grid) && Owner(mixed, key) == oldOwner
      modifies this`counts
      ensures StaysTidy(old(counts), counts)
      ensures Exact(WithOwner(mixed, key, newOwner), allies)
    {
      forall v, c
        ensures Recount(sight, WithOwner(mixed, key, newOwner), allies, v, c) ==
                Recount(sight, mixed, allies, v, c) - Share(sight, allies, oldOwner, key, v, c)
                + Share(sight, allies, newOwner, key, v, c)
        ensures Recount(sight, mixed, allies, v, c) >= Share(sight, allies, oldOwner, key, v, c)
      {
        RecountAfterChange(sight, mixed, allies, key, newOwner, v, c);
      }
      ShareTile(oldOwner, key, false);
      ShareTile(newOwner, key, true);
    }

    /** The border mutates, and the sync runs before anything else can look. */
    method ReplaceBorder(newBorder: Border, changed: seq<Pos>)
      requires Valid() && Exact(border, allies) && BorderOnGrid(sight.grid, newBorder)
      requires forall i, j | 0 <= i < j < |changed| :: changed[i] != changed[j]
      requires forall k | k in changed :: k in AllPositions(sight.grid)
      requires forall k | k !in changed :: Owner(newBorder, k) == Owner(border, k)
      modifies this`counts, this`border
      ensures StaysTidy(old(counts), counts)
      ensures Valid() && Exact(border, allies) && border == newBorder
      ensures forall v, c :: Level(counts, v, c) == Level(others, v, c) + Shown(sight, newBorder, allies, v, c)
    {
      var before := map k | k in border && k in changed :: border[k];
      ghost var was := border;
      border := newBorder;
      SyncReachVision(before, changed, was);
    }

    /** Shows (or hides) all border of `source` to one viewer. */
    method PushBorder(source: PlayerId, viewer: PlayerId, adding: bool)
      requires BorderOnGrid(sight.grid, border)
      modifies this`counts
      ensures StaysTidy(old(counts), counts)
      ensures forall v, c :: Level(counts, v, c) ==
                Stepped(Level(old(counts), v, c), adding,
                        if v == viewer && !IsBarbarian(viewer) then Own(sight, border, source, c) else 0)
    {
      var rest := border.Keys;
      assert border.Keys - rest == {};
      assert forall c :: PartOwn(sight, border, source, c, {}) == 0;
      while rest != {}
        invariant rest <= border.Keys && StaysTidy(old(counts), counts)
        invariant forall v, c :: Level(counts, v, c) ==
                    Stepped(Level(old(counts), v, c), adding,
                            if v == viewer && !IsBarbarian(viewer) then
                                PartOwn(sight, border, source, c, border.Keys - rest) else 0)
        decreases rest
      {
        var k :| k in rest;
        forall c
          ensures PartOwn(sight, border, source, c, border.Keys - (rest - {k})) ==
                  PartOwn(sight, border, source, c, border.Keys - rest) + if border[k] == source then
                      Covers(sight, k, c) else 0
        {
          assert border.Keys - (rest - {k}) == (border.Keys - rest) + {k};
          PutIn(border.Keys - rest, OwnTerms(sight, border, source, c), k);
        }
        if border[k] == source {
          TileVisionBonus(viewer, k, adding);
        }
        rest := rest - {k};
      }
      forall c ensures PartOwn(sight, border, source, c, border.Keys) == Own(sight, border, source, c) {
        WholeBorder(sight, border, source, c);
      }
      assert border.Keys - rest == border.Keys;
    }

    /** Each of the pair gains, or loses as far as the counter goes, what the other's border shows. */
    ghost predicate ChangedBy(was: Counts, now: Counts, a: PlayerId, b: PlayerId, gained: bool)
      reads this
    {
      forall v, c ::
        var level, shown := Level(was, v, c), Exchanged(sight, border, a, b, v, c);
        Level(now, v, c) == if gained then level + shown else if shown <= level then level - shown else 0
    }

    /** Shows (or hides) the border of each of two players to the other. */
    method SyncReachVisionAlliance(a: PlayerId, b: PlayerId, allied: bool)
      requires BorderOnGrid(sight.grid, border) && a != b
      modifies this`counts
      ensures StaysTidy(old(counts), counts)
      ensures forall v, c :: Level(counts, v, c) ==
                Stepped(Level(old(counts), v, c), allied, Exchange(sight, border, a, b, v, c))
      ensures ChangedBy(old(counts), counts, a, b, allied)
    {
      PushBorder(a, b, allied);
      PushBorder(b, a, allied);
      forall v, c ensures Exchange(sight, border, a, b, v, c) == Exchanged(sight, border, a, b, v, c) {
        ExchangeInTerms(sight, border, a, b, v, c);
      }
    }

    /** The alliance command: refused for unknown players and for oneself; otherwise recorded on both sides, with
        vision synced only when the alliance really changed. Exact counts stay exact, unless a barbarian of the pair
        has border to show: then a new alliance breaks them, and an ended one does wherever a counter stood above
        zero. */
    method HandleSyncAlliance(actor: PlayerId, target: PlayerId, allied: bool) returns (accepted: bool)
      requires Valid()
      modifies this`counts, this`allies
      ensures StaysTidy(old(counts), counts)
      ensures Valid()
      ensures accepted <==> actor in old(allies) && target in old(allies) && actor != target
      ensures !accepted ==> allies == old(allies) && counts == old(counts)
      ensures accepted ==>
                && allies.Keys == old(allies).Keys
                && (forall p | p in allies && p != actor && p != target :: allies[p] == old(allies)[p])
                && (forall p :: p in allies[actor] <==> if p == target then allied else p in old(allies)[actor])
                && (forall p :: p in allies[target] <==> if p == actor then allied else p in old(allies)[target])
      ensures accepted && (target in old(allies)[actor]) == allied ==> allies == old(allies) && counts == old(counts)
      ensures accepted && (target in old(allies)[actor]) != allied ==>
                ChangedBy(old(counts), counts, actor, target, allied)
      ensures old(Exact(border, allies)) && accepted && (target in old(allies)[actor]) != allied ==>
                (Exact(border, allies) <==>
                   if allied then NoBarbarianBorderShown(sight, border, actor, target)
                   else NothingBarbarianHidden(sight, border, old(counts), actor, target))
    {
      if actor !in allies || target !in allies || actor == target {
        return false;
      }
      accepted := true;
      var wasAllied := target in allies[actor];
      AllyingIsMutual(allies, actor, target);
      if wasAllied {
        UnallyingReverses(allies, actor, target);
      }
      allies := WithAlliance(allies, actor, target, allied);
      if wasAllied != allied {
        SyncReachVisionAlliance(actor, target, allied);
        if old(Exact(border, allies)) {
          if allied {
            AllyingExactIffNoBarbarianBorder(sight, border, old(allies), actor, target);
          } else {
            UnallyingRecount(sight, border, old(allies), allies, actor, target);
          }
        }
      }
    }
  }

  /** Ending the alliance takes no barbarian border out of a counter that stands above zero. */
  ghost predicate NothingBarbarianHidden(sight: Sight, border: Border, counts: Counts, a: PlayerId, b: PlayerId) {
    (!IsBarbarian(a) && !IsBarbarian(b)) ||
    forall v, c :: Exchange(sight, border, a, b, v, c) == 0 || Level(counts, v, c) == 0
  }

  /** What ending an alliance does to the recount: it loses the exchange, or with a barbarian nothing. */
  lemma UnallyingRecount(sight: Sight, border: Border, together: Allies, apart: Allies, a: PlayerId, b: PlayerId)
    requires Mutual(apart) && a in apart && b in apart && a != b && b !in apart[a]
    requires together == WithAlliance(apart, a, b, true)
    ensures forall v, c :: Recount(sight, border, apart, v, c) >= 0 &&
              Recount(sight, border, together, v, c) ==
              Recount(sight, border, apart, v, c) +
              if !IsBarbarian(a) && !IsBarbarian(b) then Exchange(sight, border, a, b, v, c) else 0
  {
    forall v, c
      ensures Recount(sight, border, apart, v, c) >= 0
      ensures Recount(sight, border, together, v, c) ==
              Recount(sight, border, apart, v, c) +
              if !IsBarbarian(a) && !IsBarbarian(b) then Exchange(sight, border, a, b, v, c) else 0
    {
      SumNonNegative(AllPositions(sight.grid), Terms(sight, border, apart, v, c));
      if IsBarbarian(a) || IsBarbarian(b) {
        BarbarianAllianceShowsNothing(sight, border, apart, a, b, v, c);
      } else {
        RecountAfterAllying(sight, border, apart, a, b, v, c);
      }
    }
  }

  lemma WholeBorder(sight: Sight, border: Border, source: PlayerId, c: Pos)
    requires BorderOnGrid(sight.grid, border)
    ensures PartOwn(sight, border, source, c, border.Keys) == Own(sight, border, source, c)
  {
    var all, f := AllPositions(sight.grid), OwnTerms(sight, border, source, c);
    SumOfUnion(border.Keys, all - border.Keys, f);
    assert border.Keys + (all - border.Keys) == all;
    SumOfZero(all - border.Keys, f);
  }
}
