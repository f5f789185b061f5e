/** Reach vision in the game's own terms: which border tiles a player is shown, and how often they show a cell. */
module ReachVisionTerms {
  import opened Torus
  import opened World
  import opened Sums
  import opened ReachVision

  /** The offsets of `p` that land on `c`. */
  ghost function Landing(sight: Sight, p: Pos, c: Pos): set<int> {
    set i | 0 <= i < |sight.offsets(p)| &&
            sight.grid.At(p.x + sight.offsets(p)[i].0, p.y + sight.offsets(p)[i].1) == c
  }

  ghost function Hits(sight: Sight, c: Pos): Pos -> int {
    k => |Landing(sight, k, c)|
  }

  /** The border tiles a viewer is shown: its own, and those of the players that list it as an ally; never those of
      barbarians. */
  ghost function ShownTo(border: Border, allies: Allies, viewer: PlayerId): set<Pos> {
    set k | k in border && !("barbarian-" <= border[k])
            && (border[k] == viewer || (border[k] in allies && viewer in allies[border[k]]))
  }

  /** How often the border shows `c` to the viewer. Barbarians are shown nothing. */
  ghost function Shown(sight: Sight, border: Border, allies: Allies, viewer: PlayerId, c: Pos): int {
    if "barbarian-" <= viewer then 0 else Sum(ShownTo(border, allies, viewer), Hits(sight, c))
  }

  /** How often the border of `source` alone shows `c`. */
  ghost function ShownBy(sight: Sight, border: Border, source: PlayerId, c: Pos): int {
    Sum((set k | k in border && border[k] == source), Hits(sight, c))
  }

  /** What `viewer` gains at `c` when each of `a` and `b` is shown the border of the other. */
  ghost function Exchanged(sight: Sight, border: Border, a: PlayerId, b: PlayerId, viewer: PlayerId, c: Pos): int {
    if "barbarian-" <= viewer then 0
    else (if viewer == b then ShownBy(sight, border, a, c) else 0) +
         (if viewer == a then ShownBy(sight, border, b, c) else 0)
  }

  lemma {:induction false} CoverUpToCounts(sight: Sight, p: Pos, c: Pos, n: nat)
    requires n <= |sight.offsets(p)|
    ensures CoverUpTo(sight, p, c, n) == |set i | i in Landing(sight, p, c) && i < n|
  {
    if n == 0 {
      assert (set i | i in Landing(sight, p, c) && i < n) == {};
    } else {
      CoverUpToCounts(sight, p, c, n - 1);
      OneMoreBelow(Landing(sight, p, c), n - 1);
    }
  }

  lemma OneMoreBelow(s: set<int>, n: int)
    ensures |set i | i in s && i < n + 1| == |set i | i in s && i < n| + if n in s then 1 else 0
  {
    var was, now := set i | i in s && i < n, set i | i in s && i < n + 1;
    if n in s {
      assert now == was + {n};
    } else {
      assert now == was;
    }
  }

  lemma CoversIsHits(sight: Sight, p: Pos, c: Pos)
    ensures Covers(sight, p, c) == |Landing(sight, p, c)|
  {
    var n := |sight.offsets(p)|;
    CoverUpToCounts(sight, p, c, n);
    assert Landing(sight, p, c) == set i | i in Landing(sight, p, c) && i < n;
  }

  /** A sum over all positions whose terms are those of `part` and zero elsewhere. */
  lemma SumOverPart(all: set<Pos>, f: Pos -> int, part: set<Pos>, g: Pos -> int)
    requires part <= all
    requires forall k | k in all :: f(k) == if k in part then g(k) else 0
    ensures Sum(all, f) == Sum(part, g)
  {
    SumOfUnion(part, all - part, f);
    assert part + (all - part) == all;
    SumOfZero(all - part, f);
    SameTerms(part, f, g);
  }

  /** The recount counts, for each border tile the viewer is shown, the offsets that land on the cell. */
  lemma RecountInTerms(sight: Sight, border: Border, allies: Allies, viewer: PlayerId, c: Pos)
    requires forall k | k in border :: sight.grid.Holds(k)
    ensures Recount(sight, border, allies, viewer, c) == Shown(sight, border, allies, viewer, c)
  {
    var all, terms := AllPositions(sight.grid), Terms(sight, border, allies, viewer, c);
    forall k ensures Covers(sight, k, c) == Hits(sight, c)(k) {
      CoversIsHits(sight, k, c);
    }
    if "barbarian-" <= viewer {
      SumOfZero(all, terms);
    } else {
      SumOverPart(all, terms, ShownTo(border, allies, viewer), Hits(sight, c));
    }
  }

  lemma OwnInTerms(sight: Sight, border: Border, source: PlayerId, c: Pos)
    requires forall k | k in border :: sight.grid.Holds(k)
    ensures Own(sight, border, source, c) == ShownBy(sight, border, source, c)
  {
    forall k ensures Covers(sight, k, c) == Hits(sight, c)(k) {
      CoversIsHits(sight, k, c);
    }
    SumOverPart(AllPositions(sight.grid), OwnTerms(sight, border, source, c),
                (set k | k in border && border[k] == source), Hits(sight, c));
  }

  lemma ExchangeInTerms(sight: Sight, border: Border, a: PlayerId, b: PlayerId, viewer: PlayerId, c: Pos)
    requires forall k | k in border :: sight.grid.Holds(k)
    ensures Exchange(sight, border, a, b, viewer, c) == Exchanged(sight, border, a, b, viewer, c)
  {
    OwnInTerms(sight, border, a, c);
    OwnInTerms(sight, border, b, c);
  }
}
