/** The toroidal map: positions, coordinate wrapping and the two neighbourhoods the rules engine walks. */
module Torus {

  type Extent = n: int | n > 0 witness 1

  datatype Pos = Pos(x: int, y: int)

  /** The remainder operator of the source language: it truncates toward zero, so it has the sign of `a`. */
  function TruncRem(a: int, n: Extent): int {
    if a >= 0 then a % n else -((-a) % n)
  }

  function Wrap(value: int, size: Extent): (r: int)
    ensures 0 <= r < size
  {
    var remainder := TruncRem(value, size);
    if remainder < 0 then remainder + size else remainder
  }

  lemma {:induction false} TimesAtLeast(k: int, n: Extent)
    requires k >= 1
    ensures k * n >= n
    decreases k
  {
    if k > 1 {
      TimesAtLeast(k - 1, n);
      assert k * n == (k - 1) * n + n;
    }
  }

  /** Division with remainder determines the remainder. */
  lemma RemainderUnique(n: Extent, q: int, r: int, q': int, r': int)
    requires q * n + r == q' * n + r' && 0 <= r < n && 0 <= r' < n
    ensures r == r'
  {
    assert (q - q') * n == q * n - q' * n;
    assert (q' - q) * n == q' * n - q * n;
    if q > q' {
      TimesAtLeast(q - q', n);
    } else if q < q' {
      TimesAtLeast(q' - q, n);
    }
  }

  lemma SmallRemainder(v: int, n: Extent)
    requires 0 <= v < n + n
    ensures v % n == if v < n then v else v - n
  {
    var q, r := v / n, v % n;
    assert v == q * n + r;
    RemainderUnique(n, q, r, if v < n then 0 else 1, if v < n then v else v - n);
  }

  /** On values at most one map away from the map, wrapping is a single shift. */
  lemma WrapNear(v: int, n: Extent)
    requires 0 <= v + n && v < n + n
    ensures Wrap(v, n) == if v < 0 then v + n else if v < n then v else v - n
  {
    SmallRemainder(if v < 0 then -v else v, n);
  }

  lemma TruncRemCongruent(a: int, n: Extent)
    ensures (a - TruncRem(a, n)) % n == 0
    ensures 0 - n < TruncRem(a, n) < n
  {
    var m := if a >= 0 then a else -a;
    var q := if a >= 0 then m / n else -(m / n);
    assert m == m / n * n + m % n;
    assert a - TruncRem(a, n) == q * n + 0;
    var d := q * n;
    RemainderUnique(n, d / n, d % n, q, 0);
  }

  /** Wrapping moves a coordinate by whole maps only. */
  lemma WrapCongruent(value: int, size: Extent)
    ensures (value - Wrap(value, size)) % size == 0
  {
    var rest := TruncRem(value, size);
    TruncRemCongruent(value, size);
    var d := value - rest;
    assert d == d / size * size;
    var k := if rest < 0 then d / size - 1 else d / size;
    assert value - Wrap(value, size) == k * size + 0;
    RemainderUnique(size, (value - Wrap(value, size)) / size, (value - Wrap(value, size)) % size, k, 0);
  }

  /** A unit step is undone by the opposite step. */
  lemma StepBack(a: int, d: int, n: Extent)
    requires 0 <= a < n && -1 <= d <= 1
    ensures Wrap(Wrap(a + d, n) - d, n) == a
  {
    WrapNear(a + d, n);
    WrapNear(Wrap(a + d, n) - d, n);
  }

  const CARDINAL_OFFSETS: seq<(int, int)> := [(-1, 0), (1, 0), (0, -1), (0, 1)]

  const COMPASS_OFFSETS: seq<(int, int)> := [(0, -1), (1, 0), (0, 1), (-1, 0)]

  const RING_OFFSETS: seq<(int, int)> := [(-1, -1), (0, -1), (1, -1), (-1, 0), (1, 0), (-1, 1), (0, 1), (1, 1)]

  datatype Grid = Grid(w: Extent, h: Extent) {
    predicate Holds(p: Pos) {
      0 <= p.x < w && 0 <= p.y < h
    }

    function At(x: int, y: int): (p: Pos)
      ensures Holds(p)
    {
      Pos(Wrap(x, w), Wrap(y, h))
    }

    /** Positions are the coordinates modulo the extent of the map. */
    lemma AtIsCongruent(x: int, y: int)
      ensures (x - At(x, y).x) % w == 0 && (y - At(x, y).y) % h == 0
    {
      WrapCongruent(x, w);
      WrapCongruent(y, h);
    }

    /** `q` lies `dx` columns and `dy` rows from `p`. */
    predicate Displaced(p: Pos, dx: int, dy: int, q: Pos) {
      q == At(p.x + dx, p.y + dy)
    }

    /** One of the eight positions around `p`. */
    predicate Touches(p: Pos, q: Pos) {
      exists dx, dy | -1 <= dx <= 1 && -1 <= dy <= 1 :: (dx != 0 || dy != 0) && Displaced(p, dx, dy, q)
    }

    /** One of the four positions that share an edge with `p`. */
    predicate Borders(p: Pos, q: Pos) {
      exists dx, dy | -1 <= dx <= 1 && -1 <= dy <= 1 :: (dx == 0) != (dy == 0) && Displaced(p, dx, dy, q)
    }

    function Shift(p: Pos, d: (int, int)): (q: Pos)
      ensures Holds(q)
    {
      At(p.x + d.0, p.y + d.1)
    }

    function Around(p: Pos, offsets: seq<(int, int)>): (s: seq<Pos>)
      ensures |s| == |offsets|
      ensures forall i | 0 <= i < |s| :: s[i] == Shift(p, offsets[i])
    {
      seq(|offsets|, i requires 0 <= i < |offsets| => Shift(p, offsets[i]))
    }

    /** The four edge neighbours, in the order the floods and the scans visit them. */
    function Cardinals(p: Pos): (s: seq<Pos>)
      ensures |s| == 4
    {
      Around(p, CARDINAL_OFFSETS)
    }

    /** The edge neighbours again, clockwise from north: the order in which deposits grow. */
    function Compass(p: Pos): (s: seq<Pos>)
      ensures |s| == 4
    {
      Around(p, COMPASS_OFFSETS)
    }

    /** The eight surrounding positions, row by row. */
    function Ring(p: Pos): (s: seq<Pos>)
      ensures |s| == 8
    {
      Around(p, RING_OFFSETS)
    }

    lemma RingIsTouching(p: Pos, q: Pos)
      ensures q in Ring(p) <==> Touches(p, q)
    {
      if q in Ring(p) {
        var i :| 0 <= i < 8 && Ring(p)[i] == q;
        assert Displaced(p, RING_OFFSETS[i].0, RING_OFFSETS[i].1, q);
      }
      if Touches(p, q) {
        var dx, dy :| -1 <= dx <= 1 && -1 <= dy <= 1 && (dx != 0 || dy != 0) && Displaced(p, dx, dy, q);
        var i := if dy == -1 then dx + 1 else if dy == 1 then dx + 6 else if dx == -1 then 3 else 4;
        assert RING_OFFSETS[i] == (dx, dy);
        assert Ring(p)[i] == Shift(p, RING_OFFSETS[i]);
      }
    }

    lemma CardinalsAreBorders(p: Pos, q: Pos)
      ensures q in Cardinals(p) <==> Borders(p, q)
    {
      if q in Cardinals(p) {
        var i :| 0 <= i < 4 && Cardinals(p)[i] == q;
        assert Displaced(p, CARDINAL_OFFSETS[i].0, CARDINAL_OFFSETS[i].1, q);
      }
      if Borders(p, q) {
        var dx, dy :| -1 <= dx <= 1 && -1 <= dy <= 1 && (dx == 0) != (dy == 0) && Displaced(p, dx, dy, q);
        var i := if dx == -1 then 0 else if dx == 1 then 1 else if dy == -1 then 2 else 3;
        assert CARDINAL_OFFSETS[i] == (dx, dy);
        assert Cardinals(p)[i] == q;
      }
    }

    lemma CompassAreBorders(p: Pos, q: Pos)
      ensures q in Compass(p) <==> Borders(p, q)
    {
      if q in Compass(p) {
        var i :| 0 <= i < 4 && Compass(p)[i] == q;
        assert Displaced(p, COMPASS_OFFSETS[i].0, COMPASS_OFFSETS[i].1, q);
      }
      if Borders(p, q) {
        var dx, dy :| -1 <= dx <= 1 && -1 <= dy <= 1 && (dx == 0) != (dy == 0) && Displaced(p, dx, dy, q);
        var i := if dy == -1 then 0 else if dx == 1 then 1 else if dy == 1 then 2 else 3;
        assert COMPASS_OFFSETS[i] == (dx, dy);
        assert Compass(p)[i] == q;
      }
    }

    lemma ShiftBack(p: Pos, d: (int, int))
      requires Holds(p) && -1 <= d.0 <= 1 && -1 <= d.1 <= 1
      ensures Shift(Shift(p, d), (-d.0, -d.1)) == p
    {
      StepBack(p.x, d.0, w);
      StepBack(p.y, d.1, h);
    }

    lemma AroundBack(p: Pos, q: Pos, offsets: seq<(int, int)>, i: nat, j: nat)
      requires i < |offsets| && j < |offsets| && offsets[j] == (-offsets[i].0, -offsets[i].1)
      requires Holds(p) && -1 <= offsets[i].0 <= 1 && -1 <= offsets[i].1 <= 1
      requires Around(p, offsets)[i] == q
      ensures Around(q, offsets)[j] == p
    {
      ShiftBack(p, offsets[i]);
    }

    /** Both neighbourhoods are symmetric, across the seams as well. */
    lemma CardinalsSymmetric(p: Pos, q: Pos)
      requires Holds(p) && q in Cardinals(p)
      ensures p in Cardinals(q)
    {
      var i :| 0 <= i < 4 && Cardinals(p)[i] == q;
      AroundBack(p, q, CARDINAL_OFFSETS, i, [1, 0, 3, 2][i]);
      assert Cardinals(q)[[1, 0, 3, 2][i]] == p;
    }

    lemma RingSymmetric(p: Pos, q: Pos)
      requires Holds(p) && q in Ring(p)
      ensures p in Ring(q)
    {
      var i :| 0 <= i < 8 && Ring(p)[i] == q;
      AroundBack(p, q, RING_OFFSETS, i, 7 - i);
      assert Ring(q)[7 - i] == p;
    }

    lemma CompassInRing(p: Pos, q: Pos)
      requires q in Compass(p)
      ensures q in Cardinals(p) && q in Ring(p)
    {
      var i :| 0 <= i < 4 && q == Shift(p, COMPASS_OFFSETS[i]);
      assert Cardinals(p)[[2, 1, 3, 0][i]] == q;
      assert Ring(p)[[1, 4, 6, 3][i]] == q;
    }
  }
}
