/** Stable sorting by a comparator, and the uniqueness of a sorted listing under a total order. */
module Sorting {

  function Insert<T>(before: (T, T) -> bool, x: T, s: seq<T>): seq<T> {
    if s == [] || !before(s[0], x) then [x] + s else [s[0]] + Insert(before, x, s[1..])
  }

  function Sort<T>(before: (T, T) -> bool, s: seq<T>): seq<T> {
    if s == [] then [] else Insert(before, s[0], Sort(before, s[1..]))
  }

  /** A strict order in which any two different values are comparable. */
  ghost predicate StrictTotal<T(!new)>(before: (T, T) -> bool) {
    && (forall a :: !before(a, a))
    && (forall a, b, c :: before(a, b) && before(b, c) ==> before(a, c))
    && (forall a, b :: a != b ==> before(a, b) || before(b, a))
  }

  ghost predicate Increasing<T(!new)>(before: (T, T) -> bool, s: seq<T>) {
    forall i, j | 0 <= i < j < |s| :: before(s[i], s[j])
  }

  ghost predicate Distinct<T(!new)>(s: seq<T>) {
    forall i, j | 0 <= i < j < |s| :: s[i] != s[j]
  }

  lemma {:induction false} InsertElements<T(!new)>(before: (T, T) -> bool, x: T, s: seq<T>)
    ensures forall y :: y in Insert(before, x, s) <==> y == x || y in s
  {
    if s == [] || !before(s[0], x) {
    } else {
      InsertElements(before, x, s[1..]);
      assert s == [s[0]] + s[1..];
    }
  }

  lemma {:induction false} SortElements<T(!new)>(before: (T, T) -> bool, s: seq<T>)
    ensures forall y :: y in Sort(before, s) <==> y in s
  {
    if s != [] {
      SortElements(before, s[1..]);
      InsertElements(before, s[0], Sort(before, s[1..]));
      assert s == [s[0]] + s[1..];
    }
  }

  lemma {:induction false} InsertIncreasing<T(!new)>(before: (T, T) -> bool, x: T, s: seq<T>)
    requires StrictTotal(before) && Increasing(before, s) && x !in s
    ensures Increasing(before, Insert(before, x, s))
  {
    if s == [] {
    } else if !before(s[0], x) {
      assert before(x, s[0]);
    } else {
      InsertIncreasing(before, x, s[1..]);
      InsertElements(before, x, s[1..]);
      var tail := Insert(before, x, s[1..]);
      forall j | 0 <= j < |tail| ensures before(s[0], tail[j]) {
        assert tail[j] in tail;
      }
    }
  }

  lemma {:induction false} SortIncreasing<T(!new)>(before: (T, T) -> bool, s: seq<T>)
    requires StrictTotal(before) && Distinct(s)
    ensures Increasing(before, Sort(before, s))
  {
    if s != [] {
      SortIncreasing(before, s[1..]);
      SortElements(before, s[1..]);
      assert s[0] !in s[1..];
      InsertIncreasing(before, s[0], Sort(before, s[1..]));
    }
  }

  lemma {:induction false} OneIncreasingListing<T(!new)>(before: (T, T) -> bool, a: seq<T>, b: seq<T>)
    requires StrictTotal(before) && Increasing(before, a) && Increasing(before, b)
    requires forall x :: x in a <==> x in b
    ensures a == b
    decreases |a|
  {
    assert b == [] || b[0] in b;
    if a != [] {
      assert a[0] in a;
      SameHead(before, a, b);
      forall x ensures x in a[1..] <==> x in b[1..] {
        TailElements(before, a, x);
        TailElements(before, b, x);
      }
      OneIncreasingListing(before, a[1..], b[1..]);
      assert a == [a[0]] + a[1..] && b == [b[0]] + b[1..];
    }
  }

  lemma SameHead<T(!new)>(before: (T, T) -> bool, a: seq<T>, b: seq<T>)
    requires StrictTotal(before) && Increasing(before, a) && Increasing(before, b)
    requires a != [] && b != [] && a[0] in b && b[0] in a
    ensures a[0] == b[0]
  {
    var i :| 0 <= i < |b| && b[i] == a[0];
    var j :| 0 <= j < |a| && a[j] == b[0];
  }

  lemma TailElements<T(!new)>(before: (T, T) -> bool, s: seq<T>, x: T)
    requires StrictTotal(before) && Increasing(before, s) && s != []
    ensures x in s[1..] <==> x in s && x != s[0]
  {
    if x in s[1..] {
      var i :| 0 <= i < |s| - 1 && s[1..][i] == x;
      assert before(s[0], s[i + 1]);
    }
    assert s == [s[0]] + s[1..];
  }

  /** A set has one sorted listing: the result does not depend on the order the elements came in. */
  lemma SortIgnoresOrder<T(!new)>(before: (T, T) -> bool, a: seq<T>, b: seq<T>)
    requires StrictTotal(before) && Distinct(a) && Distinct(b)
    requires forall x :: x in a <==> x in b
    ensures Sort(before, a) == Sort(before, b)
  {
    SortElements(before, a);
    SortElements(before, b);
    SortIncreasing(before, a);
    SortIncreasing(before, b);
    OneIncreasingListing(before, Sort(before, a), Sort(before, b));
  }

  // ---------- ties ----------

  /** A strict order in which being tied is an equivalence, as for an order by a numeric key. */
  ghost predicate StrictWeak<T(!new)>(before: (T, T) -> bool) {
    && (forall a :: !before(a, a))
    && (forall a, b, c :: before(a, b) && before(b, c) ==> before(a, c))
    && (forall a, b, c :: before(a, c) ==> before(a, b) || before(b, c))
  }

  ghost predicate Ascending<T(!new)>(before: (T, T) -> bool, s: seq<T>) {
    forall i, j | 0 <= i < j < |s| :: !before(s[j], s[i])
  }

  /** The elements of `s` that are tied with `x`, in their order. */
  function TiedWith<T>(before: (T, T) -> bool, x: T, s: seq<T>): seq<T> {
    if s == [] then []
    else (if !before(s[0], x) && !before(x, s[0]) then [s[0]] else []) + TiedWith(before, x, s[1..])
  }

  lemma {:induction false} InsertAscending<T(!new)>(before: (T, T) -> bool, y: T, s: seq<T>)
    requires StrictWeak(before) && Ascending(before, s)
    ensures Ascending(before, Insert(before, y, s))
  {
    if s == [] || !before(s[0], y) {
      forall j | 0 <= j < |s| ensures !before(s[j], y) {
        assert !before(s[j], s[0]) || j == 0;
      }
    } else {
      InsertAscending(before, y, s[1..]);
      InsertElements(before, y, s[1..]);
      var tail := Insert(before, y, s[1..]);
      forall j | 0 <= j < |tail| ensures !before(tail[j], s[0]) {
        assert tail[j] in tail;
      }
    }
  }

  lemma {:induction false} InsertStable<T(!new)>(before: (T, T) -> bool, y: T, s: seq<T>, x: T)
    requires StrictWeak(before)
    ensures TiedWith(before, x, Insert(before, y, s)) == TiedWith(before, x, [y] + s)
  {
    assert ([y] + s)[1..] == s;
    if s != [] && before(s[0], y) {
      InsertStable(before, y, s[1..], x);
      assert ([y] + s[1..])[1..] == s[1..];
      assert ([s[0]] + Insert(before, y, s[1..]))[1..] == Insert(before, y, s[1..]);
    }
  }

  /** Sorting puts nothing after a greater element, and leaves tied elements in the order they came in. */
  lemma {:induction false} SortIsStable<T(!new)>(before: (T, T) -> bool, s: seq<T>, x: T)
    requires StrictWeak(before)
    ensures Ascending(before, Sort(before, s))
    ensures TiedWith(before, x, Sort(before, s)) == TiedWith(before, x, s)
  {
    if s != [] {
      SortIsStable(before, s[1..], x);
      InsertAscending(before, s[0], Sort(before, s[1..]));
      InsertStable(before, s[0], Sort(before, s[1..]), x);
      assert ([s[0]] + Sort(before, s[1..]))[1..] == Sort(before, s[1..]);
    }
  }
}
