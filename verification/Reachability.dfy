/** Paths and connectivity in a directed graph given by its edge relation. */
module Reachability {

  ghost predicate IsPath<T(!new)>(edge: (T, T) -> bool, path: seq<T>) {
    |path| > 0 && forall i :: 0 < i < |path| ==> edge(path[i - 1], path[i])
  }

  ghost predicate IsPathFromTo<T(!new)>(edge: (T, T) -> bool, path: seq<T>, a: T, b: T) {
    IsPath(edge, path) && path[0] == a && path[|path| - 1] == b
  }

  ghost predicate Connected<T(!new)>(edge: (T, T) -> bool, a: T, b: T) {
    exists path :: IsPathFromTo(edge, path, a, b)
  }

  lemma Reflexive<T(!new)>(edge: (T, T) -> bool, a: T)
    ensures Connected(edge, a, a)
  {
    assert IsPathFromTo(edge, [a], a, a);
  }

  lemma Extend<T(!new)>(edge: (T, T) -> bool, a: T, b: T, c: T)
    requires Connected(edge, a, b) && edge(b, c)
    ensures Connected(edge, a, c)
  {
    var path :| IsPathFromTo(edge, path, a, b);
    assert IsPathFromTo(edge, path + [c], a, c);
  }

  lemma Transitive<T(!new)>(edge: (T, T) -> bool, a: T, b: T, c: T)
    requires Connected(edge, a, b) && Connected(edge, b, c)
    ensures Connected(edge, a, c)
  {
    var left :| IsPathFromTo(edge, left, a, b);
    var right :| IsPathFromTo(edge, right, b, c);
    var path := left + right[1..];
    assert path[|path| - 1] == c;
    assert IsPathFromTo(edge, path, a, c);
  }

  lemma Symmetric<T(!new)>(edge: (T, T) -> bool, a: T, b: T)
    requires forall p, q :: edge(p, q) ==> edge(q, p)
    requires Connected(edge, a, b)
    ensures Connected(edge, b, a)
  {
    var path :| IsPathFromTo(edge, path, a, b);
    var back := seq(|path|, i requires 0 <= i < |path| => path[|path| - 1 - i]);
    assert IsPathFromTo(edge, back, b, a);
  }

  /** A set that contains the start and is closed under the edges contains everything reachable. */
  lemma {:induction false} ClosedContains<T(!new)>(edge: (T, T) -> bool, s: set<T>, a: T, b: T)
    requires a in s && Connected(edge, a, b)
    requires forall p, q :: p in s && edge(p, q) ==> q in s
    ensures b in s
  {
    var path :| IsPathFromTo(edge, path, a, b);
    for i := 1 to |path|
      invariant path[i - 1] in s
    {
      assert edge(path[i - 1], path[i]);
    }
  }
}
