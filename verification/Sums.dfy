/** Sums over finite sets, the recounts that incremental counters are compared with. */
module Sums {

  ghost function Sum<T(!new)>(s: set<T>, f: T -> int): int
    decreases |s|
  {
    if s == {} then 0 else var x :| x in s; f(x) + Sum(s - {x}, f)
  }

  lemma Member<T(!new)>(s: set<T>) returns (x: T)
    requires s != {}
    ensures x in s
  {
    x :| x in s;
  }

  /** Any element can be taken out of a sum first. */
  lemma {:induction false} TakeOut<T(!new)>(s: set<T>, f: T -> int, y: T)
    requires y in s
    ensures Sum(s, f) == f(y) + Sum(s - {y}, f)
    decreases |s|
  {
    var x :| x in s && Sum(s, f) == f(x) + Sum(s - {x}, f);
    if x != y {
      TakeOut(s - {x}, f, y);
      TakeOut(s - {y}, f, x);
      assert s - {x} - {y} == s - {y} - {x};
    }
  }

  lemma PutIn<T(!new)>(s: set<T>, f: T -> int, y: T)
    requires y !in s
    ensures Sum(s + {y}, f) == f(y) + Sum(s, f)
  {
    TakeOut(s + {y}, f, y);
    assert s + {y} - {y} == s;
  }

  /** Summands matter only on the set. */
  lemma {:induction false} SameTerms<T(!new)>(s: set<T>, f: T -> int, g: T -> int)
    requires forall x | x in s :: f(x) == g(x)
    ensures Sum(s, f) == Sum(s, g)
    decreases |s|
  {
    if s != {} {
      var x :| x in s && Sum(s, f) == f(x) + Sum(s - {x}, f);
      SameTerms(s - {x}, f, g);
      TakeOut(s, g, x);
    }
  }

  /** Changing one summand changes the sum by the same amount. */
  lemma OneTermChanged<T(!new)>(s: set<T>, f: T -> int, g: T -> int, y: T)
    requires y in s && forall x | x in s && x != y :: f(x) == g(x)
    ensures Sum(s, g) == Sum(s, f) - f(y) + g(y)
  {
    TakeOut(s, f, y);
    TakeOut(s, g, y);
    SameTerms(s - {y}, f, g);
  }

  lemma {:induction false} SumOfSums<T(!new)>(s: set<T>, f: T -> int, g: T -> int, h: T -> int)
    requires forall x | x in s :: h(x) == f(x) + g(x)
    ensures Sum(s, h) == Sum(s, f) + Sum(s, g)
    decreases |s|
  {
    if s != {} {
      var x :| x in s && Sum(s, h) == h(x) + Sum(s - {x}, h);
      SumOfSums(s - {x}, f, g, h);
      TakeOut(s, f, x);
      TakeOut(s, g, x);
    }
  }

  lemma {:induction false} SumNonNegative<T(!new)>(s: set<T>, f: T -> int)
    requires forall x | x in s :: f(x) >= 0
    ensures Sum(s, f) >= 0
    ensures forall x | x in s :: f(x) <= Sum(s, f)
    decreases |s|
  {
    forall x | x in s ensures f(x) <= Sum(s, f) {
      SumNonNegative(s - {x}, f);
      TakeOut(s, f, x);
    }
    if s != {} {
      var x :| x in s;
      assert 0 <= f(x) <= Sum(s, f);
    }
  }

  /** A larger set adds its extra elements. */
  lemma {:induction false} SumOfUnion<T(!new)>(s: set<T>, t: set<T>, f: T -> int)
    requires s !! t
    ensures Sum(s + t, f) == Sum(s, f) + Sum(t, f)
    decreases |t|
  {
    if t == {} {
      assert s + t == s;
    } else {
      var x :| x in t;
      TakeOut(t, f, x);
      TakeOut(s + t, f, x);
      assert s + t - {x} == s + (t - {x});
      SumOfUnion(s, t - {x}, f);
    }
  }
}
