/** Sums of an integer-valued function over a finite set, as SQL's SUM computes them.
    The order in which the rows are visited is not known; SumPick says it does not matter. */
module Sums {

  ghost function Sum<K(!new)>(s: set<K>, f: K -> int): int {
    if s == {} then 0 else var x :| x in s; f(x) + Sum(s - {x}, f)
  }

  /** Any element can be taken out first. */
  lemma {:induction false} SumPick<K(!new)>(s: set<K>, f: K -> int, x: K)
    requires x in s
    ensures Sum(s, f) == f(x) + Sum(s - {x}, f)
    decreases |s|
  {
    var y :| y in s && Sum(s, f) == f(y) + Sum(s - {y}, f);
    if x != y {
      SumPick(s - {y}, f, x);
      SumPick(s - {x}, f, y);
      assert s - {y} - {x} == s - {x} - {y};
    }
  }

  lemma SumAdd<K(!new)>(s: set<K>, f: K -> int, x: K)
    requires x !in s
    ensures Sum(s + {x}, f) == f(x) + Sum(s, f)
  {
    SumPick(s + {x}, f, x);
    assert s + {x} - {x} == s;
  }

  lemma {:induction false} SumCongruent<K(!new)>(s: set<K>, f: K -> int, g: K -> int)
    requires forall x :: x in s ==> f(x) == g(x)
    ensures Sum(s, f) == Sum(s, g)
    decreases |s|
  {
    if s != {} {
      var x :| x in s;
      SumPick(s, f, x);
      SumPick(s, g, x);
      SumCongruent(s - {x}, f, g);
    }
  }

  /** Changing the function at one element changes the sum by the difference there. */
  lemma SumChange<K(!new)>(s: set<K>, f: K -> int, g: K -> int, x: K)
    requires x in s
    requires forall y :: y in s && y != x ==> f(y) == g(y)
    ensures Sum(s, g) == Sum(s, f) + g(x) - f(x)
  {
    SumPick(s, f, x);
    SumPick(s, g, x);
    SumCongruent(s - {x}, f, g);
  }

  lemma {:induction false} SumUnion<K(!new)>(s: set<K>, t: set<K>, f: K -> int)
    requires s !! t
    ensures Sum(s + t, f) == Sum(s, f) + Sum(t, f)
    decreases |t|
  {
    if t == {} {
      assert s + t == s;
    } else {
      var x :| x in t;
      SumPick(t, f, x);
      SumPick(s + t, f, x);
      assert s + t - {x} == s + (t - {x});
      SumUnion(s, t - {x}, f);
    }
  }

  lemma {:induction false} SumBounds<K(!new)>(s: set<K>, f: K -> int)
    requires forall x :: x in s ==> f(x) > 0
    ensures Sum(s, f) >= 0
    ensures Sum(s, f) == 0 <==> s == {}
    decreases |s|
  {
    if s != {} {
      var x :| x in s;
      SumPick(s, f, x);
      SumBounds(s - {x}, f);
    }
  }

  lemma {:induction false} SumPlus<K(!new)>(s: set<K>, f: K -> int, g: K -> int, h: K -> int)
    requires forall x :: x in s ==> h(x) == f(x) + g(x)
    ensures Sum(s, h) == Sum(s, f) + Sum(s, g)
    decreases |s|
  {
    if s != {} {
      var x :| x in s;
      SumPick(s, f, x);
      SumPick(s, g, x);
      SumPick(s, h, x);
      SumPlus(s - {x}, f, g, h);
    }
  }

  lemma {:induction false} SumZero<K(!new)>(s: set<K>, f: K -> int)
    requires forall x :: x in s ==> f(x) == 0
    ensures Sum(s, f) == 0
    decreases |s|
  {
    if s != {} {
      var x :| x in s;
      SumPick(s, f, x);
      SumZero(s - {x}, f);
    }
  }

  /** Sums of terms that are pairwise at least as large are equal only if all terms are. */
  lemma {:induction false} SumTight<K(!new)>(s: set<K>, f: K -> int, g: K -> int)
    requires forall x :: x in s ==> f(x) >= g(x)
    ensures Sum(s, f) >= Sum(s, g)
    ensures Sum(s, f) == Sum(s, g) <==> forall x :: x in s ==> f(x) == g(x)
    decreases |s|
  {
    if s != {} {
      var x :| x in s;
      SumPick(s, f, x);
      SumPick(s, g, x);
      SumTight(s - {x}, f, g);
      assert forall y :: y in s <==> y == x || y in s - {x};
    }
  }

  /** A function that agrees with g on two disjoint parts and is zero elsewhere. */
  lemma SumParts<K(!new)>(s: set<K>, a: set<K>, b: set<K>, f: K -> int, g: K -> int)
    requires a <= s && b <= s && a !! b
    requires forall x :: x in s ==> f(x) == if x in a || x in b then g(x) else 0
    ensures Sum(s, f) == Sum(a, g) + Sum(b, g)
  {
    var rest := s - a - b;
    SumZero(rest, f);
    SumUnion(a, b, f);
    SumUnion(a + b, rest, f);
    assert a + b + rest == s;
    SumCongruent(a, f, g);
    SumCongruent(b, f, g);
  }

  /** The members of s that land in class k under the classifier c. */
  ghost function Class<K(!new), C(!new)>(s: set<K>, c: K -> C, k: C): set<K> {
    set x | x in s && c(x) == k
  }

  /** Summing by class and then over the classes is summing over every member of those classes:
      the law behind GROUP BY. */
  lemma {:induction false} SumByClass<K(!new), C(!new)>(s: set<K>, c: K -> C, classes: set<C>, f: K -> int)
    ensures Sum(classes, k => Sum(Class(s, c, k), f)) == Sum((set x | x in s && c(x) in classes), f)
    decreases |classes|
  {
    var total: C -> int := k => Sum(Class(s, c, k), f);
    if classes == {} {
      assert (set x | x in s && c(x) in classes) == {};
    } else {
      var k :| k in classes;
      var rest := classes - {k};
      SumPick(classes, total, k);
      SumByClass(s, c, rest, f);
      SumCongruent(rest, total, k => Sum(Class(s, c, k), f));
      var inRest := set x | x in s && c(x) in rest;
      SumUnion(inRest, Class(s, c, k), f);
      assert (set x | x in s && c(x) in classes) == inRest + Class(s, c, k);
      SumCongruent(classes, total, k => Sum(Class(s, c, k), f));
    }
  }

  /** When every member has a listed class and g is the sum of each class, g sums to the whole. */
  lemma SumOfClasses<K(!new), C(!new)>(s: set<K>, c: K -> C, classes: set<C>, f: K -> int, g: C -> int)
    requires forall x :: x in s ==> c(x) in classes
    requires forall k :: k in classes ==> g(k) == Sum(Class(s, c, k), f)
    ensures Sum(classes, g) == Sum(s, f)
  {
    SumByClass(s, c, classes, f);
    SumCongruent(classes, g, k => Sum(Class(s, c, k), f));
    assert (set x | x in s && c(x) in classes) == s;
  }
}
