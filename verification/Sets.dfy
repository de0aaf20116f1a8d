/** Cardinality under a name, with the few facts that proofs need: proofs that do not count can hide it. */
module Sets {

  function Size<T>(a: set<T>): nat {
    |a|
  }

  lemma EmptySize<T>(a: set<T>)
    ensures Size(a) == 0 <==> a == {}
  {
  }

  lemma AddOne<T>(a: set<T>, x: T)
    ensures if x in a then a + {x} == a else Size(a + {x}) == Size(a) + 1
  {
  }

  lemma RemoveOne<T>(a: set<T>, x: T)
    ensures if x in a then Size(a - {x}) == Size(a) - 1 else a - {x} == a
  {
  }

  lemma DisjointSize<T>(a: set<T>, b: set<T>)
    requires a !! b
    ensures Size(a + b) == Size(a) + Size(b)
  {
  }

  lemma SmallerSet<T>(a: set<T>, b: set<T>)
    requires a <= b
    ensures Size(a) <= Size(b)
  {
    assert b == a + (b - a);
  }

  lemma SizeWithout<T>(a: set<T>, b: set<T>)
    ensures Size(a - b) == Size(a) - Size(a * b)
  {
    assert a == (a - b) + (a * b);
  }

  lemma TwoMembers<T>(a: set<T>, x: T, y: T)
    requires x in a && y in a && x != y
    ensures Size(a) >= 2
  {
    SmallerSet({x, y}, a);
  }
}
