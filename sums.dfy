/**
  * Finite sums over sets, used to state the conservation of balances and the totals of
  * settlement loops independently of the order in which the source iterates storage.
  */
module Sums {

  /** The sum of `f` over the finite set `s`. */
  ghost function SumOf<K>(s: set<K>, f: K -> nat): nat
    decreases |s|
  {
    if s == {} then 0 else var k :| k in s; f(k) + SumOf(s - {k}, f)
  }

  /** Any element can be split off first: the sum does not depend on the order of choice. */
  lemma {:induction false} SumOfRemove<K>(s: set<K>, f: K -> nat, k: K)
    requires k in s
    ensures SumOf(s, f) == f(k) + SumOf(s - {k}, f)
    decreases |s|
  {
    var j :| j in s && SumOf(s, f) == f(j) + SumOf(s - {j}, f);
    if j != k {
      assert k in s - {j};
      SumOfRemove(s - {j}, f, k);
      assert j in s - {k};
      SumOfRemove(s - {k}, f, j);
      assert s - {j} - {k} == s - {k} - {j};
    }
  }

  /** The sum over a disjoint union is the sum of the sums. */
  lemma {:induction false} SumOfUnion<K>(a: set<K>, b: set<K>, f: K -> nat)
    requires a !! b
    ensures SumOf(a + b, f) == SumOf(a, f) + SumOf(b, f)
    decreases |a|
  {
    if a != {} {
      var k :| k in a;
      SumOfRemove(a + b, f, k);
      SumOfRemove(a, f, k);
      assert (a + b) - {k} == (a - {k}) + b;
      SumOfUnion(a - {k}, b, f);
    } else {
      assert a + b == b;
    }
  }

  /** Adding one fresh element adds its value. */
  lemma SumOfAdd<K>(s: set<K>, f: K -> nat, k: K)
    requires k !in s
    ensures SumOf(s + {k}, f) == SumOf(s, f) + f(k)
  {
    SumOfRemove(s + {k}, f, k);
    assert (s + {k}) - {k} == s;
  }

  /** Functions that agree on `s` have the same sum over `s`. */
  lemma {:induction false} SumOfAgree<K>(s: set<K>, f: K -> nat, g: K -> nat)
    requires forall x :: x in s ==> f(x) == g(x)
    ensures SumOf(s, f) == SumOf(s, g)
    decreases |s|
  {
    if s != {} {
      var k :| k in s;
      SumOfRemove(s, f, k);
      SumOfRemove(s, g, k);
      SumOfAgree(s - {k}, f, g);
    }
  }

  /** A sum is at least each of its terms. */
  lemma SumOfAtLeast<K>(s: set<K>, f: K -> nat, k: K)
    requires k in s
    ensures f(k) <= SumOf(s, f)
  {
    SumOfRemove(s, f, k);
  }

  /** A sum over a subset is at most the sum over the whole set. */
  lemma SumOfSubset<K>(a: set<K>, b: set<K>, f: K -> nat)
    requires a <= b
    ensures SumOf(a, f) <= SumOf(b, f)
  {
    SumOfUnion(a, b - a, f);
    assert a + (b - a) == b;
  }

  /** A sum of zeros is zero. */
  lemma {:induction false} SumOfZero<K>(s: set<K>, f: K -> nat)
    requires forall x :: x in s ==> f(x) == 0
    ensures SumOf(s, f) == 0
    decreases |s|
  {
    if s != {} {
      var k :| k in s;
      SumOfRemove(s, f, k);
      SumOfZero(s - {k}, f);
    }
  }

  /** The sum of a pointwise sum is the sum of the sums. */
  lemma {:induction false} SumOfPlus<K>(s: set<K>, f: K -> nat, g: K -> nat, h: K -> nat)
    requires forall x :: x in s ==> h(x) == f(x) + g(x)
    ensures SumOf(s, h) == SumOf(s, f) + SumOf(s, g)
    decreases |s|
  {
    if s != {} {
      var k :| k in s;
      SumOfRemove(s, f, k);
      SumOfRemove(s, g, k);
      SumOfRemove(s, h, k);
      SumOfPlus(s - {k}, f, g, h);
    }
  }
}
