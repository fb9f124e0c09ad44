/** Facts about integers and sequences that several modules use. */
module Basics {

  function Min(x: int, y: int): int { if x <= y then x else y }

  predicate Distinct<T(==)>(xs: seq<T>) {
    forall i, j :: 0 <= i < j < |xs| ==> xs[i] != xs[j]
  }

  lemma MulOrder(a: int, b: int, d: int)
    requires d >= 0
    ensures a <= b ==> a * d <= b * d
  {
  }

  lemma QuotientIs(x: int, d: int, n: int)
    requires d > 0 && n * d <= x < n * d + d
    ensures x / d == n
  {
    assert x == (x / d) * d + x % d;
    MulOrder(n, x / d - 1, d);
    MulOrder(x / d, n - 1, d);
  }

  lemma SameLength<T>(s: seq<T>, t: seq<T>)
    requires multiset(s) == multiset(t)
    ensures |s| == |t|
  {
    assert |multiset(s)| == |s| && |multiset(t)| == |t|;
  }

  // Arrangements of the same elements that begin alike go on with the same elements.
  lemma TailMembers<T>(s: seq<T>, t: seq<T>)
    requires s != [] && t != [] && s[0] == t[0] && multiset(s) == multiset(t)
    ensures multiset(s[1..]) == multiset(t[1..])
  {
    assert s == [s[0]] + s[1..] && t == [t[0]] + t[1..];
    assert multiset(s[1..]) == multiset(s) - multiset{s[0]};
    assert multiset(t[1..]) == multiset(t) - multiset{t[0]};
  }
}
