/** Best-first order of a batch: a stable sort by fitness score, then deal score. */
module ListingOrder {
  import opened Basics
  import opened Wrappers

  datatype Listing = Listing(token: string, fitness: real, deal: Option<int>)

  // Unscored listings rank below scored ones.
  function DealValue(l: Listing): int {
    if l.deal.Some? then l.deal.value else -1
  }

  // a goes strictly before b.
  predicate Better(a: Listing, b: Listing) {
    if a.fitness != b.fitness then a.fitness > b.fitness else DealValue(a) > DealValue(b)
  }

  predicate SameRank(a: Listing, b: Listing) {
    a.fitness == b.fitness && DealValue(a) == DealValue(b)
  }

  predicate BestFirst(s: seq<Listing>) {
    forall i, j :: 0 <= i < j < |s| ==> !Better(s[j], s[i])
  }

  // The listings of one rank, in order.
  function OfRank(s: seq<Listing>, r: Listing): seq<Listing> {
    if s == [] then []
    else (if SameRank(s[0], r) then [s[0]] else []) + OfRank(s[1..], r)
  }

  function Insert(x: Listing, s: seq<Listing>): seq<Listing> {
    if s == [] || !Better(s[0], x) then [x] + s else [s[0]] + Insert(x, s[1..])
  }

  function Sorted(s: seq<Listing>): seq<Listing> {
    if s == [] then [] else Insert(s[0], Sorted(s[1..]))
  }

  lemma {:induction false} InsertMembers(x: Listing, s: seq<Listing>)
    ensures multiset(Insert(x, s)) == multiset{x} + multiset(s)
    ensures |Insert(x, s)| == |s| + 1
    ensures forall l :: l in Insert(x, s) <==> l == x || l in s
  {
    if s != [] && Better(s[0], x) {
      assert s == [s[0]] + s[1..];
      InsertMembers(x, s[1..]);
    }
  }

  lemma {:induction false} InsertKeeps(x: Listing, s: seq<Listing>)
    requires BestFirst(s)
    ensures BestFirst(Insert(x, s))
  {
    if s == [] || !Better(s[0], x) {
      assert forall i :: 0 < i < |s| ==> !Better(s[i], s[0]);
    } else {
      var rest := s[1..];
      InsertKeeps(x, rest);
      var r := Insert(x, rest);
      forall k | 0 <= k < |r| ensures !Better(r[k], s[0]) {
        InsertMembers(x, rest);
        assert r[k] in r;
      }
    }
  }

  lemma {:induction false} InsertRanks(x: Listing, s: seq<Listing>, r: Listing)
    ensures OfRank(Insert(x, s), r) == (if SameRank(x, r) then [x] else []) + OfRank(s, r)
  {
    if s == [] || !Better(s[0], x) {
      assert ([x] + s)[1..] == s;
    } else {
      var t := Insert(x, s[1..]);
      assert ([s[0]] + t)[1..] == t;
      InsertRanks(x, s[1..], r);
    }
  }

  /** Sorted is what a stable sort by this order returns: the same listings, best first, and listings
      of equal rank in their original order. */
  lemma {:induction false} SortedIsStableSort(s: seq<Listing>)
    ensures multiset(Sorted(s)) == multiset(s)
    ensures BestFirst(Sorted(s))
    ensures forall r :: OfRank(Sorted(s), r) == OfRank(s, r)
  {
    if s != [] {
      SortedIsStableSort(s[1..]);
      assert s == [s[0]] + s[1..];
      InsertMembers(s[0], Sorted(s[1..]));
      InsertKeeps(s[0], Sorted(s[1..]));
      forall r ensures OfRank(Sorted(s), r) == OfRank(s, r) {
        InsertRanks(s[0], Sorted(s[1..]), r);
      }
    }
  }

  // a has at least the fitness of b; at the same fitness it has at least the deal score, and an unscored listing
  // stands with those scored -1.
  predicate MayPrecede(a: Listing, b: Listing) {
    && a.fitness >= b.fitness
    && (a.fitness == b.fitness ==>
          match (a.deal, b.deal)
          case (Some(x), Some(y)) => x >= y
          case (Some(x), None) => x >= -1
          case (None, Some(y)) => y <= -1
          case (None, None) => true)
  }

  /** Sorting leaves the listings with their scores falling. */
  lemma ScoresFall(s: seq<Listing>)
    ensures forall i, j :: 0 <= i < j < |Sorted(s)| ==> MayPrecede(Sorted(s)[i], Sorted(s)[j])
  {
    SortedIsStableSort(s);
    forall i, j | 0 <= i < j < |Sorted(s)| ensures MayPrecede(Sorted(s)[i], Sorted(s)[j]) {
      assert !Better(Sorted(s)[j], Sorted(s)[i]);
    }
  }

  lemma OfRankTail(s: seq<Listing>, r: Listing)
    requires s != []
    ensures OfRank(s, r) == if SameRank(s[0], r) then [s[0]] + OfRank(s[1..], r) else OfRank(s[1..], r)
  {
  }

  lemma NoneBetterThanFirst(s: seq<Listing>, t: seq<Listing>, x: Listing)
    requires multiset(s) == multiset(t) && BestFirst(s) && x in t
    ensures s != [] && !Better(x, s[0])
  {
    assert x in multiset(s);
    var i :| 0 <= i < |s| && s[i] == x;
  }

  // The first of a best-first arrangement is the first listing of the best rank.
  lemma HeadUnique(s: seq<Listing>, t: seq<Listing>)
    requires s != [] && multiset(s) == multiset(t) && BestFirst(s) && BestFirst(t)
    requires OfRank(s, s[0]) == OfRank(t, s[0])
    ensures t != [] && s[0] == t[0]
  {
    NoneBetterThanFirst(t, s, s[0]);
    NoneBetterThanFirst(s, t, t[0]);
    assert SameRank(t[0], s[0]);
    OfRankTail(s, s[0]);
    OfRankTail(t, s[0]);
    assert OfRank(s, s[0])[0] == s[0] && OfRank(t, s[0])[0] == t[0];
  }

  /** These three facts leave no choice: any such arrangement is Sorted(s). */
  lemma {:induction false} StableSortUnique(s: seq<Listing>, t: seq<Listing>)
    requires multiset(s) == multiset(t) && BestFirst(s) && BestFirst(t)
    requires forall r :: OfRank(s, r) == OfRank(t, r)
    ensures s == t
  {
    SameLength(s, t);
    if s != [] {
      HeadUnique(s, t);
      TailMembers(s, t);
      forall r ensures OfRank(s[1..], r) == OfRank(t[1..], r) {
        OfRankTail(s, r);
        OfRankTail(t, r);
        assert OfRank(s, r) == OfRank(t, r);
        if SameRank(s[0], r) {
          assert OfRank(s, r)[1..] == OfRank(s[1..], r) && OfRank(t, r)[1..] == OfRank(t[1..], r);
        }
      }
      StableSortUnique(s[1..], t[1..]);
      assert s == [s[0]] + s[1..] && t == [t[0]] + t[1..];
    }
  }

  // The library's stable sort, called on the batch in place.
  method SortByScore(a: array<Listing>)
    modifies a
    ensures a[..] == Sorted(old(a[..]))
    ensures forall i, j :: 0 <= i < j < a.Length ==> a[i].fitness >= a[j].fitness && MayPrecede(a[i], a[j])
  {
    var s := Sorted(a[..]);
    SortedIsStableSort(a[..]);
    ScoresFall(a[..]);
    SameLength(s, a[..]);
    forall i | 0 <= i < a.Length {
      a[i] := s[i];
    }
  }
}
