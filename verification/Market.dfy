/** Market medians: looked up from raw listings or from precomputed cohorts, over a band of three years. */
module Market {
  import opened Basics
  import opened QueryKey
  import opened Text

  const MIN_COHORT_SIZE := 10
  const MIN_PRICE_FLOOR := 5000

  datatype ListingData = ListingData(manufacturer: string, model: string, year: int, price: int, km: int)

  datatype Entry = Entry(year: int, price: int, km: int)

  datatype MedianEntry = MedianEntry(
    manufacturer: string, model: string, year: int, medianPrice: int, medianKm: int, cohortSize: int)

  datatype LookupResult = LookupResult(median: int, medianKm: int, cohortSize: int, ok: bool)

  /* ---- sorting and the median ---- */

  predicate Ascending(s: seq<int>) {
    forall i, j :: 0 <= i < j < |s| ==> s[i] <= s[j]
  }

  function InsertInt(x: int, s: seq<int>): (r: seq<int>)
    ensures |r| == |s| + 1
  {
    if s == [] || x <= s[0] then [x] + s else [s[0]] + InsertInt(x, s[1..])
  }

  function SortInts(s: seq<int>): (r: seq<int>)
    ensures |r| == |s|
  {
    if s == [] then [] else InsertInt(s[0], SortInts(s[1..]))
  }

  lemma {:induction false} InsertIntMembers(x: int, s: seq<int>)
    ensures multiset(InsertInt(x, s)) == multiset{x} + multiset(s)
  {
    if s == [] || x <= s[0] {
    } else {
      assert s == [s[0]] + s[1..];
      InsertIntMembers(x, s[1..]);
    }
  }

  lemma {:induction false} InsertIntAscends(x: int, s: seq<int>)
    requires Ascending(s)
    ensures Ascending(InsertInt(x, s))
    ensures s != [] && s[0] < x ==> InsertInt(x, s)[0] == s[0]
    ensures s == [] || x <= s[0] ==> InsertInt(x, s)[0] == x
  {
    if s == [] || x <= s[0] {
    } else {
      InsertIntAscends(x, s[1..]);
      var r := InsertInt(x, s[1..]);
      assert s[0] <= r[0];
    }
  }

  lemma {:induction false} SortIntsSorts(s: seq<int>)
    ensures Ascending(SortInts(s)) && multiset(SortInts(s)) == multiset(s)
  {
    if s != [] {
      SortIntsSorts(s[1..]);
      InsertIntAscends(s[0], SortInts(s[1..]));
      InsertIntMembers(s[0], SortInts(s[1..]));
      assert s == [s[0]] + s[1..];
    }
  }

  lemma LeastFirst(s: seq<int>, x: int)
    requires Ascending(s) && x in multiset(s)
    ensures s != [] && s[0] <= x
  {
    assert x in s;
  }

  lemma {:induction false} AscendingUnique(s: seq<int>, t: seq<int>)
    requires Ascending(s) && Ascending(t) && multiset(s) == multiset(t)
    ensures s == t
  {
    if s == [] {
      assert |multiset(t)| == |t|;
    } else {
      assert s[0] in multiset(s);
      LeastFirst(t, s[0]);
      assert t[0] in multiset(t);
      LeastFirst(s, t[0]);
      TailMembers(s, t);
      AscendingUnique(s[1..], t[1..]);
      assert s == [s[0]] + s[1..] && t == [t[0]] + t[1..];
    }
  }

  // Integer division of the source: towards zero.
  function Quo(a: int, b: int): int
    requires b > 0
  {
    if a >= 0 then a / b else -(-a / b)
  }

  // The middle of sorted values, or halfway between the middle two.
  function Middle(t: seq<int>): int {
    var n := |t|;
    if n == 0 then 0
    else if n % 2 == 0 then Quo(t[n / 2 - 1] + t[n / 2], 2)
    else t[n / 2]
  }

  function MedianOf(s: seq<int>): int {
    Middle(SortInts(s))
  }

  function AtMost(s: seq<int>, x: int): nat {
    if s == [] then 0 else (if s[0] <= x then 1 else 0) + AtMost(s[1..], x)
  }

  function AtLeast(s: seq<int>, x: int): nat {
    if s == [] then 0 else (if s[0] >= x then 1 else 0) + AtLeast(s[1..], x)
  }

  lemma {:induction false} InsertIntCounts(y: int, s: seq<int>, x: int)
    ensures AtMost(InsertInt(y, s), x) == (if y <= x then 1 else 0) + AtMost(s, x)
    ensures AtLeast(InsertInt(y, s), x) == (if y >= x then 1 else 0) + AtLeast(s, x)
  {
    if s == [] || y <= s[0] {
      assert ([y] + s)[1..] == s;
    } else {
      var r := InsertInt(y, s[1..]);
      assert ([s[0]] + r)[1..] == r;
      InsertIntCounts(y, s[1..], x);
    }
  }

  lemma {:induction false} SortIntsCounts(s: seq<int>, x: int)
    ensures AtMost(SortInts(s), x) == AtMost(s, x) && AtLeast(SortInts(s), x) == AtLeast(s, x)
  {
    if s != [] {
      SortIntsCounts(s[1..], x);
      InsertIntCounts(s[0], SortInts(s[1..]), x);
    }
  }

  lemma {:induction false} PrefixCounts(t: seq<int>, k: nat, x: int)
    requires k <= |t| && forall i :: 0 <= i < k ==> t[i] <= x
    ensures AtMost(t, x) >= k
  {
    if k > 0 {
      PrefixCounts(t[1..], k - 1, x);
    }
  }

  lemma {:induction false} SuffixCounts(t: seq<int>, k: nat, x: int)
    requires k <= |t| && forall i :: k <= i < |t| ==> t[i] >= x
    ensures AtLeast(t, x) >= |t| - k
  {
    if t != [] {
      SuffixCounts(t[1..], if k > 0 then k - 1 else 0, x);
    }
  }

  lemma QuoBetween(a: int, b: int)
    requires a <= b
    ensures a <= Quo(a + b, 2) <= b
  {
  }

  lemma MiddleBetween(t: seq<int>)
    requires Ascending(t) && t != []
    ensures t[(|t| - 1) / 2] <= Middle(t) <= t[|t| / 2]
  {
    QuoBetween(t[(|t| - 1) / 2], t[|t| / 2]);
  }

  lemma MiddleSplits(t: seq<int>, x: int, low: nat, high: nat)
    requires Ascending(t) && low <= high < |t| <= low + high + 1 && t[low] <= x <= t[high]
    ensures AtMost(t, x) >= low + 1 && AtLeast(t, x) >= |t| - high
  {
    PrefixCounts(t, low + 1, x);
    SuffixCounts(t, high, x);
  }

  /** At least half of the values are no larger than the median, and at least half no smaller. */
  lemma MedianSplits(s: seq<int>)
    ensures 2 * AtMost(s, MedianOf(s)) >= |s| && 2 * AtLeast(s, MedianOf(s)) >= |s|
  {
    if s != [] {
      var t := SortInts(s);
      SortIntsSorts(s);
      MiddleBetween(t);
      MiddleSplits(t, Middle(t), (|t| - 1) / 2, |t| / 2);
      SortIntsCounts(s, Middle(t));
    }
  }

  lemma MedianOrderFree(s: seq<int>, t: seq<int>)
    requires multiset(s) == multiset(t)
    ensures MedianOf(s) == MedianOf(t)
  {
    SortIntsSorts(s);
    SortIntsSorts(t);
    AscendingUnique(SortInts(s), SortInts(t));
  }

  // The library's sort, called on the values in place, and the middle of the result.
  method MedianInt(vals: array<int>) returns (m: int)
    modifies vals
    ensures m == MedianOf(old(vals[..]))
    ensures Ascending(vals[..]) && multiset(vals[..]) == multiset(old(vals[..]))
  {
    if vals.Length == 0 {
      return 0;
    }
    var t := SortInts(vals[..]);
    SortIntsSorts(vals[..]);
    forall i | 0 <= i < vals.Length {
      vals[i] := t[i];
    }
    assert vals[..] == t;
    var n := vals.Length;
    if n % 2 == 0 {
      return Quo(vals[n / 2 - 1] + vals[n / 2], 2);
    }
    m := vals[n / 2];
  }

  /* ---- keys ---- */

  function CohortKey(u: Chars, manufacturer: string, model: string): string {
    Lower(u, manufacturer) + "|" + Lower(u, model)
  }

  function MedianKey(u: Chars, manufacturer: string, model: string, year: int): string {
    CohortKey(u, manufacturer, model) + "|" + Decimal(year)
  }

  lemma YearHasNoBar(year: int)
    ensures '|' !in Decimal(year)
  {
  }

  lemma LastBarApart(a: string, b: string, x: string, y: string)
    requires '|' !in x && '|' !in y && a + "|" + x == b + "|" + y
    ensures a == b && x == y
  {
    BarAt(a, x, b, y);
    BarAt(b, y, a, x);
    var z := a + "|" + x;
    assert z[..|a|] == a && z[|a| + 1..] == x;
    assert z[..|b|] == b && z[|b| + 1..] == y;
  }

  lemma BarAt(a: string, x: string, b: string, y: string)
    requires '|' !in y && a + "|" + x == b + "|" + y
    ensures |a| <= |b|
  {
    var z := a + "|" + x;
    assert z[|a|] == '|';
    assert forall i :: |b| < i < |z| ==> z[i] == y[i - |b| - 1];
  }

  /** Different years never share a cohort of medians. */
  lemma MedianKeysApart(u: Chars, m1: string, d1: string, y1: int, m2: string, d2: string, y2: int)
    ensures MedianKey(u, m1, d1, y1) == MedianKey(u, m2, d2, y2) <==>
            CohortKey(u, m1, d1) == CohortKey(u, m2, d2) && y1 == y2
  {
    if MedianKey(u, m1, d1, y1) == MedianKey(u, m2, d2, y2) {
      YearHasNoBar(y1);
      YearHasNoBar(y2);
      LastBarApart(CohortKey(u, m1, d1), CohortKey(u, m2, d2), Decimal(y1), Decimal(y2));
      assert Decimal(y1) + "" == Decimal(y1) && Decimal(y2) + "" == Decimal(y2);
      NumbersApart(y1, y2, "", "");
    }
  }

  /* ---- the cache built from raw listings ---- */

  // The entries of a manufacturer and model, in order.
  function EntriesOf(u: Chars, ls: seq<ListingData>, key: string): seq<Entry> {
    if ls == [] then []
    else
      var l := ls[|ls| - 1];
      EntriesOf(u, ls[..|ls| - 1], key)
      + if CohortKey(u, l.manufacturer, l.model) == key then [Entry(l.year, l.price, l.km)] else []
  }

  function EntriesFor(raw: map<string, seq<Entry>>, key: string): seq<Entry> {
    if key in raw then raw[key] else []
  }

  predicate InBand(e: Entry, year: int) {
    -1 <= e.year - year <= 1 && e.price >= MIN_PRICE_FLOOR
  }

  function PricesOf(es: seq<Entry>, year: int): seq<int> {
    if es == [] then []
    else
      var e := es[|es| - 1];
      PricesOf(es[..|es| - 1], year) + if InBand(e, year) then [e.price] else []
  }

  function KmsOf(es: seq<Entry>, year: int): seq<int> {
    if es == [] then []
    else
      var e := es[|es| - 1];
      KmsOf(es[..|es| - 1], year) + if InBand(e, year) && e.km > 0 then [e.km] else []
  }

  // The answer from these prices and mileages: none for a small cohort.
  function RawResult(prices: seq<int>, kms: seq<int>): LookupResult {
    if |prices| < MIN_COHORT_SIZE then LookupResult(0, 0, |prices|, false)
    else LookupResult(MedianOf(prices), if |kms| >= 3 then MedianOf(kms) else 0, |prices|, true)
  }

  ghost function Where(es: seq<Entry>, p: Entry -> bool): set<int> {
    set k | 0 <= k < |es| && p(es[k])
  }

  lemma WhereMore(es: seq<Entry>, p: Entry -> bool)
    requires es != []
    ensures |Where(es, p)| == |Where(es[..|es| - 1], p)| + if p(es[|es| - 1]) then 1 else 0
  {
    var n := |es| - 1;
    var front := Where(es[..n], p);
    assert Where(es, p) == if p(es[n]) then front + {n} else front;
  }

  // The listings a price or mileage comes from: at most a year older or newer, for 5000 or more, and the mileage known.
  ghost function PricedAt(es: seq<Entry>, year: int, price: int): set<int> {
    Where(es, (e: Entry) => e.price == price && e.price >= 5000 && year - 1 <= e.year <= year + 1)
  }

  ghost function DrivenFor(es: seq<Entry>, year: int, km: int): set<int> {
    Where(es, (e: Entry) => e.km == km && e.km > 0 && e.price >= 5000 && year - 1 <= e.year <= year + 1)
  }

  /** The medians are taken over exactly these listings, each counted once. */
  lemma {:induction false} BandCounted(es: seq<Entry>, year: int, v: int)
    ensures multiset(PricesOf(es, year))[v] == |PricedAt(es, year, v)|
    ensures multiset(KmsOf(es, year))[v] == |DrivenFor(es, year, v)|
  {
    if es != [] {
      var n := |es| - 1;
      BandCounted(es[..n], year, v);
      WhereMore(es, (e: Entry) => e.price == v && e.price >= 5000 && year - 1 <= e.year <= year + 1);
      WhereMore(es, (e: Entry) => e.km == v && e.km > 0 && e.price >= 5000 && year - 1 <= e.year <= year + 1);
      AppendCounts(PricesOf(es[..n], year), es[n].price, v);
      AppendCounts(KmsOf(es[..n], year), es[n].km, v);
      assert PricesOf(es[..n], year) + [] == PricesOf(es[..n], year) && KmsOf(es[..n], year) + [] == KmsOf(es[..n], year);
    }
  }

  lemma AppendCounts(xs: seq<int>, x: int, v: int)
    ensures multiset(xs + [x])[v] == multiset(xs)[v] + if x == v then 1 else 0
  {
  }

  // A list built one element at a time does not care, up to order, about the order of its source.
  ghost predicate Homomorphic<T(!new), U>(f: seq<T> -> seq<U>) {
    f([]) == [] && forall a, b :: f(a + b) == f(a) + f(b)
  }

  lemma {:induction false} OrderFree<T(!new), U>(f: seq<T> -> seq<U>, s: seq<T>, t: seq<T>)
    requires Homomorphic(f) && multiset(s) == multiset(t)
    ensures multiset(f(s)) == multiset(f(t))
  {
    assert |multiset(s)| == |s| && |multiset(t)| == |t|;
    if s != [] {
      assert s[0] in multiset(t);
      var k :| 0 <= k < |t| && t[k] == s[0];
      var rest := t[..k] + t[k + 1..];
      RestMembers(s, t, k);
      OrderFree(f, s[1..], rest);
      Apart(f, s, t, k);
      Rearranged(f([s[0]]), f(t[..k]), f(t[k + 1..]));
    }
  }

  lemma Apart<T(!new), U>(f: seq<T> -> seq<U>, s: seq<T>, t: seq<T>, k: nat)
    requires Homomorphic(f) && s != [] && k < |t|
    ensures f(s) == f([s[0]]) + f(s[1..])
    ensures f(t) == f(t[..k]) + (f([t[k]]) + f(t[k + 1..]))
    ensures f(t[..k] + t[k + 1..]) == f(t[..k]) + f(t[k + 1..])
  {
    assert s == [s[0]] + s[1..] && t == t[..k] + ([t[k]] + t[k + 1..]);
  }

  lemma Rearranged<U>(x: seq<U>, a: seq<U>, b: seq<U>)
    ensures multiset(a + (x + b)) == multiset(x) + multiset(a + b)
  {
  }

  lemma RestMembers<T>(s: seq<T>, t: seq<T>, k: nat)
    requires s != [] && k < |t| && t[k] == s[0] && multiset(s) == multiset(t)
    ensures multiset(s[1..]) == multiset(t[..k] + t[k + 1..])
  {
    assert s == [s[0]] + s[1..];
    assert multiset(s[1..]) == multiset(s) - multiset{s[0]};
    assert t == t[..k] + ([t[k]] + t[k + 1..]);
    assert multiset(t) == multiset(t[..k]) + (multiset{t[k]} + multiset(t[k + 1..]));
  }

  lemma {:induction false} EntriesOfAppend(u: Chars, a: seq<ListingData>, b: seq<ListingData>, key: string)
    ensures EntriesOf(u, a + b, key) == EntriesOf(u, a, key) + EntriesOf(u, b, key)
  {
    if b == [] {
      assert a + b == a;
    } else {
      assert (a + b)[..|a + b| - 1] == a + b[..|b| - 1];
      EntriesOfAppend(u, a, b[..|b| - 1], key);
    }
  }

  lemma {:induction false} PricesOfAppend(a: seq<Entry>, b: seq<Entry>, year: int)
    ensures PricesOf(a + b, year) == PricesOf(a, year) + PricesOf(b, year)
    ensures KmsOf(a + b, year) == KmsOf(a, year) + KmsOf(b, year)
  {
    if b == [] {
      assert a + b == a;
    } else {
      assert (a + b)[..|a + b| - 1] == a + b[..|b| - 1];
      PricesOfAppend(a, b[..|b| - 1], year);
    }
  }

  function RawLookup(u: Chars, ls: seq<ListingData>, key: string, year: int): LookupResult {
    var es := EntriesOf(u, ls, key);
    RawResult(PricesOf(es, year), KmsOf(es, year))
  }

  /** The order of the listings does not matter. */
  lemma RawOrderFree(u: Chars, ls: seq<ListingData>, ms: seq<ListingData>, key: string, year: int)
    requires multiset(ls) == multiset(ms)
    ensures RawLookup(u, ls, key, year) == RawLookup(u, ms, key, year)
  {
    var entries := (x: seq<ListingData>) => EntriesOf(u, x, key);
    forall a, b ensures entries(a + b) == entries(a) + entries(b) {
      EntriesOfAppend(u, a, b, key);
    }
    OrderFree(entries, ls, ms);
    ResultOrderFree(EntriesOf(u, ls, key), EntriesOf(u, ms, key), year);
  }

  lemma ResultOrderFree(es: seq<Entry>, fs: seq<Entry>, year: int)
    requires multiset(es) == multiset(fs)
    ensures RawResult(PricesOf(es, year), KmsOf(es, year)) == RawResult(PricesOf(fs, year), KmsOf(fs, year))
  {
    var prices, kms := (x: seq<Entry>) => PricesOf(x, year), (x: seq<Entry>) => KmsOf(x, year);
    forall a, b ensures prices(a + b) == prices(a) + prices(b) && kms(a + b) == kms(a) + kms(b) {
      PricesOfAppend(a, b, year);
    }
    OrderFree(prices, es, fs);
    OrderFree(kms, es, fs);
    MedianOrderFree(PricesOf(es, year), PricesOf(fs, year));
    MedianOrderFree(KmsOf(es, year), KmsOf(fs, year));
    assert |multiset(PricesOf(es, year))| == |PricesOf(es, year)| && |multiset(PricesOf(fs, year))| == |PricesOf(fs, year)|;
    assert |multiset(KmsOf(es, year))| == |KmsOf(es, year)| && |multiset(KmsOf(fs, year))| == |KmsOf(fs, year)|;
  }

  /* ---- the cache built from medians ---- */

  ghost predicate OkMeansLarge(pre: map<string, LookupResult>) {
    forall k :: k in pre ==> (pre[k].ok <==> pre[k].cohortSize >= MIN_COHORT_SIZE)
  }

  // The usable cohorts of the n years from a year on.
  function Band(pre: map<string, LookupResult>, u: Chars, manufacturer: string, model: string, from: int, n: nat): seq<LookupResult> {
    if n == 0 then []
    else
      var key := MedianKey(u, manufacturer, model, from + n - 1);
      Band(pre, u, manufacturer, model, from, n - 1) + if key in pre && pre[key].ok then [pre[key]] else []
  }

  function Value(r: LookupResult, km: bool): int {
    if km then r.medianKm else r.median
  }

  // The medians, of price or mileage, weighted by cohort size.
  function Total(band: seq<LookupResult>, km: bool): int {
    if band == [] then 0
    else Total(band[..|band| - 1], km) + Value(band[|band| - 1], km) * band[|band| - 1].cohortSize
  }

  function TotalCohort(band: seq<LookupResult>): int {
    if band == [] then 0 else TotalCohort(band[..|band| - 1]) + band[|band| - 1].cohortSize
  }

  function BandResult(band: seq<LookupResult>): LookupResult {
    var cohort := TotalCohort(band);
    if cohort < MIN_COHORT_SIZE then LookupResult(0, 0, 0, false)
    else LookupResult(Quo(Total(band, false), cohort), Quo(Total(band, true), cohort), cohort, true)
  }

  lemma AddTerm(lo: int, c: int, total: int, v: int, d: int)
    requires lo <= v && d >= 0
    ensures lo * c <= total ==> lo * (c + d) <= total + v * d
  {
    MulOrder(lo, v, d);
    assert lo * (c + d) == lo * c + lo * d;
  }

  lemma NegateTerm(a: int, b: int)
    ensures -a * b == -(a * b)
  {
  }

  ghost predicate AllWithin(band: seq<LookupResult>, km: bool, lo: int, hi: int) {
    forall r :: r in band ==> r.cohortSize >= MIN_COHORT_SIZE && lo <= Value(r, km) <= hi
  }

  lemma {:induction false} TotalWithin(band: seq<LookupResult>, km: bool, lo: int, hi: int)
    requires AllWithin(band, km, lo, hi)
    ensures lo * TotalCohort(band) <= Total(band, km) <= hi * TotalCohort(band)
    ensures TotalCohort(band) >= MIN_COHORT_SIZE * |band|
  {
    if band != [] {
      var front, r := band[..|band| - 1], band[|band| - 1];
      TotalWithin(front, km, lo, hi);
      AddTerm(lo, TotalCohort(front), Total(front, km), Value(r, km), r.cohortSize);
      AddTerm(-hi, TotalCohort(front), -Total(front, km), -Value(r, km), r.cohortSize);
      NegateTerm(hi, TotalCohort(band));
      NegateTerm(hi, TotalCohort(front));
      NegateTerm(Value(r, km), r.cohortSize);
    }
  }

  lemma DivWithin(t: int, c: int, lo: int, hi: int)
    requires c > 0 && 0 <= t && lo * c <= t <= hi * c
    ensures lo <= t / c <= hi
  {
    var q := t / c;
    assert q * c <= t < (q + 1) * c;
    MulOrder(q + 1, lo, c);
    MulOrder(hi + 1, q, c);
  }

  lemma QuoWithin(t: int, c: int, lo: int, hi: int)
    requires c > 0 && lo * c <= t <= hi * c
    ensures lo <= Quo(t, c) <= hi
  {
    if t >= 0 {
      DivWithin(t, c, lo, hi);
    } else {
      assert -hi * c == -(hi * c) && -lo * c == -(lo * c);
      DivWithin(-t, c, -hi, -lo);
    }
  }

  lemma {:induction false} Extremes(band: seq<LookupResult>, km: bool) returns (a: LookupResult, b: LookupResult)
    requires band != []
    ensures a in band && b in band && forall r :: r in band ==> Value(a, km) <= Value(r, km) <= Value(b, km)
  {
    var front, last := band[..|band| - 1], band[|band| - 1];
    assert band == front + [last];
    a, b := last, last;
    if front != [] {
      a, b := Extremes(front, km);
      a := if Value(last, km) < Value(a, km) then last else a;
      b := if Value(last, km) > Value(b, km) then last else b;
    }
  }

  // The answer lies between the medians of two cohorts of the band.
  ghost predicate BetweenMedians(band: seq<LookupResult>, km: bool) {
    exists a, b :: a in band && b in band && Value(a, km) <= Value(BandResult(band), km) <= Value(b, km)
  }

  lemma ValueBetween(band: seq<LookupResult>, km: bool)
    requires band != [] && forall r :: r in band ==> r.cohortSize >= MIN_COHORT_SIZE
    ensures BandResult(band).ok
    ensures BetweenMedians(band, km)
  {
    var a, b := Extremes(band, km);
    TotalWithin(band, km, Value(a, km), Value(b, km));
    QuoWithin(Total(band, km), TotalCohort(band), Value(a, km), Value(b, km));
  }

  /* ---- the weights ---- */

  function Repeat(v: int, n: nat): seq<int> {
    if n == 0 then [] else Repeat(v, n - 1) + [v]
  }

  // The median of every cohort, once for each of its listings.
  function PerListing(band: seq<LookupResult>, km: bool): seq<int>
    requires forall r :: r in band ==> r.cohortSize >= 0
  {
    if band == [] then []
    else
      var n := |band| - 1;
      PerListing(band[..n], km) + Repeat(if km then band[n].medianKm else band[n].median, band[n].cohortSize)
  }

  function Sum(xs: seq<int>): int {
    if xs == [] then 0 else Sum(xs[..|xs| - 1]) + xs[|xs| - 1]
  }

  lemma {:induction false} SumRepeat(v: int, n: nat)
    ensures |Repeat(v, n)| == n && Sum(Repeat(v, n)) == v * n
  {
    if n > 0 {
      SumRepeat(v, n - 1);
      SumMore(Repeat(v, n - 1), v);
      OneMore(v, n);
    }
  }

  lemma SumMore(xs: seq<int>, x: int)
    ensures Sum(xs + [x]) == Sum(xs) + x
  {
    assert (xs + [x])[..|xs|] == xs;
  }

  lemma OneMore(v: int, n: int)
    ensures v * n == v * (n - 1) + v
  {
  }

  lemma {:induction false} SumJoined(xs: seq<int>, ys: seq<int>)
    ensures Sum(xs + ys) == Sum(xs) + Sum(ys)
  {
    if ys == [] {
      assert xs + ys == xs;
    } else {
      assert (xs + ys)[..|xs + ys| - 1] == xs + ys[..|ys| - 1];
      SumJoined(xs, ys[..|ys| - 1]);
    }
  }

  lemma {:induction false} TotalsPerListing(band: seq<LookupResult>, km: bool)
    requires forall r :: r in band ==> r.cohortSize >= 0
    ensures TotalCohort(band) == |PerListing(band, km)| && Total(band, km) == Sum(PerListing(band, km))
  {
    if band != [] {
      var front, r := band[..|band| - 1], band[|band| - 1];
      TotalsPerListing(front, km);
      SumRepeat(Value(r, km), r.cohortSize);
      SumJoined(PerListing(front, km), Repeat(Value(r, km), r.cohortSize));
    }
  }

  lemma QuoNear(a: int, b: int)
    requires b > 0
    ensures -b < a - Quo(a, b) * b < b
    ensures a >= 0 ==> Quo(a, b) * b <= a
    ensures a <= 0 ==> Quo(a, b) * b >= a
  {
    if a < 0 {
      NegateTerm(-a / b, b);
    }
  }

  // v is the mean of xs without its fraction.
  predicate MeanOf(xs: seq<int>, v: int) {
    && -|xs| < Sum(xs) - v * |xs| < |xs|
    && (Sum(xs) >= 0 ==> v * |xs| <= Sum(xs)) && (Sum(xs) <= 0 ==> v * |xs| >= Sum(xs))
  }

  /** The answer for a band is the mean, for price and mileage alike, over the listings of its cohorts, each counted
      with its cohort's median; and the cohort it reports has that many listings. */
  lemma BandIsMean(band: seq<LookupResult>)
    requires band != [] && forall r :: r in band ==> r.cohortSize >= MIN_COHORT_SIZE
    ensures BandResult(band).ok
    ensures MeanOf(PerListing(band, false), BandResult(band).median)
    ensures MeanOf(PerListing(band, true), BandResult(band).medianKm)
    ensures BandResult(band).cohortSize == |PerListing(band, false)| == |PerListing(band, true)|
  {
    ValueBetween(band, false);
    TotalsPerListing(band, false);
    TotalsPerListing(band, true);
    QuoNear(Total(band, false), TotalCohort(band));
    QuoNear(Total(band, true), TotalCohort(band));
  }

  ghost predicate LargeCohort(pre: map<string, LookupResult>, u: Chars, manufacturer: string, model: string, year: int) {
    var key := MedianKey(u, manufacturer, model, year);
    key in pre && pre[key].cohortSize >= 10
  }

  lemma {:induction false} BandLarge(pre: map<string, LookupResult>, u: Chars, manufacturer: string, model: string, from: int, n: nat)
    requires OkMeansLarge(pre)
    ensures forall r :: r in Band(pre, u, manufacturer, model, from, n) ==> r.cohortSize >= MIN_COHORT_SIZE
  {
    if n > 0 {
      BandLarge(pre, u, manufacturer, model, from, n - 1);
      BandMore(pre, u, manufacturer, model, from, n);
    }
  }

  // One of n years from a year on has a large cohort.
  ghost predicate SomeLarge(pre: map<string, LookupResult>, u: Chars, manufacturer: string, model: string, from: int, n: nat) {
    exists y :: from <= y < from + n && LargeCohort(pre, u, manufacturer, model, y)
  }

  lemma SomeLargeMore(pre: map<string, LookupResult>, u: Chars, manufacturer: string, model: string, from: int, n: nat)
    requires n > 0
    ensures SomeLarge(pre, u, manufacturer, model, from, n)
            <==> SomeLarge(pre, u, manufacturer, model, from, n - 1) || LargeCohort(pre, u, manufacturer, model, from + n - 1)
  {
    if SomeLarge(pre, u, manufacturer, model, from, n) {
      var y :| from <= y < from + n && LargeCohort(pre, u, manufacturer, model, y);
      if y < from + n - 1 {
        assert SomeLarge(pre, u, manufacturer, model, from, n - 1);
      }
    }
  }

  lemma {:induction false} BandUsable(pre: map<string, LookupResult>, u: Chars, manufacturer: string, model: string, from: int, n: nat)
    requires OkMeansLarge(pre)
    ensures Band(pre, u, manufacturer, model, from, n) != [] <==> SomeLarge(pre, u, manufacturer, model, from, n)
  {
    if n > 0 {
      BandUsable(pre, u, manufacturer, model, from, n - 1);
      BandMore(pre, u, manufacturer, model, from, n);
      SomeLargeMore(pre, u, manufacturer, model, from, n);
    }
  }

  lemma BandMore(pre: map<string, LookupResult>, u: Chars, manufacturer: string, model: string, from: int, n: nat)
    requires OkMeansLarge(pre) && n > 0
    ensures var front, y := Band(pre, u, manufacturer, model, from, n - 1), from + n - 1;
            Band(pre, u, manufacturer, model, from, n)
            == if LargeCohort(pre, u, manufacturer, model, y) then front + [pre[MedianKey(u, manufacturer, model, y)]] else front
  {
    assert Band(pre, u, manufacturer, model, from, n - 1) + [] == Band(pre, u, manufacturer, model, from, n - 1);
  }

  /** A precomputed lookup has an answer exactly when some year of the band has a large enough cohort, and
      then price and mileage each lie between two of the band's medians. */
  lemma LookupMeaning(pre: map<string, LookupResult>, u: Chars, manufacturer: string, model: string, year: int)
    requires OkMeansLarge(pre)
    ensures var band := Band(pre, u, manufacturer, model, year - 1, 3);
            && (BandResult(band).ok <==>
                exists y :: year - 1 <= y <= year + 1 && LargeCohort(pre, u, manufacturer, model, y))
            && (BandResult(band).ok ==> BetweenMedians(band, false) && BetweenMedians(band, true))
  {
    var band := Band(pre, u, manufacturer, model, year - 1, 3);
    BandLarge(pre, u, manufacturer, model, year - 1, 3);
    BandUsable(pre, u, manufacturer, model, year - 1, 3);
    if band != [] {
      ValueBetween(band, false);
      ValueBetween(band, true);
    }
  }

  function ResultFor(e: MedianEntry): LookupResult {
    LookupResult(e.medianPrice, e.medianKm, e.cohortSize, e.cohortSize >= MIN_COHORT_SIZE)
  }

  function KeyOf(u: Chars, e: MedianEntry): string {
    MedianKey(u, e.manufacturer, e.model, e.year)
  }

  function CohortsOf(u: Chars, entries: seq<MedianEntry>): map<string, LookupResult> {
    if entries == [] then map[]
    else CohortsOf(u, entries[..|entries| - 1])[KeyOf(u, entries[|entries| - 1]) := ResultFor(entries[|entries| - 1])]
  }

  predicate LastOfKey(u: Chars, entries: seq<MedianEntry>, i: int, key: string) {
    0 <= i < |entries| && KeyOf(u, entries[i]) == key && forall j :: i < j < |entries| ==> KeyOf(u, entries[j]) != key
  }

  lemma {:induction false} CohortsLarge(u: Chars, entries: seq<MedianEntry>)
    ensures OkMeansLarge(CohortsOf(u, entries))
  {
    if entries != [] {
      CohortsLarge(u, entries[..|entries| - 1]);
    }
  }

  lemma LastMore(u: Chars, front: seq<MedianEntry>, e: MedianEntry, key: string, i: int)
    requires LastOfKey(u, front, i, key) && KeyOf(u, e) != key
    ensures LastOfKey(u, front + [e], i, key) && (front + [e])[i] == front[i]
  {
  }

  // The last entry of a manufacturer, model and year counts.
  lemma {:induction false} CohortsMeaning(u: Chars, entries: seq<MedianEntry>, key: string)
    ensures key in CohortsOf(u, entries) ==> exists i :: LastOfKey(u, entries, i, key) && CohortsOf(u, entries)[key] == ResultFor(entries[i])
    ensures key !in CohortsOf(u, entries) ==> forall i :: 0 <= i < |entries| ==> KeyOf(u, entries[i]) != key
  {
    if entries != [] {
      var n := |entries| - 1;
      var front := entries[..n];
      assert entries == front + [entries[n]];
      if KeyOf(u, entries[n]) == key {
        assert LastOfKey(u, entries, n, key);
      } else {
        CohortsMeaning(u, front, key);
        if key in CohortsOf(u, front) {
          var i :| LastOfKey(u, front, i, key) && CohortsOf(u, front)[key] == ResultFor(front[i]);
          LastMore(u, front, entries[n], key, i);
        } else {
          assert forall i :: 0 <= i < n ==> KeyOf(u, entries[i]) == KeyOf(u, front[i]);
        }
      }
    }
  }

  class MarketCache {
    const chars: Chars
    const fromMedians: bool
    var raw: map<string, seq<Entry>>
    var precomputed: map<string, LookupResult>

    constructor FromListings(u: Chars, listings: seq<ListingData>)
      ensures chars == u && !fromMedians
      ensures forall key :: EntriesFor(raw, key) == EntriesOf(u, listings, key)
    {
      chars, fromMedians, raw, precomputed := u, false, map[], map[];
      new;
      for i := 0 to |listings|
        invariant forall key :: EntriesFor(raw, key) == EntriesOf(u, listings[..i], key)
      {
        var l := listings[i];
        assert listings[..i + 1][..i] == listings[..i];
        var key := CohortKey(u, l.manufacturer, l.model);
        raw := raw[key := EntriesFor(raw, key) + [Entry(l.year, l.price, l.km)]];
      }
      assert listings[..|listings|] == listings;
    }

    constructor FromMedians(u: Chars, entries: seq<MedianEntry>)
      ensures chars == u && fromMedians && precomputed == CohortsOf(u, entries)
    {
      chars, fromMedians, raw, precomputed := u, true, map[], map[];
      new;
      for i := 0 to |entries|
        invariant precomputed == CohortsOf(u, entries[..i])
      {
        assert entries[..i + 1][..i] == entries[..i];
        precomputed := precomputed[KeyOf(u, entries[i]) := ResultFor(entries[i])];
      }
      assert entries[..|entries|] == entries;
    }

    method ComputeFromRaw(manufacturer: string, model: string, year: int) returns (r: LookupResult)
      ensures var es := EntriesFor(raw, CohortKey(chars, manufacturer, model));
              r == RawResult(PricesOf(es, year), KmsOf(es, year))
    {
      var es := EntriesFor(raw, CohortKey(chars, manufacturer, model));
      var prices, kms: seq<int> := [], [];
      for i := 0 to |es|
        invariant prices == PricesOf(es[..i], year) && kms == KmsOf(es[..i], year)
      {
        assert es[..i + 1][..i] == es[..i];
        if InBand(es[i], year) {
          prices := prices + [es[i].price];
          if es[i].km > 0 {
            kms := kms + [es[i].km];
          }
        }
      }
      assert es[..|es|] == es;
      if |prices| < MIN_COHORT_SIZE {
        return LookupResult(0, 0, |prices|, false);
      }
      var medianKm := 0;
      if |kms| >= 3 {
        medianKm := MedianOfSlice(kms);
      }
      var median := MedianOfSlice(prices);
      r := LookupResult(median, medianKm, |prices|, true);
    }

    method LookupPrecomputed(manufacturer: string, model: string, year: int) returns (r: LookupResult)
      ensures r == BandResult(Band(precomputed, chars, manufacturer, model, year - 1, 3))
    {
      var totalPrice, totalKm, totalCohort := 0, 0, 0;
      ghost var band: seq<LookupResult> := [];
      for dy := -1 to 2
        invariant band == Band(precomputed, chars, manufacturer, model, year - 1, dy + 1)
        invariant totalPrice == Total(band, false) && totalKm == Total(band, true) && totalCohort == TotalCohort(band)
      {
        var key := MedianKey(chars, manufacturer, model, year + dy);
        if key in precomputed && precomputed[key].ok {
          var res := precomputed[key];
          totalPrice := totalPrice + res.median * res.cohortSize;
          totalKm := totalKm + res.medianKm * res.cohortSize;
          totalCohort := totalCohort + res.cohortSize;
          assert (band + [res])[..|band|] == band;
          band := band + [res];
        }
      }
      if totalCohort < MIN_COHORT_SIZE {
        return LookupResult(0, 0, 0, false);
      }
      r := LookupResult(Quo(totalPrice, totalCohort), Quo(totalKm, totalCohort), totalCohort, true);
    }

    method Lookup(manufacturer: string, model: string, year: int) returns (r: LookupResult)
      ensures var es := EntriesFor(raw, CohortKey(chars, manufacturer, model));
              r == if fromMedians then BandResult(Band(precomputed, chars, manufacturer, model, year - 1, 3))
                   else RawResult(PricesOf(es, year), KmsOf(es, year))
    {
      if fromMedians {
        r := LookupPrecomputed(manufacturer, model, year);
      } else {
        r := ComputeFromRaw(manufacturer, model, year);
      }
    }
  }

  method MedianOfSlice(vals: seq<int>) returns (m: int)
    ensures m == MedianOf(vals)
  {
    var a := new int[|vals|](i requires 0 <= i < |vals| => vals[i]);
    assert a[..] == vals;
    m := MedianInt(a);
  }
}
