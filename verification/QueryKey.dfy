/** The printed key under which the result of a query is cached, and why no two queries share one. */
module QueryKey {
  import opened Matching

  datatype SourceParams = SourceParams(
    manufacturer: int, model: int, yearMin: int, yearMax: int, priceMin: int, priceMax: int,
    page: int, maxKm: int, maxHand: int, engineMinCC: int, sellerFilter: string, photoOnly: bool)

  function SourceParamsFromSearch(s: Search): (p: SourceParams)
    ensures p.manufacturer == s.manufacturer && p.model == s.model && p.page == 0
    ensures p.yearMin == s.yearMin && p.yearMax == s.yearMax && p.priceMin == s.priceMin && p.priceMax == s.priceMax
    ensures p.maxKm == s.maxKm && p.maxHand == s.maxHand && p.engineMinCC == s.engineMinCC
    ensures p.sellerFilter == s.sellerFilter && p.photoOnly == s.photoOnly
  {
    SourceParams(s.manufacturer, s.model, s.yearMin, s.yearMax, s.priceMin, s.priceMax,
                 0, s.maxKm, s.maxHand, s.engineMinCC, s.sellerFilter, s.photoOnly)
  }

  /* ---- decimal printing ---- */

  predicate IsDigit(c: char) {
    '0' <= c <= '9'
  }

  predicate AllDigits(s: string) {
    forall i :: 0 <= i < |s| ==> IsDigit(s[i])
  }

  function Digits(n: nat): (s: string)
    ensures |s| > 0 && AllDigits(s)
  {
    var last := '0' + (n % 10) as char;
    if n < 10 then [last] else Digits(n / 10) + [last]
  }

  function Decimal(n: int): string {
    if n < 0 then "-" + Digits(-n) else Digits(n)
  }

  // Reading a run of digits back.
  function ValueOf(s: string): int {
    if s == [] then 0 else 10 * ValueOf(s[..|s| - 1]) + (s[|s| - 1] as int - '0' as int)
  }

  lemma {:induction false} DigitsReadBack(n: nat)
    ensures ValueOf(Digits(n)) == n
  {
    var last := '0' + (n % 10) as char;
    if n < 10 {
      assert [last][..0] == [];
      assert ValueOf([last][..0]) == 0;
    } else {
      DigitsReadBack(n / 10);
      assert (Digits(n / 10) + [last])[..|Digits(n / 10)|] == Digits(n / 10);
    }
  }

  // A text that cannot continue a number.
  predicate EndsNumber(s: string) {
    s == [] || !IsDigit(s[0])
  }

  lemma RunNotShorter(x: string, y: string, s: string, t: string)
    requires AllDigits(y) && EndsNumber(s) && x + s == y + t
    ensures |x| >= |y|
  {
    var z := x + s;
    assert z[..|y|] == y && z[|x|..] == s;
    assert forall i :: 0 <= i < |y| ==> IsDigit(z[i]);
    assert forall i :: |x| <= i < |z| ==> z[i] == s[i - |x|];
  }

  lemma RunsApart(x: string, y: string, s: string, t: string)
    requires AllDigits(x) && AllDigits(y) && EndsNumber(s) && EndsNumber(t)
    requires x + s == y + t
    ensures x == y && s == t
  {
    RunNotShorter(x, y, s, t);
    RunNotShorter(y, x, t, s);
    var z := x + s;
    assert z[..|x|] == x && z[|x|..] == s;
    assert z[..|y|] == y && z[|y|..] == t;
  }

  lemma SignShows(n: int)
    ensures n < 0 <==> Decimal(n)[0] == '-'
  {
    assert n >= 0 ==> IsDigit(Decimal(n)[0]);
  }

  function Magnitude(n: int): nat {
    if n < 0 then -n else n
  }

  lemma SignsAgree(a: int, b: int, s: string, t: string)
    requires Decimal(a) + s == Decimal(b) + t
    ensures a < 0 <==> b < 0
  {
    SignShows(a);
    SignShows(b);
    assert (Decimal(a) + s)[0] == Decimal(a)[0] && (Decimal(b) + t)[0] == Decimal(b)[0];
  }

  // What follows the sign.
  lemma AfterSign(n: int, s: string)
    ensures (Decimal(n) + s)[if n < 0 then 1 else 0..] == Digits(Magnitude(n)) + s
  {
  }

  lemma NumbersApart(a: int, b: int, s: string, t: string)
    requires EndsNumber(s) && EndsNumber(t) && Decimal(a) + s == Decimal(b) + t
    ensures a == b && s == t
  {
    SignsAgree(a, b, s, t);
    AfterSign(a, s);
    AfterSign(b, t);
    RunsApart(Digits(Magnitude(a)), Digits(Magnitude(b)), s, t);
    DigitsReadBack(Magnitude(a));
    DigitsReadBack(Magnitude(b));
  }

  /* ---- numbers with a separator after each ---- */

  predicate Separators(seps: string) {
    forall i :: 0 <= i < |seps| ==> !IsDigit(seps[i])
  }

  function Printed(ns: seq<int>, seps: string, tail: string): string
    requires |ns| == |seps|
  {
    if ns == [] then tail else Decimal(ns[0]) + ([seps[0]] + Printed(ns[1..], seps[1..], tail))
  }

  lemma {:induction false} PrintedApart(ns: seq<int>, ms: seq<int>, seps: string, s: string, t: string)
    requires |ns| == |ms| == |seps| && Separators(seps)
    requires Printed(ns, seps, s) == Printed(ms, seps, t)
    ensures ns == ms && s == t
  {
    if ns == [] {
    } else {
      var u, v := [seps[0]] + Printed(ns[1..], seps[1..], s), [seps[0]] + Printed(ms[1..], seps[1..], t);
      NumbersApart(ns[0], ms[0], u, v);
      assert u[1..] == Printed(ns[1..], seps[1..], s) && v[1..] == Printed(ms[1..], seps[1..], t);
      PrintedApart(ns[1..], ms[1..], seps[1..], s, t);
      assert ns == [ns[0]] + ns[1..] && ms == [ms[0]] + ms[1..];
    }
  }

  /* ---- the key ---- */

  const SEPARATORS := "::-:-:::::"

  function Numbers(p: SourceParams): seq<int> {
    [p.manufacturer, p.model, p.yearMin, p.yearMax, p.priceMin, p.priceMax, p.page, p.maxKm, p.maxHand, p.engineMinCC]
  }

  function Tail(seller: string, photoOnly: bool): string {
    seller + if photoOnly then ":true" else ":false"
  }

  function CacheKey(p: SourceParams): string {
    Printed(Numbers(p), SEPARATORS, Tail(p.sellerFilter, p.photoOnly))
  }

  lemma TailsApart(s: string, t: string, x: bool, y: bool)
    requires Tail(s, x) == Tail(t, y)
    ensures s == t && x == y
  {
    var a, b := Tail(s, x), Tail(t, y);
    assert a[|a| - 4] == if x then 't' else 'a';
    assert b[|b| - 4] == if y then 't' else 'a';
    assert s == a[..|s|] && t == b[..|t|];
  }

  /** Different queries have different keys, whatever the numbers (negative ones too) and whatever the
      seller filter contains. */
  lemma KeyInjective(p: SourceParams, q: SourceParams)
    ensures CacheKey(p) == CacheKey(q) <==> p == q
  {
    if CacheKey(p) == CacheKey(q) {
      PrintedApart(Numbers(p), Numbers(q), SEPARATORS, Tail(p.sellerFilter, p.photoOnly), Tail(q.sellerFilter, q.photoOnly));
      TailsApart(p.sellerFilter, q.sellerFilter, p.photoOnly, q.photoOnly);
      NumbersFix(p, q);
    }
  }

  lemma NumbersFix(p: SourceParams, q: SourceParams)
    requires Numbers(p) == Numbers(q)
    ensures p.(sellerFilter := "", photoOnly := false) == q.(sellerFilter := "", photoOnly := false)
  {
    var a, b := Numbers(p), Numbers(q);
    assert forall i :: 0 <= i < 10 ==> a[i] == b[i];
    assert a[0] == b[0] && a[1] == b[1] && a[2] == b[2] && a[3] == b[3] && a[4] == b[4];
    assert a[5] == b[5] && a[6] == b[6] && a[7] == b[7] && a[8] == b[8] && a[9] == b[9];
  }

  /** Two searches share one targeted fetch exactly when the source is asked the same for both. */
  lemma SearchesShareFetch(s: Search, t: Search)
    ensures CacheKey(SourceParamsFromSearch(s)) == CacheKey(SourceParamsFromSearch(t)) <==>
            && s.manufacturer == t.manufacturer && s.model == t.model
            && s.yearMin == t.yearMin && s.yearMax == t.yearMax
            && s.priceMin == t.priceMin && s.priceMax == t.priceMax
            && s.maxKm == t.maxKm && s.maxHand == t.maxHand && s.engineMinCC == t.engineMinCC
            && s.sellerFilter == t.sellerFilter && s.photoOnly == t.photoOnly
  {
    KeyInjective(SourceParamsFromSearch(s), SourceParamsFromSearch(t));
  }
}
