/**
  The fitness score of a listing: a baseline plus a condition, a value and an engine delta, clamped to
  [0, 10] and rounded to one decimal. Numbers are exact reals. The library functions sqrt, pow and exp
  are parameters of which only order and end points are assumed.
 */
module Fitness {

  datatype Ownership = PrivateOwner | Lease | Rental

  datatype Params = Params(
    price: int, km: int, hand: int, year: int, engineVolume: real,
    priceMax: int, engineMinCC: int,
    medianPrice: int, medianKm: int, basePrice: int,
    isCommercial: bool, ownership: Ownership)

  // pow07 is x to the power 0.7.
  datatype Lib = Lib(sqrt: real -> real, pow07: real -> real, exp: real -> real)

  ghost predicate Sound(lib: Lib) {
    && lib.sqrt(0.0) == 0.0 && lib.sqrt(1.0) == 1.0
    && lib.pow07(0.0) == 0.0 && lib.pow07(1.0) == 1.0
    && (forall x: real, y: real :: 0.0 <= x <= y ==> lib.sqrt(x) <= lib.sqrt(y))
    && (forall x: real, y: real :: 0.0 <= x <= y ==> lib.pow07(x) <= lib.pow07(y))
    && lib.exp(0.0) == 1.0 && (forall x: real :: lib.exp(x) > 0.0)
    && (forall x: real, y: real :: x <= y ==> lib.exp(x) <= lib.exp(y))
  }

  function Min(x: real, y: real): real { if x <= y then x else y }

  function Max(x: real, y: real): real { if x >= y then x else y }

  function ClampRange(v: real, lo: real, hi: real): real {
    if v < lo then lo else if v > hi then hi else v
  }

  function Clamp01(v: real): real { ClampRange(v, 0.0, 1.0) }

  // math.Round on the non-negative values it is used for.
  function RoundTenth(v: real): real {
    (v * 10.0 + 0.5).Floor as real / 10.0
  }

  function CarAge(year: int, currentYear: int): int {
    if year > 0 && currentYear - year >= 1 then currentYear - year else 1
  }

  function ExpectedKm(age: int): real { age as real * 15000.0 }

  function KmCurve(lib: Lib, r: real): real {
    if r <= 0.85 then 4.2 * lib.sqrt((0.85 - r) / 0.85)
    else if r <= 1.0 then -0.3 * (r - 0.85) / (1.0 - 0.85)
    else -0.3 - 4.7 * lib.pow07(Min(r - 1.0, 1.5))
  }

  function KmDelta(lib: Lib, km: int, age: int): real
    requires age >= 1
  {
    if km <= 0 then 0.0 else KmCurve(lib, km as real / ExpectedKm(age))
  }

  function Logistic(lib: Lib, x: real): (r: real)
    requires Sound(lib)
    ensures 0.0 < r < 1.0
  {
    1.0 / (1.0 + lib.exp(x))
  }

  function KmScore(lib: Lib, km: int, age: int): real
    requires Sound(lib) && age >= 1
  {
    if km <= 0 then 0.5
    else
      var r := km as real / ExpectedKm(age);
      if r <= 1.0 then Logistic(lib, 4.0 * (r - 0.7)) else Logistic(lib, 5.0 * (r - 1.0))
  }

  function ExpectedHands(age: int): real { 1.0 + age as real / 5.0 }

  function HandDelta(hand: int, age: int, commercial: bool): real {
    if hand <= 0 then 0.0
    else if hand == 1 then
      var d := 0.5 + Min(0.8, age as real * 0.10);
      if commercial then d * 0.4 else d
    else
      var excess := hand as real - ExpectedHands(age);
      if excess <= 0.0 then ClampRange(-excess * 0.3, 0.0, 0.3) else -1.1 * excess
  }

  function HandScore(hand: int, age: int, commercial: bool): real {
    if hand <= 0 then 0.5
    else if hand == 1 then if commercial then 0.7 else 1.0
    else
      var excess := hand as real - ExpectedHands(age);
      if excess <= 0.0 then Clamp01(0.7 + -excess * 0.15) else Clamp01(0.5 - excess * 0.25)
  }

  function CondDelta(lib: Lib, p: Params, age: int): real
    requires Sound(lib) && age >= 1
  {
    ClampRange(KmDelta(lib, p.km, age) + HandDelta(p.hand, age, p.isCommercial), -5.0, 4.5)
  }

  function CondScore(lib: Lib, p: Params, age: int): real
    requires Sound(lib) && age >= 1
  {
    0.70 * KmScore(lib, p.km, age) + 0.30 * HandScore(p.hand, age, p.isCommercial)
  }

  /* ---- value ---- */

  function HandFactor(hand: int, age: int): (f: real)
    ensures f >= 0.85 || age < 1
  {
    if hand == 1 && age >= 3 then 1.05
    else if hand > 0 && hand as real > ExpectedHands(age) then
      Max(0.85, 1.0 - (hand as real - ExpectedHands(age)) * 0.07)
    else 1.0
  }

  function OriginFactor(o: Ownership): real {
    match o
    case PrivateOwner => 1.0
    case Lease => 0.96
    case Rental => 0.94
  }

  function MedianKmFactor(p: Params): real {
    if p.medianKm > 0 && p.km > 0 then
      ClampRange(1.0 + (p.medianKm - p.km) as real / p.medianKm as real * 0.15, 0.5, 1.5)
    else 1.0
  }

  function BaseKmFactor(p: Params, age: int): real
    requires age >= 1
  {
    if p.km > 0 then
      ClampRange(1.0 + (ExpectedKm(age) - p.km as real) / ExpectedKm(age) * 0.12, 0.70, 1.30)
    else 1.0
  }

  function BasePriceDiscount(age: int): real {
    if age <= 1 then 0.97 else if age <= 3 then 0.94 else if age <= 6 then 0.90 else 0.85
  }

  function Product(base: real, km: real, hand: real, origin: real): (e: real)
    ensures base > 0.0 && km > 0.0 && hand > 0.0 && origin > 0.0 ==> e > 0.0
  {
    base * km * hand * origin
  }

  // What a listing like this should cost, from the market median or from the price list.
  function MedianExpected(p: Params, age: int): (e: real)
    requires p.medianPrice > 0
    ensures e > 0.0
  {
    Product(p.medianPrice as real, MedianKmFactor(p), HandFactor(p.hand, age), OriginFactor(p.ownership))
  }

  function BaseExpected(p: Params, age: int): (e: real)
    requires p.basePrice > 0 && age >= 1
    ensures e > 0.0
  {
    Product(p.basePrice as real * BasePriceDiscount(age), BaseKmFactor(p, age), HandFactor(p.hand, age), OriginFactor(p.ownership))
  }

  function MedianCurve(lib: Lib, ratio: real): real {
    if ratio < 0.80 then 2.5
    else if ratio < 0.92 then 2.5 * (0.92 - ratio) / (0.92 - 0.80)
    else if ratio <= 1.05 then -0.3 * (ratio - 0.92) / (1.05 - 0.92)
    else ClampRange(-0.3 - 3.2 * lib.pow07(Min((ratio - 1.05) / 0.30, 1.0)), -3.5, -0.3)
  }

  function BaseCurve(lib: Lib, ratio: real): real {
    if ratio < 0.75 then 1.8
    else if ratio < 0.88 then 1.8 * (0.88 - ratio) / (0.88 - 0.75)
    else if ratio <= 1.10 then -0.2 * (ratio - 0.88) / (1.10 - 0.88)
    else ClampRange(-0.2 - (2.8 - 0.2) * lib.pow07(Min((ratio - 1.10) / 0.30, 1.0)), -2.8, -0.2)
  }

  function BudgetCurve(headroom: real): real {
    if headroom >= 0.30 then 2.0
    else if headroom >= 0.10 then 2.0 * (headroom - 0.10) / (0.30 - 0.10)
    else if headroom >= 0.0 then -0.5 * (0.10 - headroom) / 0.10
    else -1.0
  }

  // A bonus counts in full only for a car in decent condition.
  function Gate(delta: real, cond: real): real {
    if delta > 0.0 && cond < 0.55 then delta * (cond / 0.55) else delta
  }

  function RatioTo(price: int, expected: real): real
    requires expected > 0.0
  {
    price as real / expected
  }

  // The value delta before the last clamp.
  function RawValue(lib: Lib, p: Params, age: int, cond: real): real
    requires Sound(lib) && age >= 1
  {
    if p.price <= 0 then 0.0
    else if p.medianPrice > 0 then Gate(MedianCurve(lib, RatioTo(p.price, MedianExpected(p, age))), cond)
    else if p.basePrice > 0 then Gate(BaseCurve(lib, RatioTo(p.price, BaseExpected(p, age))), cond)
    else if p.priceMax > 0 then BudgetCurve(1.0 - RatioTo(p.price, p.priceMax as real))
    else 0.0
  }

  function ValueDelta(lib: Lib, p: Params, age: int, cond: real): real
    requires Sound(lib) && age >= 1
  {
    ClampRange(RawValue(lib, p, age, cond), -3.5, 2.5)
  }

  function EngineDelta(volume: real, minCC: int): real {
    if minCC <= 0 || volume <= 0.0 || volume < minCC as real then 0.0
    else 0.1 * Clamp01((volume - minCC as real) / (minCC as real * 0.5))
  }

  predicate Disqualified(p: Params) {
    p.engineMinCC > 0 && p.engineVolume > 0.0 && p.engineVolume < p.engineMinCC as real
  }

  function Raw(lib: Lib, p: Params, age: int): real
    requires Sound(lib) && age >= 1
  {
    5.0 + CondDelta(lib, p, age) + ValueDelta(lib, p, age, CondScore(lib, p, age))
    + EngineDelta(p.engineVolume, p.engineMinCC)
  }

  function Total(lib: Lib, p: Params, currentYear: int): real
    requires Sound(lib)
  {
    if Disqualified(p) then 0.0
    else RoundTenth(ClampRange(Raw(lib, p, CarAge(p.year, currentYear)), 0.0, 10.0))
  }

  /* ------------------------------------------------------------------------------------------
     Order of the parts
     ------------------------------------------------------------------------------------------ */

  lemma RoundMonotone(x: real, y: real)
    requires x <= y
    ensures RoundTenth(x) <= RoundTenth(y)
  {
    var a, b := (x * 10.0 + 0.5).Floor, (y * 10.0 + 0.5).Floor;
    assert a as real <= y * 10.0 + 0.5 < b as real + 1.0;
    assert a < b + 1;
  }

  lemma DivOrder(a: real, b: real, c: real, d: real)
    requires 0.0 <= a <= c && 0.0 < d <= b
    ensures a / b <= c / d
  {
    assert a / b <= c / b;
    assert c / b <= c / d by {
      assert c / d - c / b == c * (b - d) / (b * d);
    }
  }

  lemma MedianCurveFalls(lib: Lib, r: real, s: real)
    requires Sound(lib) && r <= s
    ensures MedianCurve(lib, s) <= MedianCurve(lib, r)
    ensures -3.5 <= MedianCurve(lib, r) <= 2.5
  {
    var x := Min((r - 1.05) / 0.30, 1.0);
    var y := Min((s - 1.05) / 0.30, 1.0);
    if r > 1.05 {
      assert 0.0 <= x <= y;
      assert lib.pow07(x) <= lib.pow07(y);
    }
  }

  lemma BaseCurveFalls(lib: Lib, r: real, s: real)
    requires Sound(lib) && r <= s
    ensures BaseCurve(lib, s) <= BaseCurve(lib, r)
    ensures -2.8 <= BaseCurve(lib, r) <= 1.8
  {
    var x := Min((r - 1.10) / 0.30, 1.0);
    var y := Min((s - 1.10) / 0.30, 1.0);
    if r > 1.10 {
      assert 0.0 <= x <= y;
      assert lib.pow07(x) <= lib.pow07(y);
    }
  }

  lemma BudgetCurveRises(h: real, g: real)
    requires h <= g
    ensures BudgetCurve(h) <= BudgetCurve(g)
    ensures -1.0 <= BudgetCurve(h) <= 2.0
  {
  }

  lemma GateOrder(d: real, e: real, c: real, b: real)
    requires d <= e && 0.0 <= c <= b
    ensures Gate(d, c) <= Gate(e, b)
    ensures d <= 0.0 ==> Gate(d, c) == d
    ensures d > 0.0 ==> 0.0 <= Gate(d, c) <= d
  {
    var fc := if c < 0.55 then c / 0.55 else 1.0;
    var fb := if b < 0.55 then b / 0.55 else 1.0;
    assert 0.0 <= fc <= fb <= 1.0;
    if d > 0.0 {
      ScaleOrder(d, e, fc, fb);
      assert Gate(d, c) == d * fc && Gate(e, b) == e * fb;
    } else if e > 0.0 {
      assert Gate(e, b) == e * fb;
    }
  }

  lemma ScaleOrder(d: real, e: real, f: real, g: real)
    requires 0.0 <= d <= e && 0.0 <= f <= g
    ensures 0.0 <= d * f <= e * g
    ensures f <= 1.0 ==> d * f <= d
  {
    assert d * f <= d * g;
    assert d * g <= e * g;
  }

  lemma HandFalls(h: int, k: int, age: int)
    requires 1 <= h <= k && age >= 1
    ensures HandDelta(k, age, false) <= HandDelta(h, age, false)
    ensures 0.0 <= HandScore(k, age, false) <= HandScore(h, age, false) <= 1.0
    ensures 0.85 <= HandFactor(k, age) <= HandFactor(h, age)
  {
  }

  lemma PriceTermFalls(p: int, q: int, e: real, f: real)
    requires 0 < p <= q && 0.0 < f <= e
    ensures RatioTo(p, e) <= RatioTo(q, f)
  {
    DivOrder(p as real, e, q as real, f);
  }

  lemma ProductOrder(b: real, k: real, l: real, h: real, g: real, o: real)
    requires 0.0 < b && 0.0 < k <= l && 0.0 < h <= g && 0.0 < o
    ensures Product(b, k, h, o) <= Product(b, l, g, o)
  {
    ScaleOrder(b, b, k, l);
    ScaleOrder(b * k, b * l, h, g);
    ScaleOrder(b * k * h, b * l * g, o, o);
  }

  lemma MedianExpectedFalls(p: Params, k: int, age: int)
    requires p.medianPrice > 0 && 1 <= p.hand <= k && age >= 1
    ensures MedianExpected(p.(hand := k), age) <= MedianExpected(p, age)
  {
    var q := p.(hand := k);
    HandFalls(p.hand, k, age);
    var f := MedianKmFactor(p);
    assert MedianKmFactor(q) == f && 0.5 <= f;
    ProductOrder(p.medianPrice as real, f, f, HandFactor(k, age), HandFactor(p.hand, age), OriginFactor(p.ownership));
  }

  lemma BaseExpectedFalls(p: Params, k: int, age: int)
    requires p.basePrice > 0 && 1 <= p.hand <= k && age >= 1
    ensures BaseExpected(p.(hand := k), age) <= BaseExpected(p, age)
  {
    var q := p.(hand := k);
    HandFalls(p.hand, k, age);
    var f := BaseKmFactor(p, age);
    assert BaseKmFactor(q, age) == f && 0.7 <= f;
    ProductOrder(p.basePrice as real * BasePriceDiscount(age), f, f, HandFactor(k, age), HandFactor(p.hand, age), OriginFactor(p.ownership));
  }

  // q asks at least as much as p, of at most the expected price, in at most the condition.
  predicate WorseValue(p: Params, q: Params, age: int, c: real, d: real)
    requires age >= 1
  {
    && 0 < p.price <= q.price
    && 0.0 <= d <= c
    && p.medianPrice == q.medianPrice && p.basePrice == q.basePrice && p.priceMax == q.priceMax
    && (p.medianPrice > 0 ==> MedianExpected(q, age) <= MedianExpected(p, age))
    && (p.medianPrice <= 0 && p.basePrice > 0 ==> BaseExpected(q, age) <= BaseExpected(p, age))
  }

  lemma ValueFalls(lib: Lib, p: Params, q: Params, age: int, c: real, d: real)
    requires Sound(lib) && age >= 1 && WorseValue(p, q, age, c, d)
    ensures RawValue(lib, q, age, d) <= RawValue(lib, p, age, c)
  {
    if p.medianPrice > 0 {
      var r, s := RatioTo(p.price, MedianExpected(p, age)), RatioTo(q.price, MedianExpected(q, age));
      PriceTermFalls(p.price, q.price, MedianExpected(p, age), MedianExpected(q, age));
      MedianCurveFalls(lib, r, s);
      GateOrder(MedianCurve(lib, s), MedianCurve(lib, r), d, c);
    } else if p.basePrice > 0 {
      var r, s := RatioTo(p.price, BaseExpected(p, age)), RatioTo(q.price, BaseExpected(q, age));
      PriceTermFalls(p.price, q.price, BaseExpected(p, age), BaseExpected(q, age));
      BaseCurveFalls(lib, r, s);
      GateOrder(BaseCurve(lib, s), BaseCurve(lib, r), d, c);
    } else if p.priceMax > 0 {
      PriceTermFalls(p.price, q.price, p.priceMax as real, p.priceMax as real);
      BudgetCurveRises(1.0 - RatioTo(q.price, p.priceMax as real), 1.0 - RatioTo(p.price, p.priceMax as real));
    }
  }

  lemma TotalFalls(lib: Lib, p: Params, q: Params, currentYear: int)
    requires Sound(lib) && p.year == q.year
    requires p.engineVolume == q.engineVolume && p.engineMinCC == q.engineMinCC
    requires var age := CarAge(p.year, currentYear);
             && CondDelta(lib, q, age) <= CondDelta(lib, p, age)
             && RawValue(lib, q, age, CondScore(lib, q, age)) <= RawValue(lib, p, age, CondScore(lib, p, age))
    ensures Total(lib, q, currentYear) <= Total(lib, p, currentYear)
  {
    var age := CarAge(p.year, currentYear);
    if !Disqualified(p) {
      assert Raw(lib, q, age) <= Raw(lib, p, age);
      RoundMonotone(ClampRange(Raw(lib, q, age), 0.0, 10.0), ClampRange(Raw(lib, p, age), 0.0, 10.0));
    }
  }

  lemma CondScoreWithin(lib: Lib, p: Params, age: int)
    requires Sound(lib) && age >= 1
    ensures 0.0 <= CondScore(lib, p, age) <= 1.0
  {
  }

  // The asking price has no part in the expected one.
  lemma SameExpected(p: Params, price: int, age: int)
    requires age >= 1
    ensures p.medianPrice > 0 ==> MedianExpected(p.(price := price), age) == MedianExpected(p, age)
    ensures p.basePrice > 0 ==> BaseExpected(p.(price := price), age) == BaseExpected(p, age)
  {
    assert MedianKmFactor(p.(price := price)) == MedianKmFactor(p);
    assert BaseKmFactor(p.(price := price), age) == BaseKmFactor(p, age);
  }

  /** A dearer listing never scores higher, whatever it is compared with. */
  lemma TotalFallsWithPrice(lib: Lib, p: Params, price: int, currentYear: int)
    requires Sound(lib) && 0 < p.price <= price
    ensures Total(lib, p.(price := price), currentYear) <= Total(lib, p, currentYear)
  {
    var age, q := CarAge(p.year, currentYear), p.(price := price);
    var c := CondScore(lib, p, age);
    CondScoreWithin(lib, p, age);
    assert CondScore(lib, q, age) == c;
    SameExpected(p, price, age);
    ValueFalls(lib, p, q, age, c, c);
    TotalFalls(lib, p, q, currentYear);
  }

  /** A private listing with more previous owners never scores higher. */
  lemma TotalFallsWithHand(lib: Lib, p: Params, hand: int, currentYear: int)
    requires Sound(lib) && !p.isCommercial && 1 <= p.hand <= hand
    ensures Total(lib, p.(hand := hand), currentYear) <= Total(lib, p, currentYear)
  {
    var age, q := CarAge(p.year, currentYear), p.(hand := hand);
    var c, d := CondScore(lib, p, age), CondScore(lib, q, age);
    HandFalls(p.hand, hand, age);
    CondScoreWithin(lib, q, age);
    if p.price > 0 {
      if p.medianPrice > 0 { MedianExpectedFalls(p, hand, age); }
      if p.basePrice > 0 { BaseExpectedFalls(p, hand, age); }
      ValueFalls(lib, p, q, age, c, d);
    }
    TotalFalls(lib, p, q, currentYear);
  }

  /** The last clamp of the value delta never acts, and each branch keeps its own tighter bounds. */
  lemma ValueWithin(lib: Lib, p: Params, age: int, cond: real)
    requires Sound(lib) && age >= 1 && 0.0 <= cond
    ensures ValueDelta(lib, p, age, cond) == RawValue(lib, p, age, cond)
    ensures p.medianPrice <= 0 && p.basePrice > 0 ==> -2.8 <= ValueDelta(lib, p, age, cond) <= 1.8
    ensures p.medianPrice <= 0 && p.basePrice <= 0 ==> -1.0 <= ValueDelta(lib, p, age, cond) <= 2.0
  {
    if p.price > 0 && p.medianPrice > 0 {
      var d := MedianCurve(lib, RatioTo(p.price, MedianExpected(p, age)));
      MedianCurveFalls(lib, RatioTo(p.price, MedianExpected(p, age)), RatioTo(p.price, MedianExpected(p, age)));
      GateOrder(d, d, cond, cond);
    } else if p.price > 0 && p.basePrice > 0 {
      var d := BaseCurve(lib, RatioTo(p.price, BaseExpected(p, age)));
      BaseCurveFalls(lib, RatioTo(p.price, BaseExpected(p, age)), RatioTo(p.price, BaseExpected(p, age)));
      GateOrder(d, d, cond, cond);
    } else if p.price > 0 && p.priceMax > 0 {
      var h := 1.0 - RatioTo(p.price, p.priceMax as real);
      BudgetCurveRises(h, h);
    }
  }

  // The total is a tenth between 0 and 10.
  lemma TotalWithin(lib: Lib, p: Params, currentYear: int) returns (tenths: int)
    requires Sound(lib)
    ensures 0 <= tenths <= 100 && Total(lib, p, currentYear) == tenths as real / 10.0
  {
    if Disqualified(p) {
      tenths := 0;
    } else {
      tenths := (ClampRange(Raw(lib, p, CarAge(p.year, currentYear)), 0.0, 10.0) * 10.0 + 0.5).Floor;
    }
  }

  /* ------------------------------------------------------------------------------------------
     Where monotonicity ends
     ------------------------------------------------------------------------------------------ */

  // A few values of the library functions, for the witnesses below.
  ghost predicate Numeric(lib: Lib) {
    && lib.pow07(1.5) >= 1.3
    && lib.pow07(1.0 / 1024.0) == 1.0 / 128.0
    && lib.exp(1.2) >= 3.0
    && lib.exp(5.0 / 1024.0) <= 1.01
  }

  ghost predicate HandNeverHelps(lib: Lib, p: Params, hand: int, currentYear: int)
    requires Sound(lib)
  {
    Total(lib, p.(hand := hand), currentYear) <= Total(lib, p, currentYear)
  }

  lemma CommercialHandFalls(h: int, k: int, age: int)
    requires 1 <= h <= k && 1 <= age <= 5
    ensures HandDelta(k, age, true) <= HandDelta(h, age, true)
    ensures 0.0 <= HandScore(k, age, true) <= HandScore(h, age, true) <= 1.0
  {
  }

  lemma YoungCommercialFalls(lib: Lib, p: Params, hand: int, currentYear: int)
    requires Sound(lib) && p.isCommercial && 1 <= p.hand <= hand && CarAge(p.year, currentYear) <= 5
    ensures HandNeverHelps(lib, p, hand, currentYear)
  {
    var age, q := CarAge(p.year, currentYear), p.(hand := hand);
    CommercialHandFalls(p.hand, hand, age);
    CondScoreWithin(lib, q, age);
    if p.price > 0 {
      if p.medianPrice > 0 { MedianExpectedFalls(p, hand, age); }
      if p.basePrice > 0 { BaseExpectedFalls(p, hand, age); }
      ValueFalls(lib, p, q, age, CondScore(lib, p, age), CondScore(lib, q, age));
    }
    TotalFalls(lib, p, q, currentYear);
  }

  // A worn out first-hand lease car with an engine bonus of e.
  function Worn(age: int, currentYear: int, e: real): Params {
    Params(1, 45000 * age, 1, currentYear - age, 1000.0 + 5000.0 * e, 0, 1000, 100, 0, 0, true, PrivateOwner)
  }

  lemma WornParts(lib: Lib, age: int, currentYear: int, e: real, hand: int)
    requires Sound(lib) && Numeric(lib) && 6 <= age < currentYear && 0.0 <= e <= 0.1 && 1 <= hand <= 2
    ensures var p := Worn(age, currentYear, e).(hand := hand);
            && CondDelta(lib, p, age) == -5.0
            && EngineDelta(p.engineVolume, p.engineMinCC) == e && !Disqualified(p)
            && KmScore(lib, p.km, age) <= 0.25
            && RawValue(lib, p, age, CondScore(lib, p, age)) == 2.5 * (CondScore(lib, p, age) / 0.55)
            && CondScore(lib, p, age) <= 0.475
  {
    var p := Worn(age, currentYear, e).(hand := hand);
    assert p.km as real / ExpectedKm(age) == 3.0;
    assert lib.pow07(1.5) >= 1.3;
    assert HandDelta(hand, age, true) <= 0.52;
    assert lib.exp(10.0) >= lib.exp(1.2);
    assert KmScore(lib, p.km, age) == 1.0 / (1.0 + lib.exp(10.0));
    assert KmScore(lib, p.km, age) <= 0.25 by {
      DivOrder(1.0, 1.0 + lib.exp(10.0), 1.0, 4.0);
    }
    assert MedianExpected(p, age) >= 100.0 by {
      assert HandFactor(hand, age) >= 1.0;
      ProductOrder(100.0, 1.0, 1.0, 1.0, HandFactor(hand, age), 1.0);
    }
    DivOrder(1.0, MedianExpected(p, age), 1.0, 100.0);
    assert MedianCurve(lib, RatioTo(1, MedianExpected(p, age))) == 2.5;
  }

  // An engine bonus that puts the score just below the next tenth.
  lemma TuneRounding(x: real) returns (e: real, n: int)
    ensures 0.0 <= e <= 0.1
    ensures (x + e) * 10.0 + 0.5 == n as real - 0.2
  {
    var m := (x * 10.0 + 0.7).Floor;
    n := m + 1;
    e := (n as real - 0.7) / 10.0 - x;
  }

  lemma RoundCrosses(x: real, y: real, n: int)
    requires 0.0 <= x <= 10.0 && 0.0 <= y <= 10.0 && x * 10.0 + 0.5 == n as real - 0.2 && y >= x + 0.04
    ensures RoundTenth(ClampRange(x, 0.0, 10.0)) < RoundTenth(ClampRange(y, 0.0, 10.0))
  {
    assert (x * 10.0 + 0.5).Floor == n - 1;
    assert (y * 10.0 + 0.5).Floor >= n;
  }

  lemma OldCommercialCanRise(lib: Lib, age: int, currentYear: int) returns (p: Params)
    requires Sound(lib) && Numeric(lib) && 6 <= age < currentYear
    ensures p.isCommercial && p.hand == 1 && CarAge(p.year, currentYear) == age
    ensures !HandNeverHelps(lib, p, 2, currentYear)
  {
    var s := KmScore(lib, 45000 * age, age);
    var c := 0.70 * s + 0.30 * 0.7;
    var e, n := TuneRounding(2.5 * (c / 0.55));
    p := Worn(age, currentYear, e);
    var q := p.(hand := 2);
    WornParts(lib, age, currentYear, e, 1);
    WornParts(lib, age, currentYear, e, 2);
    var d := CondScore(lib, q, age);
    assert CondScore(lib, p, age) == c;
    assert HandScore(2, age, true) >= 0.73;
    assert d >= c + 0.009;
    assert Raw(lib, p, age) == 2.5 * (c / 0.55) + e;
    assert Raw(lib, q, age) == 2.5 * (d / 0.55) + e;
    RoundCrosses(2.5 * (c / 0.55) + e, 2.5 * (d / 0.55) + e, n);
  }

  /** Among listings of one seller kind and car age, more owners never raise the score if and only if
      the seller is private or the car is at most five years old. */
  lemma HandExactly(lib: Lib, age: int, currentYear: int, commercial: bool)
    requires Sound(lib) && Numeric(lib) && 1 <= age < currentYear
    ensures (forall p: Params, hand: int ::
               p.isCommercial == commercial && CarAge(p.year, currentYear) == age && 1 <= p.hand <= hand
               ==> HandNeverHelps(lib, p, hand, currentYear))
            <==> !commercial || age <= 5
  {
    if !commercial || age <= 5 {
      forall p: Params, hand: int |
        p.isCommercial == commercial && CarAge(p.year, currentYear) == age && 1 <= p.hand <= hand
        ensures HandNeverHelps(lib, p, hand, currentYear)
      {
        if commercial {
          YoungCommercialFalls(lib, p, hand, currentYear);
        } else {
          TotalFallsWithHand(lib, p, hand, currentYear);
        }
      }
    } else {
      var p := OldCommercialCanRise(lib, age, currentYear);
      assert !HandNeverHelps(lib, p, 2, currentYear);
    }
  }

  /* ---- mileage ---- */

  lemma KmDeltaFalls(lib: Lib, km: int, more: int, age: int)
    requires Sound(lib) && age >= 1 && 0 < km <= more
    ensures KmDelta(lib, more, age) <= KmDelta(lib, km, age)
  {
    var r, s := km as real / ExpectedKm(age), more as real / ExpectedKm(age);
    DivOrder(km as real, ExpectedKm(age), more as real, ExpectedKm(age));
    KmCurveFalls(lib, r, s);
  }

  lemma KmCurveFalls(lib: Lib, r: real, s: real)
    requires Sound(lib) && 0.0 <= r <= s
    ensures KmCurve(lib, s) <= KmCurve(lib, r)
  {
    if r <= 0.85 {
      assert lib.sqrt((0.85 - r) / 0.85) >= 0.0;
    }
    if s <= 0.85 {
      assert lib.sqrt((0.85 - s) / 0.85) <= lib.sqrt((0.85 - r) / 0.85);
    }
    if s > 1.0 {
      assert lib.pow07(Min(s - 1.0, 1.5)) >= 0.0;
      if r > 1.0 {
        assert lib.pow07(Min(r - 1.0, 1.5)) <= lib.pow07(Min(s - 1.0, 1.5));
      }
    }
  }

  predicate SameSide(km: int, more: int, age: int) {
    km as real <= ExpectedKm(age) <==> more as real <= ExpectedKm(age)
  }

  lemma LogisticFalls(lib: Lib, x: real, y: real)
    requires Sound(lib) && x <= y
    ensures Logistic(lib, y) <= Logistic(lib, x)
  {
    DivOrder(1.0, 1.0 + lib.exp(y), 1.0, 1.0 + lib.exp(x));
  }

  lemma KmScoreFalls(lib: Lib, km: int, more: int, age: int)
    requires Sound(lib) && age >= 1 && 0 < km <= more && SameSide(km, more, age)
    ensures KmScore(lib, more, age) <= KmScore(lib, km, age)
  {
    var r, s := km as real / ExpectedKm(age), more as real / ExpectedKm(age);
    DivOrder(km as real, ExpectedKm(age), more as real, ExpectedKm(age));
    OverOne(km as real, ExpectedKm(age));
    OverOne(more as real, ExpectedKm(age));
    if r <= 1.0 {
      LogisticFalls(lib, 4.0 * (r - 0.7), 4.0 * (s - 0.7));
    } else {
      LogisticFalls(lib, 5.0 * (r - 1.0), 5.0 * (s - 1.0));
    }
  }

  lemma OverOne(a: real, b: real)
    requires b > 0.0
    ensures a / b <= 1.0 <==> a <= b
  {
    assert a / b * b == a;
  }

  lemma KmFactorsFall(p: Params, more: int, age: int)
    requires age >= 1 && 0 < p.km <= more
    ensures p.medianKm > 0 ==> 0.5 <= MedianKmFactor(p.(km := more)) <= MedianKmFactor(p)
    ensures p.medianKm <= 0 ==> MedianKmFactor(p.(km := more)) == MedianKmFactor(p) == 1.0
    ensures 0.7 <= BaseKmFactor(p.(km := more), age) <= BaseKmFactor(p, age)
  {
    if p.medianKm > 0 {
      DivByPositive((p.medianKm - more) as real, (p.medianKm - p.km) as real, p.medianKm as real);
    }
    DivByPositive(ExpectedKm(age) - more as real, ExpectedKm(age) - p.km as real, ExpectedKm(age));
  }

  lemma DivByPositive(a: real, b: real, c: real)
    requires a <= b && c > 0.0
    ensures a / c <= b / c
  {
    assert b / c - a / c == (b - a) / c;
  }

  lemma ValueFallsWithKm(lib: Lib, p: Params, more: int, age: int)
    requires Sound(lib) && age >= 1 && 0 < p.km <= more && KmScore(lib, more, age) <= KmScore(lib, p.km, age)
    ensures var q := p.(km := more);
            RawValue(lib, q, age, CondScore(lib, q, age)) <= RawValue(lib, p, age, CondScore(lib, p, age))
  {
    var q := p.(km := more);
    CondScoreWithin(lib, q, age);
    KmFactorsFall(p, more, age);
    if p.price > 0 {
      if p.medianPrice > 0 {
        ProductOrder(p.medianPrice as real, MedianKmFactor(q), MedianKmFactor(p), HandFactor(p.hand, age),
                     HandFactor(p.hand, age), OriginFactor(p.ownership));
      }
      if p.basePrice > 0 {
        ProductOrder(p.basePrice as real * BasePriceDiscount(age), BaseKmFactor(q, age), BaseKmFactor(p, age),
                     HandFactor(p.hand, age), HandFactor(p.hand, age), OriginFactor(p.ownership));
      }
      ValueFalls(lib, p, q, age, CondScore(lib, p, age), CondScore(lib, q, age));
    }
  }

  // More kilometres never raise the score unless they raise the mileage part of the condition.
  lemma TotalFallsWithKm(lib: Lib, p: Params, more: int, currentYear: int)
    requires Sound(lib) && 0 < p.km <= more
    requires var age := CarAge(p.year, currentYear); KmScore(lib, more, age) <= KmScore(lib, p.km, age)
    ensures KmNeverHelps(lib, p, more, currentYear)
  {
    var age := CarAge(p.year, currentYear);
    KmDeltaFalls(lib, p.km, more, age);
    ValueFallsWithKm(lib, p, more, age);
    TotalFalls(lib, p, p.(km := more), currentYear);
  }

  ghost predicate KmNeverHelps(lib: Lib, p: Params, more: int, currentYear: int)
    requires Sound(lib)
  {
    Total(lib, p.(km := more), currentYear) <= Total(lib, p, currentYear)
  }

  // A cheap listing after very many owners: mileage counts only through the gate on its bargain price.
  function Shabby(km: int, age: int, currentYear: int, e: real): Params {
    Params(1, km, 10 + age, currentYear - age, 1000.0 + 5000.0 * e, 0, 1000, 100, 0, 0, false, PrivateOwner)
  }

  lemma ShabbyCond(lib: Lib, km: int, age: int, currentYear: int, e: real)
    requires Sound(lib) && 1 <= age < currentYear && 0 < km
    ensures CondDelta(lib, Shabby(km, age, currentYear, e), age) == -5.0
    ensures CondScore(lib, Shabby(km, age, currentYear, e), age) == 0.70 * KmScore(lib, km, age)
  {
    KmDeltaWithin(lib, km, age);
    var excess := (10 + age) as real - ExpectedHands(age);
    assert excess >= 9.8;
    assert HandDelta(10 + age, age, false) == -1.1 * excess;
    assert HandScore(10 + age, age, false) == 0.0;
  }

  lemma KmDeltaWithin(lib: Lib, km: int, age: int)
    requires Sound(lib) && age >= 1 && 0 < km
    ensures KmDelta(lib, km, age) <= 4.2
  {
    var r := km as real / ExpectedKm(age);
    if r <= 0.85 {
      assert r >= 0.0;
      assert (0.85 - r) / 0.85 <= 1.0;
      assert lib.sqrt((0.85 - r) / 0.85) <= lib.sqrt(1.0);
    } else if r > 1.0 {
      assert lib.pow07(Min(r - 1.0, 1.5)) >= lib.pow07(0.0);
    }
  }

  lemma ShabbyValue(lib: Lib, km: int, age: int, currentYear: int, e: real, cond: real)
    requires Sound(lib) && 1 <= age < currentYear && 0.0 <= cond < 0.55
    ensures ValueDelta(lib, Shabby(km, age, currentYear, e), age, cond) == 2.5 * (cond / 0.55)
  {
    var p := Shabby(km, age, currentYear, e);
    assert MedianExpected(p, age) >= 85.0 by {
      ProductOrder(100.0, 1.0, 1.0, 0.85, HandFactor(10 + age, age), 1.0);
    }
    DivOrder(1.0, MedianExpected(p, age), 1.0, 85.0);
    assert MedianCurve(lib, RatioTo(1, MedianExpected(p, age))) == 2.5;
  }

  lemma ShabbyRaw(lib: Lib, km: int, age: int, currentYear: int, e: real)
    requires Sound(lib) && 1 <= age < currentYear && 0 < km && 0.0 <= e <= 0.1 && KmScore(lib, km, age) <= 0.5
    ensures var p := Shabby(km, age, currentYear, e);
            !Disqualified(p) && Raw(lib, p, age) == 2.5 * (0.70 * KmScore(lib, km, age) / 0.55) + e
  {
    ShabbyCond(lib, km, age, currentYear, e);
    ShabbyValue(lib, km, age, currentYear, e, 0.70 * KmScore(lib, km, age));
  }

  // An engine bonus that puts x below a rounding step that y, a little larger, passes.
  lemma TuneBetween(x: real, y: real) returns (e: real)
    requires 0.0 <= x < y <= 5.0
    ensures 0.0 <= e <= 0.1
    ensures RoundTenth(ClampRange(x + e, 0.0, 10.0)) < RoundTenth(ClampRange(y + e, 0.0, 10.0))
  {
    var d := Min(0.2, 5.0 * (y - x));
    var n := (x * 10.0 + 0.5 + d).Floor + 1;
    e := (n as real - 0.5 - d) / 10.0 - x;
    assert (x + e) * 10.0 + 0.5 == n as real - d;
    assert ((x + e) * 10.0 + 0.5).Floor == n - 1;
    assert ((y + e) * 10.0 + 0.5).Floor >= n;
  }

  // Past the expected mileage the mileage part of the condition is at most one half.
  lemma OverMileage(lib: Lib, km: int, age: int)
    requires Sound(lib) && age >= 1 && km as real > ExpectedKm(age)
    ensures KmScore(lib, km, age) == Logistic(lib, 5.0 * (km as real / ExpectedKm(age) - 1.0)) <= 0.5
  {
    OverOne(km as real, ExpectedKm(age));
    LogisticFalls(lib, 0.0, 5.0 * (km as real / ExpectedKm(age) - 1.0));
  }

  lemma ShabbyRises(lib: Lib, km: int, more: int, age: int, currentYear: int) returns (p: Params)
    requires Sound(lib) && 1 <= age < currentYear && 0 < km <= more
    requires KmScore(lib, km, age) < KmScore(lib, more, age)
    ensures p.km == km && CarAge(p.year, currentYear) == age && !KmNeverHelps(lib, p, more, currentYear)
  {
    if SameSide(km, more, age) {
      KmScoreFalls(lib, km, more, age);
      assert false;
    }
    OverMileage(lib, more, age);
    var x, y := 2.5 * (0.70 * KmScore(lib, km, age) / 0.55), 2.5 * (0.70 * KmScore(lib, more, age) / 0.55);
    var e := TuneBetween(x, y);
    p := Shabby(km, age, currentYear, e);
    ShabbyRaw(lib, km, age, currentYear, e);
    ShabbyRaw(lib, more, age, currentYear, e);
    assert p.(km := more) == Shabby(more, age, currentYear, e);
  }

  ghost predicate ExpStrict(lib: Lib) {
    forall x: real, y: real :: x < y ==> lib.exp(x) < lib.exp(y)
  }

  // Both mileages on one side of the expected one, or the larger far enough past it.
  predicate KmGuard(km: int, more: int, age: int)
    requires age >= 1
  {
    SameSide(km, more, age) ||
    5.0 * (more as real / ExpectedKm(age) - 1.0) >= 4.0 * (km as real / ExpectedKm(age) - 0.7)
  }

  lemma KmScoreExactly(lib: Lib, km: int, more: int, age: int)
    requires Sound(lib) && ExpStrict(lib) && age >= 1 && 0 < km <= more
    ensures KmScore(lib, more, age) <= KmScore(lib, km, age) <==> KmGuard(km, more, age)
  {
    if SameSide(km, more, age) {
      KmScoreFalls(lib, km, more, age);
    } else {
      OverMileage(lib, more, age);
      OverOne(km as real, ExpectedKm(age));
      var x, y := 4.0 * (km as real / ExpectedKm(age) - 0.7), 5.0 * (more as real / ExpectedKm(age) - 1.0);
      if x <= y {
        LogisticFalls(lib, x, y);
      } else {
        LogisticStrict(lib, y, x);
      }
    }
  }

  lemma LogisticStrict(lib: Lib, x: real, y: real)
    requires Sound(lib) && ExpStrict(lib) && x < y
    ensures Logistic(lib, y) < Logistic(lib, x)
  {
    InverseStrict(1.0 + lib.exp(x), 1.0 + lib.exp(y));
  }

  lemma InverseStrict(a: real, b: real)
    requires 0.0 < a < b
    ensures 1.0 / b < 1.0 / a
  {
    var i, j := 1.0 / a, 1.0 / b;
    assert a * i == 1.0 && b * j == 1.0;
    assert b * i > a * i;
    assert j >= i ==> b * j >= b * i;
  }

  /** For two mileages and a car age: the larger never scores higher, whatever else the listing says, if
      and only if both are on one side of the expected mileage or the larger is far enough past it. */
  lemma KmExactly(lib: Lib, km: int, more: int, age: int, currentYear: int)
    requires Sound(lib) && ExpStrict(lib) && 1 <= age < currentYear && 0 < km <= more
    ensures (forall p: Params :: p.km == km && CarAge(p.year, currentYear) == age ==> KmNeverHelps(lib, p, more, currentYear))
            <==> KmGuard(km, more, age)
  {
    KmScoreExactly(lib, km, more, age);
    if KmGuard(km, more, age) {
      forall p: Params | p.km == km && CarAge(p.year, currentYear) == age
        ensures KmNeverHelps(lib, p, more, currentYear)
      {
        TotalFallsWithKm(lib, p, more, currentYear);
      }
    } else {
      var p := ShabbyRises(lib, km, more, age, currentYear);
      assert !KmNeverHelps(lib, p, more, currentYear);
    }
  }

  /** Across it they can: 200 km more than expected score higher than exactly the expected mileage. */
  lemma TotalCanRiseAcrossExpectedKm(lib: Lib, currentYear: int) returns (p: Params)
    requires Sound(lib) && Numeric(lib) && currentYear > 15
    ensures p.km == 225000 && Total(lib, p.(km := 225200), currentYear) > Total(lib, p, currentYear)
  {
    p := Params(1, 225000, 0, currentYear - 15, 0.0, 0, 0, 100, 0, 0, false, PrivateOwner);
    var q := p.(km := 225200);
    var eps := 200.0 / 225000.0;
    assert p.km as real / ExpectedKm(15) == 1.0;
    assert q.km as real / ExpectedKm(15) == 1.0 + eps;
    assert lib.pow07(eps) <= lib.pow07(1.0 / 1024.0);
    assert KmDelta(lib, p.km, 15) == -0.3;
    assert KmDelta(lib, q.km, 15) >= -0.34;
    assert 5.0 * (1.0 + eps - 1.0) <= 5.0 / 1024.0;
    assert KmScore(lib, p.km, 15) <= 0.25 by {
      DivOrder(1.0, 1.0 + lib.exp(1.2), 1.0, 4.0);
    }
    assert KmScore(lib, q.km, 15) >= 0.49 by {
      LogisticFalls(lib, 5.0 * (1.0 + eps - 1.0), 5.0 / 1024.0);
      DivOrder(1.0, 2.01, 1.0, 1.0 + lib.exp(5.0 / 1024.0));
    }
    CheapValue(lib, p);
    CheapValue(lib, q);
    var c, d := CondScore(lib, p, 15), CondScore(lib, q, 15);
    assert c <= 0.325 && d >= 0.493;
    assert Raw(lib, p, 15) <= 4.7 + 2.5 * (0.325 / 0.55);
    assert Raw(lib, q, 15) >= 4.66 + 2.5 * (0.493 / 0.55);
    assert Raw(lib, q, 15) >= Raw(lib, p, 15) + 0.2;
  }

  lemma CheapValue(lib: Lib, p: Params)
    requires Sound(lib) && p.price == 1 && p.medianPrice == 100 && p.medianKm == 0 && p.hand == 0 && p.ownership == PrivateOwner
    ensures RawValue(lib, p, 15, CondScore(lib, p, 15)) == Gate(2.5, CondScore(lib, p, 15))
  {
    assert MedianExpected(p, 15) == 100.0;
    assert RatioTo(1, 100.0) == 0.01;
  }
}
