/**
  What each part of the fitness score is worth, said in points, kilometres, years and owners and without
  the part's own formula; and what that comes to in the total.
 */
module FitnessWorth {
  import opened Fitness

  function Power(x: real, n: nat): real {
    if n == 0 then 1.0 else x * Power(x, n - 1)
  }

  // sqrt and the power 0.7 are exact; of exp only the order counts.
  ghost predicate Exact(lib: Lib) {
    && Sound(lib)
    && (forall x: real :: x >= 0.0 ==> lib.sqrt(x) >= 0.0 && lib.sqrt(x) * lib.sqrt(x) == x)
    && (forall x: real :: x >= 0.0 ==> lib.pow07(x) >= 0.0 && Power(lib.pow07(x), 10) == Power(x, 7))
  }

  lemma {:induction false} PowerOrder(x: real, y: real, n: nat)
    requires 0.0 <= x <= y
    ensures 0.0 <= Power(x, n) <= Power(y, n)
  {
    if n > 0 {
      PowerOrder(x, y, n - 1);
      ScaleOrder(x, y, Power(x, n - 1), Power(y, n - 1));
    }
  }

  lemma {:induction false} PowerStrict(x: real, y: real, n: nat)
    requires 0.0 <= x < y && n > 0
    ensures Power(x, n) < Power(y, n)
  {
    PowerOrder(x, y, n - 1);
    if n == 1 {
      assert Power(x, 0) == 1.0 && Power(y, 0) == 1.0;
    } else {
      PowerStrict(x, y, n - 1);
      StrictProduct(x, y, Power(x, n - 1), Power(y, n - 1));
    }
  }

  lemma StrictProduct(a: real, b: real, c: real, d: real)
    requires 0.0 <= a < b && 0.0 <= c < d
    ensures a * c < b * d
  {
    assert a * c <= a * d;
    assert a * d < b * d;
  }

  lemma Strict(lib: Lib, x: real, y: real)
    requires Exact(lib) && 0.0 <= x < y
    ensures lib.sqrt(x) < lib.sqrt(y) && lib.pow07(x) < lib.pow07(y)
  {
    assert lib.sqrt(x) * lib.sqrt(x) == x && lib.sqrt(y) * lib.sqrt(y) == y;
    if lib.pow07(x) == lib.pow07(y) {
      PowerStrict(x, y, 7);
    }
  }

  /* ---- mileage ---- */

  lemma RatioIs(km: int, age: int, r: real)
    requires age >= 1 && km as real == r * (15000 * age) as real
    ensures km as real / ExpectedKm(age) == r
  {
    var e := ExpectedKm(age);
    assert e == (15000 * age) as real;
    assert km as real / e == r * e / e;
  }

  lemma RatioOrder(km: int, more: int, age: int)
    requires age >= 1 && 0 < km < more
    ensures 0.0 < km as real / ExpectedKm(age) < more as real / ExpectedKm(age)
  {
    var e := ExpectedKm(age);
    assert more as real / e - km as real / e == (more - km) as real / e;
  }

  /** Points for mileage: none either way for an unknown one and for 12750 km a year, 0.3 lost at 15000, 5 lost at
      30000, and no more lost beyond 37500. */
  lemma KmPoints(lib: Lib, km: int, age: int)
    requires Sound(lib) && age >= 1
    ensures km <= 0 ==> KmDelta(lib, km, age) == 0.0
    ensures KmDelta(lib, 12750 * age, age) == 0.0
    ensures KmDelta(lib, 15000 * age, age) == -0.3
    ensures KmDelta(lib, 30000 * age, age) == -5.0
    ensures km >= 37500 * age ==> KmDelta(lib, km, age) == KmDelta(lib, 37500 * age, age) == -0.3 - 4.7 * lib.pow07(1.5)
  {
    RatioIs(12750 * age, age, 0.85);
    RatioIs(15000 * age, age, 1.0);
    RatioIs(30000 * age, age, 2.0);
    RatioIs(37500 * age, age, 2.5);
    if km > 37500 * age {
      RatioOrder(37500 * age, km, age);
    }
  }

  /** Below 12750 km a year the square of the points won is in proportion to the kilometres missing, 4.2 points
      standing for all of them. */
  lemma LowKmPoints(lib: Lib, km: int, age: int)
    requires Exact(lib) && age >= 1 && 0 < km <= 12750 * age
    ensures var d := KmDelta(lib, km, age);
            0.0 <= d < 4.2 && d * d * (12750 * age) as real == 4.2 * 4.2 * (12750 * age - km) as real
  {
    var e, r := ExpectedKm(age), km as real / ExpectedKm(age);
    assert r * e == km as real;
    RatioIs(12750 * age, age, 0.85);
    if km < 12750 * age {
      RatioOrder(km, 12750 * age, age);
    }
    var x := (0.85 - r) / 0.85;
    var s := lib.sqrt(x);
    Strict(lib, x, 1.0);
    var d := KmDelta(lib, km, age);
    assert d == 4.2 * s;
    assert d * d == 4.2 * 4.2 * x by {
      assert d * d == 4.2 * 4.2 * (s * s);
    }
    assert x * (0.85 * e) == 0.85 * e - km as real by {
      assert x * (0.85 * e) == (0.85 - r) * e;
    }
    assert d * d * (0.85 * e) == 4.2 * 4.2 * (x * (0.85 * e)) by {
      assert d * d * (0.85 * e) == 4.2 * 4.2 * x * (0.85 * e);
    }
    assert 0.85 * e == (12750 * age) as real;
  }

  // Between 12750 and 15000 km a year the points lost grow evenly.
  lemma DeadZonePoints(lib: Lib, km: int, age: int)
    requires Sound(lib) && age >= 1 && 12750 * age <= km <= 15000 * age
    ensures KmDelta(lib, km, age) * (2250 * age) as real == -0.3 * (km - 12750 * age) as real
  {
    var e, r := ExpectedKm(age), km as real / ExpectedKm(age);
    assert r * e == km as real;
    RatioIs(12750 * age, age, 0.85);
    RatioIs(15000 * age, age, 1.0);
    if km > 12750 * age {
      RatioOrder(12750 * age, km, age);
    }
    if km < 15000 * age {
      RatioOrder(km, 15000 * age, age);
    }
    var d := KmDelta(lib, km, age);
    assert km > 12750 * age ==> d == -0.3 * (r - 0.85) / (1.0 - 0.85);
    assert d == -2.0 * (r - 0.85);
    assert d * (0.15 * e) == -0.3 * (r * e - 0.85 * e) by {
      assert d * (0.15 * e) == -2.0 * (r - 0.85) * (0.15 * e);
    }
  }

  // Past 15000 km a year the tenth power of the loss grows with the seventh power of the excess.
  lemma HighKmPoints(lib: Lib, km: int, age: int)
    requires Exact(lib) && age >= 1 && 15000 * age < km <= 37500 * age
    ensures var loss := (-0.3 - KmDelta(lib, km, age)) / 4.7;
            loss > 0.0 && Power(loss, 10) == Power(km as real / (15000 * age) as real - 1.0, 7)
  {
    RatioIs(15000 * age, age, 1.0);
    RatioIs(37500 * age, age, 2.5);
    RatioOrder(15000 * age, km, age);
    if km < 37500 * age {
      RatioOrder(km, 37500 * age, age);
    }
    var x := km as real / ExpectedKm(age) - 1.0;
    assert ExpectedKm(age) == (15000 * age) as real;
    assert KmDelta(lib, km, age) == -0.3 - 4.7 * lib.pow07(x);
    Strict(lib, 0.0, x);
  }

  /** Up to 37500 km a year every kilometre costs. */
  lemma EveryKmCosts(lib: Lib, km: int, more: int, age: int)
    requires Exact(lib) && age >= 1 && 0 < km < more <= 37500 * age
    ensures KmDelta(lib, more, age) < KmDelta(lib, km, age)
  {
    var r, s := km as real / ExpectedKm(age), more as real / ExpectedKm(age);
    RatioOrder(km, more, age);
    RatioIs(37500 * age, age, 2.5);
    if more < 37500 * age {
      RatioOrder(more, 37500 * age, age);
    }
    CurveStrict(lib, r, s);
  }

  lemma CurveStrict(lib: Lib, r: real, s: real)
    requires Exact(lib) && 0.0 < r < s <= 2.5
    ensures KmCurve(lib, s) < KmCurve(lib, r)
  {
    if r <= 0.85 {
      if s <= 0.85 {
        Strict(lib, (0.85 - s) / 0.85, (0.85 - r) / 0.85);
      } else {
        assert lib.sqrt((0.85 - r) / 0.85) >= 0.0;
      }
    }
    if s > 1.0 {
      Strict(lib, 0.0, s - 1.0);
      if r > 1.0 {
        Strict(lib, r - 1.0, s - 1.0);
      }
    }
  }

  /* ---- owners ---- */

  // Owners the car should have had time for: one for every five years after the first.
  function YearsOver(hand: int, age: int): int { 5 * (hand - 1) - age }

  /** Points for owners: an unknown number counts for nothing; a single owner brings 0.5 and another tenth for each
      year up to the eighth, a commercial one two fifths of that; after that each year the car is too young for its
      owners costs 0.22, and each year to spare brings 0.06, up to five. */
  lemma HandPoints(hand: int, age: int, commercial: bool)
    requires age >= 1
    ensures hand <= 0 ==> HandDelta(hand, age, commercial) == 0.0
    ensures 10.0 * HandDelta(1, age, false) == 5.0 + (if age < 8 then age else 8) as real
    ensures 5.0 * HandDelta(1, age, true) == 2.0 * HandDelta(1, age, false)
    ensures hand >= 2 ==> HandDelta(hand, age, commercial) == HandDelta(hand, age, !commercial)
    ensures hand >= 2 && YearsOver(hand, age) >= 0 ==>
              100.0 * HandDelta(hand, age, commercial) == -22.0 * YearsOver(hand, age) as real
    ensures hand >= 2 && -5 <= YearsOver(hand, age) <= 0 ==>
              100.0 * HandDelta(hand, age, commercial) == -6.0 * YearsOver(hand, age) as real
    ensures hand >= 2 && YearsOver(hand, age) <= -5 ==> HandDelta(hand, age, commercial) == 0.3
  {
  }

  // The same for the condition score.
  lemma HandScorePoints(hand: int, age: int, commercial: bool)
    requires age >= 1
    ensures hand <= 0 ==> HandScore(hand, age, commercial) == 0.5
    ensures HandScore(1, age, false) == 1.0 && HandScore(1, age, true) == 0.7
    ensures hand >= 2 && 0 < YearsOver(hand, age) <= 10 ==>
              100.0 * HandScore(hand, age, commercial) == 50.0 - 5.0 * YearsOver(hand, age) as real
    ensures hand >= 2 && YearsOver(hand, age) >= 10 ==> HandScore(hand, age, commercial) == 0.0
    ensures hand >= 2 && -10 <= YearsOver(hand, age) <= 0 ==>
              100.0 * HandScore(hand, age, commercial) == 70.0 - 3.0 * YearsOver(hand, age) as real
    ensures hand >= 2 && YearsOver(hand, age) <= -10 ==> HandScore(hand, age, commercial) == 1.0
  {
  }

  /** What owners do to the expected price: five per cent more for a first-hand car of three years or older, 1.4 per
      cent less for each year the car is too young for its owners, at most fifteen, and nothing otherwise. */
  lemma HandPrice(hand: int, age: int)
    requires age >= 1
    ensures hand == 1 ==> 100.0 * HandFactor(hand, age) == if age >= 3 then 105.0 else 100.0
    ensures hand <= 0 || (hand >= 2 && YearsOver(hand, age) <= 0) ==> HandFactor(hand, age) == 1.0
    ensures hand >= 2 && 0 <= YearsOver(hand, age) <= 10 ==>
              1000.0 * HandFactor(hand, age) == 1000.0 - 14.0 * YearsOver(hand, age) as real
    ensures hand >= 2 && YearsOver(hand, age) >= 11 ==> HandFactor(hand, age) == 0.85
  {
  }

  /* ---- expected price ---- */

  // The discount on the list price by the car's age, and the discount for its origin.
  lemma PriceTables(age: int)
    ensures age <= 1 ==> 100.0 * BasePriceDiscount(age) == 97.0
    ensures 2 <= age <= 3 ==> 100.0 * BasePriceDiscount(age) == 94.0
    ensures 4 <= age <= 6 ==> 100.0 * BasePriceDiscount(age) == 90.0
    ensures age >= 7 ==> 100.0 * BasePriceDiscount(age) == 85.0
    ensures 100.0 * (1.0 - OriginFactor(PrivateOwner)) == 0.0
    ensures 100.0 * (1.0 - OriginFactor(Lease)) == 4.0
    ensures 100.0 * (1.0 - OriginFactor(Rental)) == 6.0
  {
  }

  // A listing of the cohort's mileage, of no known number of owners and a private origin should cost the median.
  lemma MedianIsExpected(p: Params, age: int)
    requires age >= 1 && p.medianPrice > 0 && p.hand <= 0 && p.ownership == PrivateOwner
    requires p.km <= 0 || p.medianKm <= 0 || p.km == p.medianKm
    ensures MedianExpected(p, age) == p.medianPrice as real
  {
    if p.medianKm > 0 && p.km > 0 {
      assert MedianKmFactor(p) == 1.0 + 0.0 / p.medianKm as real * 0.15;
    }
    assert MedianKmFactor(p) == 1.0;
  }

  /** Mileage and the expected price: each per cent under the cohort's mileage adds 0.15 per cent, each one over it
      takes as much, down to one half; against the list price 0.12 per cent of 15000 km a year, down to 0.7. */
  lemma KmPrice(p: Params, age: int)
    requires age >= 1 && p.km > 0
    ensures p.medianKm > 0 ==>
              MedianKmFactor(p) == Max(0.5, 1.0 + 0.15 * ((p.medianKm - p.km) as real / p.medianKm as real))
    ensures BaseKmFactor(p, age) == Max(0.7, 1.0 + 0.12 * ((15000 * age - p.km) as real / (15000 * age) as real))
  {
    if p.medianKm > 0 {
      DivByPositive((p.medianKm - p.km) as real, p.medianKm as real, p.medianKm as real);
    }
    assert ExpectedKm(age) == (15000 * age) as real;
    DivByPositive((15000 * age - p.km) as real, (15000 * age) as real, (15000 * age) as real);
  }

  /* ---- price ---- */

  // The value t of the way from a to b.
  function Between(a: real, b: real, t: real): real { a + t * (b - a) }

  /** Points for the price against the market: 2.5 up to 80 per cent of what is expected, none at 92, 0.3 lost at
      105 and 3.5 from 135 on; evenly in between, and with the power 0.7 over the last stretch. */
  lemma MarketPoints(lib: Lib, ratio: real, t: real)
    requires Sound(lib) && 0.0 <= t <= 1.0
    ensures ratio <= 0.80 ==> MedianCurve(lib, ratio) == 2.5
    ensures MedianCurve(lib, Between(0.80, 0.92, t)) == Between(2.5, 0.0, t)
    ensures MedianCurve(lib, Between(0.92, 1.05, t)) == Between(0.0, -0.3, t)
    ensures MedianCurve(lib, Between(1.05, 1.35, t)) == Between(-0.3, -3.5, lib.pow07(t))
    ensures ratio >= 1.35 ==> MedianCurve(lib, ratio) == -3.5
  {
    assert 0.0 <= lib.pow07(t) <= 1.0;
  }

  // Against the list price: 1.8 up to 75 per cent, none at 88, 0.2 lost at 110 and 2.8 from 140 on.
  lemma ListPricePoints(lib: Lib, ratio: real, t: real)
    requires Sound(lib) && 0.0 <= t <= 1.0
    ensures ratio <= 0.75 ==> BaseCurve(lib, ratio) == 1.8
    ensures BaseCurve(lib, Between(0.75, 0.88, t)) == Between(1.8, 0.0, t)
    ensures BaseCurve(lib, Between(0.88, 1.10, t)) == Between(0.0, -0.2, t)
    ensures BaseCurve(lib, Between(1.10, 1.40, t)) == Between(-0.2, -2.8, lib.pow07(t))
    ensures ratio >= 1.40 ==> BaseCurve(lib, ratio) == -2.8
  {
    assert 0.0 <= lib.pow07(t) <= 1.0;
  }

  // Against the budget: 2 up to 70 per cent of it, none at 90, 0.5 lost for all of it, 1 for more.
  lemma BudgetPoints(share: real, t: real)
    requires 0.0 <= t <= 1.0
    ensures share <= 0.70 ==> BudgetCurve(1.0 - share) == 2.0
    ensures BudgetCurve(1.0 - Between(0.70, 0.90, t)) == Between(2.0, 0.0, t)
    ensures BudgetCurve(1.0 - Between(0.90, 1.00, t)) == Between(0.0, -0.5, t)
    ensures share > 1.00 ==> BudgetCurve(1.0 - share) == -1.0
  {
  }

  // Which comparison counts, and that a bonus shrinks evenly with a condition score below 0.55 and a penalty never.
  lemma GatePoints(bonus: real, t: real)
    requires 0.0 <= t <= 1.0
    ensures bonus > 0.0 ==> Gate(bonus, Between(0.0, 0.55, t)) == Between(0.0, bonus, t)
    ensures bonus > 0.0 ==> Gate(bonus, 0.55 + t) == bonus
    ensures bonus <= 0.0 ==> Gate(bonus, t) == bonus
  {
  }

  // A tenth of a point at most, from half as much again as the volume asked for on.
  lemma EnginePoints(minCC: int, t: real)
    requires minCC > 0 && t >= 0.0
    ensures EngineDelta(Between(minCC as real, 1.5 * minCC as real, t), minCC) == if t <= 1.0 then 0.1 * t else 0.1
    ensures EngineDelta(0.0, minCC) == 0.0 && EngineDelta(t, 0) == 0.0
  {
    var c := minCC as real;
    var v := Between(c, 1.5 * c, t);
    assert v - c == t * (c * 0.5) by {
      assert 1.5 * c - c == c * 0.5;
    }
    assert (v - c) / (c * 0.5) == t;
  }

  // The mileage part of the condition: one half for an unknown mileage and for 10500 km a year, and at 15000 and
  // 18000 a year as low as exp(1.2) and exp(1) make it.
  lemma KmScorePoints(lib: Lib, km: int, age: int)
    requires Sound(lib) && age >= 1
    ensures km <= 0 ==> KmScore(lib, km, age) == 0.5
    ensures KmScore(lib, 10500 * age, age) == 0.5
    ensures KmScore(lib, 15000 * age, age) == 1.0 / (1.0 + lib.exp(1.2))
    ensures KmScore(lib, 18000 * age, age) == 1.0 / (1.0 + lib.exp(1.0))
  {
    RatioIs(10500 * age, age, 0.7);
    RatioIs(15000 * age, age, 1.0);
    RatioIs(18000 * age, age, 1.2);
  }

  // Below 10500 km a year it is at least one half, above at most.
  lemma KmScoreSides(lib: Lib, km: int, age: int)
    requires Sound(lib) && age >= 1
    ensures 0 < km <= 10500 * age ==> KmScore(lib, km, age) >= 0.5
    ensures km >= 10500 * age ==> KmScore(lib, km, age) <= 0.5
  {
    KmScorePoints(lib, km, age);
    if 0 < km <= 10500 * age {
      OneSide(km, 10500 * age, age);
      KmScoreFalls(lib, km, 10500 * age, age);
    }
    if 10500 * age <= km <= 15000 * age {
      OneSide(10500 * age, km, age);
      KmScoreFalls(lib, 10500 * age, km, age);
    }
    if km > 15000 * age {
      OverMileage(lib, km, age);
    }
  }

  lemma OneSide(km: int, more: int, age: int)
    requires age >= 1 && km <= more <= 15000 * age
    ensures SameSide(km, more, age)
  {
  }

  // The condition score of cars of which one thing is known.
  lemma CondPoints(lib: Lib, p: Params, age: int)
    requires Sound(lib) && age >= 1
    ensures p.km <= 0 && p.hand <= 0 ==> CondScore(lib, p, age) == 0.5
    ensures p.km <= 0 && p.hand == 1 ==> CondScore(lib, p, age) == if p.isCommercial then 0.56 else 0.65
  {
  }

  /* ---- the total ---- */

  lemma RoundsTo(x: real, n: int)
    requires n as real - 0.5 <= x * 10.0 < n as real + 0.5
    ensures RoundTenth(x) == n as real / 10.0
  {
    assert (x * 10.0 + 0.5).Floor == n;
  }

  lemma SqrtWithin(lib: Lib, x: real, lo: real, hi: real)
    requires Exact(lib) && 0.0 <= lo < hi && lo * lo <= x <= hi * hi
    ensures lo <= lib.sqrt(x) <= hi
  {
    var s := lib.sqrt(x);
    assert s * s == x;
    if s < lo {
      StrictProduct(s, lo, s, lo);
    }
    if hi < s {
      StrictProduct(hi, s, hi, s);
    }
  }

  // What a listing of that mileage would be with 12750 km a year.
  function AtThreshold(p: Params, currentYear: int): Params {
    p.(km := 12750 * CarAge(p.year, currentYear))
  }

  // The tenth of a point that is won is not clamped away.
  ghost predicate NoClamp(lib: Lib, p: Params, currentYear: int)
    requires Sound(lib)
  {
    var age := CarAge(p.year, currentYear);
    && -5.0 <= HandDelta(p.hand, age, p.isCommercial) <= 0.3
    && 0.0 <= Raw(lib, AtThreshold(p, currentYear), age) && Raw(lib, p, age) <= 10.0
  }

  /** A car below 12750 km a year never scores below the same car at that mileage, and strictly above when at least
      a tenth of a point is won and no clamp acts. */
  lemma LowKmPays(lib: Lib, p: Params, currentYear: int)
    requires Exact(lib) && 0 < p.km <= 12750 * CarAge(p.year, currentYear)
    ensures Total(lib, AtThreshold(p, currentYear), currentYear) <= Total(lib, p, currentYear)
    ensures var least := 12750 * CarAge(p.year, currentYear);
            !Disqualified(p) && NoClamp(lib, p, currentYear) && 4.2 * 4.2 * (least - p.km) as real >= 0.1 * 0.1 * least as real
            ==> Total(lib, AtThreshold(p, currentYear), currentYear) < Total(lib, p, currentYear)
  {
    var age, q := CarAge(p.year, currentYear), AtThreshold(p, currentYear);
    RatioIs(q.km, age, 0.85);
    OverOne(p.km as real, ExpectedKm(age));
    KmScoreFalls(lib, p.km, q.km, age);
    TotalFallsWithKm(lib, p, q.km, currentYear);
    if 4.2 * 4.2 * (q.km - p.km) as real >= 0.1 * 0.1 * q.km as real && !Disqualified(p) && NoClamp(lib, p, currentYear) {
      TenthWon(lib, p.km, age);
      ValueFallsWithKm(lib, p, q.km, age);
      KmPoints(lib, 0, age);
      TenthRises(lib, p, q, currentYear);
    }
  }

  lemma TenthWon(lib: Lib, km: int, age: int)
    requires Exact(lib) && age >= 1 && 0 < km <= 12750 * age
    requires 4.2 * 4.2 * (12750 * age - km) as real >= 0.1 * 0.1 * (12750 * age) as real
    ensures 0.1 <= KmDelta(lib, km, age) <= 4.2
  {
    LowKmPoints(lib, km, age);
    RootOf(KmDelta(lib, km, age), 0.1, (12750 * age) as real, 4.2 * 4.2 * (12750 * age - km) as real);
  }

  lemma TenthRises(lib: Lib, p: Params, q: Params, currentYear: int)
    requires Sound(lib) && p.(km := q.km) == q && !Disqualified(p)
    requires var age := CarAge(p.year, currentYear);
             && 0.1 <= KmDelta(lib, p.km, age) <= 4.2 && KmDelta(lib, q.km, age) == 0.0
             && -5.0 <= HandDelta(p.hand, age, p.isCommercial) <= 0.3
             && 0.0 <= Raw(lib, q, age) && Raw(lib, p, age) <= 10.0
             && RawValue(lib, q, age, CondScore(lib, q, age)) <= RawValue(lib, p, age, CondScore(lib, p, age))
    ensures Total(lib, q, currentYear) < Total(lib, p, currentYear)
  {
    var age := CarAge(p.year, currentYear);
    assert CondDelta(lib, p, age) >= CondDelta(lib, q, age) + 0.1;
    RoundApart(Raw(lib, q, age), Raw(lib, p, age));
  }

  lemma RoundApart(x: real, y: real)
    requires x + 0.1 <= y
    ensures RoundTenth(x) < RoundTenth(y)
  {
    assert (y * 10.0 + 0.5).Floor >= (x * 10.0 + 0.5).Floor + 1;
  }

  lemma RootOf(d: real, c: real, e: real, x: real)
    requires d >= 0.0 && c >= 0.0 && e > 0.0 && d * d * e == x >= c * c * e
    ensures d >= c
  {
    if d < c {
      StrictProduct(d, c, d, c);
      StrictScale(d * d, c * c, e);
    }
  }

  lemma StrictScale(a: real, b: real, e: real)
    requires a < b && e > 0.0
    ensures a * e < b * e
  {
  }

  /** A former lease car never scores higher than the same car from a private owner, nor a former rental than a
      former lease. */
  lemma OriginNeverHelps(lib: Lib, p: Params, currentYear: int)
    requires Sound(lib)
    ensures Total(lib, p.(ownership := Rental), currentYear) <= Total(lib, p.(ownership := Lease), currentYear)
    ensures Total(lib, p.(ownership := Lease), currentYear) <= Total(lib, p.(ownership := PrivateOwner), currentYear)
  {
    WorseOrigin(lib, p, Lease, Rental, currentYear);
    WorseOrigin(lib, p, PrivateOwner, Lease, currentYear);
  }

  lemma WorseOrigin(lib: Lib, p: Params, o: Ownership, worse: Ownership, currentYear: int)
    requires Sound(lib) && OriginFactor(worse) <= OriginFactor(o)
    ensures Total(lib, p.(ownership := worse), currentYear) <= Total(lib, p.(ownership := o), currentYear)
  {
    var age, a, b := CarAge(p.year, currentYear), p.(ownership := o), p.(ownership := worse);
    CondScoreWithin(lib, a, age);
    assert CondDelta(lib, a, age) == CondDelta(lib, b, age) && CondScore(lib, a, age) == CondScore(lib, b, age);
    if p.price > 0 {
      OriginExpected(p, o, worse, age);
      ValueFalls(lib, a, b, age, CondScore(lib, a, age), CondScore(lib, b, age));
    }
    TotalFalls(lib, a, b, currentYear);
  }

  lemma OriginExpected(p: Params, o: Ownership, worse: Ownership, age: int)
    requires age >= 1 && OriginFactor(worse) <= OriginFactor(o)
    ensures p.medianPrice > 0 ==> MedianExpected(p.(ownership := worse), age) <= MedianExpected(p.(ownership := o), age)
    ensures p.basePrice > 0 ==> BaseExpected(p.(ownership := worse), age) <= BaseExpected(p.(ownership := o), age)
  {
    var f, g := OriginFactor(worse), OriginFactor(o);
    if p.medianPrice > 0 {
      OriginOrder(p.medianPrice as real, MedianKmFactor(p), HandFactor(p.hand, age), f, g);
    }
    if p.basePrice > 0 {
      OriginOrder(p.basePrice as real * BasePriceDiscount(age), BaseKmFactor(p, age), HandFactor(p.hand, age), f, g);
    }
  }

  lemma OriginOrder(b: real, k: real, h: real, o: real, n: real)
    requires 0.0 < b && 0.0 < k && 0.0 < h && 0.0 < o <= n
    ensures Product(b, k, h, o) <= Product(b, k, h, n)
  {
    ScaleOrder(b, b, k, k);
    ScaleOrder(b * k, b * k, h, h);
    ScaleOrder(b * k * h, b * k * h, o, n);
  }

  /** A commercial seller's listing never scores higher than the same one from a private seller. */
  lemma CommercialNeverHelps(lib: Lib, p: Params, currentYear: int)
    requires Sound(lib)
    ensures Total(lib, p.(isCommercial := true), currentYear) <= Total(lib, p.(isCommercial := false), currentYear)
  {
    var age, a, b := CarAge(p.year, currentYear), p.(isCommercial := false), p.(isCommercial := true);
    CondScoreWithin(lib, b, age);
    assert HandDelta(p.hand, age, true) <= HandDelta(p.hand, age, false);
    if p.price > 0 {
      ValueFalls(lib, a, b, age, CondScore(lib, a, age), CondScore(lib, b, age));
    }
    TotalFalls(lib, a, b, currentYear);
  }

  // An engine known to be smaller than asked for makes the total 0, whatever else the listing offers.
  lemma SmallEngineScoresNothing(lib: Lib, p: Params, currentYear: int)
    requires Sound(lib) && p.engineMinCC > 0 && 0.0 < p.engineVolume < p.engineMinCC as real
    ensures Total(lib, p, currentYear) == 0.0
  {
  }

  // A car of unknown year, of this year or of a coming one counts as one year old.
  lemma NewCarsAreOne(lib: Lib, p: Params, currentYear: int)
    requires Sound(lib) && currentYear > 1 && (p.year <= 0 || p.year >= currentYear)
    ensures Total(lib, p, currentYear) == Total(lib, p.(year := currentYear - 1), currentYear)
  {
    var q := p.(year := currentYear - 1);
    assert CondDelta(lib, q, 1) == CondDelta(lib, p, 1) && CondScore(lib, q, 1) == CondScore(lib, p, 1);
    assert MedianKmFactor(q) == MedianKmFactor(p) && BaseKmFactor(q, 1) == BaseKmFactor(p, 1);
    assert p.medianPrice > 0 ==> MedianExpected(q, 1) == MedianExpected(p, 1);
    assert p.basePrice > 0 ==> BaseExpected(q, 1) == BaseExpected(p, 1);
    assert RawValue(lib, q, 1, CondScore(lib, q, 1)) == RawValue(lib, p, 1, CondScore(lib, p, 1));
  }

  /** What a price is compared with: the market median if there is one, else the list price, else the budget. Of a
      private listing with nothing known but its price, one and a half times the median costs 3.5 points whatever the
      other two are, twice the list price 2.8 when there is no median, and more than the budget 1 when there is neither. */
  lemma DearPoints(lib: Lib, p: Params, age: int, cond: real)
    requires Sound(lib) && age >= 1 && cond >= 0.0 && p.km <= 0 && p.hand <= 0 && p.ownership == PrivateOwner && p.price > 0
    ensures p.medianPrice > 0 && 2 * p.price >= 3 * p.medianPrice ==> ValueDelta(lib, p, age, cond) == -3.5
    ensures p.medianPrice <= 0 && p.basePrice > 0 && p.price >= 2 * p.basePrice ==> ValueDelta(lib, p, age, cond) == -2.8
    ensures p.medianPrice <= 0 && p.basePrice <= 0 && p.price > p.priceMax > 0 ==> ValueDelta(lib, p, age, cond) == -1.0
    ensures p.medianPrice <= 0 && p.basePrice <= 0 && p.priceMax <= 0 ==> ValueDelta(lib, p, age, cond) == 0.0
  {
    if p.medianPrice > 0 {
      MedianIsExpected(p, age);
      if 2 * p.price >= 3 * p.medianPrice {
        AtLeast(p.price, p.medianPrice as real, 1.5);
        MarketPoints(lib, RatioTo(p.price, p.medianPrice as real), 0.0);
      }
    } else if p.basePrice > 0 {
      ListIsExpected(p, age);
      if p.price >= 2 * p.basePrice {
        AtLeast(p.price, BaseExpected(p, age), 1.40);
        ListPricePoints(lib, RatioTo(p.price, BaseExpected(p, age)), 0.0);
      }
    } else if p.price > p.priceMax > 0 {
      OverOne(p.price as real, p.priceMax as real);
      BudgetPoints(RatioTo(p.price, p.priceMax as real), 0.0);
    }
  }

  lemma ListIsExpected(p: Params, age: int)
    requires age >= 1 && p.basePrice > 0 && p.km <= 0 && p.hand <= 0 && p.ownership == PrivateOwner
    ensures 0.0 < BaseExpected(p, age) <= p.basePrice as real
  {
    assert BaseKmFactor(p, age) == 1.0 && HandFactor(p.hand, age) == 1.0;
  }

  lemma AtLeast(price: int, expected: real, r: real)
    requires expected > 0.0 && price as real >= r * expected
    ensures RatioTo(price, expected) >= r
  {
    var q := RatioTo(price, expected);
    assert q * expected == price as real;
    if q < r {
      StrictScale(q, r, expected);
    }
  }

  /* ---- worked examples ---- */

  // A private listing with the search's limits of the examples.
  function Example(price: int, km: int, hand: int, year: int, medianPrice: int, medianKm: int): Params {
    Params(price, km, hand, year, 2000.0, 85000, 1800, medianPrice, medianKm, 0, false, PrivateOwner)
  }

  lemma ExampleTotal(lib: Lib, p: Params, currentYear: int, cond: real, value: real, n: int)
    requires Sound(lib) && p.engineVolume == 2000.0 && p.engineMinCC == 1800 && 0 <= n <= 100
    requires CondDelta(lib, p, CarAge(p.year, currentYear)) == cond
    requires ValueDelta(lib, p, CarAge(p.year, currentYear), CondScore(lib, p, CarAge(p.year, currentYear))) == value
    requires var x := 5.0 + cond + value + 0.1 * (4.0 / 18.0);
             && (n < 100 ==> n as real - 0.5 <= x * 10.0 < n as real + 0.5 && 0.0 <= x <= 10.0)
             && (n == 100 ==> x >= 10.0)
    ensures Total(lib, p, currentYear) == n as real / 10.0
  {
    assert EngineDelta(2000.0, 1800) == 0.1 * (4.0 / 18.0);
    RoundsTo(ClampRange(Raw(lib, p, CarAge(p.year, currentYear)), 0.0, 10.0), n);
  }

  // 7500 km in five years, and nothing else known.
  lemma BareExample(lib: Lib)
    requires Exact(lib)
    ensures Total(lib, Params(0, 7500, 0, 2020, 0.0, 0, 0, 0, 0, 0, false, PrivateOwner), 2025) == 8.9
  {
    var p := Params(0, 7500, 0, 2020, 0.0, 0, 0, 0, 0, 0, false, PrivateOwner);
    assert p.km as real / ExpectedKm(5) == 0.1;
    SqrtWithin(lib, (0.85 - 0.1) / 0.85, 0.939, 0.940);
    RoundsTo(Raw(lib, p, 5), 89);
  }

  lemma CandyExample(lib: Lib)
    requires Exact(lib)
    ensures Total(lib, Example(80000, 67000, 2, 2018, 77000, 110000), 2026) == 7.5
  {
    var p := Example(80000, 67000, 2, 2018, 77000, 110000);
    var r := 67000.0 / 120000.0;
    assert p.km as real / ExpectedKm(8) == r;
    SqrtWithin(lib, (0.85 - r) / 0.85, 0.585, 0.586);
    var ratio := RatioTo(p.price, MedianExpected(p, 8));
    assert 0.981 <= ratio <= 0.982;
    var value := MedianCurve(lib, ratio);
    assert -0.144 <= value <= -0.140;
    ValueWithin(lib, p, 8, CondScore(lib, p, 8));
    CondScoreWithin(lib, p, 8);
    ExampleTotal(lib, p, 2026, CondDelta(lib, p, 8), value, 75);
  }

  lemma SweetSpotExample(lib: Lib)
    requires Exact(lib)
    ensures Total(lib, Example(72000, 55000, 2, 2018, 77000, 110000), 2026) == 9.1
  {
    var p := Example(72000, 55000, 2, 2018, 77000, 110000);
    var r := 55000.0 / 120000.0;
    assert p.km as real / ExpectedKm(8) == r;
    SqrtWithin(lib, (0.85 - r) / 0.85, 0.678, 0.679);
    KmScoreSides(lib, p.km, 8);
    var ratio := RatioTo(p.price, MedianExpected(p, 8));
    assert 0.869 <= ratio <= 0.8705;
    var value := MedianCurve(lib, ratio);
    assert 1.03 <= value <= 1.063;
    CondScoreWithin(lib, p, 8);
    ValueWithin(lib, p, 8, CondScore(lib, p, 8));
    ExampleTotal(lib, p, 2026, CondDelta(lib, p, 8), value, 91);
  }

  lemma GemExample(lib: Lib)
    requires Exact(lib)
    ensures Total(lib, Example(78000, 40000, 1, 2017, 77000, 110000), 2026) == 10.0
  {
    var p := Example(78000, 40000, 1, 2017, 77000, 110000);
    var r := 40000.0 / 135000.0;
    assert p.km as real / ExpectedKm(9) == r;
    SqrtWithin(lib, (0.85 - r) / 0.85, 0.80, 0.81);
    KmScoreSides(lib, p.km, 9);
    var ratio := RatioTo(p.price, MedianExpected(p, 9));
    assert 0.88 <= ratio <= 0.881;
    var value := MedianCurve(lib, ratio);
    assert 0.8 <= value <= 0.84;
    CondScoreWithin(lib, p, 9);
    ValueWithin(lib, p, 9, CondScore(lib, p, 9));
    ExampleTotal(lib, p, 2026, 4.5, value, 100);
  }

  // Here the gate takes part of the bonus.
  lemma AverageExample(lib: Lib)
    requires Exact(lib)
    ensures 5.1 <= Total(lib, Example(82000, 90000, 2, 2019, 90000, 95000), 2026) <= 5.5
  {
    var p := Example(82000, 90000, 2, 2019, 90000, 95000);
    assert p.km as real / ExpectedKm(7) == 90000.0 / 105000.0;
    var ratio := RatioTo(p.price, MedianExpected(p, 7));
    assert 0.903 <= ratio <= 0.905;
    var d := MedianCurve(lib, ratio);
    assert 0.3 <= d <= 0.36;
    CondScoreWithin(lib, p, 7);
    ValueWithin(lib, p, 7, CondScore(lib, p, 7));
    GateOrder(d, d, CondScore(lib, p, 7), CondScore(lib, p, 7));
    assert 5.12 <= Raw(lib, p, 7) <= 5.49;
    RoundMonotone(5.12, Raw(lib, p, 7));
    RoundMonotone(Raw(lib, p, 7), 5.49);
    RoundsTo(5.12, 51);
    RoundsTo(5.49, 55);
  }

  lemma OverpricedExample(lib: Lib)
    requires Exact(lib)
    ensures Total(lib, Example(84000, 100000, 3, 2019, 90000, 95000), 2026) == 4.0
  {
    var p := Example(84000, 100000, 3, 2019, 90000, 95000);
    assert p.km as real / ExpectedKm(7) == 100000.0 / 105000.0;
    var ratio := RatioTo(p.price, MedianExpected(p, 7));
    assert 0.981 <= ratio <= 0.983;
    var value := MedianCurve(lib, ratio);
    assert -0.146 <= value <= -0.140;
    CondScoreWithin(lib, p, 7);
    ValueWithin(lib, p, 7, CondScore(lib, p, 7));
    ExampleTotal(lib, p, 2026, CondDelta(lib, p, 7), value, 40);
  }

  lemma BeaterExample(lib: Lib)
    requires Exact(lib)
    ensures Total(lib, Example(58000, 160000, 3, 2017, 65000, 130000), 2026) == 3.0
  {
    var p := Example(58000, 160000, 3, 2017, 65000, 130000);
    assert p.km as real / ExpectedKm(9) == 160000.0 / 135000.0;
    PowWithin(lib, 5.0 / 27.0, 0.305, 0.309);
    var ratio := RatioTo(p.price, MedianExpected(p, 9));
    assert 0.936 <= ratio <= 0.939;
    var value := MedianCurve(lib, ratio);
    assert -0.044 <= value <= -0.036;
    CondScoreWithin(lib, p, 9);
    ValueWithin(lib, p, 9, CondScore(lib, p, 9));
    ExampleTotal(lib, p, 2026, CondDelta(lib, p, 9), value, 30);
  }

  lemma PowWithin(lib: Lib, x: real, lo: real, hi: real)
    requires Exact(lib) && 0.0 <= x && 0.0 <= lo && 0.0 <= hi && Power(lo, 10) <= Power(x, 7) <= Power(hi, 10)
    ensures lo <= lib.pow07(x) <= hi
  {
    var y := lib.pow07(x);
    if y < lo {
      PowerStrict(y, lo, 10);
    }
    if hi < y {
      PowerStrict(hi, y, 10);
    }
  }
}
