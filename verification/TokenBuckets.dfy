/**
  The request limiters: a token bucket per key, refilled in whole ticks, with idle buckets swept away.
  Times are integer nanoseconds of a clock that does not run backwards.
 */
module TokenBuckets {
  import opened Basics
  import opened Wrappers

  datatype Bucket = Bucket(tokens: int, lastTick: int, lastUsed: int)

  // cap is the number of keys a limiter keeps, if it is limited; cutoff the idle time after which a
  // sweep forgets a bucket.
  datatype Config = Config(burst: nat, every: int, cutoff: nat, cap: Option<nat>)

  datatype Event<K> = Call(key: K, born: int, now: int) | Sweep(now: int)

  predicate Proper(c: Config) { c.every > 0 }

  // Whole ticks since the last one are added; the phase of the ticks is kept.
  function Refill(c: Config, b: Bucket, now: int): Bucket
    requires Proper(c)
  {
    var ticks := (now - b.lastTick) / c.every;
    if ticks > 0 then Bucket(Min(b.tokens + ticks, c.burst), b.lastTick + ticks * c.every, now)
    else Bucket(b.tokens, b.lastTick, now)
  }

  function Take(b: Bucket): Bucket {
    if b.tokens <= 0 then b else b.(tokens := b.tokens - 1)
  }

  predicate Full<K>(c: Config, m: map<K, Bucket>) {
    c.cap.Some? && |m| >= c.cap.value
  }

  // The bucket a call finds or creates, refilled.
  function Found<K>(c: Config, m: map<K, Bucket>, key: K, born: int, now: int): Bucket
    requires Proper(c)
  {
    Refill(c, if key in m then m[key] else Bucket(c.burst, born, now), now)
  }

  predicate Admits<K>(c: Config, m: map<K, Bucket>, key: K, born: int, now: int)
    requires Proper(c)
  {
    (key in m || !Full(c, m)) && Found(c, m, key, born, now).tokens > 0
  }

  predicate Stale(c: Config, b: Bucket, now: int) {
    b.lastUsed < now - c.cutoff
  }

  function Swept<K>(c: Config, m: map<K, Bucket>, now: int): map<K, Bucket> {
    map k | k in m && !Stale(c, m[k], now) :: m[k]
  }

  function Step<K>(c: Config, m: map<K, Bucket>, e: Event<K>): map<K, Bucket>
    requires Proper(c)
  {
    match e
    case Call(key, born, now) =>
      if key !in m && Full(c, m) then m else m[key := Take(Found(c, m, key, born, now))]
    case Sweep(now) => Swept(c, m, now)
  }

  function After<K>(c: Config, m: map<K, Bucket>, run: seq<Event<K>>): map<K, Bucket>
    requires Proper(c)
    decreases |run|
  {
    if run == [] then m else After(c, Step(c, m, run[0]), run[1..])
  }

  function Admitted<K>(c: Config, m: map<K, Bucket>, e: Event<K>, key: K, from: int, to: int): nat
    requires Proper(c)
  {
    if e.Call? && e.key == key && from <= e.now <= to && Admits(c, m, key, e.born, e.now) then 1 else 0
  }

  // Admitted calls of the key in the window [from, to].
  function Admissions<K>(c: Config, m: map<K, Bucket>, run: seq<Event<K>>, key: K, from: int, to: int): nat
    requires Proper(c)
    decreases |run|
  {
    if run == [] then 0
    else Admitted(c, m, run[0], key, from, to) + Admissions(c, Step(c, m, run[0]), run[1..], key, from, to)
  }

  // The clock never runs backwards.
  predicate Timed<K>(run: seq<Event<K>>, t: int) {
    run == [] || (t <= Started(run[0]) <= run[0].now && Timed(run[1..], run[0].now))
  }

  function Started<K>(e: Event<K>): int {
    if e.Call? then e.born else e.now
  }

  /* ---- the limiters ---- */

  // rateLimiter (keys are users, no cap) and ipRateLimiter (keys are addresses, capped).
  class KeyedLimiter<K(==)> {
    const config: Config
    var buckets: map<K, Bucket>

    constructor (c: Config)
      ensures config == c && buckets == map[]
    {
      config := c;
      buckets := map[];
    }

    method Allow(key: K, born: int, now: int) returns (ok: bool)
      requires Proper(config)
      modifies this
      ensures ok <==> Admits(config, old(buckets), key, born, now)
      ensures buckets == Step(config, old(buckets), Call(key, born, now))
    {
      if config.cap.Some? && |buckets| >= config.cap.value && key !in buckets {
        return false;
      }
      if key !in buckets {
        buckets := buckets[key := Bucket(config.burst, born, now)];
      }
      var b := buckets[key];
      b := b.(lastUsed := now);
      var ticks := (now - b.lastTick) / config.every;
      if ticks > 0 {
        b := b.(tokens := Min(b.tokens + ticks, config.burst), lastTick := b.lastTick + ticks * config.every);
      }
      ok := b.tokens > 0;
      if ok {
        b := b.(tokens := b.tokens - 1);
      }
      buckets := buckets[key := b];
    }

    // One pass of the cleanup loop, in whatever order the keys come.
    method Cleanup(now: int)
      modifies this
      ensures buckets == Swept(config, old(buckets), now)
    {
      var todo := buckets.Keys;
      while todo != {}
        invariant todo <= old(buckets).Keys && buckets.Keys <= old(buckets).Keys
        invariant forall k :: k in buckets ==> buckets[k] == old(buckets)[k]
        invariant forall k :: k in old(buckets) ==>
                    (k in buckets <==> k in todo || !Stale(config, old(buckets)[k], now))
        decreases todo
      {
        var k :| k in todo;
        todo := todo - {k};
        if buckets[k].lastUsed < now - config.cutoff {
          buckets := buckets - {k};
        }
      }
    }
  }

  // The one bucket all guests share: never swept.
  class GlobalBucket {
    const config: Config
    var tokens: int
    var lastTick: int
    ghost var lastUsed: int

    ghost function Contents(): map<(), Bucket>
      reads this
    {
      map[() := Bucket(tokens, lastTick, lastUsed)]
    }

    constructor (c: Config, now: int)
      ensures config == c && Contents() == map[() := Bucket(c.burst, now, now)]
    {
      config, tokens, lastTick, lastUsed := c, c.burst, now, now;
    }

    method Allow(now: int) returns (ok: bool)
      requires Proper(config)
      modifies this
      ensures ok <==> Admits(config, old(Contents()), (), now, now)
      ensures Contents() == Step(config, old(Contents()), Call((), now, now))
    {
      lastUsed := now;
      var ticks := (now - lastTick) / config.every;
      if ticks > 0 {
        tokens := Min(tokens + ticks, config.burst);
        lastTick := lastTick + ticks * config.every;
      }
      ok := tokens > 0;
      if ok {
        tokens := tokens - 1;
      }
    }
  }

  /* ------------------------------------------------------------------------------------------
     What an idle key regains
     ------------------------------------------------------------------------------------------ */

  // n calls of the key at one moment.
  function Calls<K>(key: K, now: int, n: nat): seq<Event<K>> {
    if n == 0 then [] else [Call(key, now, now)] + Calls(key, now, n - 1)
  }

  /** Of n calls of a key at one moment, exactly as many are admitted as it has tokens left and whole ticks have
      passed, up to the burst. */
  lemma {:induction false} IdleKeyRegains<K>(c: Config, m: map<K, Bucket>, key: K, now: int, n: nat, w: nat)
    requires Proper(c) && key in m && 0 <= m[key].tokens <= c.burst
    requires w * c.every <= now - m[key].lastTick < w * c.every + c.every
    ensures Admissions(c, m, Calls(key, now, n), key, now, now) == Min(n, Min(m[key].tokens + w, c.burst))
  {
    if n > 0 {
      var b, run := m[key], Calls(key, now, n);
      QuotientIs(now - b.lastTick, c.every, w);
      assert run[0] == Call(key, now, now) && run[1..] == Calls(key, now, n - 1);
      IdleKeyRegains(c, Step(c, m, run[0]), key, now, n - 1, 0);
    }
  }

  // A key not seen before starts with the whole burst.
  lemma NewKeyBurst<K>(c: Config, m: map<K, Bucket>, key: K, now: int, n: nat)
    requires Proper(c) && key !in m && !Full(c, m)
    ensures Admissions(c, m, Calls(key, now, n), key, now, now) == Min(n, c.burst)
  {
    if n > 0 {
      var run := Calls(key, now, n);
      QuotientIs(0, c.every, 0);
      assert run[0] == Call(key, now, now) && run[1..] == Calls(key, now, n - 1);
      IdleKeyRegains(c, Step(c, m, run[0]), key, now, n - 1, 0);
    }
  }

  /* ------------------------------------------------------------------------------------------
     The window bound
     ------------------------------------------------------------------------------------------ */

  // x / d rounded up.
  function Ceil(x: int, d: int): int
    requires d > 0
  {
    -((-x) / d)
  }

  lemma CeilMeaning(x: int, d: int)
    requires d > 0
    ensures (Ceil(x, d) - 1) * d < x <= Ceil(x, d) * d
  {
    var q := (-x) / d;
    assert -x == q * d + (-x) % d;
    assert (Ceil(x, d) - 1) * d == -q * d - d;
  }

  lemma CeilIs(x: int, d: int, n: int)
    requires d > 0 && (n - 1) * d < x <= n * d
    ensures Ceil(x, d) == n
  {
    CeilMeaning(x, d);
    var c := Ceil(x, d);
    MulOrder(c, n - 1, d);
    MulOrder(n, c - 1, d);
  }

  lemma CeilGrows(x: int, y: int, d: int)
    requires d > 0 && x <= y
    ensures Ceil(x, d) <= Ceil(y, d)
  {
    CeilMeaning(x, d);
    CeilMeaning(y, d);
    MulOrder(Ceil(y, d), Ceil(x, d) - 1, d);
  }

  lemma CeilNatural(x: int, d: int)
    requires d > 0 && x > -d
    ensures Ceil(x, d) >= 0
  {
    CeilMeaning(x, d);
    MulOrder(Ceil(x, d), -1, d);
  }

  lemma CeilShift(x: int, k: int, d: int)
    requires d > 0
    ensures Ceil(x + k * d, d) == Ceil(x, d) + k
  {
    CeilMeaning(x, d);
    var c := Ceil(x, d);
    assert (c + k - 1) * d == (c - 1) * d + k * d && (c + k) * d == c * d + k * d;
    CeilIs(x + k * d, d, c + k);
  }

  // Ticks of a bucket after `from`, counted from the window's start.
  function TicksSince(c: Config, from: int, t: int): nat
    requires Proper(c)
  {
    if Ceil(t - from, c.every) > 0 then Ceil(t - from, c.every) else 0
  }

  predicate Sane(c: Config, b: Bucket, t: int) {
    0 <= b.tokens <= c.burst && b.lastTick <= b.lastUsed <= t
  }

  // n calls of the key were admitted in the window so far, at time t.
  ghost predicate Within<K>(c: Config, m: map<K, Bucket>, key: K, from: int, t: int, n: nat)
    requires Proper(c)
  {
    if key in m then
      var b := m[key];
      && Sane(c, b, t)
      && n + b.tokens <= c.burst + TicksSince(c, from, b.lastTick)
      && (n > 0 ==> from - c.every < b.lastTick)
    else n > 0 ==> n <= TicksSince(c, from, t)
  }

  lemma RefillWithin(c: Config, b: Bucket, from: int, now: int, n: nat)
    requires Proper(c) && b.lastTick <= now && 0 <= b.tokens <= c.burst
    requires n + b.tokens <= c.burst + TicksSince(c, from, b.lastTick)
    requires n > 0 ==> from - c.every < b.lastTick
    ensures var r := Refill(c, b, now);
            && 0 <= r.tokens <= c.burst && now - c.every < r.lastTick <= now
            && n + r.tokens <= c.burst + TicksSince(c, from, r.lastTick)
            && (n > 0 ==> from - c.every < r.lastTick)
  {
    var d := c.every;
    var k := (now - b.lastTick) / d;
    assert k * d <= now - b.lastTick < k * d + d;
    MulOrder(k, -1, d);
    CeilShift(b.lastTick - from, k, d);
    if n > 0 {
      CeilNatural(b.lastTick - from, d);
    }
  }

  lemma NewBucketWithin(c: Config, from: int, t: int, born: int, n: nat)
    requires Proper(c) && t <= born
    requires n > 0 ==> n <= TicksSince(c, from, t)
    ensures n + c.burst <= c.burst + TicksSince(c, from, born)
    ensures n > 0 ==> from - c.every < born
  {
    CeilGrows(t - from, born - from, c.every);
    if n > 0 {
      CeilMeaning(t - from, c.every);
      if t - from <= -c.every {
        CeilIs(-c.every, c.every, -1);
        CeilGrows(t - from, -c.every, c.every);
      }
    }
  }

  lemma CallWithin<K>(c: Config, m: map<K, Bucket>, e: Event<K>, key: K, from: int, to: int, t: int, n: nat)
    requires Proper(c) && from <= to && e.Call? && t <= e.born <= e.now && Within(c, m, key, from, t, n)
    ensures var a := Admitted(c, m, e, key, from, to);
            && Within(c, Step(c, m, e), key, from, e.now, n + a)
            && (a == 1 ==> n + a <= c.burst + TicksSince(c, from, to))
  {
    if e.key == key && (key in m || !Full(c, m)) {
      if key !in m {
        NewBucketWithin(c, from, t, e.born, n);
      }
      var b := if key in m then m[key] else Bucket(c.burst, e.born, e.now);
      RefillWithin(c, b, from, e.now, n);
      var r := Refill(c, b, e.now);
      if e.now <= to {
        CeilGrows(r.lastTick - from, to - from, c.every);
      }
    } else {
      CeilGrows(t - from, e.now - from, c.every);
    }
  }

  // A bucket idle for longer than the cutoff would have refilled anyway.
  lemma SweepWithin<K>(c: Config, m: map<K, Bucket>, now: int, key: K, from: int, t: int, n: nat)
    requires Proper(c) && t <= now && Within(c, m, key, from, t, n)
    requires c.burst * c.every <= c.cutoff + 1 || key !in m || !Stale(c, m[key], now)
    ensures Within(c, Swept(c, m, now), key, from, now, n)
  {
    if key !in m {
      CeilGrows(t - from, now - from, c.every);
    } else if Stale(c, m[key], now) {
      var b := m[key];
      assert now >= b.lastTick + c.burst * c.every;
      CeilShift(b.lastTick - from, c.burst, c.every);
      CeilGrows(b.lastTick - from + c.burst * c.every, now - from, c.every);
      if n > 0 {
        CeilNatural(b.lastTick - from, c.every);
      }
    }
  }

  predicate NoSweeps<K>(run: seq<Event<K>>) {
    forall k :: 0 <= k < |run| ==> run[k].Call?
  }

  lemma {:induction false} RunWithin<K>(
    c: Config, m: map<K, Bucket>, run: seq<Event<K>>, key: K, from: int, to: int, t: int, n: nat)
    requires Proper(c) && from <= to && Timed(run, t) && Within(c, m, key, from, t, n)
    requires c.burst * c.every <= c.cutoff + 1 || NoSweeps(run)
    requires n <= c.burst + TicksSince(c, from, to)
    ensures n + Admissions(c, m, run, key, from, to) <= c.burst + TicksSince(c, from, to)
    decreases |run|
  {
    if run != [] {
      var e, rest := run[0], run[1..];
      assert NoSweeps(run) ==> NoSweeps(rest) by {
        assert forall k :: 0 <= k < |rest| ==> rest[k] == run[k + 1];
      }
      if e.Call? {
        CallWithin(c, m, e, key, from, to, t, n);
      } else {
        SweepWithin(c, m, e.now, key, from, t, n);
      }
      RunWithin(c, Step(c, m, e), rest, key, from, to, e.now, n + Admitted(c, m, e, key, from, to));
    }
  }

  ghost predicate Bounded<K>(c: Config, run: seq<Event<K>>, key: K, from: int, to: int)
    requires Proper(c)
  {
    Admissions(c, map[], run, key, from, to) <= c.burst + Ceil(to - from, c.every)
  }

  lemma WindowBound<K>(c: Config, run: seq<Event<K>>, key: K, from: int, to: int, t: int)
    requires Proper(c) && from <= to && Timed(run, t)
    requires c.burst * c.every <= c.cutoff + 1 || NoSweeps(run)
    ensures Bounded(c, run, key, from, to)
  {
    CeilNatural(to - from, c.every);
    RunWithin(c, map[], run, key, from, to, t, 0);
  }

  /** The bucket that is never swept keeps the bound without any condition. */
  lemma GlobalWindowBound(c: Config, run: seq<Event<()>>, from: int, to: int, t: int)
    requires Proper(c) && from <= to && Timed(run, t) && NoSweeps(run)
    ensures Admissions(c, map[() := Bucket(c.burst, t, t)], run, (), from, to) <= c.burst + Ceil(to - from, c.every)
  {
    CeilNatural(to - from, c.every);
    RunWithin(c, map[() := Bucket(c.burst, t, t)], run, (), from, to, t, 0);
  }

  /* ------------------------------------------------------------------------------------------
     Where the bound fails
     ------------------------------------------------------------------------------------------ */

  lemma {:induction false} RunsJoin<K>(c: Config, m: map<K, Bucket>, a: seq<Event<K>>, b: seq<Event<K>>, key: K, from: int, to: int)
    requires Proper(c)
    ensures After(c, m, a + b) == After(c, After(c, m, a), b)
    ensures Admissions(c, m, a + b, key, from, to)
            == Admissions(c, m, a, key, from, to) + Admissions(c, After(c, m, a), b, key, from, to)
    decreases |a|
  {
    if a == [] {
      assert a + b == b;
    } else {
      assert (a + b)[0] == a[0] && (a + b)[1..] == a[1..] + b;
      RunsJoin(c, Step(c, m, a[0]), a[1..], b, key, from, to);
    }
  }

  // n calls of the key at the same moment.
  function Volley<K>(key: K, now: int, n: nat): seq<Event<K>> {
    if n == 0 then [] else [Call(key, now, now)] + Volley(key, now, n - 1)
  }

  lemma TimedFirst<K>(e: Event<K>, rest: seq<Event<K>>, t: int)
    requires t <= Started(e) <= e.now && Timed(rest, e.now)
    ensures Timed([e] + rest, t)
  {
    assert ([e] + rest)[1..] == rest;
  }

  lemma {:induction false} TimedVolley<K>(key: K, now: int, n: nat, rest: seq<Event<K>>, t: int)
    requires t <= now && Timed(rest, now)
    ensures Timed(Volley(key, now, n) + rest, t)
  {
    if n == 0 {
      assert Volley(key, now, n) + rest == rest;
      if rest != [] {
        assert t <= Started(rest[0]);
      }
    } else {
      TimedVolley(key, now, n - 1, rest, now);
      TimedFirst(Call(key, now, now), Volley(key, now, n - 1) + rest, t);
      assert Volley(key, now, n) + rest == [Call(key, now, now)] + (Volley(key, now, n - 1) + rest);
    }
  }

  // Every call of a volley is admitted while tokens last.
  lemma {:induction false} VolleyAdmitted<K>(c: Config, m: map<K, Bucket>, key: K, now: int, n: nat, from: int, to: int)
    requires Proper(c) && key in m && m[key].tokens >= n && m[key].lastTick <= now < m[key].lastTick + c.every
    requires from <= now <= to
    ensures Admissions(c, m, Volley(key, now, n), key, from, to) == n
    ensures n > 0 ==> After(c, m, Volley(key, now, n)) == m[key := Bucket(m[key].tokens - n, m[key].lastTick, now)]
  {
    if n > 0 {
      assert (now - m[key].lastTick) / c.every == 0;
      var e := Call(key, now, now);
      var v := Volley(key, now, n);
      assert v[0] == e && v[1..] == Volley(key, now, n - 1);
      var t := m[key := Bucket(m[key].tokens - 1, m[key].lastTick, now)];
      assert Step(c, m, e) == t;
      VolleyAdmitted(c, t, key, now, n - 1, from, to);
      if n == 1 {
        assert After(c, t, []) == t;
      } else {
        assert t[key := Bucket(m[key].tokens - n, m[key].lastTick, now)] == m[key := Bucket(m[key].tokens - n, m[key].lastTick, now)];
      }
    }
  }

  // A volley whose first call finds a full bucket: a fresh one, or one a tick has just filled.
  lemma FullVolley<K>(c: Config, m: map<K, Bucket>, key: K, now: int, from: int, to: int, tick: int)
    requires Proper(c) && c.burst > 0 && (key in m || !Full(c, m)) && from <= now <= to
    requires Found(c, m, key, now, now) == Bucket(c.burst, tick, now) && tick <= now < tick + c.every
    ensures Admissions(c, m, Volley(key, now, c.burst), key, from, to) == c.burst
    ensures After(c, m, Volley(key, now, c.burst)) == m[key := Bucket(0, tick, now)]
  {
    var e := Call(key, now, now);
    var v := Volley(key, now, c.burst);
    assert v[0] == e && v[1..] == Volley(key, now, c.burst - 1);
    var t := m[key := Bucket(c.burst - 1, tick, now)];
    assert Step(c, m, e) == t;
    VolleyAdmitted(c, t, key, now, c.burst - 1, from, to);
    if c.burst == 1 {
      assert After(c, t, []) == t;
    } else {
      assert t[key := Bucket(0, tick, now)] == m[key := Bucket(0, tick, now)];
    }
  }

  // The tick phase of the witness: created at 1, full again and emptied at 2 * every, one more call a
  // tick later, then forgotten as soon as possible and emptied again.
  function Witness<K>(c: Config, key: K): seq<Event<K>>
    requires Proper(c)
  {
    var d, end := c.every, 2 * c.every + c.cutoff + 2;
    [Call(key, 1, 1)] + (Volley(key, 2 * d, c.burst)
    + ([Call(key, 2 * d + 1, 2 * d + 1), Sweep(end)] + Volley(key, end, c.burst)))
  }

  lemma WitnessTimed<K>(c: Config, key: K)
    requires Proper(c)
    ensures Timed(Witness(c, key), 1)
  {
    var d, end := c.every, 2 * c.every + c.cutoff + 2;
    assert Timed<K>([], end);
    TimedVolley(key, end, c.burst, [], end);
    var tail := Volley(key, end, c.burst);
    assert tail + [] == tail;
    var b := [Call(key, 2 * d + 1, 2 * d + 1), Sweep(end)] + tail;
    assert b[1..] == [Sweep(end)] + tail && b[1..][1..] == tail;
    assert Timed(b[1..], 2 * d + 1);
    assert Timed(b, 2 * d);
    TimedVolley(key, 2 * d, c.burst, b, 1);
    assert Witness(c, key)[1..] == Volley(key, 2 * d, c.burst) + b;
  }

  // A sweep that forgets the bucket, then a full volley.
  lemma WitnessLast<K>(c: Config, m: map<K, Bucket>, key: K, from: int)
    requires Proper(c) && c.burst > 0 && c.cap != Some(0) && m == map[key := Bucket(0, from + 1, from + 1)]
    ensures var end := from + c.cutoff + 2;
            Admissions(c, m, [Sweep(end)] + Volley(key, end, c.burst), key, from, end) == c.burst
  {
    var end := from + c.cutoff + 2;
    var last := Volley(key, end, c.burst);
    assert Swept(c, m, end) == map[];
    assert ([Sweep(end)] + last)[1..] == last;
    assert (end - end) / c.every == 0;
    FullVolley(c, map[], key, end, from, end, end);
  }

  // One more call a tick later, before these.
  lemma WitnessTail<K>(c: Config, m: map<K, Bucket>, key: K, from: int)
    requires Proper(c) && c.burst > 0 && c.cap != Some(0)
    requires from == 2 * c.every && m == map[key := Bucket(0, from - c.every + 1, from)]
    ensures var end := from + c.cutoff + 2;
            Admissions(c, m, [Call(key, from + 1, from + 1), Sweep(end)] + Volley(key, end, c.burst), key, from, end)
            == c.burst + 1
  {
    var end := from + c.cutoff + 2;
    var second, tail := Call(key, from + 1, from + 1), [Sweep(end)] + Volley(key, end, c.burst);
    OneTick(c.every, c.every);
    var m3 := map[key := Bucket(0, from + 1, from + 1)];
    assert Step(c, m, second) == m3 && Admits(c, m, key, from + 1, from + 1);
    var run := [second, Sweep(end)] + Volley(key, end, c.burst);
    assert run[0] == second && run[1..] == tail;
    WitnessLast(c, m3, key, from);
  }

  lemma WitnessMiddle<K>(c: Config, m: map<K, Bucket>, key: K, from: int, tail: seq<Event<K>>)
    requires Proper(c) && c.burst > 0 && c.cap != Some(0)
    requires from == 2 * c.every && m == map[key := Bucket(c.burst - 1, 1, 1)]
    requires var end := from + c.cutoff + 2;
             tail == [Call(key, from + 1, from + 1), Sweep(end)] + Volley(key, end, c.burst)
    ensures Admissions(c, m, Volley(key, from, c.burst) + tail, key, from, from + c.cutoff + 2) == 2 * c.burst + 1
  {
    var d, end := c.every, from + c.cutoff + 2;
    OneTick(from - 1, d);
    FullVolley(c, m, key, from, from, end, 1 + d);
    var n := map[key := Bucket(0, 1 + d, from)];
    assert m[key := Bucket(0, 1 + d, from)] == n;
    WitnessTail(c, n, key, from);
    RunsJoin(c, m, Volley(key, from, c.burst), tail, key, from, end);
  }

  lemma WitnessAdmissions<K>(c: Config, key: K)
    requires Proper(c) && c.burst > 0 && c.cap != Some(0)
    ensures Admissions(c, map[], Witness(c, key), key, 2 * c.every, 2 * c.every + c.cutoff + 2) >= 2 * c.burst + 1
  {
    var d, from, end := c.every, 2 * c.every, 2 * c.every + c.cutoff + 2;
    var m0: map<K, Bucket> := map[];
    var first := Call(key, 1, 1);
    var m1 := map[key := Bucket(c.burst - 1, 1, 1)];
    assert (1 - 1) / d == 0;
    assert Step(c, m0, first) == m1;
    var w := Witness(c, key);
    var tail := [Call(key, from + 1, from + 1), Sweep(end)] + Volley(key, end, c.burst);
    assert w == [first] + (Volley(key, from, c.burst) + tail);
    assert w[0] == first && w[1..] == Volley(key, from, c.burst) + tail;
    WitnessMiddle(c, m1, key, from, tail);
  }

  lemma WitnessUnbounded<K>(c: Config, key: K)
    requires Proper(c) && c.burst > 0 && c.cap != Some(0) && c.burst * c.every > c.cutoff + 1
    ensures Timed(Witness(c, key), 1)
    ensures !Bounded(c, Witness(c, key), key, 2 * c.every, 2 * c.every + c.cutoff + 2)
  {
    WitnessTimed(c, key);
    WitnessAdmissions(c, key);
    CeilGrows(c.cutoff + 2, c.burst * c.every, c.every);
    CeilIs(0, c.every, 0);
    CeilShift(0, c.burst, c.every);
  }

  lemma OneTick(x: int, d: int)
    requires 0 < d <= x < 2 * d
    ensures x / d == 1
  {
  }

  /** The window bound holds for every run, key and window exactly when a bucket's full refill takes no
      longer than the idle time after which it may be forgotten. */
  lemma WindowBoundExactly<K>(c: Config, key: K)
    requires Proper(c) && c.burst > 0 && c.cap != Some(0)
    ensures (forall run: seq<Event<K>>, from: int, to: int, t: int ::
               from <= to && Timed(run, t) ==> Bounded(c, run, key, from, to))
            <==> c.burst * c.every <= c.cutoff + 1
  {
    if c.burst * c.every <= c.cutoff + 1 {
      forall run: seq<Event<K>>, from: int, to: int, t: int | from <= to && Timed(run, t)
        ensures Bounded(c, run, key, from, to)
      {
        WindowBound(c, run, key, from, to, t);
      }
    } else {
      WitnessUnbounded(c, key);
      var run, from, to := Witness(c, key), 2 * c.every, 2 * c.every + c.cutoff + 2;
      var t := 1;
      assert from <= to && Timed(run, t) && !Bounded(c, run, key, from, to);
      assert exists r: seq<Event<K>>, a: int, b: int, u: int :: a <= b && Timed(r, u) && !Bounded(c, r, key, a, b);
    }
  }

  /* ---- the three limiters the server configures ---- */

  const SECOND := 1000000000
  const USERS := Config(60, SECOND / 60, 600 * SECOND, None)
  const ADDRESSES := Config(20, SECOND / 10, 300 * SECOND, Some(10000))
  const GUESTS := Config(15, 180 * SECOND, 300 * SECOND, Some(10000))

  // The limiters for users and addresses keep the bound; the one for guests does not.
  lemma ConfiguredLimiters<K>(key: K)
    ensures forall run: seq<Event<K>>, from: int, to: int, t: int :: from <= to && Timed(run, t) ==>
              Bounded(USERS, run, key, from, to) && Bounded(ADDRESSES, run, key, from, to)
    ensures exists run: seq<Event<K>>, from: int, to: int, t: int ::
              from <= to && Timed(run, t) && !Bounded(GUESTS, run, key, from, to)
  {
    WindowBoundExactly(USERS, key);
    WindowBoundExactly(ADDRESSES, key);
    WindowBoundExactly(GUESTS, key);
  }

  /* ------------------------------------------------------------------------------------------
     A patient caller is never rejected
     ------------------------------------------------------------------------------------------ */

  // Calls of the key come at least one tick apart.
  predicate Patient<K(==)>(c: Config, run: seq<Event<K>>, key: K, since: Option<int>)
    decreases |run|
  {
    run == [] ||
    var e := run[0];
    if e.Call? && e.key == key then
      (since.Some? ==> since.value + c.every <= e.now) && Patient(c, run[1..], key, Some(e.now))
    else Patient(c, run[1..], key, since)
  }

  predicate AllAdmitted<K(==)>(c: Config, m: map<K, Bucket>, run: seq<Event<K>>, key: K)
    requires Proper(c)
    decreases |run|
  {
    run == [] ||
    var e := run[0];
    (e.Call? && e.key == key ==> Admits(c, m, key, e.born, e.now)) && AllAdmitted(c, Step(c, m, e), run[1..], key)
  }

  lemma {:induction false} PatientFrom<K>(c: Config, m: map<K, Bucket>, run: seq<Event<K>>, key: K, since: Option<int>, t: int)
    requires Proper(c) && c.burst > 0 && c.cap.None? && Timed(run, t) && Patient(c, run, key, since)
    requires key in m ==> since.Some? && 0 <= m[key].tokens <= c.burst && m[key].lastTick <= since.value <= t
    ensures AllAdmitted(c, m, run, key)
    decreases |run|
  {
    if run != [] {
      var e := run[0];
      if e.Call? && e.key == key {
        var b := if key in m then m[key] else Bucket(c.burst, e.born, e.now);
        RefillWithin(c, b, e.now, e.now, 0);
        if key in m {
          MulOrder(1, (e.now - b.lastTick) / c.every, c.every);
          AtLeastOneTick(e.now - b.lastTick, c.every);
        }
        PatientFrom(c, Step(c, m, e), run[1..], key, Some(e.now), e.now);
      } else {
        PatientFrom(c, Step(c, m, e), run[1..], key, since, e.now);
      }
    }
  }

  lemma AtLeastOneTick(x: int, d: int)
    requires 0 < d <= x
    ensures x / d >= 1
  {
    MulOrder(x / d, 0, d);
  }

  /** Without a key cap, a caller whose calls come at least one tick apart is always admitted, whatever
      other keys do and whenever buckets are swept. */
  lemma PatientCallerAdmitted<K>(c: Config, run: seq<Event<K>>, key: K, t: int)
    requires Proper(c) && c.burst > 0 && c.cap.None? && Timed(run, t) && Patient(c, run, key, None)
    ensures AllAdmitted(c, map[], run, key)
  {
    PatientFrom(c, map[], run, key, None, t);
  }
}
