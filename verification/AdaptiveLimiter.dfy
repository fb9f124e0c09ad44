/** The adaptive rate limiter: delays double on challenges and halve on successes, with escalating cooldowns. */
module AdaptiveLimiter {
  import opened Basics
  import opened Wrappers

  // Times are in nanoseconds.
  const MINUTE := 60_000_000_000
  const WINDOW := 10 * MINUTE

  datatype Config = Config(baseDelay: int, maxDelay: int, cooldownDur: int)

  function MaxCooldown(c: Config): int {
    Min(4 * c.cooldownDur, 30 * MINUTE)
  }

  datatype State = State(delay: int, cooldownUntil: int, windowStart: int, successes: nat, total: nat, cooldowns: nat)

  // The zero time, before which no run starts, is 0.
  function Initial(c: Config, now: int): State {
    State(c.baseDelay, 0, now, 0, 0, 0)
  }

  predicate WindowExpired(s: State, seen: int) {
    seen - s.windowStart > WINDOW
  }

  // An expired window starts again; the clock is read once to see that and once more to restart.
  function ResetWindow(s: State, seen: int, reset: int): State {
    if WindowExpired(s, seen) then s.(windowStart := reset, successes := 0, total := 0) else s
  }

  function AfterSuccess(c: Config, s: State, seen: int, reset: int): State {
    var r := ResetWindow(s, seen, reset);
    var delay :=
      if !WindowExpired(s, seen) && s.delay > c.baseDelay
      then (if s.delay / 2 < c.baseDelay then c.baseDelay else s.delay / 2)
      else s.delay;
    r.(cooldowns := 0, successes := r.successes + 1, total := r.total + 1, delay := delay)
  }

  // A success rate below one half over at least three requests.
  predicate Struggling(s: State) {
    s.total >= 3 && 2 * s.successes < s.total
  }

  function PowerOfTwo(shift: int): int {
    if shift <= 0 then 1 else 2 * PowerOfTwo(shift - 1)
  }

  function CooldownLength(c: Config, cooldowns: int): int {
    Min(c.cooldownDur * PowerOfTwo(Min(cooldowns - 1, 2)), MaxCooldown(c))
  }

  // The clock is read twice more: to see whether a cooldown is on, and to set the next one. Shifting by
  // a negative count is a crash.
  function AfterChallenge(c: Config, s: State, seen: int, reset: int, check: int, stamp: int): Option<State> {
    var r := ResetWindow(s, seen, reset);
    var t := r.(total := r.total + 1, delay := Min(2 * s.delay, c.maxDelay));
    if !Struggling(t) then Some(t)
    else
      var cooldowns := if check < s.cooldownUntil then s.cooldowns else s.cooldowns + 1;
      if cooldowns == 0 then None
      else Some(t.(cooldowns := cooldowns, cooldownUntil := stamp + CooldownLength(c, cooldowns)))
  }

  datatype Event =
    | Succeeded(seen: int, reset: int)
    | Challenged(seen: int, reset: int, check: int, stamp: int)

  function Next(c: Config, s: State, e: Event): Option<State> {
    match e
    case Succeeded(seen, reset) => Some(AfterSuccess(c, s, seen, reset))
    case Challenged(seen, reset, check, stamp) => AfterChallenge(c, s, seen, reset, check, stamp)
  }

  // The state after a run, unless it crashed.
  function After(c: Config, s: State, es: seq<Event>): Option<State> {
    if es == [] then Some(s)
    else
      var before := After(c, s, es[..|es| - 1]);
      if before.None? then None else Next(c, before.value, es[|es| - 1])
  }

  /* ---- delays and counts ---- */

  ghost predicate Bounded(c: Config, s: State) {
    c.baseDelay <= s.delay <= c.maxDelay && s.successes <= s.total
  }

  lemma {:induction false} RunBounded(c: Config, now: int, es: seq<Event>)
    requires 0 <= c.baseDelay <= c.maxDelay
    ensures After(c, Initial(c, now), es).Some? ==> Bounded(c, After(c, Initial(c, now), es).value)
  {
    if es != [] {
      RunBounded(c, now, es[..|es| - 1]);
    }
  }

  /** Over every run the delay stays between base and maximum, and successes never outnumber requests,
      exactly when the two delays are in order and not negative. */
  lemma DelayBoundedExactly(c: Config, now: int)
    ensures (forall es :: After(c, Initial(c, now), es).Some? ==> Bounded(c, After(c, Initial(c, now), es).value))
            <==> 0 <= c.baseDelay <= c.maxDelay
  {
    if 0 <= c.baseDelay <= c.maxDelay {
      forall es: seq<Event> ensures After(c, Initial(c, now), es).Some? ==> Bounded(c, After(c, Initial(c, now), es).value) {
        RunBounded(c, now, es);
      }
    } else {
      var e := Challenged(now, now, now, now);
      var s := Initial(c, now);
      assert [e][..0] == [] && After(c, s, []) == Some(s) && After(c, s, [e]) == Next(c, s, e);
      assert !Bounded(c, After(c, s, if c.baseDelay > c.maxDelay then [] else [e]).value);
    }
  }

  function Max(a: int, b: int): int { if a >= b then a else b }

  // Successes within the window that s is in.
  predicate SuccessesInWindow(s: State, es: seq<Event>) {
    forall i :: 0 <= i < |es| ==> es[i].Succeeded? && es[i].seen <= s.windowStart + 600_000_000_000
  }

  lemma HalfOf(d: int, base: int, p: int)
    requires p > 0 && d >= 0 && base >= 0
    ensures Max(base, Max(base, d / p) / 2) == Max(base, d / (2 * p))
  {
    var q, r := d / p, d / p / 2;
    assert d == q * p + d % p && q == 2 * r + q % 2;
    assert d == r * (2 * p) + (q % 2 * p + d % p) by {
      assert q * p == 2 * r * p + q % 2 * p;
    }
    assert q % 2 * p <= p;
    QuotientIs(d, 2 * p, r);
  }

  /** Successes in a row within a window: the delay is halved by each, down to the base delay. */
  lemma {:induction false} SuccessesHalve(c: Config, s: State, es: seq<Event>)
    requires 0 <= c.baseDelay <= s.delay && SuccessesInWindow(s, es)
    ensures PowerOfTwo(|es|) > 0 && After(c, s, es).Some?
    ensures var r := After(c, s, es).value;
            r.delay == Max(c.baseDelay, s.delay / PowerOfTwo(|es|)) && r.windowStart == s.windowStart
  {
    if es != [] {
      var n := |es| - 1;
      SuccessesHalve(c, s, es[..n]);
      HalfOf(s.delay, c.baseDelay, PowerOfTwo(n));
    }
  }

  /** Challenges in a row: the delay is doubled by each, up to the maximum. */
  lemma {:induction false} ChallengesDouble(c: Config, s: State, es: seq<Event>)
    requires 0 <= s.delay <= c.maxDelay && forall i :: 0 <= i < |es| ==> es[i].Challenged?
    ensures After(c, s, es).Some? ==> After(c, s, es).value.delay == Min(c.maxDelay, s.delay * PowerOfTwo(|es|))
  {
    if es != [] {
      var n := |es| - 1;
      ChallengesDouble(c, s, es[..n]);
      var p, q := PowerOfTwo(n), PowerOfTwo(n + 1);
      assert q == 2 * p;
      assert s.delay * q == 2 * (s.delay * p);
    }
  }

  // Past ten minutes the window starts again with this request, and a success leaves the delay alone.
  lemma WindowStartsAgain(c: Config, s: State, e: Event)
    requires e.seen > s.windowStart + 600_000_000_000 && Next(c, s, e).Some?
    ensures var r := Next(c, s, e).value;
            && r.windowStart == e.reset && r.total == 1 && r.successes == (if e.Succeeded? then 1 else 0)
            && (e.Succeeded? ==> r.delay == s.delay)
  {
  }

  /* ---- cooldowns ---- */

  // The k-th cooldown in a row lasts the configured time, then twice, then four times that, but never
  // more than half an hour.
  lemma CooldownLengthMeaning(c: Config, k: nat)
    requires k > 0 && c.cooldownDur >= 0
    ensures CooldownLength(c, k) == Min(if k == 1 then c.cooldownDur else if k == 2 then 2 * c.cooldownDur else 4 * c.cooldownDur, 30 * MINUTE)
    ensures CooldownLength(c, k) <= MaxCooldown(c) <= 30 * MINUTE
    ensures CooldownLength(c, k) <= CooldownLength(c, k + 1)
  {
    assert PowerOfTwo(0) == 1 && PowerOfTwo(1) == 2 && PowerOfTwo(2) == 4;
  }

  function LastTime(e: Event): int {
    if e.Succeeded? then e.reset else e.stamp
  }

  predicate InOrder(e: Event) {
    e.seen <= e.reset && (e.Challenged? ==> e.reset <= e.check <= e.stamp)
  }

  // The clock never goes back, from the start of the run on.
  ghost predicate Timed(start: int, es: seq<Event>) {
    && (forall i :: 0 <= i < |es| ==> InOrder(es[i]) && start <= es[i].seen)
    && forall i, j :: 0 <= i < j < |es| ==> LastTime(es[i]) <= es[j].seen
  }

  // No success was recorded while a cooldown was on.
  ghost predicate Quiet(c: Config, s: State, es: seq<Event>) {
    forall i :: 0 <= i < |es| && es[i].Succeeded? && After(c, s, es[..i]).Some? ==>
      After(c, s, es[..i]).value.cooldownUntil <= es[i].reset
  }

  // A cooldown still on has been counted.
  ghost predicate Counted(s: State, now: int) {
    now < s.cooldownUntil ==> s.cooldowns > 0
  }

  function EndTime(start: int, es: seq<Event>): int {
    if es == [] then start else LastTime(es[|es| - 1])
  }

  lemma PrefixQuiet(c: Config, s: State, start: int, es: seq<Event>, n: nat)
    requires n <= |es| && Timed(start, es) && Quiet(c, s, es)
    ensures Timed(start, es[..n]) && Quiet(c, s, es[..n])
  {
    forall i | 0 <= i < n ensures es[..n][..i] == es[..i] && es[..n][i] == es[i] {
    }
  }

  /** A run that records no success during a cooldown never crashes, and whenever a cooldown is on at its
      end the count is positive. */
  lemma {:induction false} QuietRunsSafe(c: Config, now: int, es: seq<Event>)
    requires now >= 0 && Timed(now, es) && Quiet(c, Initial(c, now), es)
    ensures After(c, Initial(c, now), es).Some?
    ensures forall t :: t >= EndTime(now, es) ==> Counted(After(c, Initial(c, now), es).value, t)
  {
    if es != [] {
      var n := |es| - 1;
      PrefixQuiet(c, Initial(c, now), now, es, n);
      QuietRunsSafe(c, now, es[..n]);
      var s := After(c, Initial(c, now), es[..n]).value;
      assert n > 0 ==> es[..n][n - 1] == es[n - 1];
      QuietStep(c, s, es[n], EndTime(now, es[..n]));
    }
  }

  lemma QuietStep(c: Config, s: State, e: Event, start: int)
    requires InOrder(e) && start <= e.seen
    requires forall t :: t >= start ==> Counted(s, t)
    requires e.Succeeded? ==> s.cooldownUntil <= e.reset
    ensures Next(c, s, e).Some?
    ensures forall t :: t >= LastTime(e) ==> Counted(Next(c, s, e).value, t)
  {
    if e.Challenged? {
      assert Counted(s, e.check);
    }
  }

  // The limiter after n challenges recorded at one moment.
  function Challenges(c: Config, s: State, t: int, n: nat): Option<State> {
    if n == 0 then Some(s)
    else
      var before := Challenges(c, s, t, n - 1);
      if before.None? then None else AfterChallenge(c, before.value, t, t, t, t)
  }

  lemma {:induction false} CountedNeverCrashes(c: Config, s: State, t: int, n: nat)
    requires s.cooldowns > 0
    ensures Challenges(c, s, t, n).Some? && Challenges(c, s, t, n).value.cooldowns > 0
  {
    if n > 0 {
      CountedNeverCrashes(c, s, t, n - 1);
    }
  }

  // Requests counted in the window as of t.
  function InWindow(s: State, t: int): State {
    ResetWindow(s, t, t)
  }

  lemma {:induction false} UncountedCrashes(c: Config, s: State, t: int, n: nat)
    requires t < s.cooldownUntil && s.cooldowns == 0 && n >= 1
    requires InWindow(s, t).total + n >= 3 && 2 * InWindow(s, t).successes < InWindow(s, t).total + n
    ensures exists k :: 1 <= k <= n && Challenges(c, s, t, k).None?
  {
    UncountedCounts(c, s, t, n - 1);
    if Challenges(c, s, t, n - 1).Some? {
      assert Challenges(c, s, t, n).None?;
    } else {
      assert Challenges(c, s, t, 0).Some?;
    }
  }

  // Until it crashes, the limiter only counts the challenges.
  lemma {:induction false} UncountedCounts(c: Config, s: State, t: int, n: nat)
    requires t < s.cooldownUntil && s.cooldowns == 0
    ensures Challenges(c, s, t, n).Some? ==>
              var r := Challenges(c, s, t, n).value;
              && r.cooldownUntil == s.cooldownUntil && r.cooldowns == 0
              && InWindow(r, t).total == InWindow(s, t).total + n && InWindow(r, t).successes == InWindow(s, t).successes
  {
    if n > 0 {
      UncountedCounts(c, s, t, n - 1);
    }
  }

  /** While a cooldown is on, challenges can crash the limiter exactly when its count is zero, which is
      what a success recorded during the cooldown leaves. */
  lemma CrashExactly(c: Config, s: State, t: int)
    requires t < s.cooldownUntil
    ensures (exists n: nat :: Challenges(c, s, t, n).None?) <==> s.cooldowns == 0
    ensures forall seen, reset :: AfterSuccess(c, s, seen, reset).cooldowns == 0
                                  && AfterSuccess(c, s, seen, reset).cooldownUntil == s.cooldownUntil
  {
    if s.cooldowns == 0 {
      UncountedCrashes(c, s, t, 3 + 2 * InWindow(s, t).successes);
    } else {
      forall n: nat ensures Challenges(c, s, t, n).Some? {
        CountedNeverCrashes(c, s, t, n);
      }
    }
  }

  // Without a cooldown time no cooldown is ever on.
  lemma {:induction false} NoCooldownSafe(c: Config, now: int, es: seq<Event>)
    requires now >= 0 && c.cooldownDur <= 0 && Timed(now, es)
    ensures After(c, Initial(c, now), es).Some?
    ensures After(c, Initial(c, now), es).value.cooldownUntil <= EndTime(now, es)
  {
    if es != [] {
      var n := |es| - 1;
      var front := es[..n];
      assert n > 0 ==> front[n - 1] == es[n - 1];
      NoCooldownSafe(c, now, front);
      NoCooldownStep(c, After(c, Initial(c, now), front).value, es[n], EndTime(now, front));
    }
  }

  lemma NoCooldownStep(c: Config, s: State, e: Event, start: int)
    requires c.cooldownDur <= 0 && InOrder(e) && start <= e.seen && s.cooldownUntil <= start
    ensures Next(c, s, e).Some? && Next(c, s, e).value.cooldownUntil <= LastTime(e)
  {
    if e.Challenged? {
      assert forall k :: CooldownLength(c, k) <= MaxCooldown(c) <= 0;
    }
  }

  lemma OneEventMore(c: Config, s: State, es: seq<Event>, e: Event)
    ensures After(c, s, es + [e]) == if After(c, s, es).None? then None else Next(c, After(c, s, es).value, e)
  {
    assert (es + [e])[..|es|] == es;
  }

  // Three challenges at one moment switch a cooldown on.
  lemma ThreeChallenges(c: Config, now: int) returns (es: seq<Event>, s: State)
    requires now >= 0 && c.cooldownDur > 0
    ensures |es| == 3 && forall k :: 0 <= k < 3 ==> es[k] == Challenged(now, now, now, now)
    ensures After(c, Initial(c, now), es) == Some(s) && s.windowStart == now && now < s.cooldownUntil
    ensures s.total == 3 && s.successes == 0
  {
    var e, init := Challenged(now, now, now, now), Initial(c, now);
    OneEventMore(c, init, [], e);
    OneEventMore(c, init, [] + [e], e);
    OneEventMore(c, init, [] + [e] + [e], e);
    assert PowerOfTwo(0) == 1;
    assert CooldownLength(c, 1) > 0;
    es := [] + [e] + [e] + [e];
    s := After(c, init, es).value;
  }

  lemma CrashingRun(c: Config, now: int) returns (es: seq<Event>)
    requires now >= 0 && c.cooldownDur > 0
    ensures Timed(now, es) && After(c, Initial(c, now), es).None?
  {
    var s;
    es, s := ThreeChallenges(c, now);
    var init, success, last := Initial(c, now), Succeeded(now, now), Challenged(now, now, now, now);
    OneEventMore(c, init, es, success);
    OneEventMore(c, init, es + [success], last);
    es := es + [success] + [last];
  }

  /** Some run of a fresh limiter crashes, if and only if a cooldown time is configured. */
  lemma CrashReachedExactly(c: Config, now: int)
    requires now >= 0
    ensures (exists es :: Timed(now, es) && After(c, Initial(c, now), es).None?) <==> c.cooldownDur > 0
  {
    if c.cooldownDur > 0 {
      var es := CrashingRun(c, now);
    } else {
      forall es | Timed(now, es) ensures After(c, Initial(c, now), es).Some? {
        NoCooldownSafe(c, now, es);
      }
    }
  }

  /* ---- waiting ---- */

  // Remainder of the source: it takes the sign of the dividend.
  function Rem(a: int, b: int): int
    requires b > 0
  {
    if a >= 0 then a % b else -(-a % b)
  }

  // How long a caller waits, for a positive delay and 64 random bits read as a signed number.
  function Jittered(delay: int, random: int): int
    requires delay > 0
  {
    delay + Rem(random, delay / 4 + 1)
  }

  /** A wait is within a quarter of its delay, on both sides; so a caller told to sit out a cooldown can
      be let go before it ends, exactly when at least four nanoseconds of it remain. */
  lemma WaitWithinQuarter(delay: int)
    requires 0 < delay < 0x8000_0000_0000_0000
    ensures forall random :: delay - delay / 4 <= Jittered(delay, random) <= delay + delay / 4
    ensures (exists random :: -0x8000_0000_0000_0000 <= random < 0x8000_0000_0000_0000 && Jittered(delay, random) < delay)
            <==> delay >= 4
  {
    forall random ensures delay - delay / 4 <= Jittered(delay, random) <= delay + delay / 4 {
      RemSmall(random, delay / 4 + 1);
    }
    if delay >= 4 {
      assert Jittered(delay, -1) < delay by {
        assert 1 % (delay / 4 + 1) == 1;
      }
    }
  }

  lemma RemSmall(a: int, b: int)
    requires b > 0
    ensures -b < Rem(a, b) < b
  {
  }

  class AdaptiveRateLimiter {
    const config: Config
    var currentDelay: int
    var cooldownUntil: int
    var windowStart: int
    var windowSuccesses: nat
    var windowTotal: nat
    var consecutiveCooldowns: nat
    var clock: int

    function Value(): State
      reads this
    {
      State(currentDelay, cooldownUntil, windowStart, windowSuccesses, windowTotal, consecutiveCooldowns)
    }

    constructor (c: Config, now: int)
      ensures config == c && Value() == Initial(c, now) && clock == now
    {
      config, clock := c, now;
      currentDelay, cooldownUntil, windowStart := c.baseDelay, 0, now;
      windowSuccesses, windowTotal, consecutiveCooldowns := 0, 0, 0;
    }

    method Now() returns (now: int)
      modifies this`clock
      ensures old(clock) <= now == clock
    {
      now := *;
      if now < clock {
        now := clock;
      }
      clock := now;
    }

    method ResetWindowIfExpired() returns (expired: bool, ghost seen: int, ghost reset: int)
      modifies this`clock, this`windowStart, this`windowSuccesses, this`windowTotal
      ensures old(clock) <= seen <= reset == clock
      ensures Value() == ResetWindow(old(Value()), seen, reset) && expired == WindowExpired(old(Value()), seen)
    {
      var since := Now();
      seen, reset, expired := since, since, since - windowStart > WINDOW;
      if expired {
        windowStart := Now();
        reset := windowStart;
        windowSuccesses, windowTotal := 0, 0;
      }
    }

    method RecordSuccess() returns (ghost e: Event)
      modifies this
      ensures e.Succeeded? && InOrder(e) && old(clock) <= e.seen && LastTime(e) == clock
      ensures Next(config, old(Value()), e) == Some(Value())
    {
      consecutiveCooldowns := 0;
      var windowReset;
      ghost var seen, reset;
      windowReset, seen, reset := ResetWindowIfExpired();
      windowTotal := windowTotal + 1;
      windowSuccesses := windowSuccesses + 1;
      if !windowReset && currentDelay > config.baseDelay {
        currentDelay := currentDelay / 2;
        if currentDelay < config.baseDelay {
          currentDelay := config.baseDelay;
        }
      }
      e := Succeeded(seen, reset);
    }

    // Returns whether it crashed instead.
    method RecordChallenge() returns (crashed: bool, ghost e: Event)
      modifies this
      ensures e.Challenged? && InOrder(e) && old(clock) <= e.seen && LastTime(e) <= clock
      ensures Next(config, old(Value()), e) == if crashed then None else Some(Value())
    {
      var windowReset;
      ghost var seen, reset;
      windowReset, seen, reset := ResetWindowIfExpired();
      windowTotal := windowTotal + 1;
      currentDelay := Min(2 * currentDelay, config.maxDelay);
      e, crashed := Challenged(seen, reset, clock, clock), false;
      if windowTotal >= 3 && 2 * windowSuccesses < windowTotal {
        var check := Now();
        if check >= cooldownUntil {
          consecutiveCooldowns := consecutiveCooldowns + 1;
        }
        e := Challenged(seen, reset, check, check);
        if consecutiveCooldowns == 0 {
          return true, e;
        }
        var stamp := Now();
        e := Challenged(seen, reset, check, stamp);
        cooldownUntil := stamp + CooldownLength(config, consecutiveCooldowns);
      }
    }

    // How long the caller is to wait; random stands for the 64 bits read for the jitter. During a cooldown
    // the clock is read again for what is left of it, which may by then be nothing.
    method Wait(random: int) returns (wait: int, ghost now: int, ghost later: int)
      modifies this`clock
      ensures old(clock) <= now <= later <= clock
      ensures var delay := if now < cooldownUntil then cooldownUntil - later else currentDelay;
              wait == if delay <= 0 then 0 else Jittered(delay, random)
    {
      var delay := currentDelay;
      var first := Now();
      now, later := first, first;
      if first < cooldownUntil {
        var second := Now();
        later := second;
        delay := cooldownUntil - second;
      }
      wait := if delay <= 0 then 0 else Jittered(delay, random);
    }
  }
}
