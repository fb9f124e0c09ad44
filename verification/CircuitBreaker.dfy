/**
  The circuit breaker around a source. A fetch runs in two critical sections with the inner call
  between them, outside the lock; a run is any interleaving of such begins and ends.
 */
module CircuitBreaker {

  datatype Mode = Closed | Open | HalfOpen

  // What the inner call returned: listings, part of them with an error, an error that does not count
  // (cancelled, timed out, rate limited), or one that does.
  datatype Answer = Success | Partial | Neutral | Failure

  datatype Config = Config(threshold: nat, cooldown: nat)

  // flight holds the inner calls under way and when each began.
  datatype State = State(
    mode: Mode, failures: nat, openedAt: int, probing: bool, flight: map<nat, int>, clock: int)

  datatype Event = Begin(id: nat, now: int) | End(id: nat, now: int, answer: Answer)

  const INIT := State(Closed, 0, 0, false, map[], 0)

  predicate Admits(c: Config, s: State, now: int) {
    match s.mode
    case Closed => true
    case Open => now - s.openedAt >= c.cooldown
    case HalfOpen => !s.probing
  }

  predicate Enabled(s: State, e: Event) {
    s.clock <= e.now && (e.id in s.flight <==> e.End?)
  }

  function BeginStep(c: Config, s: State, id: nat, now: int): State {
    if !Admits(c, s, now) then s.(clock := now)
    else
      var mode := if s.mode.Open? then HalfOpen else s.mode;
      s.(mode := mode, probing := mode.HalfOpen?, flight := s.flight[id := now], clock := now)
  }

  function EndStep(c: Config, s: State, id: nat, now: int, answer: Answer): State {
    var t := s.(probing := false, flight := s.flight - {id}, clock := now);
    match answer
    case Success => t.(failures := 0, mode := Closed)
    case Partial => t
    case Neutral => t
    case Failure =>
      if s.failures + 1 >= c.threshold || s.mode.HalfOpen? then
        t.(failures := s.failures + 1, mode := Open, openedAt := now)
      else t.(failures := s.failures + 1)
  }

  function Step(c: Config, s: State, e: Event): State {
    match e
    case Begin(id, now) => BeginStep(c, s, id, now)
    case End(id, now, answer) => EndStep(c, s, id, now, answer)
  }

  predicate Legal(c: Config, s: State, run: seq<Event>)
    decreases |run|
  {
    run == [] || (Enabled(s, run[0]) && Legal(c, Step(c, s, run[0]), run[1..]))
  }

  function After(c: Config, s: State, run: seq<Event>): State
    decreases |run|
  {
    if run == [] then s else After(c, Step(c, s, run[0]), run[1..])
  }

  // No inner call lasts longer than d.
  predicate Quick(c: Config, s: State, run: seq<Event>, d: nat)
    decreases |run|
  {
    run == [] ||
    ((forall id :: id in s.flight ==> run[0].now - s.flight[id] <= d) && Quick(c, Step(c, s, run[0]), run[1..], d))
  }

  /* ---- the two critical sections ---- */

  class Breaker {
    const config: Config
    var mode: Mode
    var failures: nat
    var openedAt: int
    var probing: bool
    ghost var flight: map<nat, int>
    ghost var clock: int

    ghost function Abs(): State
      reads this
    {
      State(mode, failures, openedAt, probing, flight, clock)
    }

    constructor (c: Config)
      ensures config == c && Abs() == INIT
    {
      config := c;
      mode, failures, openedAt, probing := Closed, 0, 0, false;
      flight, clock := map[], 0;
    }

    // From the first lock to the inner call; not admitted means the caller gets the open-circuit error.
    method BeginFetch(now: int, ghost id: nat) returns (admitted: bool)
      requires Enabled(Abs(), Begin(id, now))
      modifies this
      ensures admitted <==> Admits(config, old(Abs()), now)
      ensures Abs() == Step(config, old(Abs()), Begin(id, now))
    {
      clock := now;
      match mode {
        case Open =>
          if now - openedAt >= config.cooldown {
            mode := HalfOpen;
          } else {
            return false;
          }
        case HalfOpen =>
          if probing {
            return false;
          }
        case Closed =>
      }
      probing := mode == HalfOpen;
      flight := flight[id := now];
      admitted := true;
    }

    // From the inner call's return to the end.
    method EndFetch(now: int, answer: Answer, ghost id: nat)
      requires Enabled(Abs(), End(id, now, answer))
      modifies this
      ensures Abs() == Step(config, old(Abs()), End(id, now, answer))
    {
      clock := now;
      flight := flight - {id};
      probing := false;
      if answer == Partial || answer == Neutral {
        return;
      }
      if answer == Failure {
        failures := failures + 1;
        if failures >= config.threshold || mode == HalfOpen {
          mode := Open;
          openedAt := now;
        }
        return;
      }
      failures := 0;
      mode := Closed;
    }
  }

  /* ------------------------------------------------------------------------------------------
     Closed means few failures
     ------------------------------------------------------------------------------------------ */

  predicate CountsAgree(c: Config, s: State) {
    s.mode.Closed? <==> s.failures < c.threshold
  }

  /** In every run the breaker is closed exactly when fewer failures than the threshold are counted. */
  lemma {:induction false} ClosedExactly(c: Config, s: State, run: seq<Event>)
    requires c.threshold > 0 && CountsAgree(c, s) && Legal(c, s, run)
    ensures CountsAgree(c, After(c, s, run))
    decreases |run|
  {
    if run != [] {
      ClosedExactly(c, Step(c, s, run[0]), run[1..]);
    }
  }

  // Failures since the last success.
  function FailuresSince(run: seq<Event>): nat {
    if run == [] then 0
    else
      var front, e := run[..|run| - 1], run[|run| - 1];
      if e.End? && e.answer == Success then 0
      else if e.End? && e.answer == Failure then FailuresSince(front) + 1
      else FailuresSince(front)
  }

  lemma {:induction false} AfterMore(c: Config, s: State, run: seq<Event>, e: Event)
    requires Legal(c, s, run + [e])
    ensures Legal(c, s, run) && After(c, s, run + [e]) == Step(c, After(c, s, run), e)
    decreases |run|
  {
    if run == [] {
      assert run + [e] == [e] && [e][1..] == [];
      assert After(c, Step(c, s, e), []) == Step(c, s, e);
    } else {
      assert (run + [e])[0] == run[0] && (run + [e])[1..] == run[1..] + [e];
      AfterMore(c, Step(c, s, run[0]), run[1..], e);
    }
  }

  lemma {:induction false} FailuresCounted(c: Config, run: seq<Event>)
    requires Legal(c, INIT, run)
    ensures After(c, INIT, run).failures == FailuresSince(run)
    decreases |run|
  {
    if run != [] {
      var front, e := run[..|run| - 1], run[|run| - 1];
      assert run == front + [e];
      AfterMore(c, INIT, front, e);
      FailuresCounted(c, front);
    }
  }

  /** Over every run: the breaker is closed exactly when fewer calls than the threshold have failed since the last
      one that succeeded. */
  lemma ClosedByFailures(c: Config, run: seq<Event>)
    requires c.threshold > 0 && Legal(c, INIT, run)
    ensures After(c, INIT, run).mode.Closed? <==> FailuresSince(run) < c.threshold
  {
    FailuresCounted(c, run);
    ClosedExactly(c, INIT, run);
  }

  /* ------------------------------------------------------------------------------------------
     Open means shut
     ------------------------------------------------------------------------------------------ */

  predicate NoSuccess(run: seq<Event>) {
    forall k :: 0 <= k < |run| ==> !(run[k].End? && run[k].answer.Success?)
  }

  predicate AllBefore(run: seq<Event>, t: int) {
    forall k :: 0 <= k < |run| ==> run[k].now < t
  }

  predicate AlwaysOpen(c: Config, s: State, run: seq<Event>)
    decreases |run|
  {
    s.mode.Open? && (run == [] || AlwaysOpen(c, Step(c, s, run[0]), run[1..]))
  }

  /** From the moment it opens until the cooldown is over, the breaker stays open exactly when no call that
      was already under way succeeds, and then no inner call begins. */
  lemma {:induction false} ShutDuringCooldown(c: Config, s: State, run: seq<Event>)
    requires c.threshold > 0 && CountsAgree(c, s) && Legal(c, s, run)
    requires s.mode.Open? && AllBefore(run, s.openedAt + c.cooldown)
    requires s.openedAt <= s.clock
    ensures AlwaysOpen(c, s, run) <==> NoSuccess(run)
    ensures NoSuccess(run) ==> After(c, s, run).openedAt >= s.openedAt && After(c, s, run).flight.Keys <= s.flight.Keys
    decreases |run|
  {
    if run != [] {
      var e, rest := run[0], run[1..];
      assert forall k :: 0 <= k < |rest| ==> rest[k] == run[k + 1];
      assert NoSuccess(run) <==> !(e.End? && e.answer.Success?) && NoSuccess(rest) by {
        assert forall k :: 1 <= k < |run| ==> run[k] == rest[k - 1];
      }
      if !(e.End? && e.answer.Success?) {
        ShutDuringCooldown(c, Step(c, s, e), rest);
      }
    }
  }

  /* ------------------------------------------------------------------------------------------
     Half open means one probe
     ------------------------------------------------------------------------------------------ */

  predicate OneProbe(s: State) {
    s.mode.HalfOpen? ==> forall i, j :: i in s.flight && j in s.flight ==> i == j
  }

  predicate AlwaysOneProbe(c: Config, s: State, run: seq<Event>)
    decreases |run|
  {
    OneProbe(s) && (run == [] || AlwaysOneProbe(c, Step(c, s, run[0]), run[1..]))
  }

  predicate Exclusive(s: State) {
    && OneProbe(s)
    && (forall id :: id in s.flight ==> s.flight[id] <= s.clock)
    && (s.mode.Open? ==> s.openedAt <= s.clock && forall id :: id in s.flight ==> s.flight[id] <= s.openedAt)
    && (s.mode.HalfOpen? && !s.probing ==> s.flight == map[])
  }

  lemma ExclusiveStep(c: Config, s: State, e: Event, d: nat)
    requires d < c.cooldown && Exclusive(s) && Enabled(s, e)
    requires forall id :: id in s.flight ==> e.now - s.flight[id] <= d
    ensures Exclusive(Step(c, s, e))
  {
    var t := Step(c, s, e);
    if e.Begin? && s.mode.Open? && Admits(c, s, e.now) {
      assert s.flight == map[];
    }
    if e.End? && s.mode.HalfOpen? {
      assert t.flight == map[];
    }
  }

  lemma {:induction false} QuickRunsExclusive(c: Config, s: State, run: seq<Event>, d: nat)
    requires d < c.cooldown && Exclusive(s) && Legal(c, s, run) && Quick(c, s, run, d)
    ensures AlwaysOneProbe(c, s, run)
    decreases |run|
  {
    if run != [] {
      ExclusiveStep(c, s, run[0], d);
      QuickRunsExclusive(c, Step(c, s, run[0]), run[1..], d);
    }
  }

  /* ---- a call that outlives the cooldown meets the probe ---- */

  // n calls that fail at once, while call 0 is under way.
  function Failures(n: nat): seq<Event> {
    if n == 0 then [] else [Begin(1, 0), End(1, 0, Failure)] + Failures(n - 1)
  }

  lemma {:induction false} FailuresOpen(c: Config, s: State, n: nat, tail: seq<Event>, d: nat)
    requires s.mode.Closed? && s.flight == map[0 := 0] && s.clock == 0 && !s.probing
    requires 0 < n && s.failures + n == c.threshold
    requires forall t: State :: t == State(Open, c.threshold, 0, false, map[0 := 0], 0) ==>
               Legal(c, t, tail) && Quick(c, t, tail, d) && !AlwaysOneProbe(c, t, tail)
    ensures var run := Failures(n) + tail;
            Legal(c, s, run) && Quick(c, s, run, d) && !AlwaysOneProbe(c, s, run)
    decreases n
  {
    var run := Failures(n) + tail;
    var more := Failures(n - 1) + tail;
    assert run[0] == Begin(1, 0) && run[1] == End(1, 0, Failure);
    assert run[1..][0] == run[1] && run[1..][1..] == more;
    var t := Step(c, s, run[0]);
    assert t.flight - {1} == map[0 := 0];
    var u := Step(c, t, run[1]);
    if n == 1 {
      assert more == tail;
      assert u == State(Open, c.threshold, 0, false, map[0 := 0], 0);
    } else {
      assert u.mode.Closed?;
      FailuresOpen(c, u, n - 1, tail, d);
    }
    assert Legal(c, u, more) && Quick(c, u, more, d) && !AlwaysOneProbe(c, u, more);
    var next := run[1..];
    assert next[0] == run[1] && next[1..] == more && Step(c, t, next[0]) == u;
    assert Legal(c, t, next) && Quick(c, t, next, d) && !AlwaysOneProbe(c, t, next);
  }

  function Meeting(c: Config): seq<Event> {
    [Begin(0, 0)] + (Failures(c.threshold) + [Begin(1, c.cooldown)])
  }

  lemma ProbeMeetsStraggler(c: Config, d: nat)
    requires c.cooldown <= d
    ensures var s := State(Open, c.threshold, 0, false, map[0 := 0], 0);
            var tail := [Begin(1, c.cooldown)];
            Legal(c, s, tail) && Quick(c, s, tail, d) && !AlwaysOneProbe(c, s, tail)
  {
    var s := State(Open, c.threshold, 0, false, map[0 := 0], 0);
    var tail := [Begin(1, c.cooldown)];
    var t := Step(c, s, tail[0]);
    assert tail[1..] == [];
    assert Legal(c, t, tail[1..]) && Quick(c, t, tail[1..], d);
    assert 0 in t.flight && 1 in t.flight && t.mode.HalfOpen?;
    assert !AlwaysOneProbe(c, t, tail[1..]);
  }

  lemma MeetingHappens(c: Config, d: nat)
    requires c.threshold > 0 && c.cooldown <= d
    ensures Legal(c, INIT, Meeting(c)) && Quick(c, INIT, Meeting(c), d) && !AlwaysOneProbe(c, INIT, Meeting(c))
  {
    var run := Meeting(c);
    var rest := Failures(c.threshold) + [Begin(1, c.cooldown)];
    assert run[0] == Begin(0, 0) && run[1..] == rest;
    ProbeMeetsStraggler(c, d);
    FailuresOpen(c, Step(c, INIT, run[0]), c.threshold, [Begin(1, c.cooldown)], d);
  }

  /** At most one call is under way whenever the breaker is half open, in every run whose inner calls
      last at most d, if and only if d is less than the cooldown. */
  lemma OneProbeExactly(c: Config, d: nat)
    requires c.threshold > 0
    ensures (forall run :: Legal(c, INIT, run) && Quick(c, INIT, run, d) ==> AlwaysOneProbe(c, INIT, run))
            <==> d < c.cooldown
  {
    if d < c.cooldown {
      forall run | Legal(c, INIT, run) && Quick(c, INIT, run, d) ensures AlwaysOneProbe(c, INIT, run) {
        QuickRunsExclusive(c, INIT, run, d);
      }
    } else {
      MeetingHappens(c, d);
    }
  }
}
