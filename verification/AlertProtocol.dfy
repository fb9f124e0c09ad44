/**
  The alert delivery protocol as a state machine.

  Pushers (the ingest endpoint and the scheduler) claim (token, chat, search) triples in the dedup
  store, publish alerts to a stream, and release or keep the claims they did not publish. Consumers
  read the stream through a consumer group and settle each entry: acked after a delivery, dropped,
  or copied to the dead-letter stream. Dropping and dead-lettering run a cleanup that releases the
  claims of the alert.

  One event is one command, except that a cleanup (release the claims, append, ack) is one event that
  records how far it got. Every failure the code handles is an outcome of an event, so a run is any
  interleaving of any number of pushers and consumers with any pattern of failures.
 */
module AlertProtocol {
  import opened Basics

  // Delivery attempts before an alert is dead-lettered, and before an enrichment request is.
  const MAX_RETRIES := 3
  const ENRICH_MAX_RETRIES := 5

  datatype Claim = Claim(token: string, chat: int, search: int)

  datatype Alert = Alert(chat: int, search: int, tokens: seq<string>, text: string)

  datatype Message = Parsed(alert: Alert) | Garbled(raw: string)

  datatype State = State(
    limit: nat,                   // delivery attempts before an entry is dead-lettered
    log: seq<Message>,            // every entry ever appended; an entry's id is its index
    next: nat,                    // the first id the consumer group has not handed out
    pending: map<nat, nat>,       // handed out and not acked, with the delivery count
    spent: set<nat>,              // the ids whose delivery count has reached the limit, acked since or not
    dead: seq<Message>,           // the dead-letter stream
    claims: set<Claim>,           // the dedup table
    owned: map<nat, set<Claim>>,  // what each pusher claimed and has not yet published, released or kept
    hands: multiset<nat>)         // the ids consumers took and have not yet processed

  function Init(limit: nat): State {
    State(limit, [], 0, map[], {}, [], {}, map[], multiset{})
  }

  const INIT := Init(MAX_RETRIES)

  // What a consumer did with a message in hand.
  datatype Outcome =
    | Unparsed(acked: bool)
    | Sent(acked: bool)
    | Retry
    | NoTarget(acked: bool)
    | Undeliverable(released: nat, acked: bool)

  // What became of a message that reached the retry limit.
  datatype DeadOutcome =
    | RereadFailed(acked: bool)
    | Moved(released: nat, appended: bool, acked: bool)

  datatype Event =
    | ClaimNew(pusher: nat, claim: Claim)
    | Publish(pusher: nat, alert: Alert)
    | Release(pusher: nat, claim: Claim)
    | Keep(pusher: nat)
    | Foreign(raw: string)
    | Read(id: nat)
    | Reclaim(id: nat)
    | DrainTake(id: nat)
    | Forget(id: nat)
    | Process(id: nat, outcome: Outcome)
    | DeadLetter(id: nat, fate: DeadOutcome)

  function Owned(s: State, p: nat): set<Claim> {
    if p in s.owned then s.owned[p] else {}
  }

  function ClaimsOfTokens(a: Alert, tokens: seq<string>): set<Claim> {
    set t | t in tokens :: Claim(t, a.chat, a.search)
  }

  function ClaimsOf(m: Message): set<Claim> {
    if m.Parsed? then ClaimsOfTokens(m.alert, m.alert.tokens) else {}
  }

  // The claims gone after a cleanup released the first n tokens of the alert.
  function Released(m: Message, n: nat): set<Claim> {
    if m.Parsed? && n <= |m.alert.tokens| then ClaimsOfTokens(m.alert, m.alert.tokens[..n]) else {}
  }

  predicate HookDone(m: Message, released: nat) {
    if m.Parsed? then released == |m.alert.tokens| else released == 0
  }

  predicate HookFits(m: Message, released: nat) {
    if m.Parsed? then released <= |m.alert.tokens| else released == 0
  }

  predicate Unread(s: State, id: nat) { s.next <= id < |s.log| }

  predicate Unsettled(s: State, id: nat) {
    id < |s.log| && (s.next <= id || id in s.pending)
  }

  predicate Settled(s: State, id: nat) { id < |s.log| && !Unsettled(s, id) }

  predicate OutcomeFits(m: Message, o: Outcome) {
    match o
    case Unparsed(_) => m.Garbled?
    case Undeliverable(n, acked) => m.Parsed? && HookFits(m, n) && (acked ==> HookDone(m, n))
    case _ => m.Parsed?
  }

  predicate FateFits(m: Message, f: DeadOutcome) {
    match f
    case RereadFailed(_) => true
    case Moved(n, appended, acked) =>
      HookFits(m, n) && (appended ==> HookDone(m, n)) && (acked ==> appended)
  }

  // What was listed may have been settled since: draining and dead-lettering go by the listing, unless an
  // entry in hand is dead-lettered at once. A reclaim is refused by the server when the entry is gone. The
  // dedup table deletes any claim it is asked to, and the stream takes any alert, whoever asks.
  predicate Enabled(s: State, e: Event) {
    match e
    case ClaimNew(_, _) => true
    case Publish(_, _) => true
    case Release(_, _) => true
    case Keep(_) => true
    case Foreign(_) => true
    case Read(id) => id == s.next < |s.log|
    case Reclaim(id) => id in s.pending && s.pending[id] < s.limit
    case DrainTake(id) => id < s.next
    case Forget(id) => id in s.hands
    case Process(id, o) => id in s.hands && id < |s.log| && OutcomeFits(s.log[id], o)
    case DeadLetter(id, f) => (id in s.spent || id in s.hands) && id < |s.log| && FateFits(s.log[id], f)
  }

  function Ack(pending: map<nat, nat>, id: nat, acked: bool): map<nat, nat> {
    if acked then pending - {id} else pending
  }

  function OutcomeAcked(o: Outcome): bool {
    match o
    case Retry => false
    case _ => o.acked
  }

  function OutcomeReleased(m: Message, o: Outcome): set<Claim> {
    if o.Undeliverable? then Released(m, o.released) else {}
  }

  function Step(s: State, e: Event): State
    requires Enabled(s, e)
  {
    match e
    case ClaimNew(p, c) =>
      if c in s.claims then s
      else s.(claims := s.claims + {c}, owned := s.owned[p := Owned(s, p) + {c}])
    case Publish(p, a) =>
      s.(log := s.log + [Parsed(a)], owned := s.owned[p := Owned(s, p) - ClaimsOf(Parsed(a))])
    case Release(p, c) =>
      s.(claims := s.claims - {c}, owned := s.owned[p := Owned(s, p) - {c}])
    case Keep(p) => s.(owned := s.owned[p := {}])
    case Foreign(raw) => s.(log := s.log + [Garbled(raw)])
    case Read(id) =>
      s.(next := s.next + 1, pending := s.pending[id := 1], hands := s.hands + multiset{id},
         spent := if 1 < s.limit then s.spent else s.spent + {id})
    case Reclaim(id) =>
      s.(pending := s.pending[id := s.pending[id] + 1], hands := s.hands + multiset{id},
         spent := if s.pending[id] + 1 < s.limit then s.spent else s.spent + {id})
    case DrainTake(id) => s.(hands := s.hands + multiset{id})
    case Forget(id) => s.(hands := s.hands - multiset{id})
    case Process(id, o) =>
      s.(hands := s.hands - multiset{id},
         pending := Ack(s.pending, id, OutcomeAcked(o)),
         claims := s.claims - OutcomeReleased(s.log[id], o))
    case DeadLetter(id, RereadFailed(acked)) => s.(pending := Ack(s.pending, id, acked))
    case DeadLetter(id, Moved(n, appended, acked)) =>
      s.(claims := s.claims - Released(s.log[id], n),
         dead := if appended then s.dead + [s.log[id]] else s.dead,
         pending := Ack(s.pending, id, acked))
  }

  // A run is legal when every event is enabled where it happens.
  predicate Legal(s: State, run: seq<Event>)
    decreases |run|
  {
    run == [] || (Enabled(s, run[0]) && Legal(Step(s, run[0]), run[1..]))
  }

  function After(s: State, run: seq<Event>): State
    requires Legal(s, run)
    decreases |run|
  {
    if run == [] then s else After(Step(s, run[0]), run[1..])
  }

  lemma {:induction false} RunsCompose(s: State, a: seq<Event>, b: seq<Event>)
    requires Legal(s, a) && Legal(After(s, a), b)
    ensures Legal(s, a + b) && After(s, a + b) == After(After(s, a), b)
    decreases |a|
  {
    if a == [] {
      assert a + b == b;
    } else {
      assert (a + b)[0] == a[0] && (a + b)[1..] == a[1..] + b;
      RunsCompose(Step(s, a[0]), a[1..], b);
    }
  }

  lemma RunExtends(s: State, a: seq<Event>, e: Event)
    requires Legal(s, a) && Enabled(After(s, a), e)
    ensures Legal(s, a + [e]) && After(s, a + [e]) == Step(After(s, a), e)
  {
    RunOfOne(After(s, a), e);
    RunsCompose(s, a, [e]);
  }

  /* ------------------------------------------------------------------------------------------
     Where entries are
     ------------------------------------------------------------------------------------------ */

  // Delivery counts stay between 1 and the limit, and only handed-out entries are pending.
  predicate Bookkeeping(s: State) {
    && s.next <= |s.log| && 1 <= s.limit
    && (forall id :: id in s.pending ==>
          id < s.next && 1 <= s.pending[id] <= s.limit && (s.pending[id] == s.limit <==> id in s.spent))
    && (forall id :: id in s.spent ==> id < s.next)
    && (forall id :: id in s.hands ==> id < s.next)
  }

  lemma TakingBookkeeping(s: State, e: Event)
    requires Bookkeeping(s) && Enabled(s, e) && (e.Read? || e.Reclaim?)
    ensures Bookkeeping(Step(s, e))
  {
  }

  lemma BookkeepingStep(s: State, e: Event)
    requires Bookkeeping(s) && Enabled(s, e)
    ensures Bookkeeping(Step(s, e))
  {
    if e.Read? || e.Reclaim? {
      TakingBookkeeping(s, e);
    }
  }

  lemma {:induction false} BookkeepingAlways(s: State, run: seq<Event>)
    requires Bookkeeping(s) && Legal(s, run)
    ensures Bookkeeping(After(s, run))
    decreases |run|
  {
    if run != [] {
      BookkeepingStep(s, run[0]);
      BookkeepingAlways(Step(s, run[0]), run[1..]);
    }
  }

  /* ------------------------------------------------------------------------------------------
     Claims and alerts agree
     ------------------------------------------------------------------------------------------ */

  // Every token of an alert that is not settled is still claimed.
  ghost predicate Agreement(s: State) {
    forall id: nat :: Unsettled(s, id) ==> ClaimsOf(s.log[id]) <= s.claims
  }

  ghost predicate AlwaysAgrees(s: State, run: seq<Event>)
    requires Legal(s, run)
    decreases |run|
  {
    Agreement(s) && (run == [] || AlwaysAgrees(Step(s, run[0]), run[1..]))
  }

  // A cleanup that released at least one claim.
  predicate Cleans(e: Event) {
    match e
    case Process(_, Undeliverable(n, _)) => n > 0
    case DeadLetter(_, Moved(n, _, _)) => n > 0
    case _ => false
  }

  // A cleanup that released a claim and then left the message unacked.
  predicate Interrupted(e: Event) {
    Cleans(e) && !(if e.Process? then e.outcome.acked else e.fate.acked)
  }

  predicate Uninterrupted(run: seq<Event>) {
    forall k :: 0 <= k < |run| ==> !Interrupted(run[k])
  }

  // A cleanup for an entry that has been settled since it was taken or listed.
  predicate StaleCleanup(s: State, e: Event) {
    Cleans(e) && e.id !in s.pending
  }

  // A release of a claim its sender does not own, or no longer: a second release, the release after a publish
  // that took effect although its answer was lost, or the pruning of old claims.
  predicate StrayRelease(s: State, e: Event) {
    e.Release? && e.claim !in Owned(s, e.pusher)
  }

  predicate Misplaced(s: State, e: Event) {
    StaleCleanup(s, e) || StrayRelease(s, e)
  }

  // An alert whose sender owns the claim of every token, each once.
  predicate Backed(s: State, p: nat, a: Alert) {
    Distinct(a.tokens) && ClaimsOf(Parsed(a)) <= Owned(s, p)
  }

  // Publishing without that: a publish sent twice, or after the claims were lost.
  predicate UnbackedPublish(s: State, e: Event) {
    e.Publish? && !Backed(s, e.pusher, e.alert)
  }

  predicate NeverMisplaced(s: State, run: seq<Event>)
    requires Legal(s, run)
    decreases |run|
  {
    run == [] || (!Misplaced(s, run[0]) && !UnbackedPublish(s, run[0]) && NeverMisplaced(Step(s, run[0]), run[1..]))
  }

  function ReleasedBy(s: State, e: Event): set<Claim>
    requires Enabled(s, e)
  {
    match e
    case Process(id, Undeliverable(n, _)) => Released(s.log[id], n)
    case DeadLetter(id, Moved(n, _, _)) => Released(s.log[id], n)
    case Release(_, c) => {c}
    case _ => {}
  }

  // An alert that is not settled, or a pusher that is about to publish one, relies on the claim.
  ghost predicate NamedByAlert(s: State, c: Claim) {
    exists id: nat :: Unsettled(s, id) && c in ClaimsOf(s.log[id])
  }

  ghost predicate HeldByPusher(s: State, c: Claim) {
    exists p: nat :: c in Owned(s, p)
  }

  // The alert repeats a token, or names a triple that is not claimed, or already named or held by others.
  ghost predicate Clashes(s: State, p: nat, a: Alert) {
    || !Distinct(a.tokens)
    || exists c :: c in ClaimsOf(Parsed(a)) && (c !in s.claims || NamedByAlert(s, c) || HeldByOther(s, c, p))
  }

  ghost predicate HeldByOther(s: State, c: Claim, p: nat) {
    exists q: nat :: q != p && c in Owned(s, q)
  }

  // The events that do harm: an interrupted cleanup, a stale cleanup or stray release of a claim relied on,
  // or an unbacked publish that clashes.
  ghost predicate Harmful(s: State, e: Event)
    requires Enabled(s, e)
  {
    if Misplaced(s, e) then exists c :: c in ReleasedBy(s, e) && (NamedByAlert(s, c) || HeldByPusher(s, c))
    else if UnbackedPublish(s, e) then Clashes(s, e.pusher, e.alert)
    else Interrupted(e)
  }

  ghost predicate NeverHarmful(s: State, run: seq<Event>)
    requires Legal(s, run)
    decreases |run|
  {
    run == [] || (!Harmful(s, run[0]) && NeverHarmful(Step(s, run[0]), run[1..]))
  }

  // Nobody takes or buries an entry that is still in somebody's hands or settled since it was listed, for
  // processing ends, or the consumer dies, before the entry counts as idle; and nobody releases or
  // publishes what it does not own.
  predicate Exclusive(s: State, e: Event) {
    match e
    case Reclaim(id) => id !in s.hands
    case DrainTake(id) => id !in s.hands && id in s.pending
    case DeadLetter(id, _) => id !in s.hands && id in s.pending
    case Release(p, c) => c in Owned(s, p)
    case Publish(p, a) => Backed(s, p, a)
    case _ => true
  }

  predicate AlwaysExclusive(s: State, run: seq<Event>)
    requires Legal(s, run)
    decreases |run|
  {
    run == [] || (Exclusive(s, run[0]) && AlwaysExclusive(Step(s, run[0]), run[1..]))
  }

  // No two unsettled alerts carry the same triple, and no alert carries one twice.
  ghost predicate NoDuplicateAlerts(s: State) {
    && (forall i: nat, j: nat :: Unsettled(s, i) && Unsettled(s, j) && i != j ==>
          ClaimsOf(s.log[i]) !! ClaimsOf(s.log[j]))
    && (forall i: nat :: Unsettled(s, i) && s.log[i].Parsed? ==> Distinct(s.log[i].alert.tokens))
  }

  ghost predicate PushersApart(s: State) {
    && (forall p: nat :: Owned(s, p) <= s.claims)
    && (forall p: nat, q: nat :: p != q ==> Owned(s, p) !! Owned(s, q))
    && (forall p: nat, i: nat :: Unsettled(s, i) ==> Owned(s, p) !! ClaimsOf(s.log[i]))
  }

  ghost predicate HandsApart(s: State) {
    forall id: nat :: s.hands[id] <= 1 && (id in s.hands ==> id in s.pending)
  }

  ghost predicate Protected(s: State) {
    && Bookkeeping(s)
    && Agreement(s)
    && NoDuplicateAlerts(s)
    && PushersApart(s)
  }

  ghost predicate AlwaysProtected(s: State, run: seq<Event>)
    requires Legal(s, run)
    decreases |run|
  {
    Protected(s) && (run == [] || AlwaysProtected(Step(s, run[0]), run[1..]))
  }

  lemma ReleasedWithin(m: Message, n: nat)
    ensures Released(m, n) <= ClaimsOf(m)
    ensures HookDone(m, n) ==> Released(m, n) == ClaimsOf(m)
  {
    if m.Parsed? && n <= |m.alert.tokens| {
      if HookDone(m, n) {
        assert m.alert.tokens[..n] == m.alert.tokens;
      }
    }
  }

  lemma ClaimStep(s: State, e: Event)
    requires Protected(s) && Enabled(s, e) && e.ClaimNew?
    ensures Protected(Step(s, e))
  {
    var t := Step(s, e);
    assert forall id: nat :: Unsettled(t, id) ==> Unsettled(s, id) && t.log[id] == s.log[id];
    assert forall p: nat :: p != e.pusher ==> Owned(t, p) == Owned(s, p);
  }

  lemma ReleaseStep(s: State, e: Event)
    requires Protected(s) && Enabled(s, e) && e.Release? && e.claim in Owned(s, e.pusher)
    ensures Protected(Step(s, e))
  {
    var t := Step(s, e);
    assert forall id: nat :: Unsettled(t, id) ==> Unsettled(s, id) && t.log[id] == s.log[id];
    assert forall p: nat :: p != e.pusher ==> Owned(t, p) == Owned(s, p);
  }

  lemma KeepStep(s: State, e: Event)
    requires Protected(s) && Enabled(s, e) && e.Keep?
    ensures Protected(Step(s, e))
  {
    var t := Step(s, e);
    assert forall id: nat :: Unsettled(t, id) ==> Unsettled(s, id) && t.log[id] == s.log[id];
    assert forall p: nat :: p != e.pusher ==> Owned(t, p) == Owned(s, p);
  }

  lemma ForeignStep(s: State, e: Event)
    requires Protected(s) && Enabled(s, e) && e.Foreign?
    ensures Protected(Step(s, e))
  {
    var t := Step(s, e);
    assert forall id: nat :: Unsettled(t, id) && id < |s.log| ==> Unsettled(s, id) && t.log[id] == s.log[id];
    assert forall p: nat :: Owned(t, p) == Owned(s, p);
    assert ClaimsOf(t.log[|s.log|]) == {};
  }

  lemma PublishStep(s: State, e: Event)
    requires Protected(s) && Enabled(s, e) && e.Publish? && !Clashes(s, e.pusher, e.alert)
    ensures Protected(Step(s, e))
  {
    var t := Step(s, e);
    assert forall id: nat :: Unsettled(t, id) && id < |s.log| ==> Unsettled(s, id) && t.log[id] == s.log[id];
    assert forall p: nat :: p != e.pusher ==> Owned(t, p) == Owned(s, p);
    assert Owned(t, e.pusher) == Owned(s, e.pusher) - ClaimsOf(Parsed(e.alert));
    forall c | c in ClaimsOf(Parsed(e.alert)) ensures c in s.claims && !NamedByAlert(s, c) && !HeldByOther(s, c, e.pusher) {
    }
  }

  lemma BackedNeverClashes(s: State, p: nat, a: Alert)
    requires Protected(s) && Backed(s, p, a)
    ensures !Clashes(s, p, a)
  {
  }

  /** Publishing keeps claims, alerts and pushers protected exactly when the alert clashes with nothing,
      as one whose sender owns its claims never does. */
  lemma PublishExactly(s: State, e: Event)
    requires Protected(s) && Enabled(s, e) && e.Publish?
    ensures Protected(Step(s, e)) <==> !Clashes(s, e.pusher, e.alert)
    ensures Backed(s, e.pusher, e.alert) ==> !Clashes(s, e.pusher, e.alert)
  {
    if Backed(s, e.pusher, e.alert) {
      BackedNeverClashes(s, e.pusher, e.alert);
    }
    if Clashes(s, e.pusher, e.alert) {
      ClashBreaks(s, e.pusher, e.alert);
    } else {
      PublishStep(s, e);
    }
  }

  lemma ClashBreaks(s: State, p: nat, a: Alert)
    requires Protected(s) && Clashes(s, p, a)
    ensures !Protected(Step(s, Publish(p, a)))
  {
    var t, n := Step(s, Publish(p, a)), |s.log|;
    assert Unsettled(t, n) && t.log[n] == Parsed(a);
    if Distinct(a.tokens) {
      var c :| c in ClaimsOf(Parsed(a)) && (c !in s.claims || NamedByAlert(s, c) || HeldByOther(s, c, p));
      if NamedByAlert(s, c) {
        var id: nat :| Unsettled(s, id) && c in ClaimsOf(s.log[id]);
        assert Unsettled(t, id) && t.log[id] == s.log[id] && id != n;
      } else if HeldByOther(s, c, p) {
        var q: nat :| q != p && c in Owned(s, q);
        assert c in Owned(t, q);
      }
    }
  }

  lemma TakeStep(s: State, e: Event)
    requires Protected(s) && Enabled(s, e)
    requires e.Read? || e.Reclaim? || e.DrainTake? || e.Forget?
    ensures Protected(Step(s, e))
  {
    var t := Step(s, e);
    assert forall id: nat :: Unsettled(t, id) ==> Unsettled(s, id) && t.log[id] == s.log[id];
    assert forall p: nat :: Owned(t, p) == Owned(s, p);
  }

  // A cleanup releases claims of its own alert only, and at least one.
  lemma CleanupReleases(s: State, e: Event)
    requires Enabled(s, e) && (e.Process? || e.DeadLetter?)
    ensures Step(s, e).claims == s.claims - ReleasedBy(s, e)
    ensures ReleasedBy(s, e) <= ClaimsOf(s.log[e.id])
    ensures Cleans(e) <==> ReleasedBy(s, e) != {}
  {
    if Cleans(e) {
      var m, n := s.log[e.id], if e.Process? then e.outcome.released else e.fate.released;
      ReleasedWithin(m, n);
      assert m.alert.tokens[..n][0] == m.alert.tokens[0];
      assert Claim(m.alert.tokens[0], m.alert.chat, m.alert.search) in Released(m, n);
    }
  }

  // What settling leaves unsettled was so before, and the pushers are as they were.
  lemma SettleFrame(s: State, e: Event)
    requires Enabled(s, e) && (e.Process? || e.DeadLetter?)
    ensures forall id: nat :: Unsettled(Step(s, e), id) ==> Unsettled(s, id) && Step(s, e).log[id] == s.log[id]
    ensures forall p: nat :: Owned(Step(s, e), p) == Owned(s, p)
    ensures e.id !in s.pending ==> forall id: nat :: Unsettled(s, id) ==> Unsettled(Step(s, e), id)
  {
  }

  // Settling a pending entry may take its claims; those of every other entry and pusher are elsewhere.
  lemma SettleStep(s: State, e: Event)
    requires Protected(s) && Enabled(s, e) && (e.Process? || e.DeadLetter?)
    requires !StaleCleanup(s, e) && !Interrupted(e)
    ensures Protected(Step(s, e))
  {
    SettleFrame(s, e);
    CleanupReleases(s, e);
    BookkeepingStep(s, e);
    if Cleans(e) {
      assert Unsettled(s, e.id) && !Unsettled(Step(s, e), e.id);
    }
  }

  // The moment a cleanup stops half way, an unsettled alert has lost a claim.
  lemma InterruptionBreaks(s: State, e: Event)
    requires Protected(s) && Enabled(s, e) && Interrupted(e) && !StaleCleanup(s, e)
    ensures !Agreement(Step(s, e))
  {
    CleanupReleases(s, e);
    assert Unsettled(Step(s, e), e.id);
  }

  // What a misplaced event leaves as it was, and what it releases.
  lemma MisplacedFrame(s: State, e: Event)
    requires Bookkeeping(s) && Enabled(s, e) && Misplaced(s, e)
    ensures Bookkeeping(Step(s, e)) && Step(s, e).log == s.log
    ensures forall id: nat :: Unsettled(Step(s, e), id) <==> Unsettled(s, id)
    ensures forall p: nat :: Owned(Step(s, e), p) == Owned(s, p)
    ensures Step(s, e).claims == s.claims - ReleasedBy(s, e)
  {
    BookkeepingStep(s, e);
    if e.Release? {
      assert Owned(s, e.pusher) - {e.claim} == Owned(s, e.pusher);
    } else {
      CleanupReleases(s, e);
    }
  }

  /** What a stale cleanup or a stray release breaks: agreement exactly when a released claim is named by an
      unsettled alert, the pushers' hold on their claims exactly when one of them holds it. */
  lemma MisplacedExactly(s: State, e: Event)
    requires Protected(s) && Enabled(s, e) && Misplaced(s, e)
    ensures Agreement(Step(s, e)) <==> forall c :: c in ReleasedBy(s, e) ==> !NamedByAlert(s, c)
    ensures PushersApart(Step(s, e)) <==> forall c :: c in ReleasedBy(s, e) ==> !HeldByPusher(s, c)
    ensures Bookkeeping(Step(s, e)) && NoDuplicateAlerts(Step(s, e))
  {
    MisplacedFrame(s, e);
    MisplacedAgreement(s, e);
    MisplacedPushers(s, e);
  }

  lemma MisplacedAgreement(s: State, e: Event)
    requires Protected(s) && Enabled(s, e) && Misplaced(s, e)
    ensures Agreement(Step(s, e)) <==> forall c :: c in ReleasedBy(s, e) ==> !NamedByAlert(s, c)
  {
    var t := Step(s, e);
    MisplacedFrame(s, e);
    if c :| c in ReleasedBy(s, e) && NamedByAlert(s, c) {
      var id: nat :| Unsettled(s, id) && c in ClaimsOf(s.log[id]);
      assert Unsettled(t, id) && c in ClaimsOf(t.log[id]) && c !in t.claims;
    } else {
      forall id: nat | Unsettled(t, id) ensures ClaimsOf(t.log[id]) <= t.claims {
        assert Unsettled(s, id) && ClaimsOf(s.log[id]) <= s.claims;
      }
    }
  }

  lemma MisplacedPushers(s: State, e: Event)
    requires Protected(s) && Enabled(s, e) && Misplaced(s, e)
    ensures PushersApart(Step(s, e)) <==> forall c :: c in ReleasedBy(s, e) ==> !HeldByPusher(s, c)
  {
    var t := Step(s, e);
    MisplacedFrame(s, e);
    if c :| c in ReleasedBy(s, e) && HeldByPusher(s, c) {
      var p: nat :| c in Owned(s, p);
      assert c in Owned(t, p) && c !in t.claims;
    } else {
      forall p: nat ensures Owned(t, p) <= t.claims {
        assert Owned(t, p) == Owned(s, p) <= s.claims;
      }
    }
  }

  lemma ReleaseExactly(s: State, e: Event)
    requires Protected(s) && Enabled(s, e) && e.Release?
    ensures Protected(Step(s, e)) <==> !Harmful(s, e)
  {
    if StrayRelease(s, e) {
      MisplacedExactly(s, e);
    } else {
      ReleaseStep(s, e);
    }
  }

  lemma SettleExactly(s: State, e: Event)
    requires Protected(s) && Enabled(s, e) && (e.Process? || e.DeadLetter?)
    ensures Protected(Step(s, e)) <==> !Harmful(s, e)
  {
    if StaleCleanup(s, e) {
      MisplacedExactly(s, e);
    } else if Interrupted(e) {
      InterruptionBreaks(s, e);
    } else {
      SettleStep(s, e);
    }
  }

  // Claiming, keeping, taking and letting go do no harm.
  lemma MildStep(s: State, e: Event)
    requires Protected(s) && Enabled(s, e)
    requires !e.Publish? && !e.Release? && !e.Process? && !e.DeadLetter?
    ensures Protected(Step(s, e)) && !Harmful(s, e)
  {
    match e
    case ClaimNew(_, _) => ClaimStep(s, e);
    case Keep(_) => KeepStep(s, e);
    case Foreign(_) => ForeignStep(s, e);
    case Read(_) => TakeStep(s, e);
    case Reclaim(_) => TakeStep(s, e);
    case DrainTake(_) => TakeStep(s, e);
    case Forget(_) => TakeStep(s, e);
  }

  /** Each single event of pushers and consumers keeps claims, alerts and pushers apart and in agreement,
      if and only if it is not harmful. */
  lemma ProtectedExactly(s: State, e: Event)
    requires Protected(s) && Enabled(s, e)
    ensures Protected(Step(s, e)) <==> !Harmful(s, e)
  {
    match e
    case Publish(_, _) => PublishExactly(s, e);
    case Release(_, _) => ReleaseExactly(s, e);
    case Process(_, _) => SettleExactly(s, e);
    case DeadLetter(_, _) => SettleExactly(s, e);
    case _ => MildStep(s, e);
  }

  lemma {:induction false} ProtectionExactly(s: State, run: seq<Event>)
    requires Protected(s) && Legal(s, run)
    ensures AlwaysProtected(s, run) <==> NeverHarmful(s, run)
    ensures AlwaysProtected(s, run) ==> AlwaysAgrees(s, run)
    decreases |run|
  {
    if run != [] {
      ProtectedExactly(s, run[0]);
      if Protected(Step(s, run[0])) {
        ProtectionExactly(Step(s, run[0]), run[1..]);
      }
    }
  }

  /** Over every run, however consumers overlap and whatever fails: in every state claims and alerts agree,
      no two unsettled alerts name the same triple, and each pusher's claims are its own, if and only if no
      event is harmful. */
  lemma AlertsProtected(limit: nat, run: seq<Event>)
    requires 1 <= limit && Legal(Init(limit), run)
    ensures AlwaysProtected(Init(limit), run) <==> NeverHarmful(Init(limit), run)
    ensures AlwaysProtected(Init(limit), run) ==> AlwaysAgrees(Init(limit), run)
  {
    ProtectionExactly(Init(limit), run);
  }

  lemma {:induction false} AgreementExactly(s: State, run: seq<Event>)
    requires Protected(s) && Legal(s, run) && NeverMisplaced(s, run)
    ensures AlwaysAgrees(s, run) <==> Uninterrupted(run)
    ensures Uninterrupted(run) ==> Protected(After(s, run))
    decreases |run|
  {
    if run != [] {
      var e, rest := run[0], run[1..];
      assert Uninterrupted(run) <==> !Interrupted(e) && Uninterrupted(rest) by {
        assert forall k :: 0 <= k < |rest| ==> rest[k] == run[k + 1];
        assert forall k :: 1 <= k < |run| ==> run[k] == rest[k - 1];
      }
      if Interrupted(e) {
        InterruptionBreaks(s, e);
      } else {
        ProtectedExactly(s, e);
        AgreementExactly(Step(s, e), rest);
      }
    }
  }

  /** In every run in which no cleanup is stale and no release stray, however many consumers hold one entry,
      claims and alerts agree in every state if and only if no cleanup was interrupted after its first
      release. */
  lemma ClaimAlertAgreement(limit: nat, run: seq<Event>)
    requires 1 <= limit && Legal(Init(limit), run) && NeverMisplaced(Init(limit), run)
    ensures AlwaysAgrees(Init(limit), run) <==> Uninterrupted(run)
    ensures Uninterrupted(run) ==> NoDuplicateAlerts(After(Init(limit), run))
  {
    AgreementExactly(Init(limit), run);
  }

  lemma SettlingHandsApart(s: State, e: Event)
    requires Bookkeeping(s) && HandsApart(s) && Enabled(s, e) && Exclusive(s, e) && (e.Process? || e.DeadLetter?)
    ensures HandsApart(Step(s, e)) && !Misplaced(s, e)
  {
  }

  lemma TakingHandsApart(s: State, e: Event)
    requires Bookkeeping(s) && HandsApart(s) && Enabled(s, e) && Exclusive(s, e)
    requires e.Read? || e.Reclaim? || e.DrainTake? || e.Forget?
    ensures HandsApart(Step(s, e)) && !Misplaced(s, e)
  {
  }

  lemma HandsApartStep(s: State, e: Event)
    requires Bookkeeping(s) && HandsApart(s) && Enabled(s, e) && Exclusive(s, e)
    ensures HandsApart(Step(s, e)) && !Misplaced(s, e)
  {
    match e
    case Process(_, _) => SettlingHandsApart(s, e);
    case DeadLetter(_, _) => SettlingHandsApart(s, e);
    case Read(_) => TakingHandsApart(s, e);
    case Reclaim(_) => TakingHandsApart(s, e);
    case DrainTake(_) => TakingHandsApart(s, e);
    case Forget(_) => TakingHandsApart(s, e);
    case _ => assert Step(s, e).hands == s.hands && Step(s, e).pending == s.pending;
  }

  lemma {:induction false} ExclusiveNeverMisplaced(s: State, run: seq<Event>)
    requires Bookkeeping(s) && HandsApart(s) && Legal(s, run) && AlwaysExclusive(s, run)
    ensures NeverMisplaced(s, run)
    decreases |run|
  {
    if run != [] {
      BookkeepingStep(s, run[0]);
      HandsApartStep(s, run[0]);
      ExclusiveNeverMisplaced(Step(s, run[0]), run[1..]);
    }
  }

  // Consumers that never overlap and pushers that keep to their own have none of either.
  lemma ExclusiveAgreement(limit: nat, run: seq<Event>)
    requires 1 <= limit && Legal(Init(limit), run) && AlwaysExclusive(Init(limit), run)
    ensures AlwaysAgrees(Init(limit), run) <==> Uninterrupted(run)
  {
    ExclusiveNeverMisplaced(Init(limit), run);
    ClaimAlertAgreement(limit, run);
  }

  lemma RunOfOne(s: State, e: Event)
    requires Enabled(s, e)
    ensures Legal(s, [e]) && After(s, [e]) == Step(s, e)
  {
    assert [e][1..] == [];
    assert Legal(Step(s, e), [e][1..]);
  }

  lemma Grow(run: seq<Event>, s: State, e: Event)
    requires Legal(INIT, run) && After(INIT, run) == s && Enabled(s, e)
    requires Uninterrupted(run) && !Interrupted(e)
    ensures Legal(INIT, run + [e]) && After(INIT, run + [e]) == Step(s, e) && Uninterrupted(run + [e])
  {
    RunExtends(INIT, run, e);
  }

  // No entry is ever in two hands.
  ghost predicate NeverShared(s: State, run: seq<Event>)
    requires Legal(s, run)
    decreases |run|
  {
    (forall id: nat :: s.hands[id] <= 1) && (run == [] || NeverShared(Step(s, run[0]), run[1..]))
  }

  lemma {:induction false} SharedMore(s: State, run: seq<Event>, e: Event)
    requires Legal(s, run) && NeverShared(s, run) && Enabled(After(s, run), e)
    requires forall id: nat :: Step(After(s, run), e).hands[id] <= 1
    ensures Legal(s, run + [e]) && NeverShared(s, run + [e])
    decreases |run|
  {
    RunExtends(s, run, e);
    if run == [] {
      assert run + [e] == [e] && [e][1..] == [];
      assert NeverShared(Step(s, e), [e][1..]);
    } else {
      assert (run + [e])[0] == run[0] && (run + [e])[1..] == run[1..] + [e];
      SharedMore(Step(s, run[0]), run[1..], e);
    }
  }

  lemma GrowApart(run: seq<Event>, s: State, e: Event)
    requires Legal(INIT, run) && After(INIT, run) == s && Enabled(s, e)
    requires Uninterrupted(run) && !Interrupted(e) && NeverShared(INIT, run)
    requires forall id: nat :: Step(s, e).hands[id] <= 1
    ensures Legal(INIT, run + [e]) && After(INIT, run + [e]) == Step(s, e)
    ensures Uninterrupted(run + [e]) && NeverShared(INIT, run + [e])
  {
    Grow(run, s, e);
    SharedMore(INIT, run, e);
  }

  // A pusher claims a listing and publishes an alert for it.
  lemma OnePublished(c: Claim, a: Alert) returns (run: seq<Event>)
    requires c == Claim("t", 1, 1) && a == Alert(1, 1, ["t"], "")
    ensures Legal(INIT, run) && Uninterrupted(run) && NeverShared(INIT, run)
    ensures After(INIT, run) == State(MAX_RETRIES, [Parsed(a)], 0, map[], {}, [], {c}, map[0 := {}], multiset{})
  {
    assert ClaimsOf(Parsed(a)) == {c};
    var s := INIT.(claims := {c}, owned := map[0 := {c}]);
    GrowApart([], INIT, ClaimNew(0, c));
    run := [] + [ClaimNew(0, c)];
    assert Owned(INIT, 0) + {c} == {c};
    assert Step(INIT, ClaimNew(0, c)) == s;
    GrowApart(run, s, Publish(0, a));
    run := run + [Publish(0, a)];
  }

  // Two consumers take it.
  lemma OverlapTaken(c: Claim, a: Alert) returns (run: seq<Event>)
    requires c == Claim("t", 1, 1) && a == Alert(1, 1, ["t"], "")
    ensures Legal(INIT, run) && Uninterrupted(run)
    ensures After(INIT, run) == State(MAX_RETRIES, [Parsed(a)], 1, map[0 := 2], {}, [], {c}, map[0 := {}], multiset{0, 0})
  {
    run := OnePublished(c, a);
    var s := After(INIT, run);
    var t := s.(next := 1, pending := map[0 := 1], hands := multiset{0});
    Grow(run, s, Read(0));
    assert Step(s, Read(0)) == t;
    Grow(run + [Read(0)], t, Reclaim(0));
    run := run + [Read(0)] + [Reclaim(0)];
  }

  // The first of them drops it; the second still holds it.
  lemma OverlapPrefix(c: Claim, a: Alert) returns (run: seq<Event>)
    requires c == Claim("t", 1, 1) && a == Alert(1, 1, ["t"], "")
    ensures Legal(INIT, run) && Uninterrupted(run)
    ensures After(INIT, run) == State(MAX_RETRIES, [Parsed(a)], 1, map[], {}, [], {}, map[0 := {}], multiset{0})
  {
    run := OverlapTaken(c, a);
    var drop := Process(0, Undeliverable(1, true));
    assert a.tokens[..1] == ["t"] && Released(Parsed(a), 1) == {c};
    Grow(run, After(INIT, run), drop);
    run := run + [drop];
  }

  // Meanwhile the listing is claimed and published again.
  lemma OverlapAgain(c: Claim, a: Alert) returns (run: seq<Event>)
    requires c == Claim("t", 1, 1) && a == Alert(1, 1, ["t"], "")
    ensures Legal(INIT, run) && Uninterrupted(run)
    ensures After(INIT, run) == State(MAX_RETRIES, [Parsed(a), Parsed(a)], 1, map[], {}, [], {c}, map[0 := {}], multiset{0})
  {
    run := OverlapPrefix(c, a);
    var s5 := After(INIT, run);
    assert ClaimsOf(Parsed(a)) == {c};
    Grow(run, s5, ClaimNew(0, c));
    Grow(run + [ClaimNew(0, c)], Step(s5, ClaimNew(0, c)), Publish(0, a));
    run := run + [ClaimNew(0, c)] + [Publish(0, a)];
  }

  // Overlap can do harm: a consumer that still holds a settled alert drops it a second time and
  // releases the claim a newer alert relies on, though no cleanup was interrupted.
  lemma OverlapBreaksAgreement()
    ensures exists run :: Legal(INIT, run) && Uninterrupted(run) && !Agreement(After(INIT, run))
  {
    var c := Claim("t", 1, 1);
    var a := Alert(1, 1, ["t"], "");
    var run := OverlapAgain(c, a);
    var drop := Process(0, Undeliverable(1, true));
    assert a.tokens[..1] == ["t"] && Released(Parsed(a), 1) == {c} && ClaimsOf(Parsed(a)) == {c};
    Grow(run, After(INIT, run), drop);
    run := run + [drop];
    var s := After(INIT, run);
    assert Unsettled(s, 1) && c in ClaimsOf(s.log[1]) && c !in s.claims;
  }

  // The group hands the entry out again and the consumer lets go of it.
  lemma TakenAgain(run: seq<Event>, s: State) returns (more: seq<Event>)
    requires Legal(INIT, run) && After(INIT, run) == s && Uninterrupted(run) && NeverShared(INIT, run)
    requires 0 in s.pending && s.pending[0] < s.limit && s.hands == multiset{}
    ensures Legal(INIT, more) && Uninterrupted(more) && NeverShared(INIT, more)
    ensures After(INIT, more) == s.(pending := s.pending[0 := s.pending[0] + 1],
                                    spent := if s.pending[0] + 1 < s.limit then s.spent else s.spent + {0})
  {
    GrowApart(run, s, Reclaim(0));
    var t := Step(s, Reclaim(0));
    assert Step(t, Forget(0)).hands == s.hands;
    GrowApart(run + [Reclaim(0)], t, Forget(0));
    more := run + [Reclaim(0)] + [Forget(0)];
  }

  // A published alert whose every delivery was cut short reaches the retry limit.
  lemma OneSpent(c: Claim, a: Alert) returns (run: seq<Event>)
    requires c == Claim("t", 1, 1) && a == Alert(1, 1, ["t"], "")
    ensures Legal(INIT, run) && Uninterrupted(run) && NeverShared(INIT, run)
    ensures After(INIT, run) == State(MAX_RETRIES, [Parsed(a)], 1, map[0 := 3], {0}, [], {c}, map[0 := {}], multiset{})
  {
    run := OnePublished(c, a);
    var s := After(INIT, run);
    GrowApart(run, s, Read(0));
    var t := Step(s, Read(0));
    GrowApart(run + [Read(0)], t, Forget(0));
    run := run + [Read(0)] + [Forget(0)];
    assert After(INIT, run) == s.(next := 1, pending := map[0 := 1]);
    run := TakenAgain(run, After(INIT, run));
    assert After(INIT, run).pending == map[0 := 2];
    run := TakenAgain(run, After(INIT, run));
  }

  // The first listing of it is acted upon.
  lemma OneBuried(c: Claim, a: Alert) returns (run: seq<Event>)
    requires c == Claim("t", 1, 1) && a == Alert(1, 1, ["t"], "")
    ensures Legal(INIT, run) && Uninterrupted(run) && NeverShared(INIT, run)
    ensures After(INIT, run) == State(MAX_RETRIES, [Parsed(a)], 1, map[], {0}, [Parsed(a)], {}, map[0 := {}], multiset{})
  {
    run := OneSpent(c, a);
    var bury := DeadLetter(0, Moved(1, true, true));
    assert a.tokens[..1] == ["t"] && Released(Parsed(a), 1) == {c};
    GrowApart(run, After(INIT, run), bury);
    run := run + [bury];
  }

  // The listing is claimed and published again.
  lemma OneBuriedAgain(c: Claim, a: Alert) returns (run: seq<Event>)
    requires c == Claim("t", 1, 1) && a == Alert(1, 1, ["t"], "")
    ensures Legal(INIT, run) && Uninterrupted(run) && NeverShared(INIT, run)
    ensures After(INIT, run) == State(MAX_RETRIES, [Parsed(a), Parsed(a)], 1, map[], {0}, [Parsed(a)], {c}, map[0 := {}], multiset{})
  {
    run := OneBuried(c, a);
    var t := After(INIT, run);
    assert ClaimsOf(Parsed(a)) == {c} && Owned(t, 0) + {c} == {c};
    GrowApart(run, t, ClaimNew(0, c));
    GrowApart(run + [ClaimNew(0, c)], Step(t, ClaimNew(0, c)), Publish(0, a));
    run := run + [ClaimNew(0, c)] + [Publish(0, a)];
  }

  // So can two listings of one entry at the retry limit, though no entry was ever in two hands.
  lemma TwoListingsBreakAgreement()
    ensures exists run :: Legal(INIT, run) && Uninterrupted(run) && NeverShared(INIT, run) && !Agreement(After(INIT, run))
  {
    var c := Claim("t", 1, 1);
    var a := Alert(1, 1, ["t"], "");
    var run := OneBuriedAgain(c, a);
    var bury := DeadLetter(0, Moved(1, true, true));
    assert a.tokens[..1] == ["t"] && Released(Parsed(a), 1) == {c} && ClaimsOf(Parsed(a)) == {c};
    GrowApart(run, After(INIT, run), bury);
    run := run + [bury];
    var s := After(INIT, run);
    assert Unsettled(s, 1) && c in ClaimsOf(s.log[1]) && c !in s.claims;
  }

  // The alert is read.
  lemma OneRead(c: Claim, a: Alert) returns (run: seq<Event>)
    requires c == Claim("t", 1, 1) && a == Alert(1, 1, ["t"], "")
    ensures Legal(INIT, run) && Uninterrupted(run)
    ensures After(INIT, run) == State(MAX_RETRIES, [Parsed(a)], 1, map[0 := 1], {}, [], {c}, map[0 := {}], multiset{0})
  {
    run := OnePublished(c, a);
    var s := After(INIT, run);
    Grow(run, s, Read(0));
    run := run + [Read(0)];
  }

  // An interruption happens: the cleanup after a failed delivery stops between its first release and its ack.
  lemma InterruptionReached()
    ensures exists run :: run != [] && Legal(INIT, run) && Interrupted(run[|run| - 1]) && !Agreement(After(INIT, run))
  {
    var c := Claim("t", 1, 1);
    var a := Alert(1, 1, ["t"], "");
    var run := OneRead(c, a);
    var s, e := After(INIT, run), Process(0, Undeliverable(1, false));
    assert a.tokens[..1] == ["t"] && Released(Parsed(a), 1) == {c} && ClaimsOf(Parsed(a)) == {c};
    RunExtends(INIT, run, e);
    assert Interrupted((run + [e])[|run|]);
    var t := Step(s, e);
    assert Unsettled(t, 0) && t.log[0] == Parsed(a) && c !in t.claims;
  }

  // No entry is cleaned up at all in the run.
  predicate NoCleanup(run: seq<Event>) {
    forall k :: 0 <= k < |run| ==> !run[k].Process? && !run[k].DeadLetter?
  }

  // A pusher claims a listing and gives the claim back.
  lemma OneGivenBack(c: Claim) returns (run: seq<Event>)
    requires c == Claim("t", 1, 1)
    ensures Legal(INIT, run) && Uninterrupted(run) && NoCleanup(run)
    ensures After(INIT, run) == INIT.(owned := map[0 := {}])
  {
    var s := INIT.(claims := {c}, owned := map[0 := {c}]);
    Grow([], INIT, ClaimNew(0, c));
    assert Owned(INIT, 0) + {c} == {c} && Step(INIT, ClaimNew(0, c)) == s;
    Grow([] + [ClaimNew(0, c)], s, Release(0, c));
    run := [] + [ClaimNew(0, c)] + [Release(0, c)];
  }

  // Another pusher claims and publishes it.
  lemma OneTakenOver(c: Claim, a: Alert) returns (run: seq<Event>)
    requires c == Claim("t", 1, 1) && a == Alert(1, 1, ["t"], "")
    ensures Legal(INIT, run) && Uninterrupted(run) && NoCleanup(run)
    ensures var s := After(INIT, run); s.log == [Parsed(a)] && s.next == 0 && s.claims == {c}
  {
    run := OneGivenBack(c);
    assert ClaimsOf(Parsed(a)) == {c};
    var s := After(INIT, run);
    Grow(run, s, ClaimNew(1, c));
    run := run + [ClaimNew(1, c)];
    var t := After(INIT, run);
    assert t.log == [] && t.next == 0 && t.claims == {c} && c in Owned(t, 1);
    Grow(run, t, Publish(1, a));
    run := run + [Publish(1, a)];
  }

  // The first pusher releases its claim once more, and the alert of the other has lost it.
  lemma StrayBreaksAgreement()
    ensures exists run :: Legal(INIT, run) && NoCleanup(run) && !Agreement(After(INIT, run))
  {
    var c := Claim("t", 1, 1);
    var a := Alert(1, 1, ["t"], "");
    var run := OneTakenOver(c, a);
    assert ClaimsOf(Parsed(a)) == {c};
    Grow(run, After(INIT, run), Release(0, c));
    run := run + [Release(0, c)];
    var s := After(INIT, run);
    assert Unsettled(s, 0) && c in ClaimsOf(s.log[0]) && c !in s.claims;
  }

  /* ------------------------------------------------------------------------------------------
     Nothing is lost in silence
     ------------------------------------------------------------------------------------------ */

  // The acks that may settle a message: a delivery, a recipient without a target, a drop or a
  // dead-letter copy whose cleanup released every claim, an entry nobody can parse, or a failed
  // re-read of an entry that reached the retry limit.
  predicate SettledBy(m: Message, id: nat, e: Event) {
    match e
    case Process(i, Sent(acked)) => i == id && acked && m.Parsed?
    case Process(i, NoTarget(acked)) => i == id && acked && m.Parsed?
    case Process(i, Undeliverable(n, acked)) => i == id && acked && m.Parsed? && n == |m.alert.tokens|
    case Process(i, Unparsed(acked)) => i == id && acked && m.Garbled?
    case DeadLetter(i, Moved(n, appended, acked)) => i == id && acked && appended && HookDone(m, n)
    case DeadLetter(i, RereadFailed(acked)) => i == id && acked
    case _ => false
  }

  ghost predicate SettledIn(m: Message, id: nat, run: seq<Event>) {
    exists k :: 0 <= k < |run| && SettledBy(m, id, run[k])
  }

  lemma {:induction false} LogGrows(s: State, run: seq<Event>)
    requires Legal(s, run)
    ensures s.log <= After(s, run).log && s.dead <= After(s, run).dead
    decreases |run|
  {
    if run != [] {
      LogGrows(Step(s, run[0]), run[1..]);
    }
  }

  lemma {:induction false} SettledExactly(s: State, run: seq<Event>, id: nat)
    requires Bookkeeping(s) && Legal(s, run) && id < |After(s, run).log|
    ensures Settled(After(s, run), id) <==>
            Settled(s, id) || SettledIn(After(s, run).log[id], id, run)
    decreases |run|
  {
    var m := After(s, run).log[id];
    if run != [] {
      var e, rest := run[0], run[1..];
      var t := Step(s, e);
      BookkeepingStep(s, e);
      LogGrows(s, run);
      LogGrows(t, rest);
      SettledExactly(t, rest, id);
      assert SettledIn(m, id, run) <==> SettledBy(m, id, e) || SettledIn(m, id, rest) by {
        assert forall k :: 0 <= k < |rest| ==> rest[k] == run[k + 1];
        assert forall k :: 1 <= k < |run| ==> run[k] == rest[k - 1];
      }
      AckStep(s, e, id, m);
    }
  }

  lemma AckStep(s: State, e: Event, id: nat, m: Message)
    requires Bookkeeping(s) && Enabled(s, e)
    requires id < |s.log| ==> s.log[id] == m
    ensures Settled(Step(s, e), id) <==> Settled(s, id) || SettledBy(m, id, e)
  {
    match e {
      case Process(_, _) => AckByProcess(s, e, id, m);
      case DeadLetter(_, _) => AckByDeadLetter(s, e, id, m);
      case _ =>
    }
  }

  lemma AckByProcess(s: State, e: Event, id: nat, m: Message)
    requires Bookkeeping(s) && Enabled(s, e) && e.Process?
    requires id < |s.log| ==> s.log[id] == m
    ensures Settled(Step(s, e), id) <==> Settled(s, id) || SettledBy(m, id, e)
  {
  }

  lemma AckByDeadLetter(s: State, e: Event, id: nat, m: Message)
    requires Bookkeeping(s) && Enabled(s, e) && e.DeadLetter?
    requires id < |s.log| ==> s.log[id] == m
    ensures Settled(Step(s, e), id) <==> Settled(s, id) || SettledBy(m, id, e)
  {
  }

  /** Every published entry is unread, pending or settled, whatever fails; and it is settled exactly
      when some event of the run acked it for one of the reasons SettledBy lists. */
  lemma NoSilentLoss(limit: nat, run: seq<Event>, id: nat)
    requires 1 <= limit && Legal(Init(limit), run) && id < |After(Init(limit), run).log|
    ensures var s := After(Init(limit), run);
            && (Settled(s, id) <==> SettledIn(s.log[id], id, run))
            && !(Unread(s, id) && id in s.pending)
            && (Settled(s, id) <==> !Unread(s, id) && id !in s.pending)
  {
    BookkeepingAlways(Init(limit), run);
    SettledExactly(Init(limit), run, id);
  }

  // A dead-lettered message is kept: its copy is in the dead-letter stream from then on.
  lemma {:induction false} DeadLetterKeepsCopy(s: State, run: seq<Event>, k: nat)
    requires Legal(s, run) && k < |run|
    requires run[k].DeadLetter? && run[k].fate.Moved? && run[k].fate.appended
    ensures run[k].id < |After(s, run).log| && After(s, run).log[run[k].id] in After(s, run).dead
    decreases |run|
  {
    var t := Step(s, run[0]);
    if k == 0 {
      LogGrows(s, run);
      LogGrows(t, run[1..]);
      assert t.dead[|t.dead| - 1] == s.log[run[0].id];
    } else {
      assert run[1..][k - 1] == run[k];
      DeadLetterKeepsCopy(t, run[1..], k - 1);
    }
  }

  /* ------------------------------------------------------------------------------------------
     Bounded attempts and progress
     ------------------------------------------------------------------------------------------ */

  function Attempts(run: seq<Event>, id: nat): nat {
    if run == [] then 0
    else (if run[0].Process? && run[0].id == id && !run[0].outcome.Unparsed? then 1 else 0) + Attempts(run[1..], id)
  }

  predicate HandsOut(e: Event, id: nat) {
    (e.Read? || e.Reclaim?) && e.id == id
  }

  // How often the group handed the entry out: one read, then reclaims.
  function Deliveries(run: seq<Event>, id: nat): nat {
    if run == [] then 0
    else (if HandsOut(run[0], id) then 1 else 0) + Deliveries(run[1..], id)
  }

  function Drains(run: seq<Event>, id: nat): nat {
    if run == [] then 0
    else (if run[0].DrainTake? && run[0].id == id then 1 else 0) + Drains(run[1..], id)
  }

  function DeliveryCount(s: State, id: nat): nat {
    if id in s.pending then s.pending[id] else 0
  }

  // Deliveries an entry may still get.
  function Allowance(s: State, id: nat): nat
    requires Bookkeeping(s)
  {
    if s.next <= id then s.limit else if id in s.pending then s.limit - s.pending[id] else 0
  }

  // Each attempt uses up one time the entry was taken.
  lemma {:induction false} AttemptsNeedTaking(s: State, run: seq<Event>, id: nat)
    requires Legal(s, run)
    ensures Attempts(run, id) + After(s, run).hands[id] <= s.hands[id] + Deliveries(run, id) + Drains(run, id)
    decreases |run|
  {
    if run != [] {
      AttemptsNeedTaking(Step(s, run[0]), run[1..], id);
    }
  }

  lemma AllowanceStep(s: State, e: Event, id: nat)
    requires Bookkeeping(s) && Enabled(s, e) && Bookkeeping(Step(s, e))
    ensures Allowance(Step(s, e), id) + (if HandsOut(e, id) then 1 else 0) <= Allowance(s, id)
  {
  }

  lemma CountStep(s: State, e: Event, id: nat)
    requires Bookkeeping(s) && Enabled(s, e) && Bookkeeping(Step(s, e))
    requires id in Step(s, e).pending || Step(s, e).next <= id
    ensures DeliveryCount(Step(s, e), id) == DeliveryCount(s, id) + if HandsOut(e, id) then 1 else 0
  {
  }

  lemma {:induction false} DeliveriesBounded(s: State, run: seq<Event>, id: nat)
    requires Bookkeeping(s) && Legal(s, run)
    ensures Deliveries(run, id) <= Allowance(s, id)
    ensures id in After(s, run).pending ==>
            DeliveryCount(s, id) + Deliveries(run, id) == After(s, run).pending[id]
    decreases |run|
  {
    if run != [] {
      BookkeepingStep(s, run[0]);
      AllowanceStep(s, run[0], id);
      if id in Step(s, run[0]).pending || Step(s, run[0]).next <= id {
        CountStep(s, run[0], id);
      }
      DeliveriesBounded(Step(s, run[0]), run[1..], id);
      BookkeepingAlways(s, run);
    }
  }

  /** Whatever fails and however consumers overlap, an entry is attempted at most limit times plus once per
      drain pass that took it; while it is pending, at most once per counted delivery plus once per drain
      pass. */
  lemma BoundedAttempts(limit: nat, run: seq<Event>, id: nat)
    requires 1 <= limit && Legal(Init(limit), run)
    ensures Attempts(run, id) <= limit + Drains(run, id)
    ensures id in After(Init(limit), run).pending ==>
            Attempts(run, id) <= After(Init(limit), run).pending[id] + Drains(run, id)
            && After(Init(limit), run).pending[id] <= limit
  {
    AttemptsNeedTaking(Init(limit), run, id);
    DeliveriesBounded(Init(limit), run, id);
    BookkeepingAlways(Init(limit), run);
    LimitStays(Init(limit), run);
  }

  lemma {:induction false} LimitStays(s: State, run: seq<Event>)
    requires Legal(s, run)
    ensures After(s, run).limit == s.limit
    decreases |run|
  {
    if run != [] {
      LimitStays(Step(s, run[0]), run[1..]);
    }
  }

  // What is left to do for an entry: its remaining deliveries and the final settling.
  function Weight(s: State, id: nat): nat
    requires Bookkeeping(s)
  {
    if s.next <= id then s.limit + 1
    else if id in s.pending then s.limit + 1 - s.pending[id]
    else 0
  }

  function WorkBelow(s: State, n: nat): nat
    requires Bookkeeping(s)
  {
    if n == 0 then 0 else WorkBelow(s, n - 1) + Weight(s, n - 1)
  }

  function Work(s: State): nat
    requires Bookkeeping(s)
  {
    WorkBelow(s, |s.log|)
  }

  // The events that move an entry forward: handing it out again, or dead-lettering it for good.
  predicate Advances(s: State, e: Event) {
    match e
    case Read(_) => true
    case Reclaim(_) => true
    case DeadLetter(id, f) => f.acked && id in s.pending
    case _ => false
  }

  function Advanced(s: State, run: seq<Event>): nat
    requires Legal(s, run)
    decreases |run|
  {
    if run == [] then 0 else (if Advances(s, run[0]) then 1 else 0) + Advanced(Step(s, run[0]), run[1..])
  }

  function Appended(run: seq<Event>): nat {
    if run == [] then 0
    else (if run[0].Publish? || run[0].Foreign? then 1 else 0) + Appended(run[1..])
  }

  lemma {:induction false} WorkBelowChange(s: State, t: State, n: nat, id: nat)
    requires Bookkeeping(s) && Bookkeeping(t)
    requires forall i: nat :: i < n && i != id ==> Weight(t, i) <= Weight(s, i)
    requires Weight(t, id) <= Weight(s, id)
    ensures WorkBelow(t, n) <= WorkBelow(s, n)
    ensures id < n ==> WorkBelow(t, n) <= WorkBelow(s, n) - (Weight(s, id) - Weight(t, id))
  {
    if n > 0 {
      WorkBelowChange(s, t, n - 1, id);
    }
  }

  lemma WeightStep(s: State, e: Event, id: nat)
    requires Bookkeeping(s) && Enabled(s, e) && Bookkeeping(Step(s, e))
    ensures Weight(Step(s, e), id) + (if Advances(s, e) && e.id == id then 1 else 0) <= Weight(s, id)
  {
  }

  lemma LogStep(s: State, e: Event)
    requires Bookkeeping(s) && Enabled(s, e)
    ensures |Step(s, e).log| == |s.log| + if e.Publish? || e.Foreign? then 1 else 0
    ensures Advances(s, e) ==> e.id < |s.log|
  {
  }

  lemma WorkStep(s: State, e: Event)
    requires Bookkeeping(s) && Enabled(s, e)
    ensures Bookkeeping(Step(s, e))
    ensures Work(Step(s, e)) + (if Advances(s, e) then 1 else 0)
            <= Work(s) + (if e.Publish? || e.Foreign? then s.limit + 1 else 0)
  {
    BookkeepingStep(s, e);
    LogStep(s, e);
    var t := Step(s, e);
    var id := if Advances(s, e) then e.id else 0;
    forall i: nat ensures Weight(t, i) + (if Advances(s, e) && e.id == i then 1 else 0) <= Weight(s, i) {
      WeightStep(s, e, i);
    }
    WorkBelowChange(s, t, |s.log|, id);
    assert Weight(t, |s.log|) <= s.limit + 1;
  }

  lemma {:induction false} WorkConserved(s: State, run: seq<Event>)
    requires Bookkeeping(s) && Legal(s, run)
    ensures Bookkeeping(After(s, run))
    ensures Work(After(s, run)) + Advanced(s, run) <= Work(s) + (s.limit + 1) * Appended(run)
    decreases |run|
  {
    BookkeepingAlways(s, run);
    if run != [] {
      var e, rest := run[0], run[1..];
      var more := if e.Publish? || e.Foreign? then 1 else 0;
      WorkStep(s, e);
      WorkConserved(Step(s, e), rest);
      assert Appended(run) == more + Appended(rest);
      Distribute(s.limit + 1, more, Appended(rest));
    }
  }

  lemma WorkWithoutAppends(s: State, run: seq<Event>)
    requires Bookkeeping(s) && Legal(s, run) && Appended(run) == 0
    ensures Bookkeeping(After(s, run)) && Work(After(s, run)) + Advanced(s, run) <= Work(s)
  {
    WorkConserved(s, run);
  }

  lemma Distribute(a: int, x: int, y: int)
    ensures a * (x + y) == a * x + a * y
  {
  }

  /** The group never spins: hand-outs and final dead-letterings together are at most limit + 1 per
      appended entry, in every run. */
  lemma BoundedWork(limit: nat, run: seq<Event>)
    requires 1 <= limit && Legal(Init(limit), run)
    ensures Advanced(Init(limit), run) <= (limit + 1) * Appended(run)
  {
    WorkConserved(Init(limit), run);
  }

  /** So for enrichment requests, which are messages without tokens: one that fails for good is dead-lettered
      while it is in hand. */
  lemma EnrichRequestsBounded(run: seq<Event>, id: nat)
    requires Legal(Init(ENRICH_MAX_RETRIES), run)
    ensures Attempts(run, id) <= 5 + Drains(run, id)
    ensures Advanced(Init(ENRICH_MAX_RETRIES), run) <= 6 * Appended(run)
  {
    BoundedAttempts(ENRICH_MAX_RETRIES, run, id);
    BoundedWork(ENRICH_MAX_RETRIES, run);
  }
}
