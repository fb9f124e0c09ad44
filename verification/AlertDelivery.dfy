/**
  The code that takes part in the alert protocol, in its own form: the commands it sends to the
  stream server and the dedup table, and the loops of a consumer. Every method is proved to perform a
  legal run of AlertProtocol by exactly the commands it states, whatever these answer.
 */
module AlertDelivery {
  import opened AlertProtocol
  import opened Basics
  import opened Wrappers

  datatype PendingEntry = PendingEntry(owner: string, count: nat)

  datatype Listed = Listed(id: nat, owner: string, count: nat)

  datatype NotifyResult = Delivered | NoChannel | Blocked | NoDelivery | OtherError

  // What the code asked of its surroundings, in order, and what each call answered.
  datatype Command =
    | AddCmd(m: Message, ok: bool)
    | AddDeadCmd(m: Message, ok: bool)
    | AckCmd(id: nat, ok: bool)
    | RangeCmd(id: nat, ok: bool)
    | ReadCmd(consumer: string, most: nat, ids: seq<nat>)
    | ListCmd(consumer: string, mine: bool, most: nat, listed: seq<Listed>)
    | ClaimCmd(consumer: string, asked: seq<nat>, given: seq<nat>)
    | InsertCmd(claim: Claim, isNew: Option<bool>)
    | DeleteCmd(claim: Claim, ok: bool)
    | RenderCmd(tokens: seq<string>, text: string, malformed: bool)
    | NotifyCmd(recipient: int, text: string, result: NotifyResult)
    | NotifyBatchCmd(recipient: int, tokens: seq<string>, ok: bool)
    | SaveCmd(tokens: seq<string>, ok: bool)

  // The alert stream with its consumer group and retry limit, the dead-letter stream and the dedup table. Every
  // command may fail without effect; a failed read, listing or take-over gives nothing.
  class Backend {
    const limit: nat
    var log: seq<Message>
    var next: nat
    var pending: map<nat, PendingEntry>
    var dead: seq<Message>
    var claims: set<Claim>
    ghost var spent: set<nat>
    ghost var owned: map<nat, set<Claim>>
    ghost var hands: multiset<nat>
    ghost var sent: seq<Command>

    ghost function Abs(): State
      reads this
    {
      State(limit, log, next, map id | id in pending :: pending[id].count, spent, dead, claims, owned, hands)
    }

    constructor (deliveries: nat)
      ensures Abs() == Init(deliveries) && sent == []
    {
      limit := deliveries;
      log, next, pending, dead, claims := [], 0, map[], [], {};
      spent, owned, hands, sent := {}, map[], multiset{}, [];
    }

    method XAdd(m: Message) returns (ok: bool)
      modifies this`log, this`sent
      ensures sent == old(sent) + [AddCmd(m, ok)]
      ensures log == if ok then old(log) + [m] else old(log)
    {
      ok := *;
      if ok {
        log := log + [m];
      }
      sent := sent + [AddCmd(m, ok)];
    }

    method XAddDead(m: Message) returns (ok: bool)
      modifies this`dead, this`sent
      ensures sent == old(sent) + [AddDeadCmd(m, ok)]
      ensures Abs() == old(Abs()).(dead := if ok then old(dead) + [m] else old(dead))
    {
      ok := *;
      if ok {
        dead := dead + [m];
      }
      sent := sent + [AddDeadCmd(m, ok)];
    }

    method XAck(id: nat) returns (ok: bool)
      modifies this`pending, this`sent
      ensures sent == old(sent) + [AckCmd(id, ok)]
      ensures pending == if ok then old(pending) - {id} else old(pending)
      ensures Abs() == old(Abs()).(pending := Ack(old(Abs()).pending, id, ok))
    {
      ok := *;
      if ok {
        pending := pending - {id};
      }
      sent := sent + [AckCmd(id, ok)];
    }

    method XRange(id: nat) returns (m: Option<Message>)
      requires id < |log|
      modifies this`sent
      ensures m.Some? ==> m.value == log[id]
      ensures sent == old(sent) + [RangeCmd(id, m.Some?)]
    {
      var ok: bool := *;
      m := if ok then Some(log[id]) else None;
      sent := sent + [RangeCmd(id, ok)];
    }

    // Entries of the group idle long enough, at most `most` of them. With mine, only this consumer's.
    method XPending(consumer: string, mine: bool, most: nat) returns (listed: seq<Listed>)
      modifies this`sent
      ensures |listed| <= most && IsListing(pending, listed)
      ensures mine ==> forall k :: 0 <= k < |listed| ==> listed[k].owner == consumer
      ensures sent == old(sent) + [ListCmd(consumer, mine, most, listed)]
    {
      listed := [];
      var todo := pending.Keys;
      while todo != {} && |listed| < most
        invariant todo <= pending.Keys && |listed| <= most
        invariant IsListing(pending, listed) && forall k :: 0 <= k < |listed| ==> listed[k].id !in todo
        invariant mine ==> forall k :: 0 <= k < |listed| ==> listed[k].owner == consumer
        decreases todo
      {
        var id :| id in todo;
        todo := todo - {id};
        var idle: bool := *;
        if idle && (mine ==> pending[id].owner == consumer) {
          listed := listed + [Listed(id, pending[id].owner, pending[id].count)];
        }
      }
      sent := sent + [ListCmd(consumer, mine, most, listed)];
    }

    // Hands the next entries, in order and at most `most` of them, to the consumer.
    method XReadGroup(consumer: string, most: nat) returns (ids: seq<nat>)
      requires Bookkeeping(Abs())
      modifies this`next, this`pending, this`hands, this`spent, this`sent
      ensures |ids| <= most && next == old(next) + |ids| <= |log|
      ensures HandedOut(pending, ids, old(next), consumer) && forall k :: 0 <= k < |ids| ==> ids[k] < |log|
      ensures Performs(old(Abs()), Reads(ids), Abs()) && Bookkeeping(Abs())
      ensures AlwaysExclusive(old(Abs()), Reads(ids))
      ensures hands == old(hands) + multiset(ids)
      ensures sent == old(sent) + [ReadCmd(consumer, most, ids)]
    {
      ghost var s0 := Abs();
      ids := [];
      var more: bool := *;
      while more && |ids| < most && next < |log|
        invariant |ids| <= most && sent == old(sent)
        invariant ReadSoFar(s0, ids, Abs()) && HandedOut(pending, ids, s0.next, consumer)
        decreases |log| - next
      {
        var id := ReadNext(consumer, s0, ids);
        ids := ids + [id];
        more := *;
      }
      sent := sent + [ReadCmd(consumer, most, ids)];
    }

    // ReadOne, appended to the run performed so far.
    method ReadNext(consumer: string, ghost s0: State, ghost ids: seq<nat>) returns (id: nat)
      requires ReadSoFar(s0, ids, Abs()) && HandedOut(pending, ids, s0.next, consumer) && next < |log|
      modifies this`next, this`pending, this`hands, this`spent
      ensures ReadSoFar(s0, ids + [id], Abs()) && HandedOut(pending, ids + [id], s0.next, consumer)
      ensures next == old(next) + 1
    {
      ghost var s := Abs();
      id := ReadOne(consumer);
      MoreRead(s0, ids, id, s, Abs());
      OneMoreHanded(old(pending), ids, s0.next, consumer);
    }

    method ReadOne(consumer: string) returns (id: nat)
      requires Bookkeeping(Abs()) && next < |log|
      modifies this`next, this`pending, this`hands, this`spent
      ensures id == old(next) && next == id + 1 && hands == old(hands) + multiset{id}
      ensures pending == old(pending)[id := PendingEntry(consumer, 1)]
      ensures Enabled(old(Abs()), Read(id)) && Abs() == Step(old(Abs()), Read(id)) && Bookkeeping(Abs())
    {
      ghost var s := Abs();
      id := next;
      pending := pending[id := PendingEntry(consumer, 1)];
      next := next + 1;
      hands := hands + multiset{id};
      spent := if 1 < limit then spent else spent + {id};
      assert Abs().pending == s.pending[id := 1];
      ReadIsStep(s);
    }

    // Takes over the entries that are still idle when the command runs, counting one more delivery.
    method XClaim(consumer: string, ids: seq<nat>) returns (claimed: seq<nat>)
      requires Bookkeeping(Abs()) && BelowFrom(Abs(), ids, 0) && Distinct(ids)
      modifies this`pending, this`hands, this`spent, this`sent
      ensures |claimed| <= |ids| && Distinct(claimed)
      ensures forall k :: 0 <= k < |claimed| ==> claimed[k] in ids && claimed[k] < |log|
      ensures Performs(old(Abs()), Reclaims(claimed), Abs()) && Bookkeeping(Abs())
      ensures old(hands) == multiset{} ==> AlwaysExclusive(old(Abs()), Reclaims(claimed))
      ensures hands == old(hands) + multiset(claimed)
      ensures sent == old(sent) + [ClaimCmd(consumer, ids, claimed)]
    {
      claimed := ClaimIdle(consumer, ids);
      sent := sent + [ClaimCmd(consumer, ids, claimed)];
    }

    method ClaimIdle(consumer: string, ids: seq<nat>) returns (claimed: seq<nat>)
      requires Bookkeeping(Abs()) && BelowFrom(Abs(), ids, 0) && Distinct(ids)
      modifies this`pending, this`hands, this`spent
      ensures ClaimedSoFar(old(Abs()), ids, claimed, Abs())
    {
      ghost var s0 := Abs();
      claimed := [];
      for i := 0 to |ids|
        invariant ClaimedSoFar(s0, ids[..i], claimed, Abs()) && BelowFrom(Abs(), ids, i)
      {
        var idle: bool := *;
        if idle {
          ClaimNext(consumer, ids, i, s0, claimed);
          claimed := claimed + [ids[i]];
        } else {
          SkipClaim(s0, ids, i, claimed, Abs());
        }
      }
      assert ids[..|ids|] == ids;
    }

    // ClaimOne, appended to the run performed so far.
    method ClaimNext(consumer: string, ids: seq<nat>, i: nat, ghost s0: State, ghost claimed: seq<nat>)
      requires i < |ids| && Distinct(ids)
      requires ClaimedSoFar(s0, ids[..i], claimed, Abs()) && BelowFrom(Abs(), ids, i)
      modifies this`pending, this`hands, this`spent
      ensures ClaimedSoFar(s0, ids[..i + 1], claimed + [ids[i]], Abs()) && BelowFrom(Abs(), ids, i + 1)
    {
      ghost var s := Abs();
      var id := ids[i];
      assert Below(s, id);
      ClaimOne(consumer, id);
      PerformsMore(s0, Reclaims(claimed), s, Reclaim(id));
      ReclaimsMore(claimed, id);
      MoreClaimed(s0, ids, i, claimed, s, Abs());
    }

    method ClaimOne(consumer: string, id: nat)
      requires Bookkeeping(Abs()) && id in pending && pending[id].count < limit
      modifies this`pending, this`hands, this`spent
      ensures Enabled(old(Abs()), Reclaim(id)) && Abs() == Step(old(Abs()), Reclaim(id)) && Bookkeeping(Abs())
      ensures pending == old(pending)[id := PendingEntry(consumer, old(pending)[id].count + 1)]
    {
      ghost var s := Abs();
      pending := pending[id := PendingEntry(consumer, pending[id].count + 1)];
      hands := hands + multiset{id};
      spent := if s.pending[id] + 1 < s.limit then spent else spent + {id};
      assert Abs().pending == s.pending[id := s.pending[id] + 1];
      ReclaimIsStep(s, id);
    }

    // The dedup table. None stands for a failed query.
    method InsertClaim(c: Claim) returns (isNew: Option<bool>)
      modifies this`claims, this`sent
      ensures sent == old(sent) + [InsertCmd(c, isNew)]
      ensures isNew.Some? ==> isNew.value == (c !in old(claims))
      ensures claims == if isNew == Some(true) then old(claims) + {c} else old(claims)
    {
      var ok: bool := *;
      if ok {
        isNew := Some(c !in claims);
        claims := claims + {c};
      } else {
        isNew := None;
      }
      sent := sent + [InsertCmd(c, isNew)];
    }

    method DeleteClaim(c: Claim) returns (ok: bool)
      modifies this`claims, this`sent
      ensures sent == old(sent) + [DeleteCmd(c, ok)]
      ensures claims == if ok then old(claims) - {c} else old(claims)
    {
      ok := *;
      if ok {
        claims := claims - {c};
      }
      sent := sent + [DeleteCmd(c, ok)];
    }
  }

  /* ---- the commands each event stands for ---- */

  function Deletes(a: Alert, n: nat): seq<Command>
    requires n <= |a.tokens|
  {
    if n == 0 then []
    else Deletes(a, n - 1) + [DeleteCmd(Claim(a.tokens[n - 1], a.chat, a.search), true)]
  }

  function HookScript(a: Alert, n: nat): seq<Command>
    requires n <= |a.tokens|
  {
    Deletes(a, n) + if n < |a.tokens| then [DeleteCmd(Claim(a.tokens[n], a.chat, a.search), false)] else []
  }

  function DropScript(a: Alert, e: Event): seq<Command>
    requires e.Process? && e.outcome.Undeliverable? && e.outcome.released <= |a.tokens|
  {
    HookScript(a, e.outcome.released)
    + if e.outcome.released == |a.tokens| then [AckCmd(e.id, e.outcome.acked)] else []
  }

  function ConcludeScript(a: Alert, e: Event): seq<Command>
    requires e.Process? && OutcomeFits(Parsed(a), e.outcome)
  {
    match e.outcome
    case Sent(acked) => [AckCmd(e.id, acked)]
    case NoTarget(acked) => [AckCmd(e.id, acked)]
    case Retry => []
    case Undeliverable(_, _) => DropScript(a, e)
  }

  predicate AnswerFits(r: NotifyResult, o: Outcome) {
    match r
    case Delivered => o.Sent?
    case NoChannel => o.Undeliverable?
    case Blocked => o.Undeliverable?
    case NoDelivery => o.NoTarget?
    case OtherError => o.Retry?
  }

  // What the answer of the notification leads to: nothing after a transient error; one ack, and no release, after
  // a delivery or for a recipient without a target; and for one who can never be reached, no ack before every
  // claim of the alert is gone.
  ghost predicate Concluded(id: nat, a: Alert, r: NotifyResult, claims0: set<Claim>, pending0: map<nat, PendingEntry>,
                            claims: set<Claim>, pending: map<nat, PendingEntry>, sent0: seq<Command>, sent: seq<Command>)
  {
    && (r == OtherError ==> claims == claims0 && pending == pending0 && sent == sent0)
    && (r == Delivered || r == NoDelivery ==>
          && claims == claims0
          && ((sent == sent0 + [AckCmd(id, true)] && pending == pending0 - {id})
              || (sent == sent0 + [AckCmd(id, false)] && pending == pending0)))
    && (r == NoChannel || r == Blocked ==>
          && claims0 - ClaimsOf(Parsed(a)) <= claims <= claims0
          && (pending == pending0 || (pending == pending0 - {id} && claims == claims0 - ClaimsOf(Parsed(a)))))
  }

  function ProcessScript(m: Message, e: Event, r: NotifyResult): seq<Command>
    requires e.Forget? || (e.Process? && OutcomeFits(m, e.outcome))
  {
    if e.Forget? then []
    else if m.Garbled? then [AckCmd(e.id, e.outcome.acked)]
    else [NotifyCmd(m.alert.chat, m.alert.text, r)] + ConcludeScript(m.alert, e)
  }

  function DeadScript(m: Message, e: Event): seq<Command>
    requires e.DeadLetter? && FateFits(m, e.fate)
  {
    match e.fate
    case RereadFailed(acked) => [RangeCmd(e.id, false), AckCmd(e.id, acked)]
    case Moved(_, _, _) => [RangeCmd(e.id, true)] + MoveScript(m, e)
  }

  function MoveScript(m: Message, e: Event): seq<Command>
    requires e.DeadLetter? && e.fate.Moved? && FateFits(m, e.fate)
  {
    (if m.Parsed? then HookScript(m.alert, e.fate.released) else [])
    + if HookDone(m, e.fate.released) then BuryScript(m, e.id, e.fate) else []
  }

  function BuryScript(m: Message, id: nat, f: DeadOutcome): seq<Command>
    requires f.Moved?
  {
    [AddDeadCmd(m, f.appended)] + if f.appended then [AckCmd(id, f.acked)] else []
  }

  /* ---- what a pass did ---- */

  function Reads(ids: seq<nat>): seq<Event> {
    if ids == [] then [] else Reads(ids[..|ids| - 1]) + [Read(ids[|ids| - 1])]
  }

  function Reclaims(ids: seq<nat>): seq<Event> {
    if ids == [] then [] else Reclaims(ids[..|ids| - 1]) + [Reclaim(ids[|ids| - 1])]
  }

  // One entry processed: the event it was, and what the notification answered.
  datatype Try = Try(event: Event, answer: NotifyResult)

  predicate TriedOnce(log: seq<Message>, id: nat, t: Try) {
    id < |log|
    && (t.event == Forget(id)
        || (t.event.Process? && t.event.id == id && OutcomeFits(log[id], t.event.outcome)
            && (!t.event.outcome.Unparsed? ==> AnswerFits(t.answer, t.event.outcome))))
  }

  predicate AllTried(log: seq<Message>, ids: seq<nat>, tries: seq<Try>) {
    |tries| == |ids| && forall k :: 0 <= k < |ids| ==> TriedOnce(log, ids[k], tries[k])
  }

  function Events(tries: seq<Try>): seq<Event> {
    if tries == [] then [] else Events(tries[..|tries| - 1]) + [tries[|tries| - 1].event]
  }

  function TryScript(log: seq<Message>, id: nat, t: Try): seq<Command>
    requires TriedOnce(log, id, t)
  {
    ProcessScript(log[id], t.event, t.answer)
  }

  function TryScripts(log: seq<Message>, ids: seq<nat>, tries: seq<Try>): seq<Command>
    requires AllTried(log, ids, tries)
  {
    if ids == [] then []
    else
      var n := |ids| - 1;
      TryScripts(log, ids[..n], tries[..n]) + TryScript(log, ids[n], tries[n])
  }

  predicate BuriedOnce(log: seq<Message>, id: nat, e: Event) {
    id < |log| && e.DeadLetter? && e.id == id && FateFits(log[id], e.fate)
  }

  predicate AllBuried(log: seq<Message>, ids: seq<nat>, burials: seq<Event>) {
    |burials| == |ids| && forall k :: 0 <= k < |ids| ==> BuriedOnce(log, ids[k], burials[k])
  }

  function DeadScripts(log: seq<Message>, ids: seq<nat>, burials: seq<Event>): seq<Command>
    requires AllBuried(log, ids, burials)
  {
    if ids == [] then []
    else
      var n := |ids| - 1;
      DeadScripts(log, ids[..n], burials[..n]) + DeadScript(log[ids[n]], burials[n])
  }

  // The listed entries below the retry limit, and those at it, in order.
  function RetryIds(limit: nat, listed: seq<Listed>): seq<nat> {
    if listed == [] then []
    else
      var n := |listed| - 1;
      RetryIds(limit, listed[..n]) + if listed[n].count < limit then [listed[n].id] else []
  }

  function SpentIds(limit: nat, listed: seq<Listed>): seq<nat> {
    if listed == [] then []
    else
      var n := |listed| - 1;
      SpentIds(limit, listed[..n]) + if listed[n].count < limit then [] else [listed[n].id]
  }

  // The listed entries of other consumers.
  function OthersOf(listed: seq<Listed>, consumer: string): seq<Listed> {
    if listed == [] then []
    else
      var n := |listed| - 1;
      OthersOf(listed[..n], consumer) + if listed[n].owner != consumer then [listed[n]] else []
  }

  // A reclaim pass: the entries it found, the dead-lettering of each one at the limit, the others taken
  // over again, and the try of each of these.
  datatype Pass = Pass(limit: nat, listed: seq<Listed>, burials: seq<Event>, claimed: seq<nat>, tries: seq<Try>)

  ghost predicate PassFits(log: seq<Message>, p: Pass) {
    && AllBuried(log, SpentIds(p.limit, p.listed), p.burials)
    && Distinct(p.claimed) && (forall k :: 0 <= k < |p.claimed| ==> p.claimed[k] in RetryIds(p.limit, p.listed))
    && AllTried(log, p.claimed, p.tries)
  }

  function PassRun(p: Pass): seq<Event> {
    p.burials + (Reclaims(p.claimed) + Events(p.tries))
  }

  function RetryScript(log: seq<Message>, consumer: string, retry: seq<nat>, claimed: seq<nat>, tries: seq<Try>): seq<Command>
    requires AllTried(log, claimed, tries)
  {
    if retry == [] then [] else [ClaimCmd(consumer, retry, claimed)] + TryScripts(log, claimed, tries)
  }

  ghost function PassScript(log: seq<Message>, consumer: string, p: Pass): seq<Command>
    requires PassFits(log, p)
  {
    DeadScripts(log, SpentIds(p.limit, p.listed), p.burials)
    + RetryScript(log, consumer, RetryIds(p.limit, p.listed), p.claimed, p.tries)
  }

  // Every release, append and ack was answered, and the take-over gave all it was asked for.
  predicate Answered(c: Command) {
    match c
    case DeleteCmd(_, ok) => ok
    case AddDeadCmd(_, ok) => ok
    case AckCmd(_, ok) => ok
    case ClaimCmd(_, asked, given) => |given| == |asked|
    case _ => true
  }

  predicate AllAnswered(cs: seq<Command>) {
    forall k :: 0 <= k < |cs| ==> Answered(cs[k])
  }

  // What draining did with one listed entry.
  datatype DrainStep = Buried(event: Event) | Unreadable(id: nat) | Tried(id: nat, try: Try)

  predicate StepFits(limit: nat, log: seq<Message>, l: Listed, d: DrainStep) {
    if l.count < limit
    then d == Unreadable(l.id) || (d.Tried? && d.id == l.id && TriedOnce(log, l.id, d.try))
    else d.Buried? && BuriedOnce(log, l.id, d.event)
  }

  predicate AllDrained(limit: nat, log: seq<Message>, listed: seq<Listed>, steps: seq<DrainStep>) {
    |steps| == |listed| && forall k :: 0 <= k < |listed| ==> StepFits(limit, log, listed[k], steps[k])
  }

  function StepRun(d: DrainStep): seq<Event> {
    match d
    case Buried(e) => [e]
    case Unreadable(_) => []
    case Tried(id, t) => [DrainTake(id)] + [t.event]
  }

  function DrainRun(steps: seq<DrainStep>): seq<Event> {
    if steps == [] then [] else DrainRun(steps[..|steps| - 1]) + StepRun(steps[|steps| - 1])
  }

  function StepScript(limit: nat, log: seq<Message>, l: Listed, d: DrainStep): seq<Command>
    requires StepFits(limit, log, l, d)
  {
    match d
    case Buried(e) => DeadScript(log[e.id], e)
    case Unreadable(id) => [RangeCmd(id, false)]
    case Tried(id, t) => [RangeCmd(id, true)] + TryScript(log, id, t)
  }

  function DrainScript(limit: nat, log: seq<Message>, listed: seq<Listed>, steps: seq<DrainStep>): seq<Command>
    requires AllDrained(limit, log, listed, steps)
  {
    if listed == [] then []
    else
      var n := |listed| - 1;
      DrainScript(limit, log, listed[..n], steps[..n]) + StepScript(limit, log, listed[n], steps[n])
  }

  /* ---- the order of the commands of a pass ---- */

  predicate IsQuestion(c: Command) { c.NotifyCmd? || c.RangeCmd? }

  // The commands from the last notification or re-read on; all of them if there was none.
  function SinceQuestion(cs: seq<Command>): seq<Command> {
    if cs == [] then []
    else
      var n := |cs| - 1;
      if IsQuestion(cs[n]) then [cs[n]] else SinceQuestion(cs[..n]) + [cs[n]]
  }

  ghost predicate AllReleased(a: Alert, cs: seq<Command>) {
    forall t :: t in a.tokens ==> DeleteCmd(Claim(t, a.chat, a.search), true) in cs
  }

  // The answer to q allows the claims of entry id to be released: its recipient can never be reached, or
  // the entry was read again to be dead-lettered.
  predicate GivesUp(id: nat, a: Alert, q: Command) {
    match q
    case NotifyCmd(chat, text, r) => chat == a.chat && text == a.text && (r == NoChannel || r == Blocked)
    case RangeCmd(i, ok) => i == id && ok
    case _ => false
  }

  // What was done since the last question allows entry id to be acked.
  ghost predicate MayAck(id: nat, a: Alert, cs: seq<Command>) {
    cs != [] &&
    match cs[0]
    case NotifyCmd(chat, text, r) =>
      && chat == a.chat && text == a.text
      && (r == Delivered || r == NoDelivery || ((r == NoChannel || r == Blocked) && AllReleased(a, cs)))
    case RangeCmd(i, ok) => i == id && (ok ==> AllReleased(a, cs) && AddDeadCmd(Parsed(a), true) in cs)
    case _ => false
  }

  ghost predicate MayRelease(log: seq<Message>, c: Claim, cs: seq<Command>) {
    cs != [] && exists id :: 0 <= id < |log| && c in ClaimsOf(log[id]) && GivesUp(id, log[id].alert, cs[0])
  }

  ghost predicate MayBury(log: seq<Message>, m: Message, cs: seq<Command>) {
    cs != [] && cs[0].RangeCmd? && cs[0].ok && cs[0].id < |log| && m == log[cs[0].id]
    && (m.Parsed? ==> AllReleased(m.alert, cs))
  }

  ghost predicate NextOk(log: seq<Message>, before: seq<Command>, c: Command) {
    match c
    case AckCmd(id, _) => id < |log| && (log[id].Parsed? ==> MayAck(id, log[id].alert, SinceQuestion(before)))
    case DeleteCmd(claim, _) => MayRelease(log, claim, SinceQuestion(before))
    case AddDeadCmd(m, _) => MayBury(log, m, SinceQuestion(before))
    case _ => true
  }

  /** An entry that parses is acked only after its notification was answered, otherwise than by a transient
      error, or after it was read again to be dead-lettered, and never before the claims that have to go
      are gone and the copy that has to be made is made; claims are released only for an alert that is
      given up; and nothing is dead-lettered but what was read again. */
  ghost predicate Orderly(log: seq<Message>, cs: seq<Command>) {
    cs == [] || (Orderly(log, cs[..|cs| - 1]) && NextOk(log, cs[..|cs| - 1], cs[|cs| - 1]))
  }

  lemma {:induction false} OrderlyMeaning(log: seq<Message>, cs: seq<Command>)
    ensures Orderly(log, cs) <==> forall k :: 0 <= k < |cs| ==> NextOk(log, cs[..k], cs[k])
  {
    if cs != [] {
      var front := cs[..|cs| - 1];
      OrderlyMeaning(log, front);
      assert forall k :: 0 <= k < |front| ==> front[..k] == cs[..k];
    }
  }

  lemma OrderlyMore(log: seq<Message>, cs: seq<Command>, c: Command)
    requires Orderly(log, cs) && NextOk(log, cs, c)
    ensures Orderly(log, cs + [c])
  {
    assert (cs + [c])[..|cs|] == cs;
  }

  // A question in b hides what came before; without one, b alone allows nothing.
  lemma {:induction false} SinceJoined(a: seq<Command>, b: seq<Command>)
    ensures SinceQuestion(a + b) == SinceQuestion(b)
            || SinceQuestion(b) == [] || !IsQuestion(SinceQuestion(b)[0])
    decreases |b|
  {
    if b != [] {
      var n := |b| - 1;
      assert (a + b)[..|a + b| - 1] == a + b[..n];
      SinceJoined(a, b[..n]);
    }
  }

  lemma NextOkLater(log: seq<Message>, a: seq<Command>, b: seq<Command>, c: Command)
    requires NextOk(log, b, c)
    ensures NextOk(log, a + b, c)
  {
    SinceJoined(a, b);
  }

  lemma {:induction false} OrderlyJoined(log: seq<Message>, a: seq<Command>, b: seq<Command>)
    requires Orderly(log, a) && Orderly(log, b)
    ensures Orderly(log, a + b)
    decreases |b|
  {
    if b == [] {
      assert a + b == a;
    } else {
      var n := |b| - 1;
      OrderlyJoined(log, a, b[..n]);
      NextOkLater(log, a, b[..n], b[n]);
      assert (a + b)[..|a + b| - 1] == a + b[..n];
    }
  }

  // Orderly, and all of it since one question.
  ghost predicate OrderlySince(log: seq<Message>, cs: seq<Command>) {
    Orderly(log, cs) && SinceQuestion(cs) == cs
  }

  // A command that may come at any time.
  lemma OneOrderly(log: seq<Message>, c: Command)
    requires !c.AckCmd? && !c.DeleteCmd? && !c.AddDeadCmd?
    ensures Orderly(log, [c]) && (IsQuestion(c) ==> OrderlySince(log, [c]))
  {
    assert [c][..0] == [];
    assert Orderly(log, []);
  }

  // After a question that gives the alert up, its claims go one by one.
  lemma {:induction false} DeletesOrderly(log: seq<Message>, id: nat, q: Command, n: nat)
    requires id < |log| && log[id].Parsed? && n <= |log[id].alert.tokens|
    requires IsQuestion(q) && GivesUp(id, log[id].alert, q)
    ensures OrderlySince(log, [q] + Deletes(log[id].alert, n))
  {
    var a := log[id].alert;
    QuestionFirst(q, a, n);
    if n == 0 {
      OneOrderly(log, q);
    } else {
      DeletesOrderly(log, id, q, n - 1);
      ReleaseOrderly(log, id, q, [q] + Deletes(a, n - 1), n - 1, true);
    }
  }

  lemma QuestionFirst(q: Command, a: Alert, n: nat)
    requires n <= |a.tokens|
    ensures [q] + Deletes(a, n)
            == if n == 0 then [q] else [q] + Deletes(a, n - 1) + [DeleteCmd(Claim(a.tokens[n - 1], a.chat, a.search), true)]
  {
  }

  // One more release.
  lemma ReleaseOrderly(log: seq<Message>, id: nat, q: Command, cs: seq<Command>, n: nat, ok: bool)
    requires id < |log| && log[id].Parsed? && n < |log[id].alert.tokens|
    requires IsQuestion(q) && GivesUp(id, log[id].alert, q) && cs != [] && cs[0] == q
    requires OrderlySince(log, cs)
    ensures var a := log[id].alert;
            OrderlySince(log, cs + [DeleteCmd(Claim(a.tokens[n], a.chat, a.search), ok)])
  {
    var a := log[id].alert;
    var c := DeleteCmd(Claim(a.tokens[n], a.chat, a.search), ok);
    assert c.claim in ClaimsOf(log[id]);
    OrderlyMore(log, cs, c);
    assert (cs + [c])[..|cs|] == cs;
  }

  lemma {:induction false} DeletesAll(a: Alert, n: nat)
    requires n <= |a.tokens|
    ensures forall k :: 0 <= k < n ==> DeleteCmd(Claim(a.tokens[k], a.chat, a.search), true) in Deletes(a, n)
  {
    if n > 0 {
      DeletesAll(a, n - 1);
    }
  }

  lemma HookOrderly(log: seq<Message>, id: nat, q: Command, n: nat)
    requires id < |log| && log[id].Parsed? && n <= |log[id].alert.tokens|
    requires IsQuestion(q) && GivesUp(id, log[id].alert, q)
    ensures var cs := [q] + HookScript(log[id].alert, n);
            OrderlySince(log, cs) && (n == |log[id].alert.tokens| ==> AllReleased(log[id].alert, cs))
  {
    var a := log[id].alert;
    DeletesOrderly(log, id, q, n);
    if n < |a.tokens| {
      ReleaseOrderly(log, id, q, [q] + Deletes(a, n), n, false);
      Regroup([q], Deletes(a, n), [DeleteCmd(Claim(a.tokens[n], a.chat, a.search), false)]);
    } else {
      assert HookScript(a, n) == Deletes(a, n);
      DeletesAll(a, n);
    }
  }

  lemma ProcessOrderly(log: seq<Message>, id: nat, t: Try)
    requires TriedOnce(log, id, t)
    ensures Orderly(log, TryScript(log, id, t))
  {
    var m, e := log[id], t.event;
    if e.Process? && m.Parsed? {
      var q := NotifyCmd(m.alert.chat, m.alert.text, t.answer);
      var script := TryScript(log, id, t);
      assert script == [q] + ConcludeScript(m.alert, e);
      OneOrderly(log, q);
      if e.outcome.Undeliverable? {
        var n := e.outcome.released;
        HookOrderly(log, id, q, n);
        var cs := [q] + HookScript(m.alert, n);
        if n == |m.alert.tokens| {
          OrderlyMore(log, cs, AckCmd(id, e.outcome.acked));
          Regroup([q], HookScript(m.alert, n), [AckCmd(id, e.outcome.acked)]);
        } else {
          assert script == cs;
        }
      } else if !e.outcome.Retry? {
        OrderlyMore(log, [q], AckCmd(id, e.outcome.acked));
      } else {
        assert script == [q];
      }
    } else if e.Process? {
      OrderlyMore(log, [], AckCmd(id, e.outcome.acked));
      assert [] + [AckCmd(id, e.outcome.acked)] == TryScript(log, id, t);
    }
  }

  lemma DeadOrderly(log: seq<Message>, id: nat, e: Event)
    requires BuriedOnce(log, id, e)
    ensures Orderly(log, DeadScript(log[id], e))
  {
    var m, q := log[id], RangeCmd(id, e.fate.Moved?);
    OneOrderly(log, q);
    if e.fate.RereadFailed? {
      OrderlyMore(log, [q], AckCmd(id, e.fate.acked));
      assert DeadScript(m, e) == [q] + [AckCmd(id, e.fate.acked)];
    } else {
      var n := e.fate.released;
      var hook := if m.Parsed? then HookScript(m.alert, n) else [];
      assert [q] + [] == [q];
      if m.Parsed? {
        HookOrderly(log, id, q, n);
      }
      if HookDone(m, n) {
        BuryOrderly(log, id, e.fate, [q] + hook);
        Regroup([q], hook, BuryScript(m, id, e.fate));
      } else {
        assert MoveScript(m, e) == hook;
      }
    }
  }

  lemma BuryOrderly(log: seq<Message>, id: nat, f: DeadOutcome, cs: seq<Command>)
    requires id < |log| && f.Moved? && cs != [] && cs[0] == RangeCmd(id, true)
    requires OrderlySince(log, cs) && (log[id].Parsed? ==> AllReleased(log[id].alert, cs))
    ensures Orderly(log, cs + BuryScript(log[id], id, f))
  {
    var add, ack := AddDeadCmd(log[id], f.appended), AckCmd(id, f.acked);
    OrderlyMore(log, cs, add);
    if f.appended {
      assert (cs + [add])[..|cs|] == cs;
      assert SinceQuestion(cs + [add]) == cs + [add];
      OrderlyMore(log, cs + [add], ack);
      Regroup(cs, [add], [ack]);
    } else {
      assert BuryScript(log[id], id, f) == [add];
    }
  }

  lemma {:induction false} TriesOrderly(log: seq<Message>, ids: seq<nat>, tries: seq<Try>)
    requires AllTried(log, ids, tries)
    ensures Orderly(log, TryScripts(log, ids, tries))
  {
    if ids != [] {
      var n := |ids| - 1;
      TriesOrderly(log, ids[..n], tries[..n]);
      ProcessOrderly(log, ids[n], tries[n]);
      OrderlyJoined(log, TryScripts(log, ids[..n], tries[..n]), TryScript(log, ids[n], tries[n]));
    }
  }

  lemma {:induction false} BurialsOrderly(log: seq<Message>, ids: seq<nat>, burials: seq<Event>)
    requires AllBuried(log, ids, burials)
    ensures Orderly(log, DeadScripts(log, ids, burials))
  {
    if ids != [] {
      var n := |ids| - 1;
      BurialsOrderly(log, ids[..n], burials[..n]);
      assert BuriedOnce(log, ids[n], burials[n]);
      DeadOrderly(log, ids[n], burials[n]);
      OrderlyJoined(log, DeadScripts(log, ids[..n], burials[..n]), DeadScript(log[ids[n]], burials[n]));
    }
  }

  lemma ReadingOrderly(log: seq<Message>, consumer: string, ids: seq<nat>, tries: seq<Try>)
    requires AllTried(log, ids, tries)
    ensures Orderly(log, [ReadCmd(consumer, 10, ids)] + TryScripts(log, ids, tries))
  {
    TriesOrderly(log, ids, tries);
    OneOrderly(log, ReadCmd(consumer, 10, ids));
    OrderlyJoined(log, [ReadCmd(consumer, 10, ids)], TryScripts(log, ids, tries));
  }

  lemma PassOrderly(log: seq<Message>, consumer: string, p: Pass)
    requires PassFits(log, p)
    ensures Orderly(log, PassScript(log, consumer, p))
  {
    var retry := RetryIds(p.limit, p.listed);
    BurialsOrderly(log, SpentIds(p.limit, p.listed), p.burials);
    TriesOrderly(log, p.claimed, p.tries);
    OneOrderly(log, ClaimCmd(consumer, retry, p.claimed));
    OrderlyJoined(log, [ClaimCmd(consumer, retry, p.claimed)], TryScripts(log, p.claimed, p.tries));
    OrderlyJoined(log, DeadScripts(log, SpentIds(p.limit, p.listed), p.burials),
                  RetryScript(log, consumer, retry, p.claimed, p.tries));
  }

  lemma {:induction false} DrainOrderly(limit: nat, log: seq<Message>, listed: seq<Listed>, steps: seq<DrainStep>)
    requires AllDrained(limit, log, listed, steps)
    ensures Orderly(log, DrainScript(limit, log, listed, steps))
  {
    if listed != [] {
      var n := |listed| - 1;
      DrainOrderly(limit, log, listed[..n], steps[..n]);
      assert StepFits(limit, log, listed[n], steps[n]);
      DrainStepOrderly(limit, log, listed[n], steps[n]);
      OrderlyJoined(log, DrainScript(limit, log, listed[..n], steps[..n]), StepScript(limit, log, listed[n], steps[n]));
    }
  }

  lemma DrainStepOrderly(limit: nat, log: seq<Message>, l: Listed, d: DrainStep)
    requires StepFits(limit, log, l, d)
    ensures Orderly(log, StepScript(limit, log, l, d))
  {
    match d
    case Buried(e) => DeadOrderly(log, l.id, e);
    case Unreadable(id) => OneOrderly(log, RangeCmd(id, false));
    case Tried(id, t) =>
      OneOrderly(log, RangeCmd(id, true));
      ProcessOrderly(log, id, t);
      OrderlyJoined(log, [RangeCmd(id, true)], TryScript(log, id, t));
  }

  // The entry was just handed to the consumer.
  predicate HeldBy(pending: map<nat, PendingEntry>, id: nat, consumer: string) {
    id in pending && pending[id] == PendingEntry(consumer, 1)
  }

  // The ids from the first one on, without a gap.
  predicate Consecutive(ids: seq<nat>, first: nat) {
    forall k :: 0 <= k < |ids| ==> ids[k] == first + k
  }

  predicate HandedOut(pending: map<nat, PendingEntry>, ids: seq<nat>, first: nat, consumer: string) {
    Consecutive(ids, first) && forall k :: 0 <= k < |ids| ==> HeldBy(pending, ids[k], consumer)
  }

  lemma OneMoreHanded(pending: map<nat, PendingEntry>, ids: seq<nat>, first: nat, consumer: string)
    requires HandedOut(pending, ids, first, consumer)
    ensures HandedOut(pending[first + |ids| := PendingEntry(consumer, 1)], ids + [first + |ids|], first, consumer)
  {
  }

  ghost predicate ReadSoFar(s0: State, ids: seq<nat>, t: State) {
    && t.next == s0.next + |ids| <= |t.log| && t.hands == s0.hands + multiset(ids)
    && Performs(s0, Reads(ids), t) && Bookkeeping(t) && AlwaysExclusive(s0, Reads(ids))
  }

  lemma MoreRead(s0: State, ids: seq<nat>, id: nat, s: State, t: State)
    requires ReadSoFar(s0, ids, s) && Enabled(s, Read(id)) && t == Step(s, Read(id)) && Bookkeeping(t)
    ensures ReadSoFar(s0, ids + [id], t)
  {
    PerformsMore(s0, Reads(ids), s, Read(id));
    ReadsMore(ids, id);
  }

  ghost predicate ClaimedSoFar(s0: State, asked: seq<nat>, claimed: seq<nat>, t: State) {
    && |claimed| <= |asked| && Distinct(claimed) && t.hands == s0.hands + multiset(claimed)
    && (forall k :: 0 <= k < |claimed| ==> claimed[k] in asked && claimed[k] < |t.log|)
    && Performs(s0, Reclaims(claimed), t) && Bookkeeping(t)
    && (s0.hands == multiset{} ==> AlwaysExclusive(s0, Reclaims(claimed)))
  }

  lemma SkipClaim(s0: State, ids: seq<nat>, i: nat, claimed: seq<nat>, t: State)
    requires i < |ids| && ClaimedSoFar(s0, ids[..i], claimed, t) && BelowFrom(t, ids, i)
    ensures ClaimedSoFar(s0, ids[..i + 1], claimed, t) && BelowFrom(t, ids, i + 1)
  {
    assert ids[..i + 1] == ids[..i] + [ids[i]];
  }

  lemma MoreClaimed(s0: State, ids: seq<nat>, i: nat, claimed: seq<nat>, s: State, t: State)
    requires i < |ids| && Distinct(ids) && ClaimedSoFar(s0, ids[..i], claimed, s) && BelowFrom(s, ids, i)
    requires Enabled(s, Reclaim(ids[i])) && t == Step(s, Reclaim(ids[i])) && Bookkeeping(t)
    requires Performs(s0, Reclaims(claimed + [ids[i]]), t)
    requires AlwaysExclusive(s0, Reclaims(claimed)) && ids[i] !in s.hands ==> AlwaysExclusive(s0, Reclaims(claimed + [ids[i]]))
    ensures ClaimedSoFar(s0, ids[..i + 1], claimed + [ids[i]], t) && BelowFrom(t, ids, i + 1)
  {
    assert ids[..i + 1] == ids[..i] + [ids[i]];
    assert ids[i] !in claimed;
    assert forall k :: i < k < |ids| ==> ids[k] != ids[i];
  }

  lemma ReadsMore(ids: seq<nat>, id: nat)
    ensures Reads(ids + [id]) == Reads(ids) + [Read(id)]
  {
    assert (ids + [id])[..|ids|] == ids;
  }

  lemma ReclaimsMore(ids: seq<nat>, id: nat)
    ensures Reclaims(ids + [id]) == Reclaims(ids) + [Reclaim(id)]
  {
    assert (ids + [id])[..|ids|] == ids;
  }

  lemma TriesMore(log: seq<Message>, ids: seq<nat>, i: nat, tries: seq<Try>, t: Try)
    requires i < |ids| && AllTried(log, ids[..i], tries) && TriedOnce(log, ids[i], t)
    ensures AllTried(log, ids[..i + 1], tries + [t]) && Events(tries + [t]) == Events(tries) + [t.event]
    ensures TryScripts(log, ids[..i + 1], tries + [t]) == TryScripts(log, ids[..i], tries) + TryScript(log, ids[i], t)
  {
    assert ids[..i + 1][..i] == ids[..i] && (tries + [t])[..i] == tries;
  }

  lemma BurialsMore(log: seq<Message>, ids: seq<nat>, id: nat, burials: seq<Event>, e: Event)
    requires AllBuried(log, ids, burials) && BuriedOnce(log, id, e)
    ensures AllBuried(log, ids + [id], burials + [e])
    ensures DeadScripts(log, ids + [id], burials + [e]) == DeadScripts(log, ids, burials) + DeadScript(log[id], e)
  {
    assert (ids + [id])[..|ids|] == ids && (burials + [e])[..|ids|] == burials;
  }

  lemma DrainMore(limit: nat, log: seq<Message>, listed: seq<Listed>, i: nat, steps: seq<DrainStep>, d: DrainStep)
    requires i < |listed| && AllDrained(limit, log, listed[..i], steps) && StepFits(limit, log, listed[i], d)
    ensures AllDrained(limit, log, listed[..i + 1], steps + [d])
    ensures DrainRun(steps + [d]) == DrainRun(steps) + StepRun(d)
    ensures DrainScript(limit, log, listed[..i + 1], steps + [d])
            == DrainScript(limit, log, listed[..i], steps) + StepScript(limit, log, listed[i], d)
  {
    assert listed[..i + 1][..i] == listed[..i] && (steps + [d])[..i] == steps;
  }

  /* ---- loops over entries, half way ---- */

  // run was performed from s0 and is exclusive if what came before it was.
  ghost predicate Goes(s0: State, before: seq<Event>, run: seq<Event>, t: State) {
    Performs(s0, run, t) && Legal(s0, before) && (AlwaysExclusive(s0, before) ==> AlwaysExclusive(s0, run))
  }

  // run was performed from s0, and is exclusive if nothing was in anybody's hands.
  ghost predicate GoesApart(s0: State, run: seq<Event>, t: State) {
    Performs(s0, run, t) && (s0.hands == multiset{} ==> AlwaysExclusive(s0, run))
  }

  ghost predicate TriedSoFar(log: seq<Message>, ids: seq<nat>, tries: seq<Try>, s0: State, before: seq<Event>, t: State,
                             sent0: seq<Command>, sent: seq<Command>)
  {
    && AllTried(log, ids, tries) && Goes(s0, before, before + Events(tries), t)
    && sent == sent0 + TryScripts(log, ids, tries)
  }

  lemma TriedMore(log: seq<Message>, ids: seq<nat>, i: nat, tries: seq<Try>, t: Try, s0: State, before: seq<Event>,
                  s: State, u: State, sent0: seq<Command>, sent: seq<Command>)
    requires i < |ids| && TriedSoFar(log, ids[..i], tries, s0, before, s, sent0, sent) && TriedOnce(log, ids[i], t)
    requires Goes(s0, before + Events(tries), before + Events(tries) + [t.event], u)
    ensures TriedSoFar(log, ids[..i + 1], tries + [t], s0, before, u, sent0, sent + TryScript(log, ids[i], t))
  {
    TriesMore(log, ids, i, tries, t);
    Regroup(before, Events(tries), [t.event]);
    Regroup(sent0, TryScripts(log, ids[..i], tries), TryScript(log, ids[i], t));
  }

  ghost predicate BuriedSoFar(log: seq<Message>, ids: seq<nat>, burials: seq<Event>, s0: State, t: State,
                              sent0: seq<Command>, sent: seq<Command>)
  {
    && AllBuried(log, ids, burials) && GoesApart(s0, burials, t)
    && Advanced(s0, burials) + Unfinished(burials) == |burials|
    && sent == sent0 + DeadScripts(log, ids, burials)
  }

  lemma BuriedMore(log: seq<Message>, ids: seq<nat>, id: nat, burials: seq<Event>, e: Event, s0: State, s: State, u: State,
                   sent0: seq<Command>, sent: seq<Command>)
    requires BuriedSoFar(log, ids, burials, s0, s, sent0, sent) && BuriedOnce(log, id, e)
    requires GoesApart(s0, burials + [e], u)
    requires Advanced(s0, burials + [e]) == Advanced(s0, burials) + if e.fate.acked then 1 else 0
    ensures BuriedSoFar(log, ids + [id], burials + [e], s0, u, sent0, sent + DeadScript(log[id], e))
  {
    BurialsMore(log, ids, id, burials, e);
    CountsMore(burials, e);
    Regroup(sent0, DeadScripts(log, ids, burials), DeadScript(log[id], e));
  }

  ghost predicate DrainedSoFar(limit: nat, log: seq<Message>, listed: seq<Listed>, steps: seq<DrainStep>, s0: State, t: State,
                               sent0: seq<Command>, sent: seq<Command>)
  {
    && AllDrained(limit, log, listed, steps) && GoesApart(s0, DrainRun(steps), t)
    && sent == sent0 + DrainScript(limit, log, listed, steps)
  }

  lemma DrainedMore(limit: nat, log: seq<Message>, listed: seq<Listed>, i: nat, steps: seq<DrainStep>, d: DrainStep, s0: State, s: State,
                    u: State, sent0: seq<Command>, sent: seq<Command>)
    requires i < |listed| && DrainedSoFar(limit, log, listed[..i], steps, s0, s, sent0, sent) && StepFits(limit, log, listed[i], d)
    requires GoesApart(s0, DrainRun(steps) + StepRun(d), u)
    ensures DrainedSoFar(limit, log, listed[..i + 1], steps + [d], s0, u, sent0, sent + StepScript(limit, log, listed[i], d))
  {
    DrainMore(limit, log, listed, i, steps, d);
    Regroup(sent0, DrainScript(limit, log, listed[..i], steps), StepScript(limit, log, listed[i], d));
  }

  /* ---- listings ---- */

  ghost predicate ListedOnce(listed: seq<Listed>) {
    forall j, k :: 0 <= j < k < |listed| ==> listed[j].id != listed[k].id
  }

  ghost predicate IsListing(pending: map<nat, PendingEntry>, listed: seq<Listed>) {
    ListedOnce(listed)
    && forall k :: 0 <= k < |listed| ==>
         listed[k].id in pending && pending[listed[k].id] == PendingEntry(listed[k].owner, listed[k].count)
  }

  lemma NextListed(limit: nat, listed: seq<Listed>, i: nat)
    requires i < |listed|
    ensures RetryIds(limit, listed[..i + 1])
            == if listed[i].count < limit then RetryIds(limit, listed[..i]) + [listed[i].id] else RetryIds(limit, listed[..i])
    ensures SpentIds(limit, listed[..i + 1])
            == if listed[i].count < limit then SpentIds(limit, listed[..i]) else SpentIds(limit, listed[..i]) + [listed[i].id]
  {
    assert listed[..i + 1][..i] == listed[..i];
  }

  lemma {:induction false} RetryIdsFrom(limit: nat, listed: seq<Listed>, n: nat)
    requires n <= |listed| && ListedOnce(listed)
    ensures Distinct(RetryIds(limit, listed[..n]))
    ensures forall k, j :: 0 <= k < |RetryIds(limit, listed[..n])| && n <= j < |listed| ==>
              RetryIds(limit, listed[..n])[k] != listed[j].id
  {
    if n > 0 {
      NextListed(limit, listed, n - 1);
      RetryIdsFrom(limit, listed, n - 1);
    }
  }

  lemma {:induction false} RetryOrSpent(limit: nat, listed: seq<Listed>)
    ensures |RetryIds(limit, listed)| + |SpentIds(limit, listed)| == |listed|
  {
    if listed != [] {
      RetryOrSpent(limit, listed[..|listed| - 1]);
    }
  }

  lemma {:induction false} OthersListed(pending: map<nat, PendingEntry>, all: seq<Listed>, consumer: string)
    requires IsListing(pending, all)
    ensures IsListing(pending, OthersOf(all, consumer)) && |OthersOf(all, consumer)| <= |all|
    ensures forall k :: 0 <= k < |OthersOf(all, consumer)| ==>
              OthersOf(all, consumer)[k] in all && OthersOf(all, consumer)[k].owner != consumer
  {
    if all != [] {
      OthersListed(pending, all[..|all| - 1], consumer);
    }
  }

  /* ---- runs performed by methods ---- */

  ghost predicate Performs(s: State, run: seq<Event>, t: State) {
    Legal(s, run) && After(s, run) == t
  }

  // Dead-letterings that left their entry pending.
  function Unfinished(run: seq<Event>): nat {
    if run == [] then 0
    else (if run[0].DeadLetter? && !run[0].fate.acked then 1 else 0) + Unfinished(run[1..])
  }

  lemma Regroup<T>(a: seq<T>, b: seq<T>, c: seq<T>)
    ensures a + b + c == a + (b + c)
  {
  }

  lemma TakeOut(rest: multiset<nat>, ids: seq<nat>, i: nat)
    requires i < |ids|
    ensures ids[i] in rest + multiset(ids[i..])
    ensures rest + multiset(ids[i..]) - multiset{ids[i]} == rest + multiset(ids[i + 1..])
  {
    HeadOut(ids, i);
  }

  lemma HeadOut(ids: seq<nat>, i: nat)
    requires i < |ids|
    ensures multiset(ids[i..]) == multiset{ids[i]} + multiset(ids[i + 1..])
  {
    assert ids[i..] == [ids[i]] + ids[i + 1..];
  }

  ghost predicate CountIs(s: State, id: nat, count: nat) {
    id in s.pending && s.pending[id] == count
  }

  ghost predicate OthersStay(s: State, t: State, id: nat) {
    t.limit == s.limit && forall j :: j in s.pending && j != id ==> j in t.pending && t.pending[j] == s.pending[j]
  }

  // The counts of the entries not yet looked at are as they were listed.
  ghost predicate CountsFrom(s: State, listed: seq<Listed>, i: nat) {
    forall k :: i <= k < |listed| ==> CountIs(s, listed[k].id, listed[k].count)
  }

  ghost predicate Below(s: State, id: nat) {
    id in s.pending && s.pending[id] < s.limit
  }

  ghost predicate BelowFrom(s: State, ids: seq<nat>, i: nat) {
    forall k :: i <= k < |ids| ==> Below(s, ids[k])
  }

  lemma OthersUntouched(s: State, t: State, listed: seq<Listed>, i: nat, retry: seq<nat>)
    requires i < |listed| && OthersStay(s, t, listed[i].id) && CountsFrom(s, listed, i) && BelowFrom(s, retry, 0)
    requires ListedOnce(listed) && forall k :: 0 <= k < |retry| ==> retry[k] != listed[i].id
    ensures CountsFrom(t, listed, i + 1) && BelowFrom(t, retry, 0)
  {
    forall k | i < k < |listed| ensures CountIs(t, listed[k].id, listed[k].count) {
      assert CountIs(s, listed[k].id, listed[k].count);
    }
  }

  lemma {:induction false} ExclusiveMore(s: State, run: seq<Event>, e: Event)
    requires Legal(s, run) && AlwaysExclusive(s, run)
    requires Enabled(After(s, run), e) && Exclusive(After(s, run), e)
    ensures Legal(s, run + [e]) && AlwaysExclusive(s, run + [e])
    decreases |run|
  {
    RunExtends(s, run, e);
    if run == [] {
      assert run + [e] == [e] && [e][1..] == [];
      assert AlwaysExclusive(Step(s, e), [e][1..]);
    } else {
      assert (run + [e])[0] == run[0] && (run + [e])[1..] == run[1..] + [e];
      ExclusiveMore(Step(s, run[0]), run[1..], e);
    }
  }

  lemma PerformsMore(s: State, run: seq<Event>, t: State, e: Event)
    requires Performs(s, run, t) && Enabled(t, e)
    ensures Performs(s, run + [e], Step(t, e))
    ensures AlwaysExclusive(s, run) && Exclusive(t, e) ==> AlwaysExclusive(s, run + [e])
  {
    RunExtends(s, run, e);
    if AlwaysExclusive(s, run) && Exclusive(t, e) {
      ExclusiveMore(s, run, e);
    }
  }

  lemma {:induction false} AdvancedMore(s: State, run: seq<Event>, e: Event)
    requires Legal(s, run) && Enabled(After(s, run), e)
    ensures Legal(s, run + [e])
    ensures Advanced(s, run + [e]) == Advanced(s, run) + if Advances(After(s, run), e) then 1 else 0
    decreases |run|
  {
    RunExtends(s, run, e);
    if run == [] {
      assert run + [e] == [e] && [e][1..] == [];
      assert Advanced(Step(s, e), [e][1..]) == 0;
    } else {
      assert (run + [e])[0] == run[0] && (run + [e])[1..] == run[1..] + [e];
      AdvancedMore(Step(s, run[0]), run[1..], e);
    }
  }

  lemma {:induction false} CountsMore(run: seq<Event>, e: Event)
    ensures Appended(run + [e]) == Appended(run) + (if e.Publish? || e.Foreign? then 1 else 0)
    ensures Unfinished(run + [e]) == Unfinished(run) + (if e.DeadLetter? && !e.fate.acked then 1 else 0)
  {
    if run == [] {
      assert run + [e] == [e] && [e][1..] == [];
    } else {
      assert (run + [e])[0] == run[0] && (run + [e])[1..] == run[1..] + [e];
      CountsMore(run[1..], e);
    }
  }

  lemma {:induction false} ReclaimsCount(s: State, ids: seq<nat>)
    requires Legal(s, Reclaims(ids))
    ensures Advanced(s, Reclaims(ids)) == |ids| && Appended(Reclaims(ids)) == 0
  {
    if ids != [] {
      var front, e := ids[..|ids| - 1], Reclaim(ids[|ids| - 1]);
      LegalPrefix(s, Reclaims(front), e);
      ReclaimsCount(s, front);
      AdvancedMore(s, Reclaims(front), e);
      CountsMore(Reclaims(front), e);
    }
  }

  lemma {:induction false} LegalPrefix(s: State, run: seq<Event>, e: Event)
    requires Legal(s, run + [e])
    ensures Legal(s, run) && Enabled(After(s, run), e)
    decreases |run|
  {
    if run == [] {
      assert (run + [e])[0] == e;
    } else {
      assert (run + [e])[0] == run[0] && (run + [e])[1..] == run[1..] + [e];
      LegalPrefix(Step(s, run[0]), run[1..], e);
    }
  }

  lemma {:induction false} TriesAppendNothing(log: seq<Message>, ids: seq<nat>, tries: seq<Try>)
    requires AllTried(log, ids, tries)
    ensures Appended(Events(tries)) == 0
  {
    if tries != [] {
      var n := |tries| - 1;
      TriesAppendNothing(log, ids[..n], tries[..n]);
      assert TriedOnce(log, ids[n], tries[n]);
      CountsMore(Events(tries[..n]), tries[n].event);
    }
  }

  // A dead-lettering that was not acked had a command fail.
  lemma UnackedBurial(m: Message, e: Event)
    requires e.DeadLetter? && FateFits(m, e.fate) && !e.fate.acked
    ensures !AllAnswered(DeadScript(m, e))
  {
    var script := DeadScript(m, e);
    match e.fate
    case RereadFailed(_) => assert !Answered(script[1]);
    case Moved(n, appended, _) =>
      var hook := if m.Parsed? then HookScript(m.alert, n) else [];
      if HookDone(m, n) {
        var bury := BuryScript(m, e.id, e.fate);
        assert script == [RangeCmd(e.id, true)] + (hook + bury);
        assert script[1 + |hook|] == bury[0];
        assert appended ==> script[1 + |hook| + 1] == bury[1];
      } else {
        assert script == [RangeCmd(e.id, true)] + (hook + []);
        assert script[|hook|] == hook[|hook| - 1] && !Answered(hook[|hook| - 1]);
      }
  }

  lemma BothAnswered(a: seq<Command>, b: seq<Command>)
    ensures AllAnswered(a + b) <==> AllAnswered(a) && AllAnswered(b)
  {
    if AllAnswered(a + b) {
      assert forall k :: 0 <= k < |a| ==> (a + b)[k] == a[k];
      assert forall k :: 0 <= k < |b| ==> (a + b)[|a| + k] == b[k];
    }
  }

  lemma {:induction false} AnsweredBurials(log: seq<Message>, ids: seq<nat>, burials: seq<Event>)
    requires AllBuried(log, ids, burials) && AllAnswered(DeadScripts(log, ids, burials))
    ensures Unfinished(burials) == 0
  {
    if ids != [] {
      var n := |ids| - 1;
      var front, e := burials[..n], burials[n];
      assert burials == front + [e] && BuriedOnce(log, ids[n], e);
      BothAnswered(DeadScripts(log, ids[..n], front), DeadScript(log[ids[n]], e));
      AnsweredBurials(log, ids[..n], front);
      if !e.fate.acked {
        UnackedBurial(log[ids[n]], e);
      }
      CountsMore(front, e);
    }
  }

  /** When every release, append and ack of a pass was answered and the take-over gave all it was asked
      for, the pass left nothing of what it found where it was. */
  lemma AnsweredPass(log: seq<Message>, consumer: string, p: Pass)
    requires PassFits(log, p) && AllAnswered(PassScript(log, consumer, p))
    ensures Unfinished(p.burials) == 0 && |RetryIds(p.limit, p.listed)| <= |p.claimed|
  {
    var a := DeadScripts(log, SpentIds(p.limit, p.listed), p.burials);
    var b := RetryScript(log, consumer, RetryIds(p.limit, p.listed), p.claimed, p.tries);
    BothAnswered(a, b);
    AnsweredBurials(log, SpentIds(p.limit, p.listed), p.burials);
    if RetryIds(p.limit, p.listed) != [] {
      assert Answered(b[0]);
    }
  }

  // A notification worker.
  class Consumer {
    const backend: Backend
    const name: string

    constructor (b: Backend, n: string)
      ensures backend == b && name == n
    {
      backend, name := b, n;
    }

    // The delivery channel; its answer is out of our hands.
    method Notify(recipient: int, text: string) returns (r: NotifyResult)
      modifies backend`sent
      ensures backend.sent == old(backend.sent) + [NotifyCmd(recipient, text, r)]
      ensures backend.Abs() == old(backend.Abs())
    {
      r := *;
      backend.sent := backend.sent + [NotifyCmd(recipient, text, r)];
    }

    // The dead-letter hook: releases the alert's claims one by one and stops at the first failure.
    method ReleaseDedupClaims(a: Alert) returns (ok: bool, ghost n: nat)
      modifies backend`claims, backend`sent
      ensures n <= |a.tokens| && (ok <==> n == |a.tokens|)
      ensures backend.sent == old(backend.sent) + HookScript(a, n)
      ensures backend.claims == old(backend.claims) - ClaimsOfTokens(a, a.tokens[..n])
    {
      n := 0;
      for i := 0 to |a.tokens|
        invariant n == i
        invariant backend.sent == old(backend.sent) + Deletes(a, i)
        invariant backend.claims == old(backend.claims) - ClaimsOfTokens(a, a.tokens[..i])
      {
        assert a.tokens[..i + 1] == a.tokens[..i] + [a.tokens[i]];
        var done := backend.DeleteClaim(Claim(a.tokens[i], a.chat, a.search));
        if !done {
          return false, n;
        }
        n := i + 1;
      }
      ok := true;
    }

    // Notify first, then clean up or ack according to the answer.
    method ProcessMessage(id: nat) returns (ghost e: Event, ghost r: NotifyResult)
      requires Bookkeeping(backend.Abs()) && id in backend.hands && id < |backend.log|
      modifies backend
      ensures backend.log == old(backend.log)
      ensures e == Forget(id) || (e.Process? && e.id == id)
      ensures Enabled(old(backend.Abs()), e) && backend.Abs() == Step(old(backend.Abs()), e)
      ensures backend.sent == old(backend.sent) + ProcessScript(backend.log[id], e, r)
      ensures e.Process? && !e.outcome.Unparsed? ==> AnswerFits(r, e.outcome)
      ensures e.Forget? ==> backend.claims == old(backend.claims) && backend.pending == old(backend.pending)
                            && backend.sent == old(backend.sent)
      ensures r == OtherError && backend.log[id].Parsed? && backend.sent != old(backend.sent) ==>
                && backend.claims == old(backend.claims) && backend.pending == old(backend.pending)
                && backend.sent == old(backend.sent) + [NotifyCmd(backend.log[id].alert.chat, backend.log[id].alert.text, OtherError)]
      ensures e.Process? && backend.log[id].Parsed? ==>
                var a := backend.log[id].alert;
                Concluded(id, a, r, old(backend.claims), old(backend.pending), backend.claims, backend.pending,
                          old(backend.sent) + [NotifyCmd(a.chat, a.text, r)], backend.sent)
    {
      var m := backend.log[id];
      LetGo(id);
      if m.Garbled? {
        var acked := backend.XAck(id);
        return Process(id, Unparsed(acked)), OtherError;
      }
      var cancelled: bool := *;
      if cancelled {
        return Forget(id), OtherError;
      }
      var answer := Notify(m.alert.chat, m.alert.text);
      r := answer;
      e := Conclude(id, m.alert, answer);
      Regroup(old(backend.sent), [NotifyCmd(m.alert.chat, m.alert.text, r)], ConcludeScript(m.alert, e));
    }

    ghost method LetGo(id: nat)
      modifies backend`hands
      ensures backend.Abs() == old(backend.Abs()).(hands := old(backend.hands) - multiset{id})
    {
      backend.hands := backend.hands - multiset{id};
    }

    method Conclude(id: nat, a: Alert, r: NotifyResult) returns (ghost e: Event)
      modifies backend`claims, backend`pending, backend`sent
      ensures e.Process? && e.id == id && OutcomeFits(Parsed(a), e.outcome) && AnswerFits(r, e.outcome)
      ensures Concluded(id, a, r, old(backend.claims), old(backend.pending), backend.claims, backend.pending,
                        old(backend.sent), backend.sent)
      ensures backend.Abs() == old(backend.Abs()).(
                claims := old(backend.claims) - OutcomeReleased(Parsed(a), e.outcome),
                pending := Ack(old(backend.Abs()).pending, id, OutcomeAcked(e.outcome)))
      ensures backend.sent == old(backend.sent) + ConcludeScript(a, e)
    {
      match r
      case Delivered =>
        var acked := backend.XAck(id);
        e := Process(id, Sent(acked));
      case NoChannel =>
        e := Drop(id, a);
      case Blocked =>
        e := Drop(id, a);
      case NoDelivery =>
        var acked := backend.XAck(id);
        e := Process(id, NoTarget(acked));
      case OtherError =>
        e := Process(id, Retry);
    }

    // A recipient who can never be reached: clean up, then ack.
    method Drop(id: nat, a: Alert) returns (ghost e: Event)
      modifies backend`claims, backend`pending, backend`sent
      ensures e.Process? && e.outcome.Undeliverable? && e.id == id && OutcomeFits(Parsed(a), e.outcome)
      ensures backend.sent == old(backend.sent) + DropScript(a, e)
      ensures backend.pending == old(backend.pending)
              || (backend.pending == old(backend.pending) - {id} && backend.claims == old(backend.claims) - ClaimsOf(Parsed(a)))
      ensures backend.Abs() == old(backend.Abs()).(
                claims := old(backend.claims) - OutcomeReleased(Parsed(a), e.outcome),
                pending := Ack(old(backend.Abs()).pending, id, OutcomeAcked(e.outcome)))
    {
      var ok, n := ReleaseDedupClaims(a);
      if !ok {
        return Process(id, Undeliverable(n, false));
      }
      assert a.tokens[..n] == a.tokens;
      var acked := backend.XAck(id);
      e := Process(id, Undeliverable(n, acked));
    }

    // An entry that was listed at the limit, and that another consumer may have settled since; or one in hand.
    method DeadLetterEntry(id: nat) returns (ghost e: Event)
      requires Bookkeeping(backend.Abs()) && (id in backend.spent || id in backend.hands)
      modifies backend`pending, backend`claims, backend`dead, backend`sent
      ensures e.DeadLetter? && e.id == id
      ensures Enabled(old(backend.Abs()), e) && backend.Abs() == Step(old(backend.Abs()), e)
      ensures backend.sent == old(backend.sent) + DeadScript(backend.log[id], e)
    {
      ghost var s := backend.Abs();
      var msg := backend.XRange(id);
      if msg.None? {
        e := AckUnread(id);
        RereadIsStep(s, id, e.fate.acked);
      } else {
        e := MoveToDead(id, msg.value);
        MovingIsStep(s, id, e.fate);
        Regroup(old(backend.sent), [RangeCmd(id, true)], MoveScript(msg.value, e));
      }
    }

    method AckUnread(id: nat) returns (ghost e: Event)
      modifies backend`pending, backend`sent
      ensures e.DeadLetter? && e.id == id && e.fate == RereadFailed(e.fate.acked)
      ensures backend.Abs() == old(backend.Abs()).(pending := Ack(old(backend.Abs()).pending, id, e.fate.acked))
      ensures backend.sent == old(backend.sent) + [AckCmd(id, e.fate.acked)]
    {
      var acked := backend.XAck(id);
      e := DeadLetter(id, RereadFailed(acked));
    }

    method MoveToDead(id: nat, m: Message) returns (ghost e: Event)
      modifies backend`pending, backend`claims, backend`dead, backend`sent
      ensures e.DeadLetter? && e.id == id && e.fate.Moved? && FateFits(m, e.fate)
      ensures backend.Abs() == old(backend.Abs()).(
                claims := old(backend.claims) - Released(m, e.fate.released),
                dead := if e.fate.appended then old(backend.dead) + [m] else old(backend.dead),
                pending := Ack(old(backend.Abs()).pending, id, e.fate.acked))
      ensures backend.sent == old(backend.sent) + MoveScript(m, e)
    {
      var ok, n := RunHook(m);
      if !ok {
        return DeadLetter(id, Moved(n, false, false));
      }
      ghost var appended, acked := Bury(id, m);
      e := DeadLetter(id, Moved(n, appended, acked));
    }

    // The hook runs only on a message that parses.
    method RunHook(m: Message) returns (ok: bool, ghost n: nat)
      modifies backend`claims, backend`sent
      ensures HookFits(m, n) && (ok <==> HookDone(m, n))
      ensures backend.Abs() == old(backend.Abs()).(claims := old(backend.claims) - Released(m, n))
      ensures backend.sent == old(backend.sent) + if m.Parsed? then HookScript(m.alert, n) else []
    {
      if m.Garbled? {
        return true, 0;
      }
      ok, n := ReleaseDedupClaims(m.alert);
    }

    // The append and the ack after a finished hook.
    method Bury(id: nat, m: Message) returns (ghost appended: bool, ghost acked: bool)
      modifies backend`dead, backend`pending, backend`sent
      ensures acked ==> appended
      ensures backend.sent == old(backend.sent) + [AddDeadCmd(m, appended)] + if appended then [AckCmd(id, acked)] else []
      ensures backend.Abs() == old(backend.Abs()).(
                dead := if appended then old(backend.dead) + [m] else old(backend.dead),
                pending := Ack(old(backend.Abs()).pending, id, acked))
    {
      acked := false;
      var ok := backend.XAddDead(m);
      appended := ok;
      if ok {
        var done := backend.XAck(id);
        acked := done;
      }
    }

    // DeadLetterEntry, appended to the run performed so far.
    method DeadLetterNext(id: nat, ghost s0: State, ghost before: seq<Event>) returns (ghost e: Event)
      requires Bookkeeping(s0) && Performs(s0, before, backend.Abs())
      requires CountIs(backend.Abs(), id, backend.limit)
      modifies backend`pending, backend`claims, backend`dead, backend`sent
      ensures BuriedOnce(backend.log, id, e)
      ensures Performs(s0, before + [e], backend.Abs()) && Bookkeeping(backend.Abs())
      ensures AlwaysExclusive(s0, before) && id !in old(backend.hands) ==> AlwaysExclusive(s0, before + [e])
      ensures Advanced(s0, before + [e]) == Advanced(s0, before) + if e.fate.acked then 1 else 0
      ensures backend.sent == old(backend.sent) + DeadScript(backend.log[id], e)
      ensures OthersStay(old(backend.Abs()), backend.Abs(), id)
    {
      BookkeepingAlways(s0, before);
      ghost var s := backend.Abs();
      e := DeadLetterEntry(id);
      PerformsMore(s0, before, s, e);
      AdvancedMore(s0, before, e);
      BookkeepingAlways(s0, before + [e]);
    }

    // ProcessMessage, appended to the run performed so far.
    method ProcessNext(id: nat, ghost s0: State, ghost before: seq<Event>) returns (ghost t: Try)
      requires Bookkeeping(s0) && Performs(s0, before, backend.Abs())
      requires id in backend.hands && id < |backend.log|
      modifies backend
      ensures backend.log == old(backend.log) && backend.next == old(backend.next) && TriedOnce(backend.log, id, t)
      ensures Performs(s0, before + [t.event], backend.Abs()) && Bookkeeping(backend.Abs())
      ensures AlwaysExclusive(s0, before) ==> AlwaysExclusive(s0, before + [t.event])
      ensures backend.sent == old(backend.sent) + TryScript(backend.log, id, t)
      ensures backend.hands == old(backend.hands) - multiset{id}
      ensures OthersStay(old(backend.Abs()), backend.Abs(), id)
    {
      BookkeepingAlways(s0, before);
      ghost var s := backend.Abs();
      ghost var e, r := ProcessMessage(id);
      PerformsMore(s0, before, s, e);
      t := Try(e, r);
      BookkeepingAlways(s0, before + [e]);
    }

    // Processes the messages in order, one after the other.
    method ProcessAll(ids: seq<nat>, ghost s0: State, ghost before: seq<Event>) returns (ghost tries: seq<Try>)
      requires Bookkeeping(s0) && Performs(s0, before, backend.Abs())
      requires forall k :: 0 <= k < |ids| ==> ids[k] < |backend.log|
      requires multiset(ids) <= backend.hands
      modifies backend
      ensures backend.log == old(backend.log) && backend.next == old(backend.next)
      ensures AllTried(backend.log, ids, tries)
      ensures Goes(s0, before, before + Events(tries), backend.Abs())
      ensures backend.sent == old(backend.sent) + TryScripts(backend.log, ids, tries)
      ensures backend.hands == old(backend.hands) - multiset(ids)
    {
      tries := [];
      ghost var rest := old(backend.hands) - multiset(ids);
      assert ids[0..] == ids && before + [] == before;
      for i := 0 to |ids|
        invariant backend.log == old(backend.log) && backend.next == old(backend.next)
        invariant TriedSoFar(backend.log, ids[..i], tries, s0, before, backend.Abs(), old(backend.sent), backend.sent)
        invariant backend.hands == rest + multiset(ids[i..])
      {
        TakeOut(rest, ids, i);
        tries := TryNext(ids, i, tries, s0, before, old(backend.sent));
      }
      assert ids[..|ids|] == ids;
    }

    // ProcessNext, added to the tries so far.
    method TryNext(ids: seq<nat>, i: nat, ghost done: seq<Try>, ghost s0: State, ghost before: seq<Event>,
                   ghost sent0: seq<Command>)
      returns (ghost tries: seq<Try>)
      requires i < |ids| && Bookkeeping(s0) && ids[i] in backend.hands && ids[i] < |backend.log|
      requires TriedSoFar(backend.log, ids[..i], done, s0, before, backend.Abs(), sent0, backend.sent)
      modifies backend
      ensures backend.log == old(backend.log) && backend.next == old(backend.next)
      ensures TriedSoFar(backend.log, ids[..i + 1], tries, s0, before, backend.Abs(), sent0, backend.sent)
      ensures backend.hands == old(backend.hands) - multiset{ids[i]}
    {
      ghost var s, sent := backend.Abs(), backend.sent;
      ghost var t := ProcessNext(ids[i], s0, before + Events(done));
      TriedMore(backend.log, ids, i, done, t, s0, before, s, backend.Abs(), sent0, sent);
      tries := done + [t];
    }

    /** One read of the main loop: takes the next entries, at most ten, and processes each. */
    method ReadBatch() returns (ghost ids: seq<nat>, ghost tries: seq<Try>)
      requires Bookkeeping(backend.Abs())
      modifies backend
      ensures |ids| <= 10 && backend.next == old(backend.next) + |ids| && Consecutive(ids, old(backend.next))
      ensures backend.log == old(backend.log) && AllTried(backend.log, ids, tries)
      ensures GoesApart(old(backend.Abs()), Reads(ids) + Events(tries), backend.Abs())
      ensures backend.sent == old(backend.sent) + [ReadCmd(name, 10, ids)] + TryScripts(backend.log, ids, tries)
      ensures Orderly(backend.log, [ReadCmd(name, 10, ids)] + TryScripts(backend.log, ids, tries))
      ensures backend.hands == old(backend.hands)
    {
      ghost var s0 := backend.Abs();
      var taken := backend.XReadGroup(name, 10);
      ids := taken;
      tries := ProcessAll(taken, s0, Reads(taken));
      ReadingOrderly(backend.log, name, taken, tries);
    }

    /** Retries this consumer's own idle entries and dead-letters those at the limit. */
    method ReclaimPending() returns (ghost p: Pass)
      requires Bookkeeping(backend.Abs())
      modifies backend
      ensures p.limit == backend.limit && |p.listed| <= 50 && IsListing(old(backend.pending), p.listed)
      ensures forall k :: 0 <= k < |p.listed| ==> p.listed[k].owner == name
      ensures backend.log == old(backend.log) && PassFits(backend.log, p)
      ensures GoesApart(old(backend.Abs()), PassRun(p), backend.Abs()) && Bookkeeping(backend.Abs())
      ensures backend.sent == old(backend.sent) + [ListCmd(name, true, 50, p.listed)] + PassScript(backend.log, name, p)
      ensures Orderly(backend.log, PassScript(backend.log, name, p))
      ensures backend.hands == old(backend.hands)
      ensures Work(backend.Abs()) + |p.listed|
              <= Work(old(backend.Abs())) + Unfinished(p.burials) + (|RetryIds(p.limit, p.listed)| - |p.claimed|)
      ensures AllAnswered(PassScript(backend.log, name, p)) ==>
                Work(backend.Abs()) + |p.listed| <= Work(old(backend.Abs()))
    {
      var listed := backend.XPending(name, true, 50);
      p := Retake(listed);
    }

    /** The same for entries that sit with other consumers, which may be gone. */
    method ReclaimOrphans() returns (ghost all: seq<Listed>, ghost p: Pass)
      requires Bookkeeping(backend.Abs())
      modifies backend
      ensures |all| <= 50 && IsListing(old(backend.pending), all) && p.listed == OthersOf(all, name)
      ensures p.limit == backend.limit
      ensures backend.log == old(backend.log) && PassFits(backend.log, p)
      ensures GoesApart(old(backend.Abs()), PassRun(p), backend.Abs()) && Bookkeeping(backend.Abs())
      ensures backend.sent == old(backend.sent) + [ListCmd(name, false, 50, all)] + PassScript(backend.log, name, p)
      ensures Orderly(backend.log, PassScript(backend.log, name, p))
      ensures backend.hands == old(backend.hands)
      ensures Work(backend.Abs()) + |p.listed|
              <= Work(old(backend.Abs())) + Unfinished(p.burials) + (|RetryIds(p.limit, p.listed)| - |p.claimed|)
      ensures AllAnswered(PassScript(backend.log, name, p)) ==>
                Work(backend.Abs()) + |p.listed| <= Work(old(backend.Abs()))
    {
      var found := backend.XPending(name, false, 50);
      all := found;
      var listed: seq<Listed> := [];
      for i := 0 to |found|
        invariant listed == OthersOf(found[..i], name)
      {
        assert found[..i + 1][..i] == found[..i];
        if found[i].owner != name {
          listed := listed + [found[i]];
        }
      }
      assert found[..|found|] == found;
      OthersListed(backend.pending, found, name);
      p := Retake(listed);
    }

    /** The body both reclaim passes share. Every listed entry moves forward, except the dead-letterings
        that stayed unfinished and the entries the take-over did not give. */
    method Retake(listed: seq<Listed>) returns (ghost p: Pass)
      requires Bookkeeping(backend.Abs()) && IsListing(backend.pending, listed)
      modifies backend
      ensures backend.log == old(backend.log) && p.limit == backend.limit && p.listed == listed && PassFits(backend.log, p)
      ensures GoesApart(old(backend.Abs()), PassRun(p), backend.Abs()) && Bookkeeping(backend.Abs())
      ensures backend.sent == old(backend.sent) + PassScript(backend.log, name, p)
      ensures Orderly(backend.log, PassScript(backend.log, name, p))
      ensures backend.hands == old(backend.hands)
      ensures Work(backend.Abs()) + |listed|
              <= Work(old(backend.Abs())) + Unfinished(p.burials) + (|RetryIds(backend.limit, listed)| - |p.claimed|)
      ensures AllAnswered(PassScript(backend.log, name, p)) ==>
                Work(backend.Abs()) + |listed| <= Work(old(backend.Abs()))
    {
      ghost var s0 := backend.Abs();
      var retry;
      ghost var burials, claimed, tries;
      retry, burials := BurySpent(listed);
      ghost var s1 := backend.Abs();
      claimed, tries := RetryEntries(retry);
      p := Pass(backend.limit, listed, burials, claimed, tries);
      Regroup(old(backend.sent), DeadScripts(backend.log, SpentIds(backend.limit, listed), burials),
              RetryScript(backend.log, name, retry, claimed, tries));
      PassDone(s0, s1, backend.Abs(), backend.log, name, p);
      PassOrderly(backend.log, name, p);
    }

    // Takes the entries over and processes those given.
    method RetryEntries(retry: seq<nat>) returns (ghost claimed: seq<nat>, ghost tries: seq<Try>)
      requires Bookkeeping(backend.Abs()) && BelowFrom(backend.Abs(), retry, 0) && Distinct(retry)
      modifies backend
      ensures Distinct(claimed) && forall k :: 0 <= k < |claimed| ==> claimed[k] in retry
      ensures backend.log == old(backend.log) && AllTried(backend.log, claimed, tries)
      ensures Legal(old(backend.Abs()), Reclaims(claimed))
      ensures GoesApart(old(backend.Abs()), Reclaims(claimed) + Events(tries), backend.Abs())
      ensures backend.sent == old(backend.sent) + RetryScript(backend.log, name, retry, claimed, tries)
      ensures backend.hands == old(backend.hands)
    {
      ghost var s := backend.Abs();
      if |retry| == 0 {
        return [], [];
      }
      var given := backend.XClaim(name, retry);
      claimed := given;
      tries := ProcessAll(given, s, Reclaims(given));
      Regroup(old(backend.sent), [ClaimCmd(name, retry, given)], TryScripts(backend.log, given, tries));
    }

    // Dead-letters the listed entries at the limit and returns the others.
    method BurySpent(listed: seq<Listed>) returns (retry: seq<nat>, ghost burials: seq<Event>)
      requires Bookkeeping(backend.Abs()) && CountsFrom(backend.Abs(), listed, 0) && ListedOnce(listed)
      modifies backend`pending, backend`claims, backend`dead, backend`sent
      ensures retry == RetryIds(backend.limit, listed) && Distinct(retry) && BelowFrom(backend.Abs(), retry, 0)
      ensures AllBuried(backend.log, SpentIds(backend.limit, listed), burials)
      ensures GoesApart(old(backend.Abs()), burials, backend.Abs()) && Bookkeeping(backend.Abs())
      ensures Advanced(old(backend.Abs()), burials) + Unfinished(burials) == |burials|
      ensures backend.sent == old(backend.sent) + DeadScripts(backend.log, SpentIds(backend.limit, listed), burials)
    {
      ghost var s0 := backend.Abs();
      burials := [];
      retry := [];
      for i := 0 to |listed|
        invariant Bookkeeping(backend.Abs()) && retry == RetryIds(backend.limit, listed[..i]) && backend.hands == s0.hands
        invariant CountsFrom(backend.Abs(), listed, i) && BelowFrom(backend.Abs(), retry, 0)
        invariant BuriedSoFar(backend.log, SpentIds(backend.limit, listed[..i]), burials, s0, backend.Abs(), old(backend.sent), backend.sent)
      {
        retry, burials := KeepOrBury(listed, i, retry, s0, burials, old(backend.sent));
      }
      assert listed[..|listed|] == listed;
      RetryIdsFrom(backend.limit, listed, |listed|);
    }

    // The loop's body: an entry below the limit is kept, one at it dead-lettered.
    method KeepOrBury(listed: seq<Listed>, i: nat, kept: seq<nat>, ghost s0: State, ghost before: seq<Event>,
                      ghost sent0: seq<Command>)
      returns (retry: seq<nat>, ghost burials: seq<Event>)
      requires i < |listed| && ListedOnce(listed) && Bookkeeping(s0) && Bookkeeping(backend.Abs())
      requires kept == RetryIds(backend.limit, listed[..i]) && backend.hands == s0.hands
      requires CountsFrom(backend.Abs(), listed, i) && BelowFrom(backend.Abs(), kept, 0)
      requires BuriedSoFar(backend.log, SpentIds(backend.limit, listed[..i]), before, s0, backend.Abs(), sent0, backend.sent)
      modifies backend`pending, backend`claims, backend`dead, backend`sent
      ensures Bookkeeping(backend.Abs()) && retry == RetryIds(backend.limit, listed[..i + 1])
      ensures CountsFrom(backend.Abs(), listed, i + 1) && BelowFrom(backend.Abs(), retry, 0)
      ensures BuriedSoFar(backend.log, SpentIds(backend.limit, listed[..i + 1]), burials, s0, backend.Abs(), sent0, backend.sent)
    {
      NextListed(backend.limit, listed, i);
      assert CountIs(backend.Abs(), listed[i].id, listed[i].count);
      if listed[i].count < backend.limit {
        retry, burials := kept + [listed[i].id], before;
        assert Below(backend.Abs(), listed[i].id);
      } else {
        retry := kept;
        burials := BuryNext(listed, i, kept, s0, before, sent0);
      }
    }

    // DeadLetterNext for a listed entry, added to the burials so far.
    method BuryNext(listed: seq<Listed>, i: nat, kept: seq<nat>, ghost s0: State, ghost before: seq<Event>,
                    ghost sent0: seq<Command>)
      returns (ghost burials: seq<Event>)
      requires i < |listed| && ListedOnce(listed) && CountIs(backend.Abs(), listed[i].id, backend.limit)
      requires Bookkeeping(s0) && kept == RetryIds(backend.limit, listed[..i]) && backend.hands == s0.hands
      requires CountsFrom(backend.Abs(), listed, i) && BelowFrom(backend.Abs(), kept, 0)
      requires BuriedSoFar(backend.log, SpentIds(backend.limit, listed[..i]), before, s0, backend.Abs(), sent0, backend.sent)
      modifies backend`pending, backend`claims, backend`dead, backend`sent
      ensures Bookkeeping(backend.Abs())
      ensures CountsFrom(backend.Abs(), listed, i + 1) && BelowFrom(backend.Abs(), kept, 0)
      ensures BuriedSoFar(backend.log, SpentIds(backend.limit, listed[..i]) + [listed[i].id], burials, s0, backend.Abs(), sent0, backend.sent)
    {
      ghost var s, sent := backend.Abs(), backend.sent;
      RetryIdsFrom(backend.limit, listed, i);
      ghost var e := DeadLetterNext(listed[i].id, s0, before);
      OthersUntouched(s, backend.Abs(), listed, i, kept);
      BuriedMore(backend.log, SpentIds(backend.limit, listed[..i]), listed[i].id, before, e, s0, s, backend.Abs(), sent0, sent);
      burials := before + [e];
    }

    /** Before shutdown: each entry this consumer still owns is dead-lettered at the limit, else read
        again and tried once more. */
    method Drain() returns (ghost listed: seq<Listed>, ghost steps: seq<DrainStep>)
      requires Bookkeeping(backend.Abs())
      modifies backend
      ensures |listed| <= 100 && IsListing(old(backend.pending), listed)
      ensures forall k :: 0 <= k < |listed| ==> listed[k].owner == name
      ensures backend.log == old(backend.log) && AllDrained(backend.limit, backend.log, listed, steps)
      ensures GoesApart(old(backend.Abs()), DrainRun(steps), backend.Abs()) && Bookkeeping(backend.Abs())
      ensures backend.sent
              == old(backend.sent) + [ListCmd(name, true, 100, listed)] + DrainScript(backend.limit, backend.log, listed, steps)
      ensures Orderly(backend.log, DrainScript(backend.limit, backend.log, listed, steps))
      ensures backend.hands == old(backend.hands)
    {
      var found := backend.XPending(name, true, 100);
      listed, steps := found, [];
      ghost var s0, sent0 := backend.Abs(), backend.sent;
      for i := 0 to |found|
        invariant backend.log == old(backend.log) && backend.hands == old(backend.hands) && Bookkeeping(backend.Abs())
        invariant CountsFrom(backend.Abs(), found, i)
        invariant DrainedSoFar(backend.limit, backend.log, found[..i], steps, s0, backend.Abs(), sent0, backend.sent)
      {
        ghost var s, sent := backend.Abs(), backend.sent;
        assert CountIs(s, found[i].id, found[i].count);
        ghost var d := DrainNext(found[i], s0, DrainRun(steps));
        OthersUntouched(s, backend.Abs(), found, i, []);
        DrainedMore(backend.limit, backend.log, found, i, steps, d, s0, s, backend.Abs(), sent0, sent);
        steps := steps + [d];
      }
      assert found[..|found|] == found;
      DrainOrderly(backend.limit, backend.log, found, steps);
    }

    method DrainNext(l: Listed, ghost s0: State, ghost before: seq<Event>) returns (ghost d: DrainStep)
      requires Bookkeeping(s0) && Performs(s0, before, backend.Abs()) && Bookkeeping(backend.Abs())
      requires CountIs(backend.Abs(), l.id, l.count)
      modifies backend
      ensures backend.log == old(backend.log) && StepFits(backend.limit, backend.log, l, d)
      ensures Performs(s0, before + StepRun(d), backend.Abs()) && Bookkeeping(backend.Abs())
      ensures AlwaysExclusive(s0, before) && l.id !in old(backend.hands) ==> AlwaysExclusive(s0, before + StepRun(d))
      ensures backend.sent == old(backend.sent) + StepScript(backend.limit, backend.log, l, d)
      ensures backend.hands == old(backend.hands)
      ensures OthersStay(old(backend.Abs()), backend.Abs(), l.id)
    {
      if l.count >= backend.limit {
        ghost var e := DeadLetterNext(l.id, s0, before);
        d := Buried(e);
      } else {
        d := ReadAgain(l.id, s0, before);
      }
    }

    // Reads an entry again and, if that works, tries it once.
    method ReadAgain(id: nat, ghost s0: State, ghost before: seq<Event>) returns (ghost d: DrainStep)
      requires Bookkeeping(s0) && Performs(s0, before, backend.Abs()) && Bookkeeping(backend.Abs())
      requires id in backend.pending
      modifies backend
      ensures backend.log == old(backend.log) && id < |backend.log|
      ensures d == Unreadable(id) || (d.Tried? && d.id == id && TriedOnce(backend.log, id, d.try))
      ensures Performs(s0, before + StepRun(d), backend.Abs()) && Bookkeeping(backend.Abs())
      ensures AlwaysExclusive(s0, before) && id !in old(backend.hands) ==> AlwaysExclusive(s0, before + StepRun(d))
      ensures backend.sent == old(backend.sent)
                + if d.Tried? then [RangeCmd(id, true)] + TryScript(backend.log, id, d.try) else [RangeCmd(id, false)]
      ensures backend.hands == old(backend.hands)
      ensures OthersStay(old(backend.Abs()), backend.Abs(), id)
    {
      assert id in backend.Abs().pending;
      var msg := backend.XRange(id);
      if msg.None? {
        d := Unreadable(id);
        assert before + [] == before;
      } else {
        d := TryDrained(id, s0, before);
        Regroup(old(backend.sent), [RangeCmd(id, true)], TryScript(backend.log, id, d.try));
      }
    }

    // Processes an entry read again.
    method TryDrained(id: nat, ghost s0: State, ghost before: seq<Event>) returns (ghost d: DrainStep)
      requires Bookkeeping(s0) && Performs(s0, before, backend.Abs()) && Bookkeeping(backend.Abs())
      requires id in backend.pending
      modifies backend
      ensures backend.log == old(backend.log) && d.Tried? && d.id == id && TriedOnce(backend.log, id, d.try)
      ensures Performs(s0, before + StepRun(d), backend.Abs()) && Bookkeeping(backend.Abs())
      ensures AlwaysExclusive(s0, before) && id !in old(backend.hands) ==> AlwaysExclusive(s0, before + StepRun(d))
      ensures backend.sent == old(backend.sent) + TryScript(backend.log, id, d.try)
      ensures backend.hands == old(backend.hands)
      ensures OthersStay(old(backend.Abs()), backend.Abs(), id)
    {
      ghost var s := backend.Abs();
      assert id in s.pending;
      TakeForDrain(id);
      PerformsMore(s0, before, s, DrainTake(id));
      ghost var t := ProcessNext(id, s0, before + [DrainTake(id)]);
      Regroup(before, [DrainTake(id)], [t.event]);
      d := Tried(id, t);
    }

    ghost method TakeForDrain(id: nat)
      requires id < backend.next
      modifies backend`hands
      ensures Enabled(old(backend.Abs()), DrainTake(id)) && backend.Abs() == Step(old(backend.Abs()), DrainTake(id))
      ensures backend.hands == old(backend.hands) + multiset{id}
    {
      backend.hands := backend.hands + multiset{id};
    }
  }

  lemma ReadIsStep(s: State)
    requires Bookkeeping(s) && s.next < |s.log|
    ensures Enabled(s, Read(s.next)) && Bookkeeping(Step(s, Read(s.next)))
    ensures Step(s, Read(s.next)) ==
            s.(next := s.next + 1, pending := s.pending[s.next := 1], hands := s.hands + multiset{s.next},
               spent := if 1 < s.limit then s.spent else s.spent + {s.next})
  {
    BookkeepingStep(s, Read(s.next));
  }

  lemma ReclaimIsStep(s: State, id: nat)
    requires Bookkeeping(s) && id in s.pending && s.pending[id] < s.limit
    ensures Enabled(s, Reclaim(id)) && Bookkeeping(Step(s, Reclaim(id)))
    ensures Step(s, Reclaim(id)) ==
            s.(pending := s.pending[id := s.pending[id] + 1], hands := s.hands + multiset{id},
               spent := if s.pending[id] + 1 < s.limit then s.spent else s.spent + {id})
  {
    BookkeepingStep(s, Reclaim(id));
  }

  lemma RereadIsStep(s: State, id: nat, acked: bool)
    requires Bookkeeping(s) && (id in s.spent || id in s.hands)
    ensures Enabled(s, DeadLetter(id, RereadFailed(acked)))
    ensures Step(s, DeadLetter(id, RereadFailed(acked))) == s.(pending := Ack(s.pending, id, acked))
  {
  }

  lemma MovingIsStep(s: State, id: nat, f: DeadOutcome)
    requires Bookkeeping(s) && (id in s.spent || id in s.hands)
    requires f.Moved? && FateFits(s.log[id], f)
    ensures Enabled(s, DeadLetter(id, f))
    ensures Step(s, DeadLetter(id, f)) ==
            s.(claims := s.claims - Released(s.log[id], f.released),
               dead := if f.appended then s.dead + [s.log[id]] else s.dead,
               pending := Ack(s.pending, id, f.acked))
  {
  }

  lemma {:induction false} BurialsAppendNothing(log: seq<Message>, ids: seq<nat>, burials: seq<Event>)
    requires AllBuried(log, ids, burials)
    ensures Appended(burials) == 0
  {
    if burials != [] {
      assert BuriedOnce(log, ids[0], burials[0]);
      BurialsAppendNothing(log, ids[1..], burials[1..]);
    }
  }

  // The two halves of a pass, and the work they did.
  lemma PassDone(s0: State, s1: State, t: State, log: seq<Message>, consumer: string, p: Pass)
    requires Bookkeeping(s0) && Performs(s0, p.burials, s1) && Legal(s1, Reclaims(p.claimed))
    requires Performs(s1, Reclaims(p.claimed) + Events(p.tries), t)
    requires Advanced(s0, p.burials) + Unfinished(p.burials) == |p.burials| && PassFits(log, p)
    ensures Performs(s0, PassRun(p), t) && Bookkeeping(t)
    ensures AlwaysExclusive(s0, p.burials) && AlwaysExclusive(s1, Reclaims(p.claimed) + Events(p.tries)) ==>
              AlwaysExclusive(s0, PassRun(p))
    ensures Work(t) + |p.listed| <= Work(s0) + Unfinished(p.burials) + (|RetryIds(p.limit, p.listed)| - |p.claimed|)
    ensures AllAnswered(PassScript(log, consumer, p)) ==> Work(t) + |p.listed| <= Work(s0)
  {
    JoinRuns(s0, p.burials, s1, Reclaims(p.claimed) + Events(p.tries));
    PassCounts(s1, log, p);
    BurialsAppendNothing(log, SpentIds(p.limit, p.listed), p.burials);
    RetryOrSpent(p.limit, p.listed);
    WorkWithoutAppends(s0, PassRun(p));
    if AllAnswered(PassScript(log, consumer, p)) {
      AnsweredPass(log, consumer, p);
    }
  }

  lemma PassCounts(s: State, log: seq<Message>, p: Pass)
    requires Legal(s, Reclaims(p.claimed)) && Legal(s, Reclaims(p.claimed) + Events(p.tries)) && PassFits(log, p)
    ensures Advanced(s, Reclaims(p.claimed) + Events(p.tries)) >= |p.claimed|
    ensures Appended(Reclaims(p.claimed) + Events(p.tries)) == 0
  {
    ReclaimsCount(s, p.claimed);
    TriesAppendNothing(log, p.claimed, p.tries);
    LegalRest(s, Reclaims(p.claimed), Events(p.tries));
    JoinCounts(s, Reclaims(p.claimed), Events(p.tries));
  }

  lemma {:induction false} LegalRest(s: State, a: seq<Event>, b: seq<Event>)
    requires Legal(s, a) && Legal(s, a + b)
    ensures Legal(After(s, a), b)
    decreases |a|
  {
    if a == [] {
      assert a + b == b;
    } else {
      assert (a + b)[0] == a[0] && (a + b)[1..] == a[1..] + b;
      LegalRest(Step(s, a[0]), a[1..], b);
    }
  }

  lemma {:induction false} JoinCounts(s: State, a: seq<Event>, b: seq<Event>)
    requires Legal(s, a) && Legal(After(s, a), b)
    ensures Legal(s, a + b) && Advanced(s, a + b) == Advanced(s, a) + Advanced(After(s, a), b)
    ensures Appended(a + b) == Appended(a) + Appended(b)
    decreases |a|
  {
    RunsCompose(s, a, b);
    JoinAppended(a, b);
    if a == [] {
      assert a + b == b;
    } else {
      assert (a + b)[0] == a[0] && (a + b)[1..] == a[1..] + b;
      JoinCounts(Step(s, a[0]), a[1..], b);
    }
  }

  lemma {:induction false} JoinAppended(a: seq<Event>, b: seq<Event>)
    ensures Appended(a + b) == Appended(a) + Appended(b)
  {
    if a == [] {
      assert a + b == b;
    } else {
      assert (a + b)[0] == a[0] && (a + b)[1..] == a[1..] + b;
      JoinAppended(a[1..], b);
    }
  }

  lemma {:induction false} JoinExclusive(s: State, a: seq<Event>, t: State, b: seq<Event>)
    requires Performs(s, a, t) && Legal(t, b) && Legal(s, a + b)
    ensures AlwaysExclusive(s, a) && AlwaysExclusive(t, b) ==> AlwaysExclusive(s, a + b)
    decreases |a|
  {
    if a == [] {
      assert a + b == b;
    } else {
      assert (a + b)[0] == a[0] && (a + b)[1..] == a[1..] + b;
      JoinExclusive(Step(s, a[0]), a[1..], t, b);
    }
  }

  lemma JoinRuns(s: State, a: seq<Event>, t: State, b: seq<Event>)
    requires Performs(s, a, t) && Legal(t, b)
    ensures Performs(s, a + b, After(t, b))
    ensures AlwaysExclusive(s, a) && AlwaysExclusive(t, b) ==> AlwaysExclusive(s, a + b)
    ensures Advanced(s, a + b) == Advanced(s, a) + Advanced(t, b)
    ensures Appended(a + b) == Appended(a) + Appended(b)
  {
    RunsCompose(s, a, b);
    JoinExclusive(s, a, t, b);
    JoinCounts(s, a, b);
  }
}
