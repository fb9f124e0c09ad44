/**
  One push of matched listings through the ingest endpoint: claim what is new, publish one alert for
  the best of it, and give the claims back when publishing fails.
 */
module IngestDelivery {
  import opened AlertProtocol
  import opened AlertDelivery
  import opened Basics
  import opened ListingOrder
  import opened Wrappers

  const MAX_BATCH := 10

  datatype Search = Search(id: int, chat: int)

  datatype Delivery = Done(text: string) | Malformed(text: string) | Failed(text: string)

  // What sending a ready-made message came to.
  datatype RawResult = RawMalformed | RawAnswered(result: NotifyResult)

  // How a push went: what each claim query answered, the listings it claimed, the delivery if there
  // was one, and what each release answered.
  datatype Push = Push(answers: seq<Option<bool>>, newOnes: seq<Listing>, delivery: Option<Delivery>, releases: seq<bool>)

  function ClaimFor(sr: Search, l: Listing): Claim {
    Claim(l.token, sr.chat, sr.id)
  }

  function ClaimsFor(sr: Search, ls: seq<Listing>): set<Claim> {
    set l | l in ls :: ClaimFor(sr, l)
  }

  function Tokens(ls: seq<Listing>): (ts: seq<string>)
    ensures |ts| == |ls|
    ensures forall i :: 0 <= i < |ls| ==> ts[i] == ls[i].token
  {
    seq(|ls|, i requires 0 <= i < |ls| => ls[i].token)
  }

  function Top(ls: seq<Listing>): seq<Listing> {
    if |Sorted(ls)| > MAX_BATCH then Sorted(ls)[..MAX_BATCH] else Sorted(ls)
  }

  function AlertFor(sr: Search, ls: seq<Listing>, text: string): Alert {
    Alert(sr.chat, sr.id, Tokens(Top(ls)), text)
  }

  // The listings whose claim query answered "new".
  function Fresh(listings: seq<Listing>, answers: seq<Option<bool>>): seq<Listing>
    requires |answers| == |listings|
  {
    if listings == [] then []
    else
      var n := |listings| - 1;
      Fresh(listings[..n], answers[..n]) + if answers[n] == Some(true) then [listings[n]] else []
  }

  function Inserts(sr: Search, listings: seq<Listing>, answers: seq<Option<bool>>): seq<Command>
    requires |answers| == |listings|
  {
    if listings == [] then []
    else
      var n := |listings| - 1;
      Inserts(sr, listings[..n], answers[..n]) + [InsertCmd(ClaimFor(sr, listings[n]), answers[n])]
  }

  function Releases(sr: Search, ls: seq<Listing>, answers: seq<bool>): seq<Command>
    requires |answers| == |ls|
  {
    if ls == [] then []
    else
      var n := |ls| - 1;
      Releases(sr, ls[..n], answers[..n]) + [DeleteCmd(ClaimFor(sr, ls[n]), answers[n])]
  }

  // Without a publisher the notifier takes the listings themselves.
  function DeliverScript(direct: bool, sr: Search, ls: seq<Listing>, d: Delivery): seq<Command> {
    if direct then [NotifyBatchCmd(sr.chat, Tokens(Top(ls)), d.Done?)]
    else
      [RenderCmd(Tokens(Top(ls)), d.text, d.Malformed?)]
      + if d.Malformed? then [] else [AddCmd(Parsed(AlertFor(sr, ls, d.text)), d.Done?)]
  }

  function RawScript(direct: bool, sr: Search, text: string, r: RawResult): seq<Command> {
    [RenderCmd([], text, r.RawMalformed?)]
    + if r.RawMalformed? then []
      else if direct then [NotifyCmd(sr.chat, text, r.result)]
      else [AddCmd(Parsed(Alert(sr.chat, sr.id, [], text)), r.result.Delivered?)]
  }

  // The claims whose release was answered.
  function GivenBack(sr: Search, ls: seq<Listing>, answers: seq<bool>): set<Claim>
    requires |answers| == |ls|
  {
    set i | 0 <= i < |ls| && answers[i] :: ClaimFor(sr, ls[i])
  }

  // What one pusher may do: claim, publish and release what it owns, keep.
  predicate OwnEvent(s: State, e: Event, p: nat) {
    match e
    case ClaimNew(q, _) => q == p
    case Publish(q, a) => q == p && Backed(s, p, a)
    case Release(q, c) => q == p && c in Owned(s, p)
    case Keep(q) => q == p
    case _ => false
  }

  predicate PusherRun(s: State, run: seq<Event>, p: nat)
    requires Legal(s, run)
    decreases |run|
  {
    run == [] || (OwnEvent(s, run[0], p) && PusherRun(Step(s, run[0]), run[1..], p))
  }

  // The pusher performed the run, and kept to what it owns.
  ghost predicate Pushes(s: State, run: seq<Event>, t: State, p: nat) {
    Performs(s, run, t) && PusherRun(s, run, p)
  }

  lemma {:induction false} PusherRunsAreSafe(s: State, run: seq<Event>, p: nat)
    requires Legal(s, run) && PusherRun(s, run, p)
    ensures AlwaysExclusive(s, run) && Uninterrupted(run)
    decreases |run|
  {
    if run != [] {
      var rest := run[1..];
      PusherRunsAreSafe(Step(s, run[0]), rest, p);
      assert forall k :: 1 <= k < |run| ==> run[k] == rest[k - 1];
    }
  }

  lemma {:induction false} PushMore(s0: State, before: seq<Event>, s: State, more: seq<Event>, t: State, p: nat)
    requires Pushes(s0, before, s, p) && Pushes(s, more, t, p)
    ensures Pushes(s0, before + more, t, p)
    decreases |before|
  {
    RunsCompose(s0, before, more);
    if before == [] {
      assert before + more == more;
    } else {
      assert (before + more)[0] == before[0] && (before + more)[1..] == before[1..] + more;
      PushMore(Step(s0, before[0]), before[1..], s, more, t, p);
    }
  }

  lemma PushOne(s0: State, before: seq<Event>, s: State, e: Event, p: nat)
    requires Pushes(s0, before, s, p) && OwnEvent(s, e, p) && Enabled(s, e)
    ensures Pushes(s0, before + [e], Step(s, e), p)
  {
    RunOfOne(s, e);
    assert [e][1..] == [] && PusherRun(Step(s, e), [e][1..], p);
    PushMore(s0, before, s, [e], Step(s, e), p);
  }

  lemma {:induction false} InsertDistinct(x: Listing, s: seq<Listing>)
    requires Distinct(Tokens(s)) && forall k :: 0 <= k < |s| ==> s[k].token != x.token
    ensures Distinct(Tokens(Insert(x, s)))
  {
    if s == [] || !Better(s[0], x) {
      assert forall k :: 1 <= k <= |s| ==> Tokens([x] + s)[k] == Tokens(s)[k - 1];
    } else {
      var rest := s[1..];
      assert forall k :: 0 <= k < |rest| ==> Tokens(rest)[k] == Tokens(s)[k + 1];
      InsertDistinct(x, rest);
      InsertMembers(x, rest);
      FirstApart(s, Insert(x, rest), x);
    }
  }

  // The first listing's token is not among those of the others and x.
  lemma FirstApart(s: seq<Listing>, r: seq<Listing>, x: Listing)
    requires s != [] && Distinct(Tokens(s)) && s[0].token != x.token
    requires Distinct(Tokens(r)) && forall l :: l in r ==> l == x || l in s[1..]
    ensures Distinct(Tokens([s[0]] + r))
  {
    forall k | 0 <= k < |r| ensures r[k].token != s[0].token {
      assert r[k] in r;
      if r[k] != x {
        var m :| 0 <= m < |s[1..]| && s[1..][m] == r[k];
        assert Tokens(s)[m + 1] != Tokens(s)[0];
      }
    }
    assert forall k :: 1 <= k <= |r| ==> Tokens([s[0]] + r)[k] == Tokens(r)[k - 1];
  }

  // Sorting a batch keeps its tokens distinct and its listings the same.
  lemma {:induction false} SortedMembers(s: seq<Listing>)
    ensures |Sorted(s)| == |s|
    ensures forall l :: l in Sorted(s) <==> l in s
    ensures Distinct(Tokens(s)) ==> Distinct(Tokens(Sorted(s)))
  {
    if s != [] {
      var rest := s[1..];
      assert s == [s[0]] + rest;
      SortedMembers(rest);
      InsertMembers(s[0], Sorted(rest));
      if Distinct(Tokens(s)) {
        assert forall k :: 0 <= k < |rest| ==> Tokens(rest)[k] == Tokens(s)[k + 1];
        forall k | 0 <= k < |rest| ensures Sorted(rest)[k].token != s[0].token {
          assert Sorted(rest)[k] in Sorted(rest);
          var m :| 0 <= m < |rest| && rest[m] == Sorted(rest)[k];
          assert Tokens(s)[m + 1] != Tokens(s)[0];
        }
        InsertDistinct(s[0], Sorted(rest));
      }
    }
  }

  lemma SortedKeeps(sr: Search, s: seq<Listing>)
    ensures Distinct(Tokens(s)) ==> Distinct(Tokens(Sorted(s)))
    ensures ClaimsFor(sr, Sorted(s)) == ClaimsFor(sr, s)
    ensures |Sorted(s)| == |s|
  {
    SortedMembers(s);
  }

  lemma TopWithin(sr: Search, ls: seq<Listing>, text: string)
    requires Distinct(Tokens(ls))
    ensures Distinct(AlertFor(sr, ls, text).tokens)
    ensures ClaimsOf(Parsed(AlertFor(sr, ls, text))) <= ClaimsFor(sr, ls)
  {
    SortedKeeps(sr, ls);
    var top := Top(ls);
    forall t | t in Tokens(top) ensures Claim(t, sr.chat, sr.id) in ClaimsFor(sr, ls) {
      var i :| 0 <= i < |top| && Tokens(top)[i] == t;
      assert Sorted(ls)[i].token == t;
      assert ClaimFor(sr, Sorted(ls)[i]) in ClaimsFor(sr, Sorted(ls));
    }
    assert forall i :: 0 <= i < |top| ==> Tokens(top)[i] == Tokens(Sorted(ls))[i];
  }

  // tokens names the ten best of the batch, or all of a smaller one, best first.
  ghost predicate NamesBest(ls: seq<Listing>, tokens: seq<string>) {
    && |tokens| == (if |ls| < 10 then |ls| else 10) && Distinct(tokens)
    && (forall t :: t in tokens ==> exists k :: 0 <= k < |ls| && ls[k].token == t)
    && (forall a, b :: a in ls && b in ls && a.token in tokens && b.token !in tokens ==>
          a.fitness >= b.fitness && MayPrecede(a, b))
    && (forall i, j, a, b :: 0 <= i < j < |tokens| && a in ls && b in ls && a.token == tokens[i] && b.token == tokens[j] ==>
          MayPrecede(a, b))
  }

  lemma SameToken(s: seq<Listing>, i: nat, j: nat)
    requires Distinct(Tokens(s)) && i < |s| && j < |s| && s[i].token == s[j].token
    ensures i == j
  {
    assert Tokens(s)[i] == Tokens(s)[j];
  }

  // Where a listing of the batch stands in the sorted one.
  lemma Standing(ls: seq<Listing>, a: Listing) returns (i: nat)
    requires Distinct(Tokens(ls)) && a in ls
    ensures i < |Sorted(ls)| && Sorted(ls)[i] == a
    ensures |Sorted(ls)| == |ls| && forall j :: 0 <= j < |ls| && Sorted(ls)[j].token == a.token ==> j == i
  {
    SortedMembers(ls);
    i :| 0 <= i < |Sorted(ls)| && Sorted(ls)[i] == a;
    forall j | 0 <= j < |ls| && Sorted(ls)[j].token == a.token ensures j == i {
      SameToken(Sorted(ls), i, j);
    }
  }

  // Any token of the batch stands among the first n exactly when its listing does.
  lemma NamedStanding(ls: seq<Listing>, a: Listing, n: nat) returns (i: nat)
    requires Distinct(Tokens(ls)) && a in ls && n <= |Sorted(ls)|
    ensures i < |Sorted(ls)| && Sorted(ls)[i] == a
    ensures a.token in Tokens(Sorted(ls)[..n]) <==> i < n
    ensures forall j :: 0 <= j < n && Tokens(Sorted(ls)[..n])[j] == a.token ==> j == i
  {
    i := Standing(ls, a);
    var first := Sorted(ls)[..n];
    assert forall j :: 0 <= j < n ==> Tokens(first)[j] == Sorted(ls)[j].token;
    if i < n {
      assert Tokens(first)[i] in Tokens(first);
    }
  }

  /** The listings an alert names have at least the scores of those it leaves out, and stand in falling order. */
  lemma TopNamesBest(ls: seq<Listing>)
    requires Distinct(Tokens(ls))
    ensures NamesBest(ls, Tokens(Top(ls)))
  {
    var tokens, s := Tokens(Top(ls)), Sorted(ls);
    SortedMembers(ls);
    ScoresFall(ls);
    var n := |tokens|;
    assert Top(ls) == s[..n];
    assert forall i :: 0 <= i < n ==> tokens[i] == Tokens(s)[i];
    forall t | t in tokens ensures exists k :: 0 <= k < |ls| && ls[k].token == t {
      var i :| 0 <= i < n && tokens[i] == t;
      assert s[i] in s;
    }
    forall a, b | a in ls && b in ls && a.token in tokens && b.token !in tokens ensures MayPrecede(a, b) {
      var i := NamedStanding(ls, a, n);
      var j := NamedStanding(ls, b, n);
    }
    forall i, j, a, b | 0 <= i < j < n && a in ls && b in ls && a.token == tokens[i] && b.token == tokens[j]
      ensures MayPrecede(a, b)
    {
      var x := NamedStanding(ls, a, n);
      var y := NamedStanding(ls, b, n);
    }
  }

  // The listings have distinct tokens, and all their claims are owned.
  ghost predicate Holds(sr: Search, ls: seq<Listing>, owned: set<Claim>) {
    Distinct(Tokens(ls)) && ClaimsFor(sr, ls) <= owned
  }

  class InstantDelivery {
    const backend: Backend
    const search: Search
    const direct: bool
    ghost const pusher: nat

    constructor (b: Backend, sr: Search, noPublisher: bool, ghost p: nat)
      ensures backend == b && search == sr && direct == noPublisher && pusher == p
    {
      backend, search, direct, pusher := b, sr, noPublisher, p;
    }

    method NotifyBatch(tokens: seq<string>) returns (ok: bool)
      modifies backend`sent
      ensures backend.sent == old(backend.sent) + [NotifyBatchCmd(search.chat, tokens, ok)]
    {
      ok := *;
      backend.sent := backend.sent + [NotifyBatchCmd(search.chat, tokens, ok)];
    }

    method Notify(text: string) returns (r: NotifyResult)
      modifies backend`sent
      ensures backend.sent == old(backend.sent) + [NotifyCmd(search.chat, text, r)]
    {
      r := *;
      backend.sent := backend.sent + [NotifyCmd(search.chat, text, r)];
    }

    method CheckRaw(text: string) returns (malformed: bool)
      modifies backend`sent
      ensures backend.sent == old(backend.sent) + [RenderCmd([], text, malformed)]
    {
      malformed := *;
      backend.sent := backend.sent + [RenderCmd([], text, malformed)];
    }

    // Message text and the check of it are outside the model.
    method Render(ls: seq<Listing>) returns (text: string, malformed: bool)
      modifies backend`sent
      ensures backend.sent == old(backend.sent) + [RenderCmd(Tokens(ls), text, malformed)]
    {
      text, malformed := *, *;
      backend.sent := backend.sent + [RenderCmd(Tokens(ls), text, malformed)];
    }

    // Reorders the caller's batch in place; the published alert names only the best MAX_BATCH.
    method DeliverBatch(batch: array<Listing>) returns (d: Delivery, ghost run: seq<Event>)
      requires Holds(search, batch[..], Owned(backend.Abs(), pusher))
      modifies batch, backend`log, backend`owned, backend`sent
      ensures batch[..] == Sorted(old(batch[..]))
      ensures backend.sent == old(backend.sent) + DeliverScript(direct, search, old(batch[..]), d)
      ensures direct ==> !d.Malformed?
      ensures direct ==> exists tokens ::
                NamesBest(old(batch[..]), tokens)
                && backend.sent == old(backend.sent) + [NotifyBatchCmd(search.chat, tokens, d.Done?)]
      ensures !direct && d.Done? ==> exists tokens ::
                NamesBest(old(batch[..]), tokens)
                && backend.log == old(backend.log) + [Parsed(Alert(search.chat, search.id, tokens, d.text))]
      ensures direct || !d.Done? ==> backend.log == old(backend.log)
      ensures run == if d.Done? && !direct then [Publish(pusher, AlertFor(search, old(batch[..]), d.text))] else []
      ensures Pushes(old(backend.Abs()), run, backend.Abs(), pusher)
      ensures !d.Done? ==> Holds(search, batch[..], Owned(backend.Abs(), pusher))
    {
      ghost var s0 := backend.Abs();
      ghost var ls := batch[..];
      SortedKeeps(search, ls);
      TopNamesBest(ls);
      SortByScore(batch);
      var view := if batch.Length > MAX_BATCH then batch[..MAX_BATCH] else batch[..];
      assert view == Top(ls);
      if direct {
        var done := NotifyBatch(Tokens(view));
        return if done then Done("") else Failed(""), [];
      }
      var text, malformed := Render(view);
      if malformed {
        return Malformed(text), [];
      }
      var alert := Alert(search.chat, search.id, Tokens(view), text);
      TopWithin(search, ls, text);
      var ok := backend.XAdd(Parsed(alert));
      if !ok {
        return Failed(text), [];
      }
      d := Done(text);
      PublishNow(s0, alert);
      run := [Publish(pusher, alert)];
    }

    // A ready-made message, which names no listing.
    method DeliverRaw(text: string) returns (r: RawResult, ghost run: seq<Event>)
      modifies backend`log, backend`owned, backend`sent
      ensures backend.sent == old(backend.sent) + RawScript(direct, search, text, r)
      ensures r.RawAnswered? && !direct ==> r.result.Delivered? || r.result.OtherError?
      ensures run == if !direct && r == RawAnswered(Delivered) then [Publish(pusher, Alert(search.chat, search.id, [], text))] else []
      ensures Pushes(old(backend.Abs()), run, backend.Abs(), pusher)
      ensures Owned(backend.Abs(), pusher) == Owned(old(backend.Abs()), pusher)
    {
      ghost var s0 := backend.Abs();
      run := [];
      var malformed := CheckRaw(text);
      if malformed {
        return RawMalformed, run;
      }
      if direct {
        var answer := Notify(text);
        return RawAnswered(answer), run;
      }
      var alert := Alert(search.chat, search.id, [], text);
      var ok := backend.XAdd(Parsed(alert));
      r := RawAnswered(if ok then Delivered else OtherError);
      if ok {
        assert ClaimsOf(Parsed(alert)) == {};
        PublishNow(s0, alert);
        run := [Publish(pusher, alert)];
      }
    }

    ghost method PublishNow(s0: State, alert: Alert)
      requires Backed(s0, pusher, alert)
      requires backend.Abs() == s0.(log := s0.log + [Parsed(alert)])
      modifies backend`owned
      ensures Pushes(s0, [Publish(pusher, alert)], backend.Abs(), pusher)
      ensures Owned(backend.Abs(), pusher) == Owned(s0, pusher) - ClaimsOf(Parsed(alert))
    {
      backend.owned := backend.owned[pusher := Owned(s0, pusher) - ClaimsOf(Parsed(alert))];
      PushOne(s0, [], s0, Publish(pusher, alert), pusher);
      assert [] + [Publish(pusher, alert)] == [Publish(pusher, alert)];
    }
  }

  class Server {
    const backend: Backend

    constructor (b: Backend)
      ensures backend == b
    {
      backend := b;
    }

    /** Claims the new listings, delivers them, and releases the claims after a transient failure.
        Returns how many listings were handed over. */
    method ClaimAndDeliver(listings: seq<Listing>, delivery: InstantDelivery)
      returns (n: nat, ghost push: Push, ghost run: seq<Event>)
      requires delivery.backend == backend && Owned(backend.Abs(), delivery.pusher) == {}
      modifies backend
      ensures |push.answers| == |listings| && push.newOnes == Fresh(listings, push.answers)
      ensures Distinct(Tokens(push.newOnes)) && ClaimsFor(delivery.search, push.newOnes) !! old(backend.claims)
      ensures forall i :: 0 <= i < |listings| && push.answers[i].Some? ==>
                ClaimFor(delivery.search, listings[i]) in old(backend.claims) + ClaimsFor(delivery.search, push.newOnes)
      ensures push.delivery.None? <==> push.newOnes == []
      ensures n == if push.delivery.Some? && push.delivery.value.Done? then |push.newOnes| else 0
      ensures |push.releases| == if push.delivery.Some? && push.delivery.value.Failed? then |push.newOnes| else 0
      ensures |Sorted(push.newOnes)| == |push.newOnes|
      ensures push.delivery.Some? && push.delivery.value.Failed? ==>
                backend.claims == old(backend.claims) + ClaimsFor(delivery.search, push.newOnes)
                                  - GivenBack(delivery.search, Sorted(push.newOnes), push.releases)
      ensures !(push.delivery.Some? && push.delivery.value.Failed?) ==>
                backend.claims == old(backend.claims) + ClaimsFor(delivery.search, push.newOnes)
      ensures backend.sent == old(backend.sent) + Inserts(delivery.search, listings, push.answers)
                + (if push.delivery.Some? then DeliverScript(delivery.direct, delivery.search, push.newOnes, push.delivery.value) else [])
                + (if push.releases != [] then Releases(delivery.search, Sorted(push.newOnes), push.releases) else [])
      ensures Pushes(old(backend.Abs()), run, backend.Abs(), delivery.pusher)
      ensures Owned(backend.Abs(), delivery.pusher) == {}
    {
      ghost var s0 := backend.Abs();
      var sr := delivery.search;
      var newOnes;
      ghost var answers;
      newOnes, answers, run := ClaimFresh(sr, listings, delivery.pusher);
      if |newOnes| == 0 {
        push := Push(answers, newOnes, None, []);
        run := KeepRest(delivery.pusher, s0, run);
        return 0, push, run;
      }
      var d;
      ghost var released;
      d, released, run := DeliverNew(newOnes, delivery, s0, run);
      push := Push(answers, newOnes, Some(d), released);
      n := if d.Done? then |newOnes| else 0;
    }

    method NewBatch(newOnes: seq<Listing>) returns (batch: array<Listing>)
      ensures fresh(batch) && batch[..] == newOnes
    {
      batch := new Listing[|newOnes|](i requires 0 <= i < |newOnes| => newOnes[i]);
    }

    // Delivers the claimed listings and gives their claims back after a transient failure.
    method DeliverNew(newOnes: seq<Listing>, delivery: InstantDelivery, ghost s0: State, ghost before: seq<Event>)
      returns (d: Delivery, ghost released: seq<bool>, ghost run: seq<Event>)
      requires delivery.backend == backend && Holds(delivery.search, newOnes, Owned(backend.Abs(), delivery.pusher))
      requires Pushes(s0, before, backend.Abs(), delivery.pusher)
      modifies backend
      ensures |Sorted(newOnes)| == |newOnes| && |released| == if d.Failed? then |newOnes| else 0
      ensures backend.claims == if d.Failed? then old(backend.claims) - GivenBack(delivery.search, Sorted(newOnes), released)
                                else old(backend.claims)
      ensures backend.sent == old(backend.sent) + DeliverScript(delivery.direct, delivery.search, newOnes, d)
                + if d.Failed? then Releases(delivery.search, Sorted(newOnes), released) else []
      ensures Pushes(s0, run, backend.Abs(), delivery.pusher)
      ensures Owned(backend.Abs(), delivery.pusher) == {}
    {
      SortedKeeps(delivery.search, newOnes);
      var batch := NewBatch(newOnes);
      ghost var published;
      ghost var s1 := backend.Abs();
      d, published := delivery.DeliverBatch(batch);
      PushMore(s0, before, s1, published, backend.Abs(), delivery.pusher);
      run := before + published;
      released := [];
      if d.Failed? {
        released, run := ReleaseAll(delivery.search, batch, delivery.pusher, s0, run);
      }
      run := KeepRest(delivery.pusher, s0, run);
    }

    method ClaimFresh(sr: Search, listings: seq<Listing>, ghost p: nat)
      returns (newOnes: seq<Listing>, ghost answers: seq<Option<bool>>, ghost run: seq<Event>)
      requires Owned(backend.Abs(), p) == {}
      modifies backend`claims, backend`owned, backend`sent
      ensures |answers| == |listings| && newOnes == Fresh(listings, answers)
      ensures Distinct(Tokens(newOnes)) && ClaimsFor(sr, newOnes) !! old(backend.claims)
      ensures backend.claims == old(backend.claims) + ClaimsFor(sr, newOnes)
      ensures forall i :: 0 <= i < |listings| && answers[i].Some? ==>
                ClaimFor(sr, listings[i]) in backend.claims
      ensures Owned(backend.Abs(), p) == ClaimsFor(sr, newOnes)
      ensures backend.sent == old(backend.sent) + Inserts(sr, listings, answers)
      ensures Pushes(old(backend.Abs()), run, backend.Abs(), p)
    {
      ghost var s0 := backend.Abs();
      newOnes, answers, run := [], [], [];
      for i := 0 to |listings|
        invariant Claiming(sr, listings[..i], answers, newOnes, s0.claims, backend.claims, Owned(backend.Abs(), p))
        invariant backend.sent == old(backend.sent) + Inserts(sr, listings[..i], answers)
        invariant Pushes(s0, run, backend.Abs(), p)
      {
        var l := listings[i];
        var isNew;
        ghost var claims, owned := backend.claims, Owned(backend.Abs(), p);
        isNew, run := ClaimOneNew(ClaimFor(sr, l), p, s0, run);
        ClaimingMore(sr, listings, i, answers, newOnes, s0.claims, claims, owned, isNew);
        answers := answers + [isNew];
        if isNew == Some(true) {
          newOnes := newOnes + [l];
        }
      }
      assert listings[..|listings|] == listings;
    }

    method ClaimOneNew(c: Claim, ghost p: nat, ghost s0: State, ghost before: seq<Event>)
      returns (isNew: Option<bool>, ghost run: seq<Event>)
      requires Pushes(s0, before, backend.Abs(), p)
      modifies backend`claims, backend`owned, backend`sent
      ensures Pushes(s0, run, backend.Abs(), p)
      ensures backend.sent == old(backend.sent) + [InsertCmd(c, isNew)]
      ensures isNew.Some? ==> isNew.value == (c !in old(backend.claims)) && c in backend.claims
      ensures backend.claims == if isNew == Some(true) then old(backend.claims) + {c} else old(backend.claims)
      ensures Owned(backend.Abs(), p)
              == if isNew == Some(true) then Owned(old(backend.Abs()), p) + {c} else Owned(old(backend.Abs()), p)
    {
      ghost var s := backend.Abs();
      isNew := backend.InsertClaim(c);
      run := before;
      if isNew == Some(true) {
        backend.owned := backend.owned[p := Owned(s, p) + {c}];
        PushOne(s0, before, s, ClaimNew(p, c), p);
        run := before + [ClaimNew(p, c)];
      }
    }

    // Releases every claim of the batch, in its present order, whatever each release answers.
    method ReleaseAll(sr: Search, batch: array<Listing>, ghost p: nat, ghost s0: State, ghost before: seq<Event>)
      returns (ghost answers: seq<bool>, ghost run: seq<Event>)
      requires Pushes(s0, before, backend.Abs(), p)
      requires Holds(sr, batch[..], Owned(backend.Abs(), p))
      modifies backend`claims, backend`owned, backend`sent
      ensures |answers| == batch.Length
      ensures backend.claims == old(backend.claims) - GivenBack(sr, batch[..], answers)
      ensures backend.sent == old(backend.sent) + Releases(sr, batch[..], answers)
      ensures Pushes(s0, run, backend.Abs(), p)
    {
      answers, run := [], before;
      ghost var ls := batch[..];
      for i := 0 to batch.Length
        invariant |answers| == i
        invariant forall k :: i <= k < |ls| ==> ClaimFor(sr, ls[k]) in Owned(backend.Abs(), p)
        invariant backend.claims == old(backend.claims) - GivenBack(sr, ls[..i], answers)
        invariant backend.sent == old(backend.sent) + Releases(sr, ls[..i], answers)
        invariant Pushes(s0, run, backend.Abs(), p)
      {
        var ok;
        assert forall k :: i < k < |ls| ==> Tokens(ls)[k] != Tokens(ls)[i];
        ok, run := ReleaseOne(ClaimFor(sr, batch[i]), p, s0, run);
        ReleasesStep(sr, ls, answers, ok, i);
        answers := answers + [ok];
      }
      assert ls[..batch.Length] == ls;
    }

    method ReleaseOne(c: Claim, ghost p: nat, ghost s0: State, ghost before: seq<Event>)
      returns (ok: bool, ghost run: seq<Event>)
      requires Pushes(s0, before, backend.Abs(), p)
      requires c in Owned(backend.Abs(), p)
      modifies backend`claims, backend`owned, backend`sent
      ensures Pushes(s0, run, backend.Abs(), p)
      ensures backend.sent == old(backend.sent) + [DeleteCmd(c, ok)]
      ensures backend.claims == old(backend.claims) - if ok then {c} else {}
      ensures Owned(backend.Abs(), p) == Owned(old(backend.Abs()), p) - if ok then {c} else {}
    {
      ghost var s := backend.Abs();
      ok := backend.DeleteClaim(c);
      run := before;
      if ok {
        backend.owned := backend.owned[p := Owned(s, p) - {c}];
        PushOne(s0, before, s, Release(p, c), p);
        run := before + [Release(p, c)];
      }
    }

    // The request ends; claims it neither published nor released stay in the table.
    ghost method KeepRest(p: nat, s0: State, before: seq<Event>) returns (run: seq<Event>)
      requires Pushes(s0, before, backend.Abs(), p)
      modifies backend`owned
      ensures Pushes(s0, run, backend.Abs(), p)
      ensures Owned(backend.Abs(), p) == {}
    {
      ghost var s := backend.Abs();
      backend.owned := backend.owned[p := {}];
      PushOne(s0, before, s, Keep(p), p);
      run := before + [Keep(p)];
    }
  }

  lemma PrefixStep(sr: Search, listings: seq<Listing>, answers: seq<Option<bool>>, isNew: Option<bool>, i: nat)
    requires i < |listings| && |answers| == i
    ensures Fresh(listings[..i + 1], answers + [isNew])
            == if isNew == Some(true) then Fresh(listings[..i], answers) + [listings[i]] else Fresh(listings[..i], answers)
    ensures Inserts(sr, listings[..i + 1], answers + [isNew])
            == Inserts(sr, listings[..i], answers) + [InsertCmd(ClaimFor(sr, listings[i]), isNew)]
  {
    assert listings[..i + 1][..i] == listings[..i] && (answers + [isNew])[..i] == answers;
  }

  lemma ReleasesStep(sr: Search, ls: seq<Listing>, answers: seq<bool>, ok: bool, i: nat)
    requires i < |ls| && |answers| == i
    ensures Releases(sr, ls[..i + 1], answers + [ok])
            == Releases(sr, ls[..i], answers) + [DeleteCmd(ClaimFor(sr, ls[i]), ok)]
    ensures GivenBack(sr, ls[..i + 1], answers + [ok])
            == GivenBack(sr, ls[..i], answers) + if ok then {ClaimFor(sr, ls[i])} else {}
  {
    assert ls[..i + 1][..i] == ls[..i] && (answers + [ok])[..i] == answers;
    forall c | c in GivenBack(sr, ls[..i], answers)
      ensures c in GivenBack(sr, ls[..i + 1], answers + [ok])
    {
      var k :| 0 <= k < i && answers[k] && c == ClaimFor(sr, ls[..i][k]);
      assert (answers + [ok])[k] && c == ClaimFor(sr, ls[..i + 1][k]);
    }
    if ok {
      assert (answers + [ok])[i] && ls[..i + 1][i] == ls[i];
    }
  }

  // Exactly the claims of the new listings were taken, one per token, and the push owns them.
  ghost predicate Taken(sr: Search, newOnes: seq<Listing>, before: set<Claim>, claims: set<Claim>, owned: set<Claim>) {
    && Distinct(Tokens(newOnes)) && ClaimsFor(sr, newOnes) !! before
    && claims == before + ClaimsFor(sr, newOnes) && owned == ClaimsFor(sr, newOnes)
  }

  ghost predicate AllAsked(sr: Search, listings: seq<Listing>, answers: seq<Option<bool>>, claims: set<Claim>)
    requires |answers| <= |listings|
  {
    forall k :: 0 <= k < |answers| && answers[k].Some? ==> ClaimFor(sr, listings[k]) in claims
  }

  lemma FreshMore(sr: Search, newOnes: seq<Listing>, l: Listing, before: set<Claim>, claims: set<Claim>, owned: set<Claim>)
    requires Taken(sr, newOnes, before, claims, owned)
    ensures var c := ClaimFor(sr, l);
            c !in claims ==> Taken(sr, newOnes + [l], before, claims + {c}, owned + {c})
  {
    if ClaimFor(sr, l) !in claims {
      forall i | 0 <= i < |newOnes| ensures newOnes[i].token != l.token {
        assert ClaimFor(sr, newOnes[i]) in ClaimsFor(sr, newOnes);
      }
      assert ClaimsFor(sr, newOnes + [l]) == ClaimsFor(sr, newOnes) + {ClaimFor(sr, l)};
    }
  }

  // The claims of the listings tried so far.
  ghost predicate Claiming(sr: Search, tried: seq<Listing>, answers: seq<Option<bool>>, newOnes: seq<Listing>,
                           before: set<Claim>, claims: set<Claim>, owned: set<Claim>)
  {
    && |answers| == |tried| && newOnes == Fresh(tried, answers)
    && Taken(sr, newOnes, before, claims, owned) && AllAsked(sr, tried, answers, claims)
  }

  lemma ClaimingMore(sr: Search, listings: seq<Listing>, i: nat, answers: seq<Option<bool>>, newOnes: seq<Listing>,
                     before: set<Claim>, claims: set<Claim>, owned: set<Claim>, isNew: Option<bool>)
    requires i < |listings| && Claiming(sr, listings[..i], answers, newOnes, before, claims, owned)
    requires isNew.Some? ==> isNew.value == (ClaimFor(sr, listings[i]) !in claims)
    ensures var l := listings[i];
            if isNew == Some(true)
            then Claiming(sr, listings[..i + 1], answers + [isNew], newOnes + [l], before,
                          claims + {ClaimFor(sr, l)}, owned + {ClaimFor(sr, l)})
            else Claiming(sr, listings[..i + 1], answers + [isNew], newOnes, before, claims, owned)
    ensures Inserts(sr, listings[..i + 1], answers + [isNew])
            == Inserts(sr, listings[..i], answers) + [InsertCmd(ClaimFor(sr, listings[i]), isNew)]
  {
    PrefixStep(sr, listings, answers, isNew, i);
    FreshMore(sr, newOnes, listings[i], before, claims, owned);
    AskedMore(sr, listings, i, answers, claims, isNew);
  }

  lemma AskedMore(sr: Search, listings: seq<Listing>, i: nat, answers: seq<Option<bool>>, claims: set<Claim>, isNew: Option<bool>)
    requires i < |listings| && |answers| == i && AllAsked(sr, listings[..i], answers, claims)
    requires isNew.Some? ==> isNew.value == (ClaimFor(sr, listings[i]) !in claims)
    ensures isNew == Some(true) ==>
              AllAsked(sr, listings[..i + 1], answers + [isNew], claims + {ClaimFor(sr, listings[i])})
    ensures isNew != Some(true) ==> AllAsked(sr, listings[..i + 1], answers + [isNew], claims)
  {
    assert forall k :: 0 <= k < i ==> listings[..i + 1][k] == listings[..i][k];
  }

  /** After a transient failure with every release answered, the dedup table is what it was. */
  lemma FailedPushLeavesNoTrace(sr: Search, claims: set<Claim>, newOnes: seq<Listing>, answers: seq<bool>)
    requires ClaimsFor(sr, newOnes) !! claims
    requires |answers| == |Sorted(newOnes)| && forall i :: 0 <= i < |answers| ==> answers[i]
    ensures claims + ClaimsFor(sr, newOnes) - GivenBack(sr, Sorted(newOnes), answers) == claims
  {
    SortedKeeps(sr, newOnes);
    forall c | c in ClaimsFor(sr, newOnes) ensures c in GivenBack(sr, Sorted(newOnes), answers) {
      var l :| l in Sorted(newOnes) && c == ClaimFor(sr, l);
      var i :| 0 <= i < |Sorted(newOnes)| && Sorted(newOnes)[i] == l;
      assert answers[i];
    }
  }
}
