/**
  How the scheduler ends the claims one search took in a cycle: the mileage filter after the pipeline, the
  save, the grace period of listings still without details, the price drops and the batch. What becomes of
  each claim is proved, and when a release is stray.
 */
module SchedulerDelivery {
  import opened AlertDelivery
  import opened AlertProtocol
  import opened Basics
  import opened IngestDelivery
  import opened ListingOrder
  import opened Wrappers

  // A listing the pipeline returned. complete says whether it has a city and an image, justSeen whether it
  // appeared within the grace period.
  datatype Found = Found(listing: Listing, km: int, complete: bool, justSeen: bool)

  // What the surroundings answered: the releases of the mileage filter, the save, the releases after a failed
  // save, the price drops sent, the batch if there was one, and the releases after it failed.
  datatype Outcome = Outcome(filtered: seq<bool>, saved: bool, undone: seq<bool>, raws: seq<RawResult>,
                             delivery: Option<Delivery>, releases: seq<bool>)

  predicate KmOk(maxKm: int, f: Found) {
    maxKm <= 0 || 0 < f.km <= maxKm
  }

  predicate Deferred(f: Found) {
    (f.km <= 0 || !f.complete) && f.justSeen
  }

  function TooFar(maxKm: int, fs: seq<Found>): seq<Listing> {
    if fs == [] then []
    else
      var n := |fs| - 1;
      if KmOk(maxKm, fs[n]) then TooFar(maxKm, fs[..n]) else TooFar(maxKm, fs[..n]) + [fs[n].listing]
  }

  function WithinKm(maxKm: int, fs: seq<Found>): seq<Found> {
    if fs == [] then []
    else
      var n := |fs| - 1;
      if KmOk(maxKm, fs[n]) then WithinKm(maxKm, fs[..n]) + [fs[n]] else WithinKm(maxKm, fs[..n])
  }

  function Ready(fs: seq<Found>): seq<Listing> {
    if fs == [] then []
    else
      var n := |fs| - 1;
      if Deferred(fs[n]) then Ready(fs[..n]) else Ready(fs[..n]) + [fs[n].listing]
  }

  function Listings(fs: seq<Found>): seq<Listing> {
    if fs == [] then []
    else
      var n := |fs| - 1;
      Listings(fs[..n]) + [fs[n].listing]
  }

  predicate IsBlocked(r: RawResult) {
    r == RawAnswered(Blocked)
  }

  // The price drops stop at a recipient who has blocked the bot, and so does everything after them.
  predicate Stopped(raws: seq<RawResult>) {
    raws != [] && IsBlocked(raws[|raws| - 1])
  }

  function Deliverable(maxKm: int, fs: seq<Found>, saved: bool): seq<Listing> {
    if saved then Ready(WithinKm(maxKm, fs)) else []
  }

  predicate RawsFit(drops: seq<string>, raws: seq<RawResult>) {
    && |raws| <= |drops| && (!Stopped(raws) ==> |raws| == |drops|)
    && forall k :: 0 <= k < |raws| - 1 ==> !IsBlocked(raws[k])
  }

  ghost predicate OutcomeOf(maxKm: int, fs: seq<Found>, drops: seq<string>, o: Outcome) {
    var ready := Deliverable(maxKm, fs, o.saved);
    && |o.filtered| == |TooFar(maxKm, fs)|
    && |o.undone| == (if o.saved then 0 else |fs|) && |Listings(fs)| == |fs|
    && RawsFit(drops, o.raws)
    && (o.delivery.Some? <==> ready != [] && !Stopped(o.raws))
    && |Sorted(ready)| == |ready|
    && |o.releases| == if o.delivery.Some? && o.delivery.value.Failed? then |ready| else 0
  }

  // The claims whose release was answered, at each of the three places.
  ghost function ByFilter(sr: Search, maxKm: int, fs: seq<Found>, o: Outcome): set<Claim>
    requires |o.filtered| == |TooFar(maxKm, fs)|
  {
    GivenBack(sr, TooFar(maxKm, fs), o.filtered)
  }

  ghost function ByFailedSave(sr: Search, fs: seq<Found>, o: Outcome): set<Claim>
    requires !o.saved ==> |o.undone| == |Listings(fs)|
  {
    if o.saved then {} else GivenBack(sr, Listings(fs), o.undone)
  }

  ghost function ByFailedBatch(sr: Search, maxKm: int, fs: seq<Found>, o: Outcome): set<Claim>
    requires o.releases != [] ==> |o.releases| == |Sorted(Deliverable(maxKm, fs, o.saved))|
  {
    if o.releases == [] then {} else GivenBack(sr, Sorted(Deliverable(maxKm, fs, o.saved)), o.releases)
  }

  /* ---- the commands ---- */

  function RawScripts(direct: bool, sr: Search, drops: seq<string>, raws: seq<RawResult>): seq<Command>
    requires |raws| <= |drops|
  {
    if raws == [] then []
    else
      var n := |raws| - 1;
      RawScripts(direct, sr, drops, raws[..n]) + RawScript(direct, sr, drops[n], raws[n])
  }

  ghost function FilterScript(sr: Search, maxKm: int, fs: seq<Found>, o: Outcome): seq<Command>
    requires |o.filtered| == |TooFar(maxKm, fs)|
  {
    Releases(sr, TooFar(maxKm, fs), o.filtered)
  }

  ghost function SaveScript(stores: bool, sr: Search, fs: seq<Found>, o: Outcome): seq<Command>
    requires !o.saved ==> |o.undone| == |Listings(fs)|
  {
    (if stores && fs != [] then [SaveCmd(Tokens(Listings(fs)), o.saved)] else [])
    + if o.saved then [] else Releases(sr, Listings(fs), o.undone)
  }

  ghost function BatchScript(direct: bool, sr: Search, ready: seq<Listing>, o: Outcome): seq<Command>
    requires o.releases != [] ==> |o.releases| == |Sorted(ready)|
  {
    (if o.delivery.Some? then DeliverScript(direct, sr, ready, o.delivery.value) else [])
    + if o.releases == [] then [] else Releases(sr, Sorted(ready), o.releases)
  }

  /* ---- the events ---- */

  function ReleaseEvents(p: nat, sr: Search, ls: seq<Listing>, answers: seq<bool>): seq<Event>
    requires |answers| == |ls|
  {
    if ls == [] then []
    else
      var n := |ls| - 1;
      var front := ReleaseEvents(p, sr, ls[..n], answers[..n]);
      if answers[n] then front + [Release(p, ClaimFor(sr, ls[n]))] else front
  }

  function RawEvents(direct: bool, p: nat, sr: Search, drops: seq<string>, raws: seq<RawResult>): seq<Event>
    requires |raws| <= |drops|
  {
    if raws == [] then []
    else
      var n := |raws| - 1;
      var front := RawEvents(direct, p, sr, drops, raws[..n]);
      if !direct && raws[n] == RawAnswered(Delivered) then front + [Publish(p, Alert(sr.chat, sr.id, [], drops[n]))] else front
  }

  ghost function BatchEvents(direct: bool, p: nat, sr: Search, ready: seq<Listing>, o: Outcome): seq<Event>
    requires o.releases != [] ==> |o.releases| == |Sorted(ready)|
  {
    (if !direct && o.delivery.Some? && o.delivery.value.Done?
     then [Publish(p, AlertFor(sr, ready, o.delivery.value.text))] else [])
    + if o.releases == [] then [] else ReleaseEvents(p, sr, Sorted(ready), o.releases)
  }

  ghost function SaveEvents(p: nat, sr: Search, fs: seq<Found>, o: Outcome): seq<Event>
    requires !o.saved ==> |o.undone| == |Listings(fs)|
  {
    if o.saved then [] else ReleaseEvents(p, sr, Listings(fs), o.undone)
  }

  /* ---- which listings are which ---- */

  // No two listings have one token.
  predicate OneEach(fs: seq<Found>) {
    forall j, k :: 0 <= j < k < |fs| ==> fs[j].listing.token != fs[k].listing.token
  }

  lemma {:induction false} ListingsMeaning(fs: seq<Found>)
    ensures |Listings(fs)| == |fs| && forall k :: 0 <= k < |fs| ==> Listings(fs)[k] == fs[k].listing
  {
    if fs != [] {
      ListingsMeaning(fs[..|fs| - 1]);
    }
  }

  lemma ListingsOneEach(fs: seq<Found>)
    ensures Distinct(Tokens(Listings(fs))) <==> OneEach(fs)
  {
    ListingsMeaning(fs);
    var ts := Tokens(Listings(fs));
    assert forall k :: 0 <= k < |fs| ==> ts[k] == fs[k].listing.token;
  }

  lemma {:induction false} TooFarMeaning(maxKm: int, fs: seq<Found>)
    ensures forall l :: l in TooFar(maxKm, fs) <==> exists k :: 0 <= k < |fs| && fs[k].listing == l && !KmOk(maxKm, fs[k])
    ensures |TooFar(maxKm, fs)| <= |fs|
  {
    if fs != [] {
      TooFarMeaning(maxKm, fs[..|fs| - 1]);
    }
  }

  lemma {:induction false} TooFarDistinct(maxKm: int, fs: seq<Found>)
    requires OneEach(fs)
    ensures Distinct(Tokens(TooFar(maxKm, fs)))
  {
    if fs != [] {
      var n := |fs| - 1;
      var front := TooFar(maxKm, fs[..n]);
      TooFarDistinct(maxKm, fs[..n]);
      TooFarMeaning(maxKm, fs[..n]);
      forall k | 0 <= k < |front| ensures Tokens(front)[k] != fs[n].listing.token {
        assert front[k] in front;
      }
      assert forall k :: 0 <= k < |front| ==> Tokens(front + [fs[n].listing])[k] == Tokens(front)[k];
    }
  }

  lemma {:induction false} WithinMeaning(maxKm: int, fs: seq<Found>)
    ensures forall f :: f in WithinKm(maxKm, fs) <==> f in fs && KmOk(maxKm, f)
    ensures OneEach(fs) ==> OneEach(WithinKm(maxKm, fs))
  {
    if fs != [] {
      var n := |fs| - 1;
      WithinMeaning(maxKm, fs[..n]);
      assert fs == fs[..n] + [fs[n]];
      var front := WithinKm(maxKm, fs[..n]);
      if OneEach(fs) {
        forall k | 0 <= k < |front| ensures front[k].listing.token != fs[n].listing.token {
          assert front[k] in fs[..n];
        }
      }
    }
  }

  lemma {:induction false} ReadyMeaning(fs: seq<Found>)
    ensures forall l :: l in Ready(fs) <==> exists k :: 0 <= k < |fs| && fs[k].listing == l && !Deferred(fs[k])
    ensures |Ready(fs)| <= |fs|
  {
    if fs != [] {
      ReadyMeaning(fs[..|fs| - 1]);
    }
  }

  lemma {:induction false} ReadyDistinct(fs: seq<Found>)
    requires OneEach(fs)
    ensures Distinct(Tokens(Ready(fs)))
  {
    if fs != [] {
      var n := |fs| - 1;
      var front := Ready(fs[..n]);
      ReadyDistinct(fs[..n]);
      ReadyMeaning(fs[..n]);
      forall k | 0 <= k < |front| ensures Tokens(front)[k] != fs[n].listing.token {
        assert front[k] in front;
      }
      assert forall k :: 0 <= k < |front| ==> Tokens(front + [fs[n].listing])[k] == Tokens(front)[k];
    }
  }

  /* ---- what becomes of a claim ---- */

  // The listing's claim is to be given back: too far, not saved, or in a batch that failed.
  predicate ToRelease(maxKm: int, fs: seq<Found>, o: Outcome, i: nat)
    requires i < |fs|
  {
    !KmOk(maxKm, fs[i]) || !o.saved || (!Deferred(fs[i]) && o.delivery.Some? && o.delivery.value.Failed?)
  }

  // It was handed on, among the best ten of the batch.
  predicate HandedOn(maxKm: int, fs: seq<Found>, o: Outcome, i: nat)
    requires i < |fs|
  {
    o.delivery.Some? && o.delivery.value.Done? && fs[i].listing in Top(Deliverable(maxKm, fs, o.saved))
  }

  // Its claim is kept though it was not handed on: put off by the grace period, behind a recipient who has
  // blocked the bot, in a malformed batch, or beyond the best ten.
  predicate Stranded(maxKm: int, fs: seq<Found>, o: Outcome, i: nat)
    requires i < |fs|
  {
    && o.saved && KmOk(maxKm, fs[i])
    && (|| Deferred(fs[i]) || Stopped(o.raws)
        || (o.delivery.Some? && o.delivery.value.Malformed?)
        || (o.delivery.Some? && o.delivery.value.Done? && fs[i].listing !in Top(Deliverable(maxKm, fs, o.saved))))
  }

  predicate AllReleased(o: Outcome) {
    && (forall k :: 0 <= k < |o.filtered| ==> o.filtered[k])
    && (forall k :: 0 <= k < |o.undone| ==> o.undone[k])
    && (forall k :: 0 <= k < |o.releases| ==> o.releases[k])
  }

  lemma InReady(maxKm: int, fs: seq<Found>, i: nat)
    requires OneEach(fs) && i < |fs|
    ensures fs[i].listing in Ready(WithinKm(maxKm, fs)) <==> KmOk(maxKm, fs[i]) && !Deferred(fs[i])
    ensures fs[i].listing in TooFar(maxKm, fs) <==> !KmOk(maxKm, fs[i])
  {
    var within := WithinKm(maxKm, fs);
    WithinMeaning(maxKm, fs);
    ReadyMeaning(within);
    TooFarMeaning(maxKm, fs);
    if KmOk(maxKm, fs[i]) {
      assert fs[i] in within;
    }
    forall k | 0 <= k < |within| && within[k].listing == fs[i].listing ensures within[k] == fs[i] {
      assert within[k] in fs;
    }
  }

  // Among listings of the feed, a claim stands for its listing.
  lemma ClaimOfOne(sr: Search, fs: seq<Found>, ls: seq<Listing>, i: nat)
    requires OneEach(fs) && i < |fs| && forall l :: l in ls ==> exists k :: 0 <= k < |fs| && fs[k].listing == l
    ensures ClaimFor(sr, fs[i].listing) in ClaimsFor(sr, ls) <==> fs[i].listing in ls
  {
    if ClaimFor(sr, fs[i].listing) in ClaimsFor(sr, ls) {
      var l :| l in ls && ClaimFor(sr, l) == ClaimFor(sr, fs[i].listing);
      var k :| 0 <= k < |fs| && fs[k].listing == l;
      assert k == i;
    }
  }

  lemma GivenBackWithin(sr: Search, ls: seq<Listing>, answers: seq<bool>)
    requires |answers| == |ls|
    ensures GivenBack(sr, ls, answers) <= ClaimsFor(sr, ls)
    ensures (forall k :: 0 <= k < |answers| ==> answers[k]) ==> GivenBack(sr, ls, answers) == ClaimsFor(sr, ls)
  {
    if forall k :: 0 <= k < |answers| ==> answers[k] {
      forall l | l in ls ensures ClaimFor(sr, l) in GivenBack(sr, ls, answers) {
        var k :| 0 <= k < |ls| && ls[k] == l;
        assert answers[k];
      }
    }
  }

  lemma ReadyFromFeed(maxKm: int, fs: seq<Found>)
    ensures forall l :: l in Ready(WithinKm(maxKm, fs)) ==> exists k :: 0 <= k < |fs| && fs[k].listing == l
  {
    var within := WithinKm(maxKm, fs);
    WithinMeaning(maxKm, fs);
    ReadyMeaning(within);
    forall l | l in Ready(within) ensures exists k :: 0 <= k < |fs| && fs[k].listing == l {
      var j :| 0 <= j < |within| && within[j].listing == l;
      assert within[j] in fs;
      var k :| 0 <= k < |fs| && fs[k] == within[j];
    }
  }

  lemma TopFromReady(ready: seq<Listing>)
    ensures forall l :: l in Top(ready) ==> l in ready
  {
    SortedMembers(ready);
    forall l | l in Top(ready) ensures l in ready {
      assert l in Sorted(ready);
    }
  }

  /** Every claimed listing comes to exactly one of three ends: handed on, to be given back, or stranded. */
  lemma OneEnd(maxKm: int, fs: seq<Found>, drops: seq<string>, o: Outcome, i: nat)
    requires OutcomeOf(maxKm, fs, drops, o) && OneEach(fs) && i < |fs|
    ensures HandedOn(maxKm, fs, o, i) || ToRelease(maxKm, fs, o, i) || Stranded(maxKm, fs, o, i)
    ensures !(HandedOn(maxKm, fs, o, i) && ToRelease(maxKm, fs, o, i))
    ensures !(HandedOn(maxKm, fs, o, i) && Stranded(maxKm, fs, o, i))
    ensures !(ToRelease(maxKm, fs, o, i) && Stranded(maxKm, fs, o, i))
  {
    InReady(maxKm, fs, i);
    TopFromReady(Deliverable(maxKm, fs, o.saved));
  }

  /** The ends said in numbers. Only a saved listing of known mileage within the limit, if there is one, is handed on, and
      not one just seen without its details; a listing passed over by a batch that went out had ten at least as good
      before it. */
  lemma EndsInNumbers(maxKm: int, fs: seq<Found>, drops: seq<string>, o: Outcome, i: nat)
    requires OutcomeOf(maxKm, fs, drops, o) && OneEach(fs) && i < |fs|
    ensures var f := fs[i];
            var far := maxKm > 0 && (f.km <= 0 || f.km > maxKm);
            var early := f.justSeen && (f.km <= 0 || !f.complete);
            && (HandedOn(maxKm, fs, o, i) ==> o.saved && !far && !early)
            && (ToRelease(maxKm, fs, o, i) <==>
                  far || !o.saved || (!early && o.delivery.Some? && o.delivery.value.Failed?))
            && (o.delivery.Some? && o.delivery.value.Done? && o.saved && !far && !early && !HandedOn(maxKm, fs, o, i) ==>
                  var top := Top(Deliverable(maxKm, fs, o.saved));
                  |top| == 10 && forall l :: l in top ==> l.fitness >= f.listing.fitness)
  {
    var ready := Deliverable(maxKm, fs, o.saved);
    OneEnd(maxKm, fs, drops, o, i);
    InReady(maxKm, fs, i);
    TopFromReady(ready);
    if fs[i].listing in ready && fs[i].listing !in Top(ready) {
      PassedOver(ready, fs[i].listing);
    }
  }

  lemma PassedOver(ls: seq<Listing>, l: Listing)
    requires l in ls && l !in Top(ls)
    ensures |Top(ls)| == 10 && forall t :: t in Top(ls) ==> t.fitness >= l.fitness
  {
    SortedMembers(ls);
    ScoresFall(ls);
    var i :| 0 <= i < |Sorted(ls)| && Sorted(ls)[i] == l;
    InPrefix(Sorted(ls), |Top(ls)|);
  }

  lemma InPrefix(ls: seq<Listing>, n: nat)
    requires n <= |ls|
    ensures forall i :: 0 <= i < n ==> ls[i] in ls[..n]
  {
    assert forall i :: 0 <= i < n ==> ls[..n][i] == ls[i];
  }

  // The dedup table after the pass.
  ghost function ClaimsAfter(sr: Search, maxKm: int, fs: seq<Found>, drops: seq<string>, o: Outcome, before: set<Claim>): set<Claim>
    requires OutcomeOf(maxKm, fs, drops, o)
  {
    before - ByFilter(sr, maxKm, fs, o) - ByFailedSave(sr, fs, o) - ByFailedBatch(sr, maxKm, fs, o)
  }

  /** A claim that is not to be given back stays, and one that is goes if every release is answered: so it is
      kept for a listing that was not handed on exactly when that listing is stranded. */
  lemma KeptExactly(sr: Search, maxKm: int, fs: seq<Found>, drops: seq<string>, o: Outcome, before: set<Claim>, i: nat)
    requires OutcomeOf(maxKm, fs, drops, o) && OneEach(fs) && i < |fs| && ClaimsFor(sr, Listings(fs)) <= before
    ensures !ToRelease(maxKm, fs, o, i) ==>
              ClaimFor(sr, fs[i].listing) in ClaimsAfter(sr, maxKm, fs, drops, o, before)
    ensures AllReleased(o) ==>
              (ClaimFor(sr, fs[i].listing) in ClaimsAfter(sr, maxKm, fs, drops, o, before) && !HandedOn(maxKm, fs, o, i)
               <==> Stranded(maxKm, fs, o, i))
  {
    var c := ClaimFor(sr, fs[i].listing);
    OneEnd(maxKm, fs, drops, o, i);
    FilterEnd(sr, maxKm, fs, o, i);
    SaveEnd(sr, fs, o, i);
    BatchEnd(sr, maxKm, fs, drops, o, i);
    ListingsMeaning(fs);
    assert fs[i].listing in Listings(fs);
    assert c in before;
  }

  lemma FilterEnd(sr: Search, maxKm: int, fs: seq<Found>, o: Outcome, i: nat)
    requires |o.filtered| == |TooFar(maxKm, fs)| && OneEach(fs) && i < |fs|
    ensures ClaimFor(sr, fs[i].listing) in ByFilter(sr, maxKm, fs, o) ==> !KmOk(maxKm, fs[i])
    ensures AllReleased(o) && !KmOk(maxKm, fs[i]) ==> ClaimFor(sr, fs[i].listing) in ByFilter(sr, maxKm, fs, o)
  {
    TooFarMeaning(maxKm, fs);
    InReady(maxKm, fs, i);
    ClaimOfOne(sr, fs, TooFar(maxKm, fs), i);
    GivenBackWithin(sr, TooFar(maxKm, fs), o.filtered);
  }

  lemma SaveEnd(sr: Search, fs: seq<Found>, o: Outcome, i: nat)
    requires |o.undone| == (if o.saved then 0 else |fs|) && |Listings(fs)| == |fs| && i < |fs|
    ensures ClaimFor(sr, fs[i].listing) in ByFailedSave(sr, fs, o) ==> !o.saved
    ensures AllReleased(o) && !o.saved ==> ClaimFor(sr, fs[i].listing) in ByFailedSave(sr, fs, o)
  {
    if !o.saved {
      ListingsMeaning(fs);
      GivenBackWithin(sr, Listings(fs), o.undone);
      assert fs[i].listing in Listings(fs);
    }
  }

  lemma BatchEnd(sr: Search, maxKm: int, fs: seq<Found>, drops: seq<string>, o: Outcome, i: nat)
    requires OutcomeOf(maxKm, fs, drops, o) && OneEach(fs) && i < |fs|
    ensures ClaimFor(sr, fs[i].listing) in ByFailedBatch(sr, maxKm, fs, o) ==> ToRelease(maxKm, fs, o, i)
    ensures AllReleased(o) && o.saved && KmOk(maxKm, fs[i]) && ToRelease(maxKm, fs, o, i) ==>
              ClaimFor(sr, fs[i].listing) in ByFailedBatch(sr, maxKm, fs, o)
  {
    if o.delivery.Some? && o.delivery.value.Failed? {
      var ready := Deliverable(maxKm, fs, o.saved);
      SortedMembers(ready);
      ReadyFromFeed(maxKm, fs);
      InReady(maxKm, fs, i);
      ClaimOfOne(sr, fs, Sorted(ready), i);
      GivenBackWithin(sr, Sorted(ready), o.releases);
    }
  }

  // With every release answered, a claim is given back twice exactly when a save failed over a listing past the
  // mileage limit.
  lemma GivenBackTwiceExactly(sr: Search, maxKm: int, fs: seq<Found>, drops: seq<string>, o: Outcome)
    requires OutcomeOf(maxKm, fs, drops, o) && OneEach(fs) && AllReleased(o)
    ensures ByFilter(sr, maxKm, fs, o) !! ByFailedSave(sr, fs, o) <==>
            o.saved || forall k :: 0 <= k < |fs| ==> KmOk(maxKm, fs[k])
  {
    if k :| 0 <= k < |fs| && !KmOk(maxKm, fs[k]) {
      FilterEnd(sr, maxKm, fs, o, k);
      SaveEnd(sr, fs, o, k);
    } else {
      TooFarMeaning(maxKm, fs);
      GivenBackWithin(sr, TooFar(maxKm, fs), o.filtered);
    }
  }

  /* ---- the code ---- */

  // The releases sent so far, what they did, and whether each was of a claim the pusher owned.
  ghost predicate Releasing(p: nat, sr: Search, ls: seq<Listing>, answers: seq<bool>, s0: State, t: State,
                            sent0: seq<Command>, sent: seq<Command>)
  {
    && |answers| == |ls| && t.claims == s0.claims - GivenBack(sr, ls, answers)
    && Owned(t, p) == Owned(s0, p) - GivenBack(sr, ls, answers)
    && Performs(s0, ReleaseEvents(p, sr, ls, answers), t)
    && (PusherRun(s0, ReleaseEvents(p, sr, ls, answers), p) <==> GivenBack(sr, ls, answers) <= Owned(s0, p))
    && sent == sent0 + Releases(sr, ls, answers)
  }

  lemma {:induction false} PusherRunsJoin(s: State, a: seq<Event>, b: seq<Event>, p: nat)
    requires Legal(s, a) && Legal(After(s, a), b)
    ensures Legal(s, a + b) && (PusherRun(s, a + b, p) <==> PusherRun(s, a, p) && PusherRun(After(s, a), b, p))
    decreases |a|
  {
    RunsCompose(s, a, b);
    if a == [] {
      assert a + b == b;
    } else {
      assert (a + b)[0] == a[0] && (a + b)[1..] == a[1..] + b;
      PusherRunsJoin(Step(s, a[0]), a[1..], b, p);
    }
  }

  lemma PusherOneMore(s: State, a: seq<Event>, t: State, e: Event, p: nat)
    requires Performs(s, a, t) && Enabled(t, e)
    ensures Performs(s, a + [e], Step(t, e))
    ensures PusherRun(s, a + [e], p) <==> PusherRun(s, a, p) && OwnEvent(t, e, p)
  {
    RunExtends(s, a, e);
    RunOfOne(t, e);
    assert [e][1..] == [] && PusherRun(Step(t, e), [e][1..], p);
    PusherRunsJoin(s, a, [e], p);
  }

  lemma MoreReleased(p: nat, sr: Search, ls: seq<Listing>, answers: seq<bool>, l: Listing, ok: bool, s0: State, t: State, u: State,
                     sent0: seq<Command>, sent: seq<Command>)
    requires Releasing(p, sr, ls, answers, s0, t, sent0, sent)
    requires forall k :: 0 <= k < |ls| ==> ls[k].token != l.token
    requires u == if ok then Step(t, Release(p, ClaimFor(sr, l))) else t
    ensures Releasing(p, sr, ls + [l], answers + [ok], s0, u, sent0, sent + [DeleteCmd(ClaimFor(sr, l), ok)])
  {
    var c, n := ClaimFor(sr, l), |ls|;
    ReleasesStep(sr, ls + [l], answers, ok, n);
    assert (ls + [l])[..n] == ls && (ls + [l])[..n + 1] == ls + [l] && (answers + [ok])[..n] == answers;
    assert c !in GivenBack(sr, ls, answers);
    if ok {
      PusherOneMore(s0, ReleaseEvents(p, sr, ls, answers), t, Release(p, c), p);
    }
  }

  // The price drops sent so far.
  ghost predicate SentSoFar(direct: bool, p: nat, sr: Search, drops: seq<string>, raws: seq<RawResult>, s0: State, t: State,
                            sent0: seq<Command>, sent: seq<Command>)
  {
    && |raws| <= |drops| && Pushes(s0, RawEvents(direct, p, sr, drops, raws), t, p)
    && t.claims == s0.claims && Owned(t, p) == Owned(s0, p)
    && sent == sent0 + RawScripts(direct, sr, drops, raws)
  }

  lemma MoreSent(direct: bool, p: nat, sr: Search, drops: seq<string>, raws: seq<RawResult>, r: RawResult, s0: State, s: State,
                 t: State, more: seq<Event>, sent0: seq<Command>, sent: seq<Command>)
    requires |raws| < |drops| && SentSoFar(direct, p, sr, drops, raws, s0, s, sent0, sent)
    requires more == if !direct && r == RawAnswered(Delivered) then [Publish(p, Alert(sr.chat, sr.id, [], drops[|raws|]))] else []
    requires Pushes(s, more, t, p) && t.claims == s.claims && Owned(t, p) == Owned(s, p)
    ensures SentSoFar(direct, p, sr, drops, raws + [r], s0, t, sent0, sent + RawScript(direct, sr, drops[|raws|], r))
  {
    assert (raws + [r])[..|raws|] == raws;
    var front := RawEvents(direct, p, sr, drops, raws);
    PushMore(s0, front, s, more, t, p);
    assert front + [] == front;
    Regroup(sent0, RawScripts(direct, sr, drops, raws), RawScript(direct, sr, drops[|raws|], r));
  }

  predicate AnyDelivered(raws: seq<RawResult>) {
    exists k :: 0 <= k < |raws| && raws[k] == RawAnswered(Delivered)
  }

  // Whether the pass counts as a notification.
  predicate Counted(o: Outcome) {
    && !Stopped(o.raws) && !(o.delivery.Some? && o.delivery.value.Malformed?)
    && (AnyDelivered(o.raws) || (o.delivery.Some? && o.delivery.value.Done?))
  }

  ghost function SearchRun(direct: bool, p: nat, sr: Search, maxKm: int, fs: seq<Found>, drops: seq<string>, o: Outcome): seq<Event>
    requires OutcomeOf(maxKm, fs, drops, o)
  {
    ReleaseEvents(p, sr, TooFar(maxKm, fs), o.filtered) + SaveEvents(p, sr, fs, o)
    + (RawEvents(direct, p, sr, drops, o.raws) + BatchEvents(direct, p, sr, Deliverable(maxKm, fs, o.saved), o) + [Keep(p)])
  }

  ghost function SearchScript(direct: bool, stores: bool, sr: Search, maxKm: int, fs: seq<Found>, drops: seq<string>, o: Outcome): seq<Command>
    requires OutcomeOf(maxKm, fs, drops, o)
  {
    FilterScript(sr, maxKm, fs, o) + SaveScript(stores, sr, fs, o)
    + (RawScripts(direct, sr, drops, o.raws) + BatchScript(direct, sr, Deliverable(maxKm, fs, o.saved), o))
  }

  // The batch delivered, and its claims given back after a transient failure.
  ghost predicate BatchDid(direct: bool, p: nat, sr: Search, ready: seq<Listing>, o: Outcome, s: State, t: State,
                           sent0: seq<Command>, sent: seq<Command>)
    requires o.releases != [] ==> |o.releases| == |Sorted(ready)|
  {
    && Pushes(s, BatchEvents(direct, p, sr, ready, o), t, p)
    && sent == sent0 + BatchScript(direct, sr, ready, o)
    && t.claims == s.claims - if o.releases == [] then {} else GivenBack(sr, Sorted(ready), o.releases)
  }

  lemma NothingDone(direct: bool, p: nat, sr: Search, ready: seq<Listing>, s: State, sent: seq<Command>)
    ensures BatchDid(direct, p, sr, ready, Outcome([], true, [], [], None, []), s, s, sent, sent)
  {
    var o := Outcome([], true, [], [], None, []);
    assert BatchEvents(direct, p, sr, ready, o) == [];
    assert BatchScript(direct, sr, ready, o) == [];
    assert sent + [] == sent;
  }

  lemma BatchDone(direct: bool, p: nat, sr: Search, ready: seq<Listing>, d: Delivery, published: seq<Event>, releases: seq<bool>,
                  s: State, t: State, u: State, sent0: seq<Command>, sent1: seq<Command>, sent: seq<Command>)
    requires published == if d.Done? && !direct then [Publish(p, AlertFor(sr, ready, d.text))] else []
    requires Pushes(s, published, t, p) && t.claims == s.claims && sent1 == sent0 + DeliverScript(direct, sr, ready, d)
    requires ready != [] && |Sorted(ready)| == |ready| && (!d.Done? ==> Holds(sr, Sorted(ready), Owned(t, p)))
    requires d.Failed? ==> Releasing(p, sr, Sorted(ready), releases, t, u, sent1, sent)
    requires !d.Failed? ==> releases == [] && u == t && sent == sent1
    ensures releases != [] ==> |releases| == |Sorted(ready)|
    ensures BatchDid(direct, p, sr, ready, Outcome([], true, [], [], Some(d), releases), s, u, sent0, sent)
  {
    if d.Failed? {
      assert published == [] && t == s;
      BatchFailed(direct, p, sr, ready, d, releases, s, u, sent0, sent);
    } else {
      var o := Outcome([], true, [], [], Some(d), releases);
      assert BatchScript(direct, sr, ready, o) == DeliverScript(direct, sr, ready, d) + [];
      assert published + [] == published && BatchEvents(direct, p, sr, ready, o) == published;
    }
  }

  lemma BatchFailed(direct: bool, p: nat, sr: Search, ready: seq<Listing>, d: Delivery, releases: seq<bool>,
                    s: State, u: State, sent0: seq<Command>, sent: seq<Command>)
    requires d.Failed? && ready != [] && |Sorted(ready)| == |ready| && Holds(sr, Sorted(ready), Owned(s, p))
    requires Releasing(p, sr, Sorted(ready), releases, s, u, sent0 + DeliverScript(direct, sr, ready, d), sent)
    ensures |releases| == |Sorted(ready)|
    ensures BatchDid(direct, p, sr, ready, Outcome([], true, [], [], Some(d), releases), s, u, sent0, sent)
  {
    var o := Outcome([], true, [], [], Some(d), releases);
    GivenBackWithin(sr, Sorted(ready), releases);
    Regroup(sent0, DeliverScript(direct, sr, ready, d), Releases(sr, Sorted(ready), releases));
    assert BatchEvents(direct, p, sr, ready, o) == ReleaseEvents(p, sr, Sorted(ready), releases);
  }

  ghost predicate ResultsFit(ready: seq<Listing>, drops: seq<string>, o: Outcome) {
    && RawsFit(drops, o.raws) && |Sorted(ready)| == |ready|
    && (o.delivery.Some? <==> ready != [] && !Stopped(o.raws))
    && |o.releases| == if o.delivery.Some? && o.delivery.value.Failed? then |ready| else 0
  }

  // The price drops and the batch.
  ghost predicate ResultsDid(direct: bool, p: nat, sr: Search, ready: seq<Listing>, drops: seq<string>, o: Outcome, s: State, t: State,
                             sent0: seq<Command>, sent: seq<Command>)
    requires ResultsFit(ready, drops, o)
  {
    && Pushes(s, RawEvents(direct, p, sr, drops, o.raws) + BatchEvents(direct, p, sr, ready, o), t, p)
    && sent == sent0 + (RawScripts(direct, sr, drops, o.raws) + BatchScript(direct, sr, ready, o))
    && t.claims == s.claims - if o.releases == [] then {} else GivenBack(sr, Sorted(ready), o.releases)
  }

  lemma ResultsEnd(direct: bool, p: nat, sr: Search, ready: seq<Listing>, drops: seq<string>, o: Outcome, s: State, t: State, u: State,
                   sent0: seq<Command>, sent1: seq<Command>, sent: seq<Command>)
    requires ResultsFit(ready, drops, o)
    requires SentSoFar(direct, p, sr, drops, o.raws, s, t, sent0, sent1)
    requires BatchDid(direct, p, sr, ready, Outcome([], true, [], [], o.delivery, o.releases), t, u, sent1, sent)
    ensures ResultsDid(direct, p, sr, ready, drops, o, s, u, sent0, sent)
  {
    PushMore(s, RawEvents(direct, p, sr, drops, o.raws), t, BatchEvents(direct, p, sr, ready, o), u, p);
    Regroup(sent0, RawScripts(direct, sr, drops, o.raws), BatchScript(direct, sr, ready, o));
  }

  // The mileage filter and the save.
  ghost predicate SavingDid(p: nat, stores: bool, sr: Search, maxKm: int, fs: seq<Found>, o: Outcome, s: State, t: State,
                            sent0: seq<Command>, sent: seq<Command>)
    requires |o.filtered| == |TooFar(maxKm, fs)| && (!o.saved ==> |o.undone| == |Listings(fs)|)
  {
    var run := ReleaseEvents(p, sr, TooFar(maxKm, fs), o.filtered) + SaveEvents(p, sr, fs, o);
    && Performs(s, run, t) && (PusherRun(s, run, p) <==> ByFilter(sr, maxKm, fs, o) !! ByFailedSave(sr, fs, o))
    && t.claims == s.claims - ByFilter(sr, maxKm, fs, o) - ByFailedSave(sr, fs, o)
    && sent == sent0 + (FilterScript(sr, maxKm, fs, o) + SaveScript(stores, sr, fs, o))
  }

  lemma OwnedEnough(sr: Search, maxKm: int, fs: seq<Found>, filtered: seq<bool>, owned: set<Claim>)
    requires OneEach(fs) && ClaimsFor(sr, Listings(fs)) <= owned && |filtered| == |TooFar(maxKm, fs)|
    ensures GivenBack(sr, TooFar(maxKm, fs), filtered) <= owned
    ensures Holds(sr, Ready(WithinKm(maxKm, fs)), owned - GivenBack(sr, TooFar(maxKm, fs), filtered))
  {
    ListingsMeaning(fs);
    TooFarMeaning(maxKm, fs);
    GivenBackWithin(sr, TooFar(maxKm, fs), filtered);
    forall l | l in TooFar(maxKm, fs) ensures ClaimFor(sr, l) in owned {
      var k :| 0 <= k < |fs| && fs[k].listing == l;
      assert Listings(fs)[k] in Listings(fs);
    }
    ReadyFromFeed(maxKm, fs);
    WithinMeaning(maxKm, fs);
    ReadyDistinct(WithinKm(maxKm, fs));
    forall l | l in Ready(WithinKm(maxKm, fs))
      ensures ClaimFor(sr, l) in owned && ClaimFor(sr, l) !in ClaimsFor(sr, TooFar(maxKm, fs))
    {
      var k :| 0 <= k < |fs| && fs[k].listing == l;
      assert Listings(fs)[k] in Listings(fs);
      InReady(maxKm, fs, k);
      ClaimOfOne(sr, fs, TooFar(maxKm, fs), k);
    }
  }

  lemma FirstHalf(p: nat, stores: bool, sr: Search, maxKm: int, fs: seq<Found>, filtered: seq<bool>, saved: bool, undone: seq<bool>,
                  s: State, t: State, u: State, sent0: seq<Command>, sent1: seq<Command>, sent: seq<Command>)
    requires Holds(sr, Listings(fs), Owned(s, p)) && (!stores || fs == [] ==> saved)
    requires Releasing(p, sr, TooFar(maxKm, fs), filtered, s, t, sent0, sent1)
    requires saved ==> undone == [] && u == t
                       && sent == sent1 + if stores && fs != [] then [SaveCmd(Tokens(Listings(fs)), true)] else []
    requires !saved ==> Releasing(p, sr, Listings(fs), undone, t, u, sent1 + [SaveCmd(Tokens(Listings(fs)), false)], sent)
    ensures |undone| == (if saved then 0 else |fs|) && |Listings(fs)| == |fs|
    ensures SavingDid(p, stores, sr, maxKm, fs, Outcome(filtered, saved, undone, [], None, []), s, u, sent0, sent)
    ensures Holds(sr, if saved then Ready(WithinKm(maxKm, fs)) else [], Owned(u, p))
  {
    ListingsMeaning(fs);
    ListingsOneEach(fs);
    OwnedEnough(sr, maxKm, fs, filtered, Owned(s, p));
    if saved {
      WasSaved(p, stores, sr, maxKm, fs, filtered, s, t, sent0, sent1);
    } else {
      NotSaved(p, stores, sr, maxKm, fs, filtered, undone, s, t, u, sent0, sent1, sent);
    }
  }

  lemma WasSaved(p: nat, stores: bool, sr: Search, maxKm: int, fs: seq<Found>, filtered: seq<bool>, s: State, t: State,
                 sent0: seq<Command>, sent1: seq<Command>)
    requires Releasing(p, sr, TooFar(maxKm, fs), filtered, s, t, sent0, sent1)
    requires GivenBack(sr, TooFar(maxKm, fs), filtered) <= Owned(s, p)
    ensures SavingDid(p, stores, sr, maxKm, fs, Outcome(filtered, true, [], [], None, []), s, t, sent0,
                      sent1 + if stores && fs != [] then [SaveCmd(Tokens(Listings(fs)), true)] else [])
  {
    var o := Outcome(filtered, true, [], [], None, []);
    var a := ReleaseEvents(p, sr, TooFar(maxKm, fs), filtered);
    var b := if stores && fs != [] then [SaveCmd(Tokens(Listings(fs)), true)] else [];
    assert a + [] == a;
    assert SaveScript(stores, sr, fs, o) == b + [];
    Regroup(sent0, Releases(sr, TooFar(maxKm, fs), filtered), b);
  }

  lemma NotSaved(p: nat, stores: bool, sr: Search, maxKm: int, fs: seq<Found>, filtered: seq<bool>, undone: seq<bool>,
                 s: State, t: State, u: State, sent0: seq<Command>, sent1: seq<Command>, sent: seq<Command>)
    requires Holds(sr, Listings(fs), Owned(s, p)) && stores && fs != []
    requires Releasing(p, sr, TooFar(maxKm, fs), filtered, s, t, sent0, sent1)
    requires GivenBack(sr, TooFar(maxKm, fs), filtered) <= Owned(s, p)
    requires Releasing(p, sr, Listings(fs), undone, t, u, sent1 + [SaveCmd(Tokens(Listings(fs)), false)], sent)
    ensures SavingDid(p, stores, sr, maxKm, fs, Outcome(filtered, false, undone, [], None, []), s, u, sent0, sent)
  {
    var o := Outcome(filtered, false, undone, [], None, []);
    var a, b := ReleaseEvents(p, sr, TooFar(maxKm, fs), filtered), ReleaseEvents(p, sr, Listings(fs), undone);
    GivenBackWithin(sr, Listings(fs), undone);
    PusherRunsJoin(s, a, b, p);
    RunsCompose(s, a, b);
    Regroup(sent1, [SaveCmd(Tokens(Listings(fs)), false)], Releases(sr, Listings(fs), undone));
    Regroup(sent0, Releases(sr, TooFar(maxKm, fs), filtered), SaveScript(stores, sr, fs, o));
  }

  // The whole pass: the claims it leaves, the commands it sends, the events these perform, and that it keeps
  // to what it owns exactly when no claim is given back twice.
  ghost predicate SearchDid(direct: bool, p: nat, stores: bool, sr: Search, maxKm: int, fs: seq<Found>, drops: seq<string>, o: Outcome,
                            s: State, t: State, sent0: seq<Command>, sent: seq<Command>)
    requires OutcomeOf(maxKm, fs, drops, o)
  {
    && t.claims == ClaimsAfter(sr, maxKm, fs, drops, o, s.claims) && Owned(t, p) == {}
    && sent == sent0 + SearchScript(direct, stores, sr, maxKm, fs, drops, o)
    && Performs(s, SearchRun(direct, p, sr, maxKm, fs, drops, o), t)
    && (PusherRun(s, SearchRun(direct, p, sr, maxKm, fs, drops, o), p)
        <==> ByFilter(sr, maxKm, fs, o) !! ByFailedSave(sr, fs, o))
  }

  lemma PassEnds(direct: bool, p: nat, stores: bool, sr: Search, maxKm: int, fs: seq<Found>, drops: seq<string>, o: Outcome,
                 s: State, t: State, u: State, v: State, sent0: seq<Command>, sent1: seq<Command>, sent: seq<Command>)
    requires |o.filtered| == |TooFar(maxKm, fs)| && |o.undone| == (if o.saved then 0 else |fs|) && |Listings(fs)| == |fs|
    requires ResultsFit(Deliverable(maxKm, fs, o.saved), drops, o) && v == Step(u, Keep(p))
    requires SavingDid(p, stores, sr, maxKm, fs, Outcome(o.filtered, o.saved, o.undone, [], None, []), s, t, sent0, sent1)
    requires ResultsDid(direct, p, sr, Deliverable(maxKm, fs, o.saved), drops, o, t, u, sent1, sent)
    ensures OutcomeOf(maxKm, fs, drops, o)
    ensures SearchDid(direct, p, stores, sr, maxKm, fs, drops, o, s, v, sent0, sent)
  {
    var ready := Deliverable(maxKm, fs, o.saved);
    var a := ReleaseEvents(p, sr, TooFar(maxKm, fs), o.filtered) + SaveEvents(p, sr, fs, o);
    var b := RawEvents(direct, p, sr, drops, o.raws) + BatchEvents(direct, p, sr, ready, o);
    PushOne(t, b, u, Keep(p), p);
    RunsCompose(s, a, b + [Keep(p)]);
    PusherRunsJoin(s, a, b + [Keep(p)], p);
    Regroup(sent0, FilterScript(sr, maxKm, fs, o) + SaveScript(stores, sr, fs, o),
            RawScripts(direct, sr, drops, o.raws) + BatchScript(direct, sr, ready, o));
  }

  class SearchDelivery {
    const backend: Backend
    const delivery: InstantDelivery
    const maxKm: int
    const stores: bool

    constructor (d: InstantDelivery, km: int, hasStore: bool)
      ensures backend == d.backend && delivery == d && maxKm == km && stores == hasStore
    {
      backend, delivery, maxKm, stores := d.backend, d, km, hasStore;
    }

    predicate Valid() {
      delivery.backend == backend
    }

    // Releases one more claim, whoever owns it by now.
    method ReleaseNext(l: Listing, ghost ls: seq<Listing>, ghost answers: seq<bool>, ghost s0: State, ghost sent0: seq<Command>)
      returns (ghost more: seq<bool>)
      requires Valid() && Releasing(delivery.pusher, delivery.search, ls, answers, s0, backend.Abs(), sent0, backend.sent)
      requires forall k :: 0 <= k < |ls| ==> ls[k].token != l.token
      modifies backend`claims, backend`owned, backend`sent
      ensures |more| == |answers| + 1 && more[..|answers|] == answers
      ensures Releasing(delivery.pusher, delivery.search, ls + [l], more, s0, backend.Abs(), sent0, backend.sent)
    {
      ghost var t, sent, p := backend.Abs(), backend.sent, delivery.pusher;
      var c := ClaimFor(delivery.search, l);
      var ok := backend.DeleteClaim(c);
      if ok {
        backend.owned := backend.owned[p := Owned(t, p) - {c}];
      }
      MoreReleased(p, delivery.search, ls, answers, l, ok, s0, t, backend.Abs(), sent0, sent);
      more := answers + [ok];
    }

    // Keeps the listings within the mileage limit and gives the claims of the others back.
    method FilterKm(found: seq<Found>) returns (kept: seq<Found>, ghost answers: seq<bool>)
      requires Valid() && OneEach(found)
      modifies backend`claims, backend`owned, backend`sent
      ensures kept == WithinKm(maxKm, found)
      ensures Releasing(delivery.pusher, delivery.search, TooFar(maxKm, found), answers, old(backend.Abs()), backend.Abs(),
                        old(backend.sent), backend.sent)
    {
      ghost var s0 := backend.Abs();
      kept, answers := [], [];
      for i := 0 to |found|
        invariant kept == WithinKm(maxKm, found[..i])
        invariant Releasing(delivery.pusher, delivery.search, TooFar(maxKm, found[..i]), answers, s0, backend.Abs(),
                            old(backend.sent), backend.sent)
      {
        assert found[..i + 1][..i] == found[..i];
        if KmOk(maxKm, found[i]) {
          kept := kept + [found[i]];
        } else {
          TooFarMeaning(maxKm, found[..i]);
          TooFarApart(maxKm, found, i);
          answers := ReleaseNext(found[i].listing, TooFar(maxKm, found[..i]), answers, s0, old(backend.sent));
        }
      }
      assert found[..|found|] == found;
    }

    // Releases the claims of all the listings, whatever each release answers.
    method ReleaseAll(ls: seq<Listing>) returns (ghost answers: seq<bool>)
      requires Valid() && Distinct(Tokens(ls))
      modifies backend`claims, backend`owned, backend`sent
      ensures Releasing(delivery.pusher, delivery.search, ls, answers, old(backend.Abs()), backend.Abs(),
                        old(backend.sent), backend.sent)
    {
      ghost var s0 := backend.Abs();
      answers := [];
      for i := 0 to |ls|
        invariant Releasing(delivery.pusher, delivery.search, ls[..i], answers, s0, backend.Abs(), old(backend.sent), backend.sent)
      {
        assert forall k :: 0 <= k < i ==> Tokens(ls)[k] != Tokens(ls)[i];
        answers := ReleaseNext(ls[i], ls[..i], answers, s0, old(backend.sent));
        assert ls[..i + 1] == ls[..i] + [ls[i]];
      }
      assert ls[..|ls|] == ls;
    }

    method SaveListings(tokens: seq<string>) returns (ok: bool)
      modifies backend`sent
      ensures backend.sent == old(backend.sent) + [SaveCmd(tokens, ok)]
    {
      ok := *;
      backend.sent := backend.sent + [SaveCmd(tokens, ok)];
    }

    // Saves the records of all listings, those past the mileage limit too; after a failure every claim is
    // released, once more for those.
    method Persist(found: seq<Found>) returns (saved: bool, ghost undone: seq<bool>)
      requires Valid() && OneEach(found)
      modifies backend`claims, backend`owned, backend`sent
      ensures !stores || found == [] ==> saved
      ensures saved ==> undone == [] && backend.Abs() == old(backend.Abs())
                        && backend.sent == old(backend.sent) + if stores && found != [] then [SaveCmd(Tokens(Listings(found)), true)] else []
      ensures !saved ==> Releasing(delivery.pusher, delivery.search, Listings(found), undone, old(backend.Abs()), backend.Abs(),
                                   old(backend.sent) + [SaveCmd(Tokens(Listings(found)), false)], backend.sent)
    {
      saved, undone := true, [];
      if !stores || found == [] {
        return;
      }
      ListingsOneEach(found);
      saved := SaveListings(Tokens(Listings(found)));
      if !saved {
        undone := ReleaseAll(Listings(found));
      }
    }

    // Puts off the listings still without details that appeared just now.
    method SplitReady(found: seq<Found>) returns (ready: seq<Listing>)
      ensures ready == Ready(found)
    {
      ready := [];
      for i := 0 to |found|
        invariant ready == Ready(found[..i])
      {
        assert found[..i + 1][..i] == found[..i];
        if !Deferred(found[i]) {
          ready := ready + [found[i].listing];
        }
      }
      assert found[..|found|] == found;
    }

    // Sends the price drops, up to a recipient who has blocked the bot.
    method SendDrops(drops: seq<string>) returns (any: bool, stopped: bool, ghost raws: seq<RawResult>)
      requires Valid()
      modifies backend`log, backend`owned, backend`sent
      ensures RawsFit(drops, raws) && stopped == Stopped(raws) && any == AnyDelivered(raws)
      ensures SentSoFar(delivery.direct, delivery.pusher, delivery.search, drops, raws, old(backend.Abs()), backend.Abs(),
                        old(backend.sent), backend.sent)
    {
      ghost var s0 := backend.Abs();
      any, stopped, raws := false, false, [];
      for i := 0 to |drops|
        invariant |raws| == i && (forall k :: 0 <= k < i ==> !IsBlocked(raws[k])) && any == AnyDelivered(raws)
        invariant SentSoFar(delivery.direct, delivery.pusher, delivery.search, drops, raws, s0, backend.Abs(),
                            old(backend.sent), backend.sent)
      {
        var r;
        r, raws := SendNext(drops, i, raws, s0, old(backend.sent));
        if IsBlocked(r) {
          stopped := true;
          return;
        }
        any := any || r == RawAnswered(Delivered);
      }
    }

    method SendNext(drops: seq<string>, i: nat, ghost before: seq<RawResult>, ghost s0: State, ghost sent0: seq<Command>)
      returns (r: RawResult, ghost raws: seq<RawResult>)
      requires Valid() && i == |before| < |drops|
      requires SentSoFar(delivery.direct, delivery.pusher, delivery.search, drops, before, s0, backend.Abs(), sent0, backend.sent)
      modifies backend`log, backend`owned, backend`sent
      ensures raws == before + [r] && (AnyDelivered(raws) <==> AnyDelivered(before) || r == RawAnswered(Delivered))
      ensures SentSoFar(delivery.direct, delivery.pusher, delivery.search, drops, raws, s0, backend.Abs(), sent0, backend.sent)
    {
      ghost var s, sent, more := backend.Abs(), backend.sent, [];
      r, more := delivery.DeliverRaw(drops[i]);
      MoreSent(delivery.direct, delivery.pusher, delivery.search, drops, before, r, s0, s, backend.Abs(), more, sent0, sent);
      raws := before + [r];
      assert raws[|before|] == r && forall k :: 0 <= k < |before| ==> raws[k] == before[k];
    }

    // Delivers the batch, and gives all its claims back after a transient failure.
    method DeliverReady(ready: seq<Listing>) returns (d: Option<Delivery>, ghost releases: seq<bool>)
      requires Valid() && Holds(delivery.search, ready, Owned(backend.Abs(), delivery.pusher))
      modifies backend`log, backend`claims, backend`owned, backend`sent
      ensures |Sorted(ready)| == |ready| && (d.None? <==> ready == [])
      ensures |releases| == if d.Some? && d.value.Failed? then |ready| else 0
      ensures BatchDid(delivery.direct, delivery.pusher, delivery.search, ready, Outcome([], true, [], [], d, releases),
                       old(backend.Abs()), backend.Abs(), old(backend.sent), backend.sent)
    {
      SortedKeeps(delivery.search, ready);
      d, releases := None, [];
      if ready != [] {
        var batch := new Listing[|ready|](i requires 0 <= i < |ready| => ready[i]);
        assert batch[..] == ready;
        ghost var s, published := backend.Abs(), [];
        var result;
        result, published := delivery.DeliverBatch(batch);
        ghost var t, sent := backend.Abs(), backend.sent;
        if result.Failed? {
          releases := ReleaseAll(batch[..]);
        }
        d := Some(result);
        BatchDone(delivery.direct, delivery.pusher, delivery.search, ready, result, published, releases, s, t, backend.Abs(),
                  old(backend.sent), sent, backend.sent);
      } else {
        NothingDone(delivery.direct, delivery.pusher, delivery.search, [], backend.Abs(), backend.sent);
      }
    }

    /** The whole pass over one search. Every command, event and claim is accounted for; it keeps to what it
        owns exactly when no claim is given back twice, by the mileage filter and again after a failed save. */
    method DeliverSearch(found: seq<Found>, drops: seq<string>) returns (counted: bool, ghost o: Outcome)
      requires Valid() && Holds(delivery.search, Listings(found), Owned(backend.Abs(), delivery.pusher))
      modifies backend
      ensures OutcomeOf(maxKm, found, drops, o) && (!stores || found == [] ==> o.saved) && counted == Counted(o)
      ensures SearchDid(delivery.direct, delivery.pusher, stores, delivery.search, maxKm, found, drops, o,
                        old(backend.Abs()), backend.Abs(), old(backend.sent), backend.sent)
    {
      ghost var s, sent0 := backend.Abs(), backend.sent;
      var kept, saved;
      ghost var filtered, undone;
      kept, saved, filtered, undone := FilterAndSave(found);
      ghost var t, sent1 := backend.Abs(), backend.sent;
      var ready := [];
      if saved {
        ready := SplitReady(kept);
      }
      counted, o := DeliverResults(ready, drops, filtered, saved, undone);
      ghost var u := backend.Abs();
      KeepRest();
      PassEnds(delivery.direct, delivery.pusher, stores, delivery.search, maxKm, found, drops, o, s, t, u, backend.Abs(),
               sent0, sent1, backend.sent);
    }

    method FilterAndSave(found: seq<Found>)
      returns (kept: seq<Found>, saved: bool, ghost filtered: seq<bool>, ghost undone: seq<bool>)
      requires Valid() && Holds(delivery.search, Listings(found), Owned(backend.Abs(), delivery.pusher))
      modifies backend`claims, backend`owned, backend`sent
      ensures kept == WithinKm(maxKm, found) && (!stores || found == [] ==> saved)
      ensures |filtered| == |TooFar(maxKm, found)|
      ensures |undone| == (if saved then 0 else |found|) && |Listings(found)| == |found|
      ensures SavingDid(delivery.pusher, stores, delivery.search, maxKm, found, Outcome(filtered, saved, undone, [], None, []),
                        old(backend.Abs()), backend.Abs(), old(backend.sent), backend.sent)
      ensures Holds(delivery.search, if saved then Ready(kept) else [], Owned(backend.Abs(), delivery.pusher))
    {
      ghost var s, sent0 := backend.Abs(), backend.sent;
      ListingsOneEach(found);
      kept, filtered := FilterKm(found);
      ghost var t, sent1 := backend.Abs(), backend.sent;
      saved, undone := Persist(found);
      FirstHalf(delivery.pusher, stores, delivery.search, maxKm, found, filtered, saved, undone, s, t, backend.Abs(),
                sent0, sent1, backend.sent);
    }

    // The price drops first, then the batch.
    method DeliverResults(ready: seq<Listing>, drops: seq<string>, ghost filtered: seq<bool>, ghost saved: bool, ghost undone: seq<bool>)
      returns (counted: bool, ghost o: Outcome)
      requires Valid() && Holds(delivery.search, ready, Owned(backend.Abs(), delivery.pusher))
      modifies backend`log, backend`claims, backend`owned, backend`sent
      ensures o == Outcome(filtered, saved, undone, o.raws, o.delivery, o.releases) && counted == Counted(o)
      ensures ResultsFit(ready, drops, o)
      ensures ResultsDid(delivery.direct, delivery.pusher, delivery.search, ready, drops, o, old(backend.Abs()), backend.Abs(),
                         old(backend.sent), backend.sent)
    {
      ghost var s, sent0 := backend.Abs(), backend.sent;
      var any, stopped;
      ghost var raws;
      any, stopped, raws := SendDrops(drops);
      ghost var t, sent := backend.Abs(), backend.sent;
      var d: Option<Delivery> := None;
      ghost var releases := [];
      SortedKeeps(delivery.search, ready);
      if stopped {
        NothingDone(delivery.direct, delivery.pusher, delivery.search, ready, t, sent);
      } else {
        d, releases := DeliverReady(ready);
      }
      counted := !stopped && !(d.Some? && d.value.Malformed?) && (any || (d.Some? && d.value.Done?));
      o := Outcome(filtered, saved, undone, raws, d, releases);
      ResultsEnd(delivery.direct, delivery.pusher, delivery.search, ready, drops, o, s, t, backend.Abs(), sent0, sent, backend.sent);
    }

    // The pass ends; claims it neither published nor released stay in the table.
    ghost method KeepRest()
      requires Valid()
      modifies backend`owned
      ensures backend.Abs() == Step(old(backend.Abs()), Keep(delivery.pusher))
    {
      backend.owned := backend.owned[delivery.pusher := {}];
    }
  }

  lemma TooFarApart(maxKm: int, fs: seq<Found>, i: nat)
    requires OneEach(fs) && i < |fs|
    ensures forall k :: 0 <= k < |TooFar(maxKm, fs[..i])| ==> TooFar(maxKm, fs[..i])[k].token != fs[i].listing.token
  {
    var front := TooFar(maxKm, fs[..i]);
    TooFarMeaning(maxKm, fs[..i]);
    forall k | 0 <= k < |front| ensures front[k].token != fs[i].listing.token {
      assert front[k] in front;
    }
  }
}
