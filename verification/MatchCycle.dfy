/**
  One scheduler cycle: fetch a feed without duplicate tokens, match it against all searches, decide
  per user what is a new listing and what a price drop, persist, and record the prices seen.
 */
module MatchCycle {
  import opened Matching
  import opened Text
  import opened Wrappers

  // What the price store has for a token.
  datatype Peek = PeekError | Unknown | Known(price: int)

  // What the stores answer during the cycle. Each is asked at most once per argument, so any behaviour
  // of theirs, failures included, is such a function.
  datatype Env = Env(
    hidden: int -> set<string>,
    claim: (string, int, int) -> Option<bool>,
    peek: string -> Peek)

  datatype PriceResult = PriceResult(oldPrice: int, changed: bool, err: bool)

  datatype Drop = Drop(rawIdx: nat, searchId: int, oldPrice: int)

  // One decision to notify: listing idx for the search, as a price drop or as new.
  datatype Found = Found(idx: nat, search: Search, oldPrice: Option<int>)

  function ResultOf(peek: Peek, price: int): PriceResult {
    match peek
    case PeekError => PriceResult(0, false, true)
    case Unknown => PriceResult(0, false, false)
    case Known(prev) => PriceResult(prev, price != prev, false)
  }

  // A new or changed price is staged for recording.
  predicate Stages(peek: Peek, price: int) {
    peek.Unknown? || (peek.Known? && price != peek.price)
  }

  predicate Dropped(p: PriceResult, price: int) {
    !p.err && p.changed && price < p.oldPrice
  }

  predicate IsDrop(env: Env, kept: bool, l: RawListing) {
    kept && l.price > 0 && Dropped(ResultOf(env.peek(l.token), l.price), l.price)
  }

  predicate DistinctTokens(raw: seq<RawListing>) {
    forall i, j :: 0 <= i < j < |raw| ==> raw[i].token != raw[j].token
  }

  ghost predicate InFeed(raw: seq<RawListing>, found: seq<Found>) {
    forall k :: 0 <= k < |found| ==> found[k].idx < |raw|
  }

  // The user was already told about the token in this cycle.
  ghost predicate Told(raw: seq<RawListing>, found: seq<Found>, chat: int, token: string) {
    exists k :: 0 <= k < |found| && found[k].search.chat == chat && found[k].idx < |raw| && raw[found[k].idx].token == token
  }

  // What one match adds to the decisions: nothing for a hidden listing, a failed claim query or a
  // user who was told already; a drop if the price fell; otherwise a new listing if the claim is new.
  ghost function Decision(env: Env, kept: bool, raw: seq<RawListing>, found: seq<Found>, i: nat, m: Search): seq<Found>
    requires i < |raw|
  {
    var l := raw[i];
    var answer := env.claim(l.token, m.chat, m.id);
    if l.token in env.hidden(m.chat) || answer.None? || Told(raw, found, m.chat, l.token) then []
    else if IsDrop(env, kept, l) then [Found(i, m, Some(ResultOf(env.peek(l.token), l.price).oldPrice))]
    else if answer.value then [Found(i, m, None)]
    else []
  }

  // The decisions after the first j matches of listing i.
  ghost function ForMatches(env: Env, kept: bool, raw: seq<RawListing>, found: seq<Found>, i: nat, ms: seq<Search>, j: nat): seq<Found>
    requires i < |raw| && j <= |ms|
  {
    if j == 0 then found
    else
      var before := ForMatches(env, kept, raw, found, i, ms, j - 1);
      before + Decision(env, kept, raw, before, i, ms[j - 1])
  }

  // The searches each listing matches.
  ghost function AllHits(u: Chars, rules: seq<Search>, raw: seq<RawListing>): (hits: seq<seq<Search>>)
    ensures AreHits(u, rules, raw, hits)
  {
    seq(|raw|, k requires 0 <= k < |raw| => RulesFor(u, rules, raw[k]))
  }

  // The decisions after the first i listings.
  ghost function ForFeed(env: Env, kept: bool, raw: seq<RawListing>, hits: seq<seq<Search>>, i: nat): seq<Found>
    requires i <= |raw| == |hits|
  {
    if i == 0 then []
    else ForMatches(env, kept, raw, ForFeed(env, kept, raw, hits, i - 1), i - 1, hits[i - 1], |hits[i - 1]|)
  }

  /* ---- what every decision satisfies ---- */

  // No user is told twice about a token.
  ghost predicate OncePerUser(raw: seq<RawListing>, found: seq<Found>)
    requires InFeed(raw, found)
  {
    forall j, k :: 0 <= j < k < |found| && found[j].search.chat == found[k].search.chat ==>
      raw[found[j].idx].token != raw[found[k].idx].token
  }

  // A decision is for a search the listing matches; it is a drop exactly when the price fell, and
  // otherwise the claim was new.
  ghost predicate Justified(env: Env, kept: bool, u: Chars, rules: seq<Search>, l: RawListing, f: Found) {
    && f.search in rules && MatchesSearch(u, l, f.search)
    && l.token !in env.hidden(f.search.chat)
    && (f.oldPrice.Some? <==> IsDrop(env, kept, l))
    && (f.oldPrice.Some? ==> f.oldPrice.value == env.peek(l.token).price > l.price)
    && (f.oldPrice.None? ==> env.claim(l.token, f.search.chat, f.search.id) == Some(true))
  }

  ghost predicate AllJustified(env: Env, kept: bool, u: Chars, rules: seq<Search>, raw: seq<RawListing>, found: seq<Found>)
    requires InFeed(raw, found)
  {
    forall k :: 0 <= k < |found| ==> Justified(env, kept, u, rules, raw[found[k].idx], found[k])
  }

  lemma DecisionKeeps(env: Env, kept: bool, u: Chars, rules: seq<Search>, raw: seq<RawListing>,
                      found: seq<Found>, i: nat, m: Search)
    requires i < |raw| && InFeed(raw, found) && m in rules && MatchesSearch(u, raw[i], m)
    requires OncePerUser(raw, found) && AllJustified(env, kept, u, rules, raw, found)
    ensures var r := found + Decision(env, kept, raw, found, i, m);
            InFeed(raw, r) && OncePerUser(raw, r) && AllJustified(env, kept, u, rules, raw, r)
  {
    var d := Decision(env, kept, raw, found, i, m);
    var r := found + d;
    if d != [] {
      assert Justified(env, kept, u, rules, raw[i], d[0]);
      forall k | 0 <= k < |r| ensures Justified(env, kept, u, rules, raw[r[k].idx], r[k]) {
        if k < |found| {
          assert Justified(env, kept, u, rules, raw[found[k].idx], found[k]);
        }
      }
      forall k | 0 <= k < |found| && found[k].search.chat == m.chat
        ensures raw[found[k].idx].token != raw[i].token
      {
        assert !Told(raw, found, m.chat, raw[i].token);
      }
    } else {
      assert r == found;
    }
  }

  ghost predicate AllMatch(u: Chars, rules: seq<Search>, l: RawListing, ms: seq<Search>) {
    forall m :: m in ms ==> m in rules && MatchesSearch(u, l, m)
  }

  lemma {:induction false} MatchesKeep(env: Env, kept: bool, u: Chars, rules: seq<Search>, raw: seq<RawListing>,
                                       found: seq<Found>, i: nat, ms: seq<Search>, j: nat)
    requires i < |raw| && j <= |ms| && InFeed(raw, found) && AllMatch(u, rules, raw[i], ms)
    requires OncePerUser(raw, found) && AllJustified(env, kept, u, rules, raw, found)
    ensures var r := ForMatches(env, kept, raw, found, i, ms, j);
            InFeed(raw, r) && OncePerUser(raw, r) && AllJustified(env, kept, u, rules, raw, r)
  {
    if j > 0 {
      MatchesKeep(env, kept, u, rules, raw, found, i, ms, j - 1);
      var before := ForMatches(env, kept, raw, found, i, ms, j - 1);
      DecisionKeeps(env, kept, u, rules, raw, before, i, ms[j - 1]);
      assert ForMatches(env, kept, raw, found, i, ms, j) == before + Decision(env, kept, raw, before, i, ms[j - 1]);
    }
  }

  ghost predicate HitsMatch(u: Chars, rules: seq<Search>, raw: seq<RawListing>, hits: seq<seq<Search>>) {
    |hits| == |raw| && forall k :: 0 <= k < |raw| ==> AllMatch(u, rules, raw[k], hits[k])
  }

  lemma {:induction false} FeedKeeps(env: Env, kept: bool, u: Chars, rules: seq<Search>, raw: seq<RawListing>,
                                     hits: seq<seq<Search>>, i: nat)
    requires i <= |raw| && HitsMatch(u, rules, raw, hits)
    ensures var r := ForFeed(env, kept, raw, hits, i);
            InFeed(raw, r) && OncePerUser(raw, r) && AllJustified(env, kept, u, rules, raw, r)
  {
    if i > 0 {
      FeedKeeps(env, kept, u, rules, raw, hits, i - 1);
      var before := ForFeed(env, kept, raw, hits, i - 1);
      MatchesKeep(env, kept, u, rules, raw, before, i - 1, hits[i - 1], |hits[i - 1]|);
    }
  }

  lemma AllHitsMatch(u: Chars, rules: seq<Search>, raw: seq<RawListing>)
    ensures HitsMatch(u, rules, raw, AllHits(u, rules, raw))
  {
    forall k | 0 <= k < |raw| ensures AllMatch(u, rules, raw[k], AllHits(u, rules, raw)[k]) {
      assert IsHit(u, rules, raw, AllHits(u, rules, raw), k);
      RulesForMeaning(u, rules, raw[k]);
    }
  }

  /** Over a feed with distinct tokens: nobody is told twice about a token, and no token is a price drop
      for one user and a new listing for another. */
  lemma DropsAndNewsApart(env: Env, kept: bool, u: Chars, rules: seq<Search>, raw: seq<RawListing>)
    requires DistinctTokens(raw)
    ensures var r := ForFeed(env, kept, raw, AllHits(u, rules, raw), |raw|);
            && InFeed(raw, r) && OncePerUser(raw, r)
            && forall j, k :: 0 <= j < |r| && 0 <= k < |r| && r[j].oldPrice.Some? && r[k].oldPrice.None? ==>
                 raw[r[j].idx].token != raw[r[k].idx].token
  {
    var hits := AllHits(u, rules, raw);
    AllHitsMatch(u, rules, raw);
    FeedKeeps(env, kept, u, rules, raw, hits, |raw|);
    var r := ForFeed(env, kept, raw, hits, |raw|);
    forall j, k | 0 <= j < |r| && 0 <= k < |r| && r[j].oldPrice.Some? && r[k].oldPrice.None?
      ensures raw[r[j].idx].token != raw[r[k].idx].token
    {
      assert Justified(env, kept, u, rules, raw[r[j].idx], r[j]);
      assert Justified(env, kept, u, rules, raw[r[k].idx], r[k]);
      assert r[j].idx != r[k].idx;
    }
  }

  /* ---- the lists the cycle keeps ---- */

  // The listings found new for a search, in order.
  function NewFor(raw: seq<RawListing>, found: seq<Found>, id: int): seq<RawListing>
    requires forall k :: 0 <= k < |found| ==> found[k].idx < |raw|
  {
    if found == [] then []
    else
      var n := |found| - 1;
      NewFor(raw, found[..n], id)
      + if found[n].oldPrice.None? && found[n].search.id == id then [raw[found[n].idx]] else []
  }

  function DropsOf(found: seq<Found>): seq<Drop> {
    if found == [] then []
    else
      var n := |found| - 1;
      DropsOf(found[..n])
      + if found[n].oldPrice.Some? then [Drop(found[n].idx, found[n].search.id, found[n].oldPrice.value)] else []
  }

  function Lookup<T>(m: map<int, seq<T>>, id: int): seq<T> {
    if id in m then m[id] else []
  }

  function CountFor(m: map<int, nat>, id: int): nat {
    if id in m then m[id] else 0
  }

  function DeliveredTo(delivered: map<int, set<string>>, chat: int): set<string> {
    if chat in delivered then delivered[chat] else {}
  }

  ghost predicate ListsAgree(raw: seq<RawListing>, found: seq<Found>, newListings: map<int, seq<RawListing>>, drops: seq<Drop>)
    requires InFeed(raw, found)
  {
    (forall id :: Lookup(newListings, id) == NewFor(raw, found, id)) && drops == DropsOf(found)
  }

  ghost predicate DeliveredAgree(raw: seq<RawListing>, found: seq<Found>, delivered: map<int, set<string>>)
    requires InFeed(raw, found)
  {
    forall chat, token :: token in DeliveredTo(delivered, chat) <==> Told(raw, found, chat, token)
  }

  /* ---- every decision that is due is made ---- */

  // Prices are kept, and the last recorded price of the listing was higher.
  predicate Fell(env: Env, kept: bool, l: RawListing) {
    kept && l.price > 0 && env.peek(l.token).Known? && l.price < env.peek(l.token).price
  }

  // The search matches, its user sees the listing and the claim query worked; and there is something to
  // tell: the price fell or the claim was new.
  predicate Wanted(env: Env, kept: bool, u: Chars, l: RawListing, m: Search) {
    && MatchesSearch(u, l, m) && l.token !in env.hidden(m.chat)
    && env.claim(l.token, m.chat, m.id).Some?
    && (Fell(env, kept, l) || env.claim(l.token, m.chat, m.id).value)
  }

  // A user hears of a listing through the first of their searches that wants it.
  ghost predicate Chosen(env: Env, kept: bool, u: Chars, rules: seq<Search>, l: RawListing, r: nat) {
    && r < |rules| && Wanted(env, kept, u, l, rules[r])
    && forall q :: 0 <= q < r && rules[q].chat == rules[r].chat ==> !Wanted(env, kept, u, l, rules[q])
  }

  // The listings that are new for search r, in the order of the feed.
  ghost function NewsOf(env: Env, kept: bool, u: Chars, rules: seq<Search>, raw: seq<RawListing>, r: nat): seq<RawListing> {
    if raw == [] then []
    else
      var n := |raw| - 1;
      NewsOf(env, kept, u, rules, raw[..n], r)
      + if Chosen(env, kept, u, rules, raw[n], r) && !Fell(env, kept, raw[n]) then [raw[n]] else []
  }

  /** What the cycle reports is what is due: the new listings of each search, in order, and the price drops. */
  ghost predicate ReportsExactly(env: Env, kept: bool, u: Chars, rules: seq<Search>, raw: seq<RawListing>,
                                 newListings: map<int, seq<RawListing>>, drops: seq<Drop>)
  {
    forall r :: 0 <= r < |rules| ==> ReportsFor(env, kept, u, rules, raw, newListings, drops, r)
  }

  ghost predicate ReportsFor(env: Env, kept: bool, u: Chars, rules: seq<Search>, raw: seq<RawListing>,
                             newListings: map<int, seq<RawListing>>, drops: seq<Drop>, r: nat)
    requires r < |rules|
  {
    && Lookup(newListings, rules[r].id) == NewsOf(env, kept, u, rules, raw, r)
    && (forall i, price :: 0 <= i < |raw| ==>
          (Drop(i, rules[r].id, price) in drops <==> IsDue(env, kept, u, rules, raw[i], r, price)))
  }

  // The search is to be told that the price fell from the given one.
  ghost predicate IsDue(env: Env, kept: bool, u: Chars, rules: seq<Search>, l: RawListing, r: nat, price: int) {
    Chosen(env, kept, u, rules, l, r) && Fell(env, kept, l) && price == env.peek(l.token).price
  }

  // The decisions found so far, and those for listing i and the first r searches.
  ghost function Picks(env: Env, kept: bool, u: Chars, rules: seq<Search>, raw: seq<RawListing>, found: seq<Found>, i: nat, r: nat): seq<Found>
    requires i < |raw| && r <= |rules|
  {
    if r == 0 then found
    else
      var before := Picks(env, kept, u, rules, raw, found, i, r - 1);
      if Chosen(env, kept, u, rules, raw[i], r - 1) then before + [Pick(env, kept, rules, raw, i, r - 1)] else before
  }

  function Pick(env: Env, kept: bool, rules: seq<Search>, raw: seq<RawListing>, i: nat, r: nat): Found
    requires i < |raw| && r < |rules|
  {
    Found(i, rules[r], if Fell(env, kept, raw[i]) then Some(env.peek(raw[i].token).price) else None)
  }

  ghost function AllPicks(env: Env, kept: bool, u: Chars, rules: seq<Search>, raw: seq<RawListing>, i: nat): seq<Found>
    requires i <= |raw|
  {
    if i == 0 then []
    else Picks(env, kept, u, rules, raw, AllPicks(env, kept, u, rules, raw, i - 1), i - 1, |rules|)
  }

  ghost predicate Before(found: seq<Found>, i: nat) {
    forall k :: 0 <= k < |found| ==> found[k].idx < i
  }

  // One of the first r searches of the user wants the listing.
  predicate OneWanted(env: Env, kept: bool, u: Chars, rules: seq<Search>, l: RawListing, r: nat, chat: int)
    requires r <= |rules|
  {
    r > 0 &&
    (OneWanted(env, kept, u, rules, l, r - 1, chat) || (rules[r - 1].chat == chat && Wanted(env, kept, u, l, rules[r - 1])))
  }

  lemma {:induction false} WantedMeaning(env: Env, kept: bool, u: Chars, rules: seq<Search>, l: RawListing, r: nat, chat: int)
    requires r <= |rules|
    ensures OneWanted(env, kept, u, rules, l, r, chat)
            <==> exists q :: 0 <= q < r && rules[q].chat == chat && Wanted(env, kept, u, l, rules[q])
  {
    if r > 0 {
      WantedMeaning(env, kept, u, rules, l, r - 1, chat);
    }
  }

  lemma ChosenFirst(env: Env, kept: bool, u: Chars, rules: seq<Search>, l: RawListing, r: nat)
    requires r < |rules|
    ensures Chosen(env, kept, u, rules, l, r)
            <==> Wanted(env, kept, u, l, rules[r]) && !OneWanted(env, kept, u, rules, l, r, rules[r].chat)
  {
    WantedMeaning(env, kept, u, rules, l, r, rules[r].chat);
  }

  // The decisions so far are about listings up to i, and a user was told about listing i exactly when one of
  // the first r searches wants it for them.
  ghost predicate PickedSoFar(env: Env, kept: bool, u: Chars, rules: seq<Search>, raw: seq<RawListing>,
                              found: seq<Found>, i: nat, r: nat)
    requires i < |raw| && r <= |rules|
  {
    && InFeed(raw, found) && Before(found, i + 1)
    && forall chat :: Told(raw, found, chat, raw[i].token) <==> OneWanted(env, kept, u, rules, raw[i], r, chat)
  }

  lemma PickedMore(env: Env, kept: bool, u: Chars, rules: seq<Search>, raw: seq<RawListing>, found: seq<Found>, i: nat, r: nat)
    requires i < |raw| && r < |rules| && PickedSoFar(env, kept, u, rules, raw, found, i, r)
    ensures PickedSoFar(env, kept, u, rules, raw,
              if Chosen(env, kept, u, rules, raw[i], r) then found + [Pick(env, kept, rules, raw, i, r)] else found, i, r + 1)
  {
    ChosenFirst(env, kept, u, rules, raw[i], r);
    ToldMore(raw, found, Pick(env, kept, rules, raw, i, r));
  }

  lemma DecisionIsPick(env: Env, kept: bool, u: Chars, rules: seq<Search>, raw: seq<RawListing>,
                       found: seq<Found>, i: nat, r: nat)
    requires i < |raw| && r < |rules| && PickedSoFar(env, kept, u, rules, raw, found, i, r)
    requires MatchesSearch(u, raw[i], rules[r])
    ensures found + Decision(env, kept, raw, found, i, rules[r])
            == if Chosen(env, kept, u, rules, raw[i], r) then found + [Pick(env, kept, rules, raw, i, r)] else found
  {
    ChosenFirst(env, kept, u, rules, raw[i], r);
    assert found + [] == found;
  }

  lemma {:induction false} ForMatchesFront(env: Env, kept: bool, raw: seq<RawListing>, found: seq<Found>, i: nat,
                                           ms: seq<Search>, m: Search, j: nat)
    requires i < |raw| && j <= |ms|
    ensures ForMatches(env, kept, raw, found, i, ms + [m], j) == ForMatches(env, kept, raw, found, i, ms, j)
  {
    if j > 0 {
      ForMatchesFront(env, kept, raw, found, i, ms, m, j - 1);
    }
  }

  // The matches among the first r searches.
  function MatchesUpTo(u: Chars, rules: seq<Search>, l: RawListing, r: nat): seq<Search>
    requires r <= |rules|
  {
    if r == 0 then []
    else
      var ms := MatchesUpTo(u, rules, l, r - 1);
      if MatchesSearch(u, l, rules[r - 1]) then ms + [rules[r - 1]] else ms
  }

  lemma {:induction false} MatchesUpToAll(u: Chars, rules: seq<Search>, l: RawListing, r: nat)
    requires r <= |rules|
    ensures MatchesUpTo(u, rules, l, r) == RulesFor(u, rules[..r], l)
  {
    if r > 0 {
      MatchesUpToAll(u, rules, l, r - 1);
      assert rules[..r][..r - 1] == rules[..r - 1];
    }
  }

  // The decisions for the matches among the first r searches are those due to them.
  ghost predicate PicksAgree(env: Env, kept: bool, u: Chars, rules: seq<Search>, raw: seq<RawListing>, found: seq<Found>, i: nat,
                             ms: seq<Search>, r: nat)
    requires i < |raw| && r <= |rules|
  {
    && ForMatches(env, kept, raw, found, i, ms, |ms|) == Picks(env, kept, u, rules, raw, found, i, r)
    && PickedSoFar(env, kept, u, rules, raw, Picks(env, kept, u, rules, raw, found, i, r), i, r)
  }

  lemma MatchIsPick(env: Env, kept: bool, u: Chars, rules: seq<Search>, raw: seq<RawListing>, found: seq<Found>, i: nat,
                    ms: seq<Search>, r: nat)
    requires i < |raw| && r < |rules| && PicksAgree(env, kept, u, rules, raw, found, i, ms, r)
    requires MatchesSearch(u, raw[i], rules[r])
    ensures PicksAgree(env, kept, u, rules, raw, found, i, ms + [rules[r]], r + 1)
  {
    PickedMore(env, kept, u, rules, raw, Picks(env, kept, u, rules, raw, found, i, r), i, r);
    OneMoreMatch(env, kept, raw, found, i, ms, rules[r]);
    DecisionIsPick(env, kept, u, rules, raw, Picks(env, kept, u, rules, raw, found, i, r), i, r);
  }

  lemma NoMatchNoPick(env: Env, kept: bool, u: Chars, rules: seq<Search>, raw: seq<RawListing>, found: seq<Found>, i: nat,
                      ms: seq<Search>, r: nat)
    requires i < |raw| && r < |rules| && PicksAgree(env, kept, u, rules, raw, found, i, ms, r)
    requires !MatchesSearch(u, raw[i], rules[r])
    ensures PicksAgree(env, kept, u, rules, raw, found, i, ms, r + 1)
  {
    PickedMore(env, kept, u, rules, raw, Picks(env, kept, u, rules, raw, found, i, r), i, r);
  }

  lemma {:induction false} MatchesArePicks(env: Env, kept: bool, u: Chars, rules: seq<Search>, raw: seq<RawListing>,
                                           found: seq<Found>, i: nat, r: nat)
    requires DistinctTokens(raw) && i < |raw| && r <= |rules| && Before(found, i)
    ensures PicksAgree(env, kept, u, rules, raw, found, i, MatchesUpTo(u, rules, raw[i], r), r)
  {
    if r > 0 {
      MatchesArePicks(env, kept, u, rules, raw, found, i, r - 1);
      var ms := MatchesUpTo(u, rules, raw[i], r - 1);
      if MatchesSearch(u, raw[i], rules[r - 1]) {
        MatchIsPick(env, kept, u, rules, raw, found, i, ms, r - 1);
      } else {
        NoMatchNoPick(env, kept, u, rules, raw, found, i, ms, r - 1);
      }
    }
  }

  lemma OneMoreMatch(env: Env, kept: bool, raw: seq<RawListing>, found: seq<Found>, i: nat, ms: seq<Search>, m: Search)
    requires i < |raw|
    ensures var before := ForMatches(env, kept, raw, found, i, ms, |ms|);
            ForMatches(env, kept, raw, found, i, ms + [m], |ms| + 1) == before + Decision(env, kept, raw, before, i, m)
  {
    ForMatchesFront(env, kept, raw, found, i, ms, m, |ms|);
  }

  /** The decisions of the cycle are exactly those that are due, each through the first search that wants the
      listing for its user. */
  lemma {:induction false} FeedIsPicks(env: Env, kept: bool, u: Chars, rules: seq<Search>, raw: seq<RawListing>,
                                       hits: seq<seq<Search>>, i: nat)
    requires DistinctTokens(raw) && i <= |raw| && AreHits(u, rules, raw, hits)
    ensures FeedAgrees(env, kept, u, rules, raw, hits, i)
  {
    if i > 0 {
      FeedIsPicks(env, kept, u, rules, raw, hits, i - 1);
      ListingIsPicks(env, kept, u, rules, raw, AllPicks(env, kept, u, rules, raw, i - 1), hits, i - 1);
    }
  }

  ghost predicate FeedAgrees(env: Env, kept: bool, u: Chars, rules: seq<Search>, raw: seq<RawListing>,
                             hits: seq<seq<Search>>, i: nat)
    requires i <= |raw| == |hits|
  {
    var picks := AllPicks(env, kept, u, rules, raw, i);
    ForFeed(env, kept, raw, hits, i) == picks && Before(picks, i)
  }

  lemma ListingIsPicks(env: Env, kept: bool, u: Chars, rules: seq<Search>, raw: seq<RawListing>, found: seq<Found>,
                       hits: seq<seq<Search>>, i: nat)
    requires DistinctTokens(raw) && i < |raw| && Before(found, i) && AreHits(u, rules, raw, hits)
    ensures ForMatches(env, kept, raw, found, i, hits[i], |hits[i]|) == Picks(env, kept, u, rules, raw, found, i, |rules|)
    ensures Before(Picks(env, kept, u, rules, raw, found, i, |rules|), i + 1)
  {
    MatchesArePicks(env, kept, u, rules, raw, found, i, |rules|);
    MatchesUpToAll(u, rules, raw[i], |rules|);
    assert rules[..|rules|] == rules;
    assert IsHit(u, rules, raw, hits, i);
  }

  // What the decisions say about search r: its new listings, and its drops among them.
  ghost predicate TellsOf(raw: seq<RawListing>, found: seq<Found>, id: int, news: seq<RawListing>, d: Drop, dropped: bool) {
    InFeed(raw, found) && NewFor(raw, found, id) == news && (d in DropsOf(found) <==> dropped)
  }

  // d is the fall in price of listing i.
  predicate DropOf(env: Env, kept: bool, raw: seq<RawListing>, d: Drop, i: nat)
    requires i < |raw|
  {
    d.rawIdx == i && Fell(env, kept, raw[i]) && d.oldPrice == env.peek(raw[i].token).price
  }

  // What the picks of one listing add to the new listings of search r, and to the drops.
  lemma {:induction false} PicksAdd(env: Env, kept: bool, u: Chars, rules: seq<Search>, raw: seq<RawListing>,
                                    found: seq<Found>, i: nat, r: nat, q: nat, news: seq<RawListing>, d: Drop, dropped: bool)
    requires DistinctIds(rules) && i < |raw| && r < |rules| && q <= |rules| && d.searchId == rules[r].id
    requires TellsOf(raw, found, rules[r].id, news, d, dropped)
    ensures var due := r < q && Chosen(env, kept, u, rules, raw[i], r);
            var more := Picks(env, kept, u, rules, raw, found, i, q);
            TellsOf(raw, more, rules[r].id, if due && !Fell(env, kept, raw[i]) then news + [raw[i]] else news,
                    d, dropped || (due && DropOf(env, kept, raw, d, i)))
  {
    if q > 0 {
      PicksAdd(env, kept, u, rules, raw, found, i, r, q - 1, news, d, dropped);
      if Chosen(env, kept, u, rules, raw[i], q - 1) {
        var due := r < q - 1 && Chosen(env, kept, u, rules, raw[i], r);
        PickTells(env, kept, rules, raw, Picks(env, kept, u, rules, raw, found, i, q - 1), i, r, q - 1,
                  if due && !Fell(env, kept, raw[i]) then news + [raw[i]] else news, d,
                  dropped || (due && DropOf(env, kept, raw, d, i)));
      }
    }
  }

  // One pick.
  lemma PickTells(env: Env, kept: bool, rules: seq<Search>, raw: seq<RawListing>, found: seq<Found>, i: nat, r: nat, q: nat,
                  news: seq<RawListing>, d: Drop, dropped: bool)
    requires DistinctIds(rules) && i < |raw| && r < |rules| && q < |rules| && d.searchId == rules[r].id
    requires TellsOf(raw, found, rules[r].id, news, d, dropped)
    ensures TellsOf(raw, found + [Pick(env, kept, rules, raw, i, q)], rules[r].id,
                    if q == r && !Fell(env, kept, raw[i]) then news + [raw[i]] else news,
                    d, dropped || (q == r && DropOf(env, kept, raw, d, i)))
  {
    FoundMore(raw, found, Pick(env, kept, rules, raw, i, q));
    assert r != q ==> rules[r].id != rules[q].id;
  }

  ghost predicate DueWithin(env: Env, kept: bool, u: Chars, rules: seq<Search>, raw: seq<RawListing>, n: nat, r: nat, d: Drop)
    requires n <= |raw|
  {
    d.rawIdx < n && IsDue(env, kept, u, rules, raw[d.rawIdx], r, d.oldPrice)
  }

  // The decisions for one more listing.
  lemma ListingTells(env: Env, kept: bool, u: Chars, rules: seq<Search>, raw: seq<RawListing>, found: seq<Found>, n: nat, r: nat, d: Drop)
    requires DistinctIds(rules) && n < |raw| && r < |rules| && d.searchId == rules[r].id
    requires TellsOf(raw, found, rules[r].id, NewsOf(env, kept, u, rules, raw[..n], r), d, DueWithin(env, kept, u, rules, raw, n, r, d))
    ensures TellsOf(raw, Picks(env, kept, u, rules, raw, found, n, |rules|), rules[r].id,
                    NewsOf(env, kept, u, rules, raw[..n + 1], r), d, DueWithin(env, kept, u, rules, raw, n + 1, r, d))
  {
    PicksAdd(env, kept, u, rules, raw, found, n, r, |rules|, NewsOf(env, kept, u, rules, raw[..n], r), d,
             DueWithin(env, kept, u, rules, raw, n, r, d));
    NewsMore(env, kept, u, rules, raw, n, r);
  }

  lemma {:induction false} PicksExactly(env: Env, kept: bool, u: Chars, rules: seq<Search>, raw: seq<RawListing>, n: nat, r: nat, d: Drop)
    requires DistinctIds(rules) && n <= |raw| && r < |rules| && d.searchId == rules[r].id
    ensures TellsOf(raw, AllPicks(env, kept, u, rules, raw, n), rules[r].id, NewsOf(env, kept, u, rules, raw[..n], r),
                    d, DueWithin(env, kept, u, rules, raw, n, r, d))
  {
    if n > 0 {
      PicksExactly(env, kept, u, rules, raw, n - 1, r, d);
      ListingTells(env, kept, u, rules, raw, AllPicks(env, kept, u, rules, raw, n - 1), n - 1, r, d);
    }
  }

  lemma NewsMore(env: Env, kept: bool, u: Chars, rules: seq<Search>, raw: seq<RawListing>, n: nat, r: nat)
    requires n < |raw|
    ensures NewsOf(env, kept, u, rules, raw[..n + 1], r)
            == if Chosen(env, kept, u, rules, raw[n], r) && !Fell(env, kept, raw[n])
               then NewsOf(env, kept, u, rules, raw[..n], r) + [raw[n]] else NewsOf(env, kept, u, rules, raw[..n], r)
  {
    assert raw[..n + 1][..n] == raw[..n];
  }

  lemma {:induction false} FirstWanted(env: Env, kept: bool, u: Chars, rules: seq<Search>, l: RawListing, r: nat, chat: int) returns (q: nat)
    requires r <= |rules| && OneWanted(env, kept, u, rules, l, r, chat)
    ensures q < r && rules[q].chat == chat && Chosen(env, kept, u, rules, l, q)
  {
    if OneWanted(env, kept, u, rules, l, r - 1, chat) {
      q := FirstWanted(env, kept, u, rules, l, r - 1, chat);
    } else {
      q := r - 1;
      ChosenFirst(env, kept, u, rules, l, q);
    }
  }

  lemma {:induction false} NewsMeaning(env: Env, kept: bool, u: Chars, rules: seq<Search>, raw: seq<RawListing>, r: nat, i: nat)
    requires i < |raw| && Chosen(env, kept, u, rules, raw[i], r) && !Fell(env, kept, raw[i])
    ensures raw[i] in NewsOf(env, kept, u, rules, raw, r)
  {
    if i < |raw| - 1 {
      NewsMeaning(env, kept, u, rules, raw[..|raw| - 1], r, i);
    }
  }

  /** Whoever has a search that matches a listing hears of it, through that search or an earlier one of theirs, if they
      have not hidden it, the claim query worked, and the claim was new or the price fell: of the fall if there was
      one, and else of a new listing. */
  lemma NobodyMissed(env: Env, kept: bool, u: Chars, rules: seq<Search>, raw: seq<RawListing>,
                     newListings: map<int, seq<RawListing>>, drops: seq<Drop>, i: nat, r: nat) returns (q: nat)
    requires ReportsExactly(env, kept, u, rules, raw, newListings, drops) && i < |raw| && r < |rules|
    requires MatchesSearch(u, raw[i], rules[r]) && raw[i].token !in env.hidden(rules[r].chat)
    requires var claim, peek := env.claim(raw[i].token, rules[r].chat, rules[r].id), env.peek(raw[i].token);
             claim == Some(true) || (claim == Some(false) && kept && peek.Known? && 0 < raw[i].price < peek.price)
    ensures q <= r && rules[q].chat == rules[r].chat
    ensures var peek := env.peek(raw[i].token);
            if kept && peek.Known? && 0 < raw[i].price < peek.price
            then Drop(i, rules[q].id, peek.price) in drops
            else rules[q].id in newListings && raw[i] in newListings[rules[q].id]
  {
    q := FirstWanted(env, kept, u, rules, raw[i], r + 1, rules[r].chat);
    assert ReportsFor(env, kept, u, rules, raw, newListings, drops, q);
    if Fell(env, kept, raw[i]) {
      assert IsDue(env, kept, u, rules, raw[i], q, env.peek(raw[i].token).price);
    } else {
      NewsMeaning(env, kept, u, rules, raw, q, i);
    }
  }

  lemma AllReported(env: Env, kept: bool, u: Chars, rules: seq<Search>, raw: seq<RawListing>, hits: seq<seq<Search>>,
                    newListings: map<int, seq<RawListing>>, drops: seq<Drop>)
    requires DistinctTokens(raw) && DistinctIds(rules) && AreHits(u, rules, raw, hits)
    requires var found := ForFeed(env, kept, raw, hits, |raw|);
             InFeed(raw, found) && ListsAgree(raw, found, newListings, drops)
    ensures ReportsExactly(env, kept, u, rules, raw, newListings, drops)
  {
    FeedIsPicks(env, kept, u, rules, raw, hits, |raw|);
    assert raw[..|raw|] == raw;
    forall r | 0 <= r < |rules| ensures ReportsFor(env, kept, u, rules, raw, newListings, drops, r) {
      PicksExactly(env, kept, u, rules, raw, |raw|, r, Drop(0, rules[r].id, 0));
      forall i, price | 0 <= i < |raw|
        ensures Drop(i, rules[r].id, price) in drops <==> IsDue(env, kept, u, rules, raw[i], r, price)
      {
        PicksExactly(env, kept, u, rules, raw, |raw|, r, Drop(i, rules[r].id, price));
      }
    }
  }

  // The cache holds what the store answered, and a price is staged exactly when it should be.
  ghost predicate PricesAgree(env: Env, raw: seq<RawListing>, cache: map<string, PriceResult>, pending: map<string, int>) {
    && pending.Keys <= cache.Keys
    && forall k :: 0 <= k < |raw| && raw[k].token in cache ==>
         && cache[raw[k].token] == ResultOf(env.peek(raw[k].token), raw[k].price)
         && (raw[k].token in pending
             <==> env.peek(raw[k].token).Unknown?
                  || (env.peek(raw[k].token).Known? && env.peek(raw[k].token).price != raw[k].price))
         && (raw[k].token in pending ==> pending[raw[k].token] == raw[k].price)
  }

  ghost predicate DropsAsked(raw: seq<RawListing>, found: seq<Found>, cache: map<string, PriceResult>)
    requires InFeed(raw, found)
  {
    forall k :: 0 <= k < |found| && found[k].oldPrice.Some? ==> raw[found[k].idx].token in cache
  }

  class Cycle {
    const percolator: Percolator
    const env: Env
    const pricesKept: bool
    const raw: seq<RawListing>
    var newListings: map<int, seq<RawListing>>
    var matched: map<int, nat>
    var drops: seq<Drop>
    var pendingPrices: map<string, int>
    var priceCache: map<string, PriceResult>
    var userDelivered: map<int, set<string>>
    ghost var found: seq<Found>

    ghost predicate Valid()
      reads this
    {
      && DistinctTokens(raw) && InFeed(raw, found)
      && ListsAgree(raw, found, newListings, drops)
      && DeliveredAgree(raw, found, userDelivered)
      && PricesAgree(env, raw, priceCache, pendingPrices)
      && DropsAsked(raw, found, priceCache)
    }

    constructor (p: Percolator, e: Env, feed: seq<RawListing>, prices: bool)
      requires DistinctTokens(feed)
      ensures percolator == p && env == e && raw == feed && pricesKept == prices
      ensures Valid() && found == [] && matched == map[]
    {
      percolator, env, raw, pricesKept := p, e, feed, prices;
      newListings, matched, drops, pendingPrices := map[], map[], [], map[];
      priceCache, userDelivered, found := map[], map[], [];
    }

    // The price store is asked once per token.
    method PriceOf(i: nat) returns (p: PriceResult)
      requires Valid() && i < |raw|
      modifies this`priceCache, this`pendingPrices
      ensures Valid() && raw[i].token in priceCache
      ensures p == ResultOf(env.peek(raw[i].token), raw[i].price)
    {
      var token, price := raw[i].token, raw[i].price;
      if token in priceCache {
        return priceCache[token];
      }
      PricesAdd(env, raw, priceCache, pendingPrices, i);
      match env.peek(token) {
        case PeekError => p := PriceResult(0, false, true);
        case Unknown =>
          p := PriceResult(0, false, false);
          pendingPrices := pendingPrices[token := price];
        case Known(prev) =>
          p := PriceResult(prev, price != prev, false);
          if p.changed {
            pendingPrices := pendingPrices[token := price];
          }
      }
      priceCache := priceCache[token := p];
    }

    method AddFound(f: Found)
      requires Valid() && f.idx < |raw|
      requires f.oldPrice.Some? ==> raw[f.idx].token in priceCache
      modifies this`newListings, this`drops, this`userDelivered, this`found
      ensures Valid() && found == old(found) + [f]
    {
      DeliveredAdd(raw, found, f, userDelivered);
      AskedAdd(raw, found, f, priceCache);
      if f.oldPrice.Some? {
        ListsAddDrop(raw, found, f, newListings, drops);
        drops := drops + [Drop(f.idx, f.search.id, f.oldPrice.value)];
      } else {
        ListsAddNew(raw, found, f, newListings, drops);
        newListings := newListings[f.search.id := Lookup(newListings, f.search.id) + [raw[f.idx]]];
      }
      userDelivered := userDelivered[f.search.chat := DeliveredTo(userDelivered, f.search.chat) + {raw[f.idx].token}];
      found := found + [f];
    }

    // The price before, if the listing's price fell.
    method DropFrom(i: nat) returns (oldPrice: Option<int>)
      requires Valid() && i < |raw|
      modifies this`priceCache, this`pendingPrices
      ensures Valid()
      ensures oldPrice.Some? <==> IsDrop(env, pricesKept, raw[i])
      ensures oldPrice.Some? ==> raw[i].token in priceCache
                                 && oldPrice.value == ResultOf(env.peek(raw[i].token), raw[i].price).oldPrice
    {
      if pricesKept && raw[i].price > 0 {
        var p := PriceOf(i);
        if Dropped(p, raw[i].price) {
          return Some(p.oldPrice);
        }
      }
      oldPrice := None;
    }

    // The body of the inner loop: one listing against one search it matches.
    method ProcessMatch(i: nat, m: Search)
      requires Valid() && i < |raw|
      modifies this
      ensures Valid()
      ensures found == old(found) + Decision(env, pricesKept, raw, old(found), i, m)
      ensures matched == Bumped(old(matched), m.id)
    {
      matched := Bumped(matched, m.id);
      var token := raw[i].token;
      assert found == found + [];
      if token in env.hidden(m.chat) {
        return;
      }
      var isNew := env.claim(token, m.chat, m.id);
      if isNew.None? {
        return;
      }
      var told := token in DeliveredTo(userDelivered, m.chat);
      assert told <==> Told(raw, found, m.chat, token);
      var oldPrice := DropFrom(i);
      if oldPrice.Some? {
        if !told {
          AddFound(Found(i, m, oldPrice));
        }
        return;
      }
      if isNew.value && !told {
        AddFound(Found(i, m, None));
      }
    }

    method MatchListing(i: nat, ghost hit: seq<Search>)
      requires Valid() && i < |raw| && hit == RulesFor(percolator.chars, percolator.rules, raw[i])
      modifies this
      ensures Valid()
      ensures found == ForMatches(env, pricesKept, raw, old(found), i, hit, |hit|)
      ensures matched == Raised(old(matched), hit, |hit|)
    {
      var ms := percolator.Match(raw[i]);
      ProcessMatches(i, ms);
    }

    method ProcessMatches(i: nat, ms: seq<Search>)
      requires Valid() && i < |raw|
      modifies this
      ensures Valid()
      ensures found == ForMatches(env, pricesKept, raw, old(found), i, ms, |ms|)
      ensures matched == Raised(old(matched), ms, |ms|)
    {
      ghost var found0, matched0 := found, matched;
      for j := 0 to |ms|
        invariant Valid()
        invariant found == ForMatches(env, pricesKept, raw, found0, i, ms, j)
        invariant matched == Raised(matched0, ms, j)
      {
        ProcessMatch(i, ms[j]);
      }
    }

    method MatchAll(ghost hits: seq<seq<Search>>)
      requires Valid() && found == [] && matched == map[]
      requires AreHits(percolator.chars, percolator.rules, raw, hits)
      modifies this
      ensures Valid()
      ensures found == ForFeed(env, pricesKept, raw, hits, |raw|) && matched == Counters(hits, |raw|)
    {
      for i := 0 to |raw|
        invariant MatchedSoFar(hits, i)
      {
        MatchNext(i, hits);
      }
    }

    // The first i listings have been matched.
    ghost predicate MatchedSoFar(hits: seq<seq<Search>>, i: nat)
      reads this, percolator
    {
      && Valid() && AreHits(percolator.chars, percolator.rules, raw, hits) && i <= |raw|
      && found == ForFeed(env, pricesKept, raw, hits, i) && matched == Counters(hits, i)
    }

    // MatchListing, added to the decisions and counters so far.
    method MatchNext(i: nat, ghost hits: seq<seq<Search>>)
      requires i < |raw| && MatchedSoFar(hits, i)
      modifies this
      ensures MatchedSoFar(hits, i + 1)
    {
      assert IsHit(percolator.chars, percolator.rules, raw, hits, i);
      MatchListing(i, hits[i]);
    }

    method MatchListingsToSearches()
      requires Valid() && found == [] && matched == map[]
      modifies this
      ensures Valid()
      ensures var hits := AllHits(percolator.chars, percolator.rules, raw);
              found == ForFeed(env, pricesKept, raw, hits, |raw|) && matched == Counters(hits, |raw|)
      ensures DistinctIds(percolator.rules) ==> MatchedAgree(percolator.chars, percolator.rules, matched, raw)
      ensures DistinctIds(percolator.rules) ==>
                ReportsExactly(env, pricesKept, percolator.chars, percolator.rules, raw, newListings, drops)
    {
      MatchAll(AllHits(percolator.chars, percolator.rules, raw));
      if DistinctIds(percolator.rules) {
        AllReported(env, pricesKept, percolator.chars, percolator.rules, raw,
                    AllHits(percolator.chars, percolator.rules, raw), newListings, drops);
        AllCounted(percolator.chars, percolator.rules, raw);
      }
    }
  }

  // The counter of every rule is the number of listings that match it.
  ghost predicate MatchedAgree(u: Chars, rules: seq<Search>, matched: map<int, nat>, ls: seq<RawListing>) {
    forall s :: s in rules ==> CountFor(matched, s.id) == MatchCount(u, s, ls)
  }

  function Bumped(matched: map<int, nat>, id: int): map<int, nat> {
    matched[id := CountFor(matched, id) + 1]
  }

  // The counters after the first j matches of a listing.
  function Raised(matched: map<int, nat>, ms: seq<Search>, j: nat): map<int, nat>
    requires j <= |ms|
  {
    if j == 0 then matched
    else
      Bumped(Raised(matched, ms, j - 1), ms[j - 1].id)
  }

  lemma ToldMore(raw: seq<RawListing>, found: seq<Found>, f: Found)
    requires InFeed(raw, found) && f.idx < |raw|
    ensures forall chat, token :: Told(raw, found + [f], chat, token) <==>
              Told(raw, found, chat, token) || (chat == f.search.chat && token == raw[f.idx].token)
  {
    forall chat, token
      ensures Told(raw, found + [f], chat, token) <==>
              Told(raw, found, chat, token) || (chat == f.search.chat && token == raw[f.idx].token)
    {
      var more := found + [f];
      assert more[|found|] == f;
      assert forall k :: 0 <= k < |found| ==> more[k] == found[k];
    }
  }

  lemma FoundMore(raw: seq<RawListing>, found: seq<Found>, f: Found)
    requires InFeed(raw, found) && f.idx < |raw|
    ensures InFeed(raw, found + [f])
    ensures forall id :: NewFor(raw, found + [f], id)
              == if f.oldPrice.None? && f.search.id == id then NewFor(raw, found, id) + [raw[f.idx]] else NewFor(raw, found, id)
    ensures DropsOf(found + [f])
            == if f.oldPrice.None? then DropsOf(found)
               else DropsOf(found) + [Drop(f.idx, f.search.id, f.oldPrice.value)]
  {
    assert (found + [f])[..|found|] == found;
  }

  lemma ListsAddNew(raw: seq<RawListing>, found: seq<Found>, f: Found, nl: map<int, seq<RawListing>>, drops: seq<Drop>)
    requires InFeed(raw, found) && f.idx < |raw| && ListsAgree(raw, found, nl, drops) && f.oldPrice.None?
    ensures ListsAgree(raw, found + [f], nl[f.search.id := Lookup(nl, f.search.id) + [raw[f.idx]]], drops)
  {
    FoundMore(raw, found, f);
  }

  lemma ListsAddDrop(raw: seq<RawListing>, found: seq<Found>, f: Found, nl: map<int, seq<RawListing>>, drops: seq<Drop>)
    requires InFeed(raw, found) && f.idx < |raw| && ListsAgree(raw, found, nl, drops) && f.oldPrice.Some?
    ensures ListsAgree(raw, found + [f], nl, drops + [Drop(f.idx, f.search.id, f.oldPrice.value)])
  {
    FoundMore(raw, found, f);
  }

  lemma DeliveredAdd(raw: seq<RawListing>, found: seq<Found>, f: Found, delivered: map<int, set<string>>)
    requires InFeed(raw, found) && f.idx < |raw| && DeliveredAgree(raw, found, delivered)
    ensures DeliveredAgree(raw, found + [f],
              delivered[f.search.chat := DeliveredTo(delivered, f.search.chat) + {raw[f.idx].token}])
  {
    ToldMore(raw, found, f);
  }

  lemma PricesAdd(env: Env, raw: seq<RawListing>, cache: map<string, PriceResult>, pending: map<string, int>, i: nat)
    requires DistinctTokens(raw) && i < |raw| && PricesAgree(env, raw, cache, pending) && raw[i].token !in cache
    ensures var token, price := raw[i].token, raw[i].price;
            PricesAgree(env, raw, cache[token := ResultOf(env.peek(token), price)],
                        if Stages(env.peek(token), price) then pending[token := price] else pending)
  {
    forall k | 0 <= k < |raw| && k != i ensures raw[k].token != raw[i].token {
    }
  }

  lemma AskedAdd(raw: seq<RawListing>, found: seq<Found>, f: Found, cache: map<string, PriceResult>)
    requires InFeed(raw, found) && f.idx < |raw| && DropsAsked(raw, found, cache)
    requires f.oldPrice.Some? ==> raw[f.idx].token in cache
    ensures DropsAsked(raw, found + [f], cache)
  {
  }

  // The counters after the first i listings.
  ghost function Counters(hits: seq<seq<Search>>, i: nat): map<int, nat>
    requires i <= |hits|
  {
    if i == 0 then map[] else Raised(Counters(hits, i - 1), hits[i - 1], |hits[i - 1]|)
  }

  // hits holds the matches of each listing.
  ghost predicate AreHits(u: Chars, rules: seq<Search>, raw: seq<RawListing>, hits: seq<seq<Search>>) {
    |hits| == |raw| && forall k :: 0 <= k < |raw| ==> IsHit(u, rules, raw, hits, k)
  }

  ghost predicate IsHit(u: Chars, rules: seq<Search>, raw: seq<RawListing>, hits: seq<seq<Search>>, k: nat)
    requires k < |hits| == |raw|
  {
    hits[k] == RulesFor(u, rules, raw[k])
  }

  lemma {:induction false} CountersMeaning(u: Chars, rules: seq<Search>, raw: seq<RawListing>, hits: seq<seq<Search>>, i: nat)
    requires DistinctIds(rules) && AreHits(u, rules, raw, hits) && i <= |raw|
    ensures MatchedAgree(u, rules, Counters(hits, i), raw[..i])
  {
    if i > 0 {
      assert IsHit(u, rules, raw, hits, i - 1);
      CountersMeaning(u, rules, raw, hits, i - 1);
      CountListing(u, rules, Counters(hits, i - 1), raw, i - 1);
    }
  }

  lemma AllCounted(u: Chars, rules: seq<Search>, raw: seq<RawListing>)
    requires DistinctIds(rules)
    ensures MatchedAgree(u, rules, Counters(AllHits(u, rules, raw), |raw|), raw)
  {
    CountersMeaning(u, rules, raw, AllHits(u, rules, raw), |raw|);
    assert raw[..|raw|] == raw;
  }

  lemma {:induction false} RaisedOnce(matched: map<int, nat>, rules: seq<Search>, ms: seq<Search>, j: nat, s: Search)
    requires j <= |ms| && DistinctIds(rules) && DistinctIds(ms) && s in rules && forall m :: m in ms ==> m in rules
    ensures CountFor(Raised(matched, ms, j), s.id) == CountFor(matched, s.id) + if s in ms[..j] then 1 else 0
  {
    if j > 0 {
      RaisedOnce(matched, rules, ms, j - 1, s);
      assert ms[..j] == ms[..j - 1] + [ms[j - 1]];
      assert ms[j - 1] in rules;
      assert ms[j - 1] !in ms[..j - 1];
    }
  }

  lemma CountListing(u: Chars, rules: seq<Search>, matched: map<int, nat>, raw: seq<RawListing>, i: nat)
    requires i < |raw| && DistinctIds(rules) && MatchedAgree(u, rules, matched, raw[..i])
    ensures var ms := RulesFor(u, rules, raw[i]);
            MatchedAgree(u, rules, Raised(matched, ms, |ms|), raw[..i + 1])
  {
    var ms := RulesFor(u, rules, raw[i]);
    RulesForMeaning(u, rules, raw[i]);
    assert raw[..i + 1][..i] == raw[..i];
    assert ms[..|ms|] == ms;
    forall s | s in rules
      ensures CountFor(Raised(matched, ms, |ms|), s.id) == MatchCount(u, s, raw[..i + 1])
    {
      RaisedOnce(matched, rules, ms, |ms|, s);
    }
  }
}
