/** The rest of a scheduler cycle: the feed it starts from, and what it persists, records and reports. */
module CycleOutcome {
  import opened Basics
  import opened Matching
  import opened MatchCycle
  import opened QueryKey
  import opened Text
  import opened Wrappers

  /* ---- the feed ---- */

  predicate HasToken(ls: seq<RawListing>, token: string) {
    exists k :: 0 <= k < |ls| && ls[k].token == token
  }

  // The first listing of each token, in order.
  function FirstOfEach(ls: seq<RawListing>): seq<RawListing> {
    if ls == [] then []
    else
      var n := |ls| - 1;
      FirstOfEach(ls[..n]) + if HasToken(ls[..n], ls[n].token) then [] else [ls[n]]
  }

  lemma {:induction false} FirstOfEachMeaning(ls: seq<RawListing>)
    ensures DistinctTokens(FirstOfEach(ls))
    ensures forall token :: HasToken(FirstOfEach(ls), token) <==> HasToken(ls, token)
    ensures forall l :: l in FirstOfEach(ls) ==> l in ls
  {
    if ls != [] {
      var n := |ls| - 1;
      var front := ls[..n];
      FirstOfEachMeaning(front);
      assert ls == front + [ls[n]];
      var r := FirstOfEach(front);
      if HasToken(front, ls[n].token) {
        assert FirstOfEach(ls) == r;
      } else {
        assert FirstOfEach(ls) == r + [ls[n]];
        assert !HasToken(r, ls[n].token);
      }
      forall token ensures HasToken(FirstOfEach(ls), token) <==> HasToken(ls, token) {
        HasTokenMore(front, ls[n], token);
        HasTokenMore(r, ls[n], token);
      }
    }
  }

  lemma HasTokenMore(ls: seq<RawListing>, l: RawListing, token: string)
    ensures HasToken(ls + [l], token) <==> HasToken(ls, token) || l.token == token
  {
    assert (ls + [l])[|ls|] == l;
    assert forall k :: 0 <= k < |ls| ==> (ls + [l])[k] == ls[k];
  }

  function TokensOf(ls: seq<RawListing>): (ts: seq<string>)
    ensures |ts| == |ls| && forall k :: 0 <= k < |ls| ==> ts[k] == ls[k].token
  {
    seq(|ls|, k requires 0 <= k < |ls| => ls[k].token)
  }

  // Everything the fetches with these parameters returned, in order.
  function Fetched(source: SourceParams -> Option<seq<RawListing>>, asked: seq<SourceParams>): seq<RawListing> {
    if asked == [] then []
    else
      var n := |asked| - 1;
      Fetched(source, asked[..n]) + if source(asked[n]).Some? then source(asked[n]).value else []
  }

  // A search is fetched for only if it names a manufacturer and a model.
  predicate Targeted(s: Search) {
    s.manufacturer != 0 && s.model != 0
  }

  ghost predicate AskedForSearches(searches: seq<Search>, asked: seq<SourceParams>) {
    forall p :: p in asked ==> exists s :: s in searches && Targeted(s) && SourceParamsFromSearch(s) == p
  }

  ghost predicate AllAsked(searches: seq<Search>, asked: seq<SourceParams>) {
    forall s :: s in searches && Targeted(s) ==> SourceParamsFromSearch(s) in asked
  }

  ghost predicate KeysOf(asked: seq<SourceParams>, keys: set<string>) {
    forall p :: CacheKey(p) in keys <==> p in asked
  }

  // What a query returned is remembered under its key, unless its fetch failed.
  ghost predicate TokensKept(source: SourceParams -> Option<seq<RawListing>>, asked: seq<SourceParams>,
                             feedTokens: map<string, seq<string>>) {
    forall p ::
      && (CacheKey(p) in feedTokens <==> p in asked && source(p).Some?)
      && (CacheKey(p) in feedTokens ==> feedTokens[CacheKey(p)] == TokensOf(source(p).value))
  }

  // The feed so far: what was asked for, what came back, and what is remembered of it.
  ghost predicate FeedOf(searches: seq<Search>, source: SourceParams -> Option<seq<RawListing>>, asked: seq<SourceParams>,
                         raw: seq<RawListing>, feedTokens: map<string, seq<string>>, fetched: set<string>) {
    && raw == FirstOfEach(Fetched(source, asked)) && TokensKept(source, asked, feedTokens)
    && Distinct(asked) && AskedForSearches(searches, asked) && KeysOf(asked, fetched)
  }

  lemma AllAskedMore(searches: seq<Search>, i: nat, asked: seq<SourceParams>, more: seq<SourceParams>)
    requires i < |searches| && AllAsked(searches[..i], asked) && asked <= more
    requires Targeted(searches[i]) ==> SourceParamsFromSearch(searches[i]) in more
    ensures AllAsked(searches[..i + 1], more)
  {
    assert searches[..i + 1] == searches[..i] + [searches[i]];
    assert forall p :: p in asked ==> p in more;
  }

  // The source is asked once for each distinct query of a targeted search and never for anything else;
  // a failed fetch adds nothing, and a cancelled cycle stops with what it has.
  method FetchTargeted(searches: seq<Search>, source: SourceParams -> Option<seq<RawListing>>)
    returns (raw: seq<RawListing>, feedTokens: map<string, seq<string>>, ghost asked: seq<SourceParams>, cancelled: bool)
    ensures raw == FirstOfEach(Fetched(source, asked)) && DistinctTokens(raw)
    ensures Distinct(asked) && AskedForSearches(searches, asked) && TokensKept(source, asked, feedTokens)
    ensures !cancelled ==> AllAsked(searches, asked)
  {
    raw, feedTokens, asked, cancelled := [], map[], [], false;
    var fetched: set<string> := {};
    for i := 0 to |searches|
      invariant FeedOf(searches, source, asked, raw, feedTokens, fetched)
      invariant !cancelled ==> AllAsked(searches[..i], asked)
    {
      ghost var before := asked;
      if Targeted(searches[i]) {
        cancelled := *;
        if cancelled {
          break;
        }
        var p := SourceParamsFromSearch(searches[i]);
        if CacheKey(p) !in fetched {
          raw, feedTokens, fetched := FetchOne(searches, source, searches[i], asked, raw, feedTokens, fetched);
          asked := asked + [p];
        }
        assert p in asked;
      }
      AllAskedMore(searches, i, before, asked);
    }
    assert searches[..|searches|] == searches;
    FirstOfEachMeaning(Fetched(source, asked));
  }

  lemma AskedMore(searches: seq<Search>, asked: seq<SourceParams>, s: Search, fetched: set<string>)
    requires s in searches && Targeted(s) && SourceParamsFromSearch(s) !in asked
    requires Distinct(asked) && AskedForSearches(searches, asked) && KeysOf(asked, fetched)
    ensures var p := SourceParamsFromSearch(s);
            Distinct(asked + [p]) && AskedForSearches(searches, asked + [p]) && KeysOf(asked + [p], fetched + {CacheKey(p)})
  {
    var p := SourceParamsFromSearch(s);
    forall q ensures CacheKey(q) == CacheKey(p) <==> q == p {
      KeyInjective(q, p);
    }
  }

  lemma TokensMore(source: SourceParams -> Option<seq<RawListing>>, asked: seq<SourceParams>, p: SourceParams,
                   tokens: map<string, seq<string>>)
    requires TokensKept(source, asked, tokens) && p !in asked
    ensures TokensKept(source, asked + [p],
              if source(p).Some? then tokens[CacheKey(p) := TokensOf(source(p).value)] else tokens)
  {
    forall q ensures CacheKey(q) == CacheKey(p) <==> q == p {
      KeyInjective(q, p);
    }
  }

  method FetchOne(ghost searches: seq<Search>, source: SourceParams -> Option<seq<RawListing>>, s: Search,
                  ghost asked: seq<SourceParams>, raw0: seq<RawListing>, tokens0: map<string, seq<string>>, fetched0: set<string>)
    returns (raw: seq<RawListing>, tokens: map<string, seq<string>>, fetched: set<string>)
    requires FeedOf(searches, source, asked, raw0, tokens0, fetched0) && s in searches && Targeted(s)
    requires SourceParamsFromSearch(s) !in asked
    ensures FeedOf(searches, source, asked + [SourceParamsFromSearch(s)], raw, tokens, fetched)
  {
    var p := SourceParamsFromSearch(s);
    raw, tokens, fetched := raw0, tokens0, fetched0 + {CacheKey(p)};
    assert (asked + [p])[..|asked|] == asked;
    AskedMore(searches, asked, s, fetched0);
    TokensMore(source, asked, p, tokens0);
    var targeted := source(p);
    if targeted.Some? {
      raw := AddUnseen(raw0, targeted.value, Fetched(source, asked));
      tokens := tokens0[CacheKey(p) := TokensOf(targeted.value)];
    } else {
      assert Fetched(source, asked + [p]) == Fetched(source, asked);
    }
  }

  lemma OneMoreListing(all: seq<RawListing>, l: RawListing)
    ensures FirstOfEach(all + [l]) == FirstOfEach(all) + if HasToken(FirstOfEach(all), l.token) then [] else [l]
  {
    FirstOfEachMeaning(all);
    assert (all + [l])[..|all|] == all;
  }

  ghost predicate Seen(ls: seq<RawListing>, seen: set<string>) {
    forall token :: token in seen <==> HasToken(ls, token)
  }

  lemma SeenMore(ls: seq<RawListing>, seen: set<string>, l: RawListing)
    requires Seen(ls, seen)
    ensures Seen(ls + [l], seen + {l.token})
  {
    forall token ensures token in seen + {l.token} <==> HasToken(ls + [l], token) {
      HasTokenMore(ls, l, token);
    }
  }

  method TokenSet(ls: seq<RawListing>) returns (seen: set<string>)
    ensures Seen(ls, seen)
  {
    seen := {};
    for i := 0 to |ls|
      invariant Seen(ls[..i], seen)
    {
      SeenMore(ls[..i], seen, ls[i]);
      assert ls[..i + 1] == ls[..i] + [ls[i]];
      seen := seen + {ls[i].token};
    }
    assert ls[..|ls|] == ls;
  }

  // The inner loop: listings whose token is already in the feed are left out.
  method AddUnseen(raw: seq<RawListing>, targeted: seq<RawListing>, ghost all: seq<RawListing>) returns (r: seq<RawListing>)
    requires raw == FirstOfEach(all)
    ensures r == FirstOfEach(all + targeted)
  {
    r := raw;
    var seen := TokenSet(raw);
    ghost var so := all;
    assert so == all + targeted[..0];
    for i := 0 to |targeted|
      invariant so == all + targeted[..i]
      invariant r == FirstOfEach(so) && Seen(r, seen)
    {
      var l := targeted[i];
      assert so + [l] == all + targeted[..i + 1];
      OneMoreListing(so, l);
      SeenMore(r, seen, l);
      so := so + [l];
      if l.token !in seen {
        seen := seen + {l.token};
        r := r + [l];
      }
    }
    assert targeted[..|targeted|] == targeted;
  }

  /* ---- persisting and recording prices ---- */

  // The records the pipeline makes of a search's new listings, and whether saving them works.
  datatype Saving = Saving(tokens: int -> set<string>, works: int -> bool)

  ghost predicate FromNew(saving: Saving, newListings: map<int, seq<RawListing>>) {
    forall id, token :: id in newListings && token in saving.tokens(id) ==> HasToken(newListings[id], token)
  }

  // The tokens of all searches whose save worked, or all whose save failed.
  ghost predicate SavedTokens(saving: Saving, newListings: map<int, seq<RawListing>>, outcome: bool, tokens: set<string>) {
    forall t :: t in tokens <==> exists id :: id in newListings && saving.works(id) == outcome && t in saving.tokens(id)
  }

  lemma SomeMember(ids: set<int>)
    ensures ids == {} || exists id :: id in ids
  {
    if forall id :: id !in ids {
      assert ids == {};
    }
  }

  method PersistAll(newListings: map<int, seq<RawListing>>, saving: Saving) returns (persisted: set<string>, failed: set<string>)
    ensures SavedTokens(saving, newListings, true, persisted)
    ensures SavedTokens(saving, newListings, false, failed)
  {
    persisted, failed := {}, {};
    var todo: set<int> := newListings.Keys;
    while todo != {}
      invariant todo <= newListings.Keys
      invariant forall t :: t in persisted <==>
                  exists id :: id in newListings && id !in todo && saving.works(id) && t in saving.tokens(id)
      invariant forall t :: t in failed <==>
                  exists id :: id in newListings && id !in todo && !saving.works(id) && t in saving.tokens(id)
      decreases todo
    {
      SomeMember(todo);
      var id :| id in todo;
      todo := todo - {id};
      if saving.works(id) {
        persisted := persisted + saving.tokens(id);
      } else {
        failed := failed + saving.tokens(id);
      }
    }
  }

  predicate Skipped(persisted: set<string>, failed: set<string>, token: string) {
    token in failed && token !in persisted
  }

  method FlushPendingPrices(pending: map<string, int>, persisted: set<string>, failed: set<string>, recordWorks: string -> bool)
    returns (recorded: map<string, int>)
    ensures recorded == map t | t in pending && (t !in failed || t in persisted) && recordWorks(t) :: pending[t]
  {
    recorded := map[];
    var todo := pending.Keys;
    while todo != {}
      invariant todo <= pending.Keys
      invariant recorded == map t | t in pending && t !in todo && !Skipped(persisted, failed, t) && recordWorks(t) :: pending[t]
      decreases todo
    {
      var t :| t in todo;
      todo := todo - {t};
      if !Skipped(persisted, failed, t) && recordWorks(t) {
        recorded := recorded[t := pending[t]];
      }
    }
  }

  lemma {:induction false} NewForMeaning(raw: seq<RawListing>, found: seq<Found>, id: int, token: string)
    requires InFeed(raw, found) && HasToken(NewFor(raw, found, id), token)
    ensures exists k :: 0 <= k < |found| && found[k].oldPrice.None? && raw[found[k].idx].token == token
  {
    var n := |found| - 1;
    if found[n].oldPrice.None? && found[n].search.id == id {
      HasTokenMore(NewFor(raw, found[..n], id), raw[found[n].idx], token);
    }
    if HasToken(NewFor(raw, found[..n], id), token) {
      NewForMeaning(raw, found[..n], id, token);
      var k :| 0 <= k < n && found[..n][k].oldPrice.None? && raw[found[..n][k].idx].token == token;
      assert found[k] == found[..n][k];
    }
  }

  /** A price drop somebody is told about is never left unrecorded because a save failed: whichever
      saves fail, its token is staged with the new price and the flush does not skip it. */
  lemma DropsAreFlushed(c: Cycle, saving: Saving, persisted: set<string>, failed: set<string>, k: nat)
    requires c.Valid()
    requires c.found == ForFeed(c.env, c.pricesKept, c.raw, AllHits(c.percolator.chars, c.percolator.rules, c.raw), |c.raw|)
    requires FromNew(saving, c.newListings) && SavedTokens(saving, c.newListings, false, failed)
    requires k < |c.found| && c.found[k].oldPrice.Some?
    ensures var l := c.raw[c.found[k].idx];
            l.token in c.pendingPrices && c.pendingPrices[l.token] == l.price && !Skipped(persisted, failed, l.token)
  {
    var l := c.raw[c.found[k].idx];
    AllHitsMatch(c.percolator.chars, c.percolator.rules, c.raw);
    FeedKeeps(c.env, c.pricesKept, c.percolator.chars, c.percolator.rules, c.raw,
              AllHits(c.percolator.chars, c.percolator.rules, c.raw), |c.raw|);
    assert Justified(c.env, c.pricesKept, c.percolator.chars, c.percolator.rules, l, c.found[k]);
    DropsAndNewsApart(c.env, c.pricesKept, c.percolator.chars, c.percolator.rules, c.raw);
    if l.token in failed {
      var id :| id in c.newListings && l.token in saving.tokens(id);
      assert Lookup(c.newListings, id) == NewFor(c.raw, c.found, id);
      NewForMeaning(c.raw, c.found, id, l.token);
    }
  }

  /* ---- statistics ---- */

  datatype Stat = Stat(searchId: int, matched: nat, feedSize: nat, wrongModel: nat)

  // The counts of a search loaded in the percolator are right, and add up to the number of listings.
  ghost predicate RightStat(u: Chars, s: Search, raw: seq<RawListing>, stat: Stat) {
    && stat.searchId == s.id && stat.matched == MatchCount(u, s, raw) && stat.wrongModel == Tally(u, s, raw, WrongModel)
    && stat.feedSize + stat.wrongModel == |raw|
  }

  method StatFor(c: Cycle, s: Search, rejections: map<int, map<Reason, nat>>) returns (stat: Stat)
    requires MatchedAgree(c.percolator.chars, c.percolator.rules, c.matched, c.raw)
    requires forall k :: 0 <= k < |c.percolator.rules| ==> Counted(c.percolator.chars, rejections, c.percolator.rules[k], c.raw)
    ensures stat.searchId == s.id
    ensures s in c.percolator.rules ==> RightStat(c.percolator.chars, s, c.raw, stat)
  {
    var matched := CountFor(c.matched, s.id);
    var rej: map<Reason, nat> := if s.id in rejections then rejections[s.id] else map[];
    var feedSize := matched + CountOf(rej, YearOut) + CountOf(rej, PriceOut) + CountOf(rej, KmOver)
                    + CountOf(rej, HandOver) + CountOf(rej, EngineCC) + CountOf(rej, Seller) + CountOf(rej, OtherFilter);
    stat := Stat(s.id, matched, feedSize, CountOf(rej, WrongModel));
    if s in c.percolator.rules {
      FeedConserved(c.percolator.chars, s, c.raw);
    }
  }

  /** The counts written for a search add up to the number of listings fetched. */
  method WriteCycleStats(c: Cycle, searches: seq<Search>) returns (stats: seq<Stat>)
    requires DistinctIds(c.percolator.rules)
    requires MatchedAgree(c.percolator.chars, c.percolator.rules, c.matched, c.raw)
    ensures |stats| == |searches|
    ensures forall k :: 0 <= k < |searches| ==> stats[k].searchId == searches[k].id
    ensures forall k :: 0 <= k < |searches| && searches[k] in c.percolator.rules ==>
              RightStat(c.percolator.chars, searches[k], c.raw, stats[k])
  {
    var rejections := c.percolator.CountRejections(c.raw);
    stats := [];
    for i := 0 to |searches|
      invariant |stats| == i
      invariant forall k :: 0 <= k < i ==> stats[k].searchId == searches[k].id
      invariant forall k :: 0 <= k < i && searches[k] in c.percolator.rules ==>
                  RightStat(c.percolator.chars, searches[k], c.raw, stats[k])
    {
      var stat := StatFor(c, searches[i], rejections);
      stats := stats + [stat];
    }
  }
}
