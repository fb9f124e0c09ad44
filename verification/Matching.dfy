/**
  Three separately written filters over the same searches: the percolator's match, its rejection
  classifier, and the post-fetch filter pipeline.
 */
module Matching {
  import opened Text
  import opened Wrappers

  datatype RawListing = RawListing(
    token: string, manufacturer: int, model: int, year: int, price: int, km: int, hand: int,
    engineVolume: real, gearBox: string, commercial: Option<bool>, imageURL: string,
    description: string, subModel: string)

  datatype Search = Search(
    id: int, chat: int, manufacturer: int, model: int, yearMin: int, yearMax: int,
    priceMin: int, priceMax: int, maxKm: int, maxHand: int, engineMinCC: int,
    gearBox: string, sellerFilter: string, priceOnly: bool, photoOnly: bool,
    keywords: string, excludeKeys: string)

  datatype Criteria = Criteria(
    manufacturer: int, model: int, yearMin: int, yearMax: int, priceMin: int, priceMax: int,
    engineMinCC: real, engineMaxCC: real, maxKm: int, maxHand: int,
    keywords: seq<string>, excludeKeys: seq<string>,
    gearBox: string, sellerFilter: string, priceOnly: bool, photoOnly: bool)

  datatype Reason = WrongModel | YearOut | PriceOut | KmOver | HandOver | EngineCC | Seller | OtherFilter

  // Conversion of a floating-point number to an integer: towards zero.
  function Trunc(x: real): int {
    if x >= 0.0 then x.Floor else -((-x).Floor)
  }

  function Description(u: Chars, l: RawListing): string {
    Lower(u, l.description + " " + l.subModel)
  }

  // The seller rule stands in each of the three filters: in the classifier, the percolator and the pipeline's.
  predicate SellerRejects(u: Chars, filter: string, commercial: Option<bool>) {
    var sf := Lower(u, Trim(u, filter));
    sf != "" && sf != "any" && commercial.Some? &&
    if commercial.value then sf == "private"
    else sf == "commercial" || sf == "dealer" || sf == "dealership"
  }

  predicate SellerMismatch(u: Chars, s: Search, l: RawListing) {
    var sf := Lower(u, Trim(u, s.sellerFilter));
    && sf != "" && sf != "any" && l.commercial != None
    && ((sf == "private" && l.commercial == Some(true))
        || (sf in {"commercial", "dealer", "dealership"} && l.commercial == Some(false)))
  }

  predicate SellerExcluded(u: Chars, c: Criteria, l: RawListing) {
    var sf := Lower(u, Trim(u, c.sellerFilter));
    if sf == "" || sf == "any" || l.commercial.None? then false
    else if sf == "private" && l.commercial.value then true
    else (sf == "commercial" || sf == "dealer" || sf == "dealership") && !l.commercial.value
  }

  /** A private filter and a dealer's split the listings of known sellers between them; no filter, or any, and
      listings of unknown sellers pass. */
  lemma SellerSplits(u: Chars, s: Search, t: Search, l: RawListing)
    requires Lower(u, Trim(u, s.sellerFilter)) == "private"
    requires Lower(u, Trim(u, t.sellerFilter)) in {"commercial", "dealer", "dealership"}
    ensures l.commercial.Some? ==> (SellerMismatch(u, s, l) <==> l.commercial.value)
    ensures l.commercial.Some? ==> (SellerMismatch(u, s, l) <==> !SellerMismatch(u, t, l))
    ensures l.commercial.None? ==> !SellerMismatch(u, s, l) && !SellerMismatch(u, t, l)
  {
  }

  // The percolator lowers a keyword, then trims it, and skips it when nothing is left.
  function Keyword(u: Chars, part: string): string {
    Trim(u, Lower(u, part))
  }

  predicate LacksKeyword(u: Chars, keywords: string, desc: string) {
    keywords != "" &&
    exists k :: 0 <= k < |SplitCommas(keywords)|
                && Keyword(u, SplitCommas(keywords)[k]) != "" && !Contains(desc, Keyword(u, SplitCommas(keywords)[k]))
  }

  predicate HasExcluded(u: Chars, keywords: string, desc: string) {
    keywords != "" &&
    exists k :: 0 <= k < |SplitCommas(keywords)|
                && Keyword(u, SplitCommas(keywords)[k]) != "" && Contains(desc, Keyword(u, SplitCommas(keywords)[k]))
  }

  // The first check the listing fails.
  function Classify(u: Chars, l: RawListing, s: Search): Option<Reason> {
    if s.manufacturer > 0 && l.manufacturer != s.manufacturer then Some(WrongModel)
    else if s.model > 0 && l.model != s.model then Some(WrongModel)
    else if s.yearMin > 0 && l.year < s.yearMin then Some(YearOut)
    else if s.yearMax > 0 && l.year > s.yearMax then Some(YearOut)
    else if s.priceMin > 0 && l.price > 0 && l.price < s.priceMin then Some(PriceOut)
    else if s.priceMax > 0 && l.price > s.priceMax then Some(PriceOut)
    else if s.maxKm > 0 && l.km > 0 && l.km > s.maxKm then Some(KmOver)
    else if s.maxHand > 0 && l.hand > s.maxHand then Some(HandOver)
    else if s.engineMinCC > 0 && Trunc(l.engineVolume) < s.engineMinCC then Some(EngineCC)
    else if s.gearBox != "" && l.gearBox != "" && !EqualFold(u, s.gearBox, l.gearBox) then Some(OtherFilter)
    else if SellerRejects(u, s.sellerFilter, l.commercial) then Some(Seller)
    else if s.priceOnly && l.price <= 0 then Some(OtherFilter)
    else if s.photoOnly && l.imageURL == "" then Some(OtherFilter)
    else if LacksKeyword(u, s.keywords, Description(u, l)) then Some(OtherFilter)
    else if HasExcluded(u, s.excludeKeys, Description(u, l)) then Some(OtherFilter)
    else None
  }

  predicate MatchesSearch(u: Chars, l: RawListing, s: Search) {
    && !(s.manufacturer > 0 && l.manufacturer != s.manufacturer)
    && !(s.model > 0 && l.model != s.model)
    && !(s.yearMin > 0 && l.year < s.yearMin)
    && !(s.yearMax > 0 && l.year > s.yearMax)
    && !(s.priceMin > 0 && l.price > 0 && l.price < s.priceMin)
    && !(s.priceMax > 0 && l.price > s.priceMax)
    && !(s.maxKm > 0 && l.km > 0 && l.km > s.maxKm)
    && !(s.maxHand > 0 && l.hand > s.maxHand)
    && !(s.engineMinCC > 0 && Trunc(l.engineVolume) < s.engineMinCC)
    && !(s.gearBox != "" && l.gearBox != "" && !EqualFold(u, s.gearBox, l.gearBox))
    && !SellerMismatch(u, s, l)
    && !(s.priceOnly && l.price <= 0)
    && !(s.photoOnly && l.imageURL == "")
    && !LacksKeyword(u, s.keywords, Description(u, l))
    && !HasExcluded(u, s.excludeKeys, Description(u, l))
  }

  // The pipeline's filter compares the engine volume unrounded and takes its keywords as a list.
  predicate Matches(u: Chars, c: Criteria, l: RawListing) {
    && !(c.manufacturer > 0 && l.manufacturer != c.manufacturer)
    && !(c.model > 0 && l.model != c.model)
    && !(c.priceMin > 0 && l.price > 0 && l.price < c.priceMin)
    && !(c.priceMax > 0 && l.price > c.priceMax)
    && !(c.yearMin > 0 && l.year < c.yearMin)
    && !(c.yearMax > 0 && l.year > c.yearMax)
    && !(c.engineMinCC > 0.0 && l.engineVolume < c.engineMinCC)
    && !(c.engineMaxCC > 0.0 && l.engineVolume > c.engineMaxCC)
    && !(c.maxKm > 0 && l.km > 0 && l.km > c.maxKm)
    && !(c.maxHand > 0 && l.hand > c.maxHand)
    && !(c.priceOnly && l.price <= 0)
    && !(c.photoOnly && l.imageURL == "")
    && !(c.gearBox != "" && l.gearBox != "" && !EqualFold(u, l.gearBox, c.gearBox))
    && !SellerExcluded(u, c, l)
    && (var desc := Lower(u, l.description + " " + l.subModel);
        && (forall k :: 0 <= k < |c.keywords| ==> Contains(desc, c.keywords[k]))
        && (forall k :: 0 <= k < |c.excludeKeys| ==> !Contains(desc, c.excludeKeys[k])))
  }

  // The trimmed, non-empty pieces, in order.
  function Trimmed(u: Chars, parts: seq<string>): seq<string> {
    if parts == [] then []
    else
      var n := |parts| - 1;
      Trimmed(u, parts[..n]) + if Trim(u, parts[n]) != "" then [Trim(u, parts[n])] else []
  }

  function KeywordList(u: Chars, keywords: string): seq<string> {
    if keywords == "" then [] else Trimmed(u, SplitCommas(keywords))
  }

  function CriteriaOf(u: Chars, s: Search): Criteria {
    Criteria(s.manufacturer, s.model, s.yearMin, s.yearMax, s.priceMin, s.priceMax,
             s.engineMinCC as real, 0.0, s.maxKm, s.maxHand,
             KeywordList(u, s.keywords), KeywordList(u, s.excludeKeys),
             s.gearBox, s.sellerFilter, s.priceOnly, s.photoOnly)
  }

  function LowerAll(u: Chars, ks: seq<string>): (r: seq<string>)
    ensures |r| == |ks| && forall i :: 0 <= i < |ks| ==> r[i] == Lower(u, ks[i])
  {
    seq(|ks|, i requires 0 <= i < |ks| => Lower(u, ks[i]))
  }

  function LowerCriteria(u: Chars, c: Criteria): Criteria {
    c.(keywords := LowerAll(u, c.keywords), excludeKeys := LowerAll(u, c.excludeKeys))
  }

  /* ---- agreement ---- */

  // Below a positive whole bound, truncating changes nothing.
  lemma TruncBelow(x: real, n: int)
    requires n > 0
    ensures Trunc(x) < n <==> x < n as real
  {
  }

  // Lowered after trimming, the list holds exactly the keywords the percolator derives.
  lemma {:induction false} KeywordListMeaning(u: Chars, parts: seq<string>, w: string)
    requires Sound(u)
    ensures w in LowerAll(u, Trimmed(u, parts)) <==>
            exists k :: 0 <= k < |parts| && Keyword(u, parts[k]) != "" && Keyword(u, parts[k]) == w
  {
    if parts != [] {
      var n := |parts| - 1;
      var front := parts[..n];
      KeywordListMeaning(u, front, w);
      TrimLower(u, parts[n]);
      assert Keyword(u, parts[n]) == Lower(u, Trim(u, parts[n]));
      var here := if Trim(u, parts[n]) != "" then [Trim(u, parts[n])] else [];
      assert LowerAll(u, Trimmed(u, parts)) == LowerAll(u, Trimmed(u, front)) + LowerAll(u, here);
      assert here != [] ==> LowerAll(u, here) == [Lower(u, Trim(u, parts[n]))];
      assert w in LowerAll(u, here) <==> Keyword(u, parts[n]) != "" && Keyword(u, parts[n]) == w;
      assert forall k :: 0 <= k < n ==> front[k] == parts[k];
    }
  }

  // The trimmed and lowered pieces that are left of the text.
  ghost predicate IsWord(u: Chars, keywords: string, w: string) {
    keywords != "" && w != ""
    && exists k :: 0 <= k < |SplitCommas(keywords)| && Keyword(u, SplitCommas(keywords)[k]) == w
  }

  lemma WordsMeaning(u: Chars, keywords: string, w: string)
    requires Sound(u)
    ensures w in LowerAll(u, KeywordList(u, keywords)) <==> IsWord(u, keywords, w)
  {
    if keywords != "" {
      KeywordListMeaning(u, SplitCommas(keywords), w);
    }
  }

  lemma ByWords(u: Chars, keywords: string, desc: string)
    ensures LacksKeyword(u, keywords, desc) <==> exists w :: IsWord(u, keywords, w) && !Contains(desc, w)
    ensures HasExcluded(u, keywords, desc) <==> exists w :: IsWord(u, keywords, w) && Contains(desc, w)
  {
    if LacksKeyword(u, keywords, desc) {
      var k :| 0 <= k < |SplitCommas(keywords)|
               && Keyword(u, SplitCommas(keywords)[k]) != "" && !Contains(desc, Keyword(u, SplitCommas(keywords)[k]));
      assert IsWord(u, keywords, Keyword(u, SplitCommas(keywords)[k]));
    }
    if HasExcluded(u, keywords, desc) {
      var k :| 0 <= k < |SplitCommas(keywords)|
               && Keyword(u, SplitCommas(keywords)[k]) != "" && Contains(desc, Keyword(u, SplitCommas(keywords)[k]));
      assert IsWord(u, keywords, Keyword(u, SplitCommas(keywords)[k]));
    }
  }

  lemma KeywordsAgree(u: Chars, keywords: string, desc: string)
    requires Sound(u)
    ensures var ks := LowerAll(u, KeywordList(u, keywords));
            && (LacksKeyword(u, keywords, desc) <==> !forall k :: 0 <= k < |ks| ==> Contains(desc, ks[k]))
            && (HasExcluded(u, keywords, desc) <==> !forall k :: 0 <= k < |ks| ==> !Contains(desc, ks[k]))
  {
    var ks := LowerAll(u, KeywordList(u, keywords));
    ByWords(u, keywords, desc);
    forall w: string ensures w in ks <==> IsWord(u, keywords, w) {
      WordsMeaning(u, keywords, w);
    }
    assert forall k :: 0 <= k < |ks| ==> ks[k] in ks;
  }

  lemma ClassifierAgrees(u: Chars, l: RawListing, s: Search)
    ensures Classify(u, l, s).None? <==> MatchesSearch(u, l, s)
  {
  }

  lemma PipelineAgrees(u: Chars, l: RawListing, s: Search)
    requires Sound(u)
    ensures MatchesSearch(u, l, s) <==> Matches(u, LowerCriteria(u, CriteriaOf(u, s)), l)
  {
    if s.engineMinCC > 0 {
      TruncBelow(l.engineVolume, s.engineMinCC);
    }
    FoldSymmetric(u, s.gearBox, l.gearBox);
    KeywordsAgree(u, s.keywords, Description(u, l));
    KeywordsAgree(u, s.excludeKeys, Description(u, l));
    SellersAgree(u, s, LowerCriteria(u, CriteriaOf(u, s)), l);
  }

  lemma SellersAgree(u: Chars, s: Search, c: Criteria, l: RawListing)
    requires c.sellerFilter == s.sellerFilter
    ensures SellerMismatch(u, s, l) <==> SellerExcluded(u, c, l)
    ensures SellerMismatch(u, s, l) <==> SellerRejects(u, s.sellerFilter, l.commercial)
  {
  }

  /** The classifier finds no reason, the percolator matches and the pipeline's filter keeps the listing
      in exactly the same cases. */
  lemma FiltersAgree(u: Chars, l: RawListing, s: Search)
    requires Sound(u)
    ensures Classify(u, l, s).None? <==> MatchesSearch(u, l, s)
    ensures MatchesSearch(u, l, s) <==> Matches(u, LowerCriteria(u, CriteriaOf(u, s)), l)
  {
    ClassifierAgrees(u, l, s);
    PipelineAgrees(u, l, s);
  }

  lemma FoldSymmetric(u: Chars, s: string, t: string)
    ensures EqualFold(u, s, t) <==> EqualFold(u, t, s)
  {
  }

  /* ---- the pipeline in its own form ---- */

  method FilterCriteriaFromSearch(u: Chars, s: Search) returns (c: Criteria)
    ensures c == CriteriaOf(u, s)
  {
    var keywords, excludeKeys: seq<string> := [], [];
    if s.keywords != "" {
      keywords := AppendTrimmed(u, SplitCommas(s.keywords));
    }
    if s.excludeKeys != "" {
      excludeKeys := AppendTrimmed(u, SplitCommas(s.excludeKeys));
    }
    c := Criteria(s.manufacturer, s.model, s.yearMin, s.yearMax, s.priceMin, s.priceMax,
                  s.engineMinCC as real, 0.0, s.maxKm, s.maxHand, keywords, excludeKeys,
                  s.gearBox, s.sellerFilter, s.priceOnly, s.photoOnly);
  }

  method AppendTrimmed(u: Chars, parts: seq<string>) returns (ks: seq<string>)
    ensures ks == Trimmed(u, parts)
  {
    ks := [];
    for i := 0 to |parts|
      invariant ks == Trimmed(u, parts[..i])
    {
      assert parts[..i + 1][..i] == parts[..i];
      var kw := Trim(u, parts[i]);
      if kw != "" {
        ks := ks + [kw];
      }
    }
    assert parts[..|parts|] == parts;
  }

  // The listings that match the search, in order.
  function Kept(u: Chars, s: Search, ls: seq<RawListing>): seq<RawListing> {
    if ls == [] then []
    else
      var n := |ls| - 1;
      Kept(u, s, ls[..n]) + if MatchesSearch(u, ls[n], s) then [ls[n]] else []
  }

  /** On the criteria of a search, the pipeline keeps exactly what the percolator matches, in order. */
  method ApplyForSearch(u: Chars, s: Search, ls: seq<RawListing>) returns (r: seq<RawListing>)
    requires Sound(u)
    ensures r == Kept(u, s, ls)
  {
    var criteria := FilterCriteriaFromSearch(u, s);
    r := Apply(u, criteria, ls);
    KeptAgree(u, s, ls);
  }

  function KeptBy(u: Chars, c: Criteria, ls: seq<RawListing>): seq<RawListing> {
    if ls == [] then []
    else
      var n := |ls| - 1;
      KeptBy(u, c, ls[..n]) + if Matches(u, LowerCriteria(u, c), ls[n]) then [ls[n]] else []
  }

  lemma {:induction false} KeptAgree(u: Chars, s: Search, ls: seq<RawListing>)
    requires Sound(u)
    ensures KeptBy(u, CriteriaOf(u, s), ls) == Kept(u, s, ls)
  {
    if ls != [] {
      var n := |ls| - 1;
      KeptAgree(u, s, ls[..n]);
      FiltersAgree(u, ls[n], s);
    }
  }

  method Apply(u: Chars, criteria: Criteria, ls: seq<RawListing>) returns (result: seq<RawListing>)
    ensures result == KeptBy(u, criteria, ls)
  {
    var c := criteria.(keywords := LowerAll(u, criteria.keywords), excludeKeys := LowerAll(u, criteria.excludeKeys));
    result := [];
    for i := 0 to |ls|
      invariant result == KeptBy(u, criteria, ls[..i])
    {
      assert ls[..i + 1][..i] == ls[..i];
      if Matches(u, c, ls[i]) {
        result := result + [ls[i]];
      }
    }
    assert ls[..|ls|] == ls;
  }

  /* ---- counting ---- */

  // Listings rejected for the reason.
  function Tally(u: Chars, s: Search, ls: seq<RawListing>, r: Reason): nat {
    if ls == [] then 0
    else
      var n := |ls| - 1;
      Tally(u, s, ls[..n], r) + if Classify(u, ls[n], s) == Some(r) then 1 else 0
  }

  function MatchCount(u: Chars, s: Search, ls: seq<RawListing>): nat {
    |Kept(u, s, ls)|
  }

  // The feed size of the statistics: everything but the wrong models.
  function FeedSize(matched: nat, tally: Reason -> nat): nat {
    matched + tally(YearOut) + tally(PriceOut) + tally(KmOver) + tally(HandOver) + tally(EngineCC)
    + tally(Seller) + tally(OtherFilter)
  }

  /** Every listing of a feed is counted once per search: matched, or under one reason. */
  lemma {:induction false} FeedConserved(u: Chars, s: Search, ls: seq<RawListing>)
    ensures FeedSize(MatchCount(u, s, ls), r => Tally(u, s, ls, r)) + Tally(u, s, ls, WrongModel) == |ls|
  {
    if ls != [] {
      var n := |ls| - 1;
      FeedConserved(u, s, ls[..n]);
      ClassifierAgrees(u, ls[n], s);
    }
  }

  predicate DistinctIds(rules: seq<Search>) {
    forall i, j :: 0 <= i < j < |rules| ==> rules[i].id != rules[j].id
  }

  function CountOf(counts: map<Reason, nat>, r: Reason): nat {
    if r in counts then counts[r] else 0
  }

  // The counts recorded for the search are its tallies.
  ghost predicate Counted(u: Chars, result: map<int, map<Reason, nat>>, s: Search, ls: seq<RawListing>) {
    s.id in result && forall r :: CountOf(result[s.id], r) == Tally(u, s, ls, r)
  }

  class Percolator {
    const chars: Chars
    var rules: seq<Search>

    constructor (u: Chars)
      ensures chars == u && rules == []
    {
      chars, rules := u, [];
    }

    method Load(searches: seq<Search>)
      modifies this
      ensures rules == searches
    {
      rules := searches;
    }

    // Every rule the listing satisfies, in order.
    method Match(l: RawListing) returns (matches: seq<Search>)
      ensures matches == RulesFor(chars, rules, l)
    {
      matches := [];
      for i := 0 to |rules|
        invariant matches == RulesFor(chars, rules[..i], l)
      {
        assert rules[..i + 1][..i] == rules[..i];
        if MatchesSearch(chars, l, rules[i]) {
          matches := matches + [rules[i]];
        }
      }
      assert rules[..|rules|] == rules;
    }

    method CountRejections(ls: seq<RawListing>) returns (result: map<int, map<Reason, nat>>)
      requires DistinctIds(rules)
      ensures forall k :: 0 <= k < |rules| ==> Counted(chars, result, rules[k], ls)
    {
      result := map[];
      for i := 0 to |rules|
        invariant forall k :: 0 <= k < i ==> Counted(chars, result, rules[k], ls)
      {
        var counts: map<Reason, nat> := map[];
        for j := 0 to |ls|
          invariant forall r :: CountOf(counts, r) == Tally(chars, rules[i], ls[..j], r)
        {
          assert ls[..j + 1][..j] == ls[..j];
          var reason := Classify(chars, ls[j], rules[i]);
          if reason.Some? {
            counts := counts[reason.value := CountOf(counts, reason.value) + 1];
          }
        }
        assert ls[..|ls|] == ls;
        result := result[rules[i].id := counts];
      }
    }
  }

  function RulesFor(u: Chars, rules: seq<Search>, l: RawListing): seq<Search> {
    if rules == [] then []
    else
      var n := |rules| - 1;
      RulesFor(u, rules[..n], l) + if MatchesSearch(u, l, rules[n]) then [rules[n]] else []
  }

  lemma {:induction false} RulesForMeaning(u: Chars, rules: seq<Search>, l: RawListing)
    ensures forall s :: s in RulesFor(u, rules, l) <==> s in rules && MatchesSearch(u, l, s)
    ensures DistinctIds(rules) ==> DistinctIds(RulesFor(u, rules, l))
  {
    if rules != [] {
      var n := |rules| - 1;
      RulesForMeaning(u, rules[..n], l);
      assert rules == rules[..n] + [rules[n]];
      if DistinctIds(rules) {
        assert forall s :: s in rules[..n] ==> s.id != rules[n].id;
        assert forall k :: 0 <= k < |RulesFor(u, rules[..n], l)| ==> RulesFor(u, rules[..n], l)[k] in rules[..n];
      }
    }
  }
}
