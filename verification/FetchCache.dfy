/**
  The caching layer in front of a listing source. A fetch looks an entry up, calls the source without
  holding the lock, and stores the result; other fetches take their steps in between.
 */
module FetchCache {
  import opened QueryKey
  import opened Wrappers

  const MAX_ENTRIES := 100

  datatype Entry<L> = Entry(listings: seq<L>, fetchedAt: int, lastUsed: int)

  // What the source answers. A failure may carry the pages fetched so far, and is blocked when it is a
  // bot challenge or a rate limit.
  datatype Answer<L> = Success(listings: seq<L>) | Failure(listings: seq<L>, partial: bool, blocked: bool)

  // The source returned these listings for these parameters.
  datatype Return<L> = Return(params: SourceParams, listings: seq<L>)

  // Every entry is what the source returned for the one query whose key it is stored under.
  ghost predicate OwnQuery<L(!new)>(cache: map<string, Entry<L>>, returned: set<Return<L>>) {
    forall p: SourceParams :: CacheKey(p) in cache ==> Return(p, cache[CacheKey(p)].listings) in returned
  }

  ghost predicate Submap<L>(a: map<string, Entry<L>>, b: map<string, Entry<L>>) {
    forall k :: k in a ==> k in b && a[k] == b[k]
  }

  // What is missing from the smaller map was last used no later than anything in it.
  ghost predicate LeastUsedGone<L>(a: map<string, Entry<L>>, b: map<string, Entry<L>>) {
    forall j, k :: j in a && k in b && k !in a ==> b[k].lastUsed <= a[j].lastUsed
  }

  ghost predicate InUseOrder<L>(cache: map<string, Entry<L>>, items: seq<string>) {
    && (forall i :: 0 <= i < |items| ==> items[i] in cache)
    && forall i, j :: 0 <= i < j < |items| ==> items[i] != items[j] && cache[items[i]].lastUsed <= cache[items[j]].lastUsed
  }

  // Puts a key at its place in a list sorted by last use.
  method InsertByUse<L>(cache: map<string, Entry<L>>, items: seq<string>, key: string) returns (r: seq<string>)
    requires InUseOrder(cache, items) && key in cache && key !in items
    ensures InUseOrder(cache, r) && |r| == |items| + 1
    ensures forall k :: k in r <==> k in items || k == key
  {
    var i := |items|;
    while i > 0 && cache[key].lastUsed < cache[items[i - 1]].lastUsed
      invariant 0 <= i <= |items|
      invariant i < |items| ==> cache[key].lastUsed < cache[items[i]].lastUsed
    {
      i := i - 1;
    }
    r := items[..i] + [key] + items[i..];
    Inserted(cache, items, key, i);
    InsertedMembers(items, key, i);
  }

  lemma Inserted<L>(cache: map<string, Entry<L>>, items: seq<string>, key: string, i: nat)
    requires InUseOrder(cache, items) && key in cache && key !in items && i <= |items|
    requires i > 0 ==> cache[items[i - 1]].lastUsed <= cache[key].lastUsed
    requires i < |items| ==> cache[key].lastUsed <= cache[items[i]].lastUsed
    ensures InUseOrder(cache, items[..i] + [key] + items[i..])
  {
    var r := items[..i] + [key] + items[i..];
    assert forall j :: 0 <= j < |r| ==> r[j] == if j < i then items[j] else if j == i then key else items[j - 1];
    assert forall j :: 0 <= j < i ==> cache[items[j]].lastUsed <= cache[key].lastUsed;
    assert forall j :: i <= j < |items| ==> cache[key].lastUsed <= cache[items[j]].lastUsed;
  }

  lemma InsertedMembers(items: seq<string>, key: string, i: nat)
    requires i <= |items|
    ensures forall k :: k in items[..i] + [key] + items[i..] <==> k in items || k == key
  {
    assert items == items[..i] + items[i..];
    forall k ensures k in items[..i] + [key] + items[i..] <==> k in items || k == key {
      assert k in items <==> k in items[..i] || k in items[i..];
    }
  }

  method SortByUse<L>(cache: map<string, Entry<L>>) returns (items: seq<string>)
    ensures InUseOrder(cache, items) && |items| == |cache|
    ensures forall k :: k in items <==> k in cache
  {
    items := [];
    var todo := cache.Keys;
    while todo != {}
      invariant todo <= cache.Keys && InUseOrder(cache, items)
      invariant |items| + |todo| == |cache.Keys|
      invariant forall k :: k in items <==> k in cache && k !in todo
      decreases todo
    {
      var k :| k in todo;
      todo := todo - {k};
      items := InsertByUse(cache, items, k);
    }
  }

  class CachingFetcher<L(!new)> {
    const ttl: int
    var cache: map<string, Entry<L>>
    var clock: int
    ghost var returned: set<Return<L>>

    ghost predicate Valid()
      reads this
    {
      && |cache| <= MAX_ENTRIES && OwnQuery(cache, returned)
      && forall k :: k in cache ==> cache[k].fetchedAt <= cache[k].lastUsed <= clock
    }

    constructor (timeToLive: int)
      ensures Valid() && ttl == timeToLive && cache == map[] && returned == {}
    {
      ttl, cache, clock, returned := timeToLive, map[], 0, {};
    }

    method Now() returns (now: int)
      modifies this`clock
      ensures old(clock) <= now == clock
    {
      now := *;
      if now < clock {
        now := clock;
      }
      clock := now;
    }

    // Removes the entries older than twice the time to live, each at the moment it is looked at.
    method EvictExpired()
      modifies this`cache, this`clock
      ensures old(clock) <= clock && Submap(cache, old(cache))
      ensures forall k :: k in old(cache) && k !in cache ==> clock - old(cache)[k].fetchedAt > 2 * ttl
      ensures forall k :: k in cache ==> old(clock) - cache[k].fetchedAt <= 2 * ttl
      ensures |cache| <= |old(cache)|
    {
      var todo := cache.Keys;
      var all := cache;
      while todo != {}
        invariant todo <= cache.Keys <= all.Keys && old(clock) <= clock && Submap(cache, all)
        invariant forall k :: k in all && k !in cache ==> clock - all[k].fetchedAt > 2 * ttl
        invariant forall k :: k in cache && k !in todo ==> old(clock) - cache[k].fetchedAt <= 2 * ttl
        decreases todo
      {
        var k :| k in todo;
        todo := todo - {k};
        var now := Now();
        if now - cache[k].fetchedAt > 2 * ttl {
          cache := cache - {k};
        }
      }
      SmallerKeys(cache.Keys, all.Keys);
    }

    // Removes the least recently used entries until the rest fit.
    method EvictOldest()
      modifies this`cache
      ensures Submap(cache, old(cache)) && LeastUsedGone(cache, old(cache))
      ensures |cache| == if |old(cache)| <= MAX_ENTRIES then |old(cache)| else MAX_ENTRIES
    {
      var items := SortByUse(cache);
      var i := 0;
      while i < |items| && |cache| > MAX_ENTRIES
        invariant i <= |items| && LeftAfter(old(cache), cache, items, i)
        invariant |cache| == |items| - i && |cache| >= if |items| <= MAX_ENTRIES then |items| else MAX_ENTRIES
      {
        DropNext(old(cache), cache, items, i);
        cache := cache - {items[i]};
        i := i + 1;
      }
      GoneFirst(old(cache), cache, items, i);
    }

    // The critical section after a successful fetch. An entry leaves the cache only if it expired or
    // was used no later than everything that stays.
    method Store(p: SourceParams, listings: seq<L>)
      requires Valid() && Return(p, listings) in returned
      modifies this`cache, this`clock
      ensures Valid() && old(clock) <= clock
      ensures exists now :: old(clock) <= now <= clock
                && StoreResult(old(cache)[CacheKey(p) := Entry(listings, now, now)], cache, clock, ttl)
    {
      var now := Now();
      ghost var before := cache;
      cache := cache[CacheKey(p) := Entry(listings, now, now)];
      ghost var full := cache;
      OwnQueryMore(before, returned, p, full[CacheKey(p)]);
      if |cache| > MAX_ENTRIES {
        EvictExpired();
      }
      ghost var unexpired := cache;
      if |cache| > MAX_ENTRIES {
        EvictOldest();
      }
      OwnQueryLess(cache, full, returned);
      AllAccounted(full, unexpired, cache, clock, ttl);
    }

    method Touch(key: string)
      requires Valid()
      modifies this`cache, this`clock
      ensures Valid() && old(clock) <= clock
      ensures cache == if key in old(cache) then old(cache)[key := old(cache)[key].(lastUsed := clock)] else old(cache)
    {
      if key in cache {
        var now := Now();
        var all := cache;
        cache := cache[key := cache[key].(lastUsed := now)];
        assert cache.Keys == all.Keys;
      }
    }

    // The steps other fetches take meanwhile: each is one critical section.
    method Others()
      requires Valid()
      modifies this
      ensures Valid() && returned >= old(returned) && clock >= old(clock)
    {
      var steps: nat := *;
      while steps > 0
        invariant Valid() && returned >= old(returned) && clock >= old(clock)
      {
        var touch: bool := *;
        if touch {
          var key: string := *;
          Touch(key);
        } else {
          var p: SourceParams := *;
          var listings: seq<L> := *;
          returned := returned + {Return(p, listings)};
          Store(p, listings);
        }
        steps := steps - 1;
      }
    }

    method AskSource(p: SourceParams) returns (answer: Answer<L>)
      requires Valid()
      modifies this
      ensures Valid() && returned >= old(returned) && clock >= old(clock)
      ensures answer.Success? ==> Return(p, answer.listings) in returned
    {
      Others();
      var listings: seq<L> := *;
      var ok: bool, partial: bool, blocked: bool := *, *, *;
      if ok {
        returned := returned + {Return(p, listings)};
        return Success(listings);
      }
      answer := Failure(listings, partial, blocked);
    }

    /** Whatever other fetches do meanwhile, listings given back without an error are what the source
        returned for these very parameters. */
    method Fetch(p: SourceParams) returns (listings: seq<L>, err: bool, ghost lookedAt: int, ghost inner: Option<Answer<L>>)
      requires Valid()
      modifies this
      ensures Valid() && old(clock) <= lookedAt <= clock
      ensures !err ==> Return(p, listings) in returned
      ensures inner.None? <==> CacheKey(p) in old(cache) && lookedAt - old(cache)[CacheKey(p)].fetchedAt < ttl
      ensures (listings, err) == FetchResult(EntryFor(old(cache), p), inner)
      ensures inner.Some? && inner.value.Failure? ==>
                && (err <==> (inner.value.partial && inner.value.listings != []) || inner.value.blocked || CacheKey(p) !in old(cache))
                && (err ==> listings == if inner.value.partial then inner.value.listings else [])
                && (!err ==> listings == old(cache)[CacheKey(p)].listings)
      ensures inner.Some? && inner.value.Success? ==> Stored(p, listings, cache, clock, ttl)
      ensures !err && !(inner.Some? && inner.value.Success?) && CacheKey(p) in cache ==>
                cache[CacheKey(p)].lastUsed == clock
    {
      var entry := EntryFor(cache, p);
      lookedAt := clock;
      if entry.Some? {
        var now := Now();
        lookedAt := now;
        if now - entry.value.fetchedAt < ttl {
          Others();
          Touch(CacheKey(p));
          return entry.value.listings, false, lookedAt, None;
        }
      }
      var answer := AskSource(p);
      Others();
      inner := Some(answer);
      listings, err := [], true;
      if answer.Success? {
        Store(p, answer.listings);
        listings, err := answer.listings, false;
      } else if answer.partial && answer.listings != [] {
        listings := answer.listings;
      } else if !answer.blocked && entry.Some? {
        Touch(CacheKey(p));
        listings, err := entry.value.listings, false;
      }
    }
  }

  function EntryFor<L>(cache: map<string, Entry<L>>, p: SourceParams): Option<Entry<L>> {
    if CacheKey(p) in cache then Some(cache[CacheKey(p)]) else None
  }

  // What a fetch gives back, from the entry it found first and the source's answer if it asked: the
  // answer, a partial answer with its error, nothing when blocked, and the old entry after any other error.
  ghost function FetchResult<L>(entry: Option<Entry<L>>, inner: Option<Answer<L>>): (seq<L>, bool) {
    match inner
    case None => (if entry.Some? then entry.value.listings else [], false)
    case Some(Success(ls)) => (ls, false)
    case Some(Failure(ls, partial, blocked)) =>
      if partial && ls != [] then (ls, true)
      else if !blocked && entry.Some? then (entry.value.listings, false)
      else ([], true)
  }

  // What a store leaves of the cache with the new entry in it.
  ghost predicate StoreResult<L>(full: map<string, Entry<L>>, left: map<string, Entry<L>>, clock: int, ttl: int) {
    && Submap(left, full)
    && (|full| <= MAX_ENTRIES ==> left == full)
    && forall j, k :: j in left && k in full && k !in left ==>
         clock - full[k].fetchedAt > 2 * ttl || full[k].lastUsed <= left[j].lastUsed
  }

  // The cache is one that the store of these listings leaves.
  ghost predicate Stored<L(!new)>(p: SourceParams, listings: seq<L>, left: map<string, Entry<L>>, clock: int, ttl: int) {
    exists before: map<string, Entry<L>>, now ::
      |before| <= MAX_ENTRIES && StoreResult(before[CacheKey(p) := Entry(listings, now, now)], left, clock, ttl)
  }

  lemma SmallerKeys(a: set<string>, b: set<string>)
    ensures a <= b ==> |a| <= |b|
  {
    if a <= b {
      assert b == a + (b - a);
    }
  }

  // What is left when the first i entries of the list are gone.
  ghost predicate LeftAfter<L>(all: map<string, Entry<L>>, left: map<string, Entry<L>>, items: seq<string>, i: nat)
    requires i <= |items|
  {
    Submap(left, all) && forall k :: k in all ==> (k in left <==> k !in items[..i])
  }

  lemma DropNext<L>(all: map<string, Entry<L>>, left: map<string, Entry<L>>, items: seq<string>, i: nat)
    requires i < |items| && InUseOrder(all, items) && LeftAfter(all, left, items, i)
    ensures LeftAfter(all, left - {items[i]}, items, i + 1) && |left - {items[i]}| == |left| - 1
  {
    assert items[..i + 1] == items[..i] + [items[i]];
    assert items[i] !in items[..i];
    assert (left - {items[i]}).Keys == left.Keys - {items[i]};
  }

  lemma GoneFirst<L>(all: map<string, Entry<L>>, left: map<string, Entry<L>>, items: seq<string>, i: nat)
    requires i <= |items| && InUseOrder(all, items) && LeftAfter(all, left, items, i)
    requires forall k :: k in items <==> k in all
    ensures LeastUsedGone(left, all)
  {
    forall j, k | j in left && k in all && k !in left ensures all[k].lastUsed <= left[j].lastUsed {
      var m :| 0 <= m < i && items[m] == k;
      assert j in items;
      var n :| 0 <= n < |items| && items[n] == j;
      assert forall x :: 0 <= x < i ==> items[x] in items[..i];
    }
  }

  lemma OwnQueryMore<L(!new)>(cache: map<string, Entry<L>>, returned: set<Return<L>>, p: SourceParams, e: Entry<L>)
    requires OwnQuery(cache, returned) && Return(p, e.listings) in returned
    ensures OwnQuery(cache[CacheKey(p) := e], returned)
  {
    forall q: SourceParams | CacheKey(q) in cache[CacheKey(p) := e]
      ensures Return(q, cache[CacheKey(p) := e][CacheKey(q)].listings) in returned
    {
      KeyInjective(p, q);
    }
  }

  lemma OwnQueryLess<L(!new)>(left: map<string, Entry<L>>, full: map<string, Entry<L>>, returned: set<Return<L>>)
    requires Submap(left, full) && OwnQuery(full, returned)
    ensures OwnQuery(left, returned)
  {
  }

  lemma AllAccounted<L>(full: map<string, Entry<L>>, unexpired: map<string, Entry<L>>, left: map<string, Entry<L>>,
                        clock: int, ttl: int)
    requires Submap(left, unexpired) && Submap(unexpired, full) && LeastUsedGone(left, unexpired)
    requires |full| <= MAX_ENTRIES ==> left == full
    requires forall k :: k in full && k !in unexpired ==> clock - full[k].fetchedAt > 2 * ttl
    ensures StoreResult(full, left, clock, ttl)
  {
  }
}
