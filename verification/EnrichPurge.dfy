/** Purging entries of the enrichment stream whose listings are already enriched, in batches behind a cursor. */
module EnrichPurge {
  import opened Wrappers

  const BATCH_SIZE := 200

  // A stream entry; one that does not decode to a request has no token.
  datatype Message = Message(id: nat, token: Option<string>)

  ghost predicate Ordered(s: seq<Message>) {
    forall i, j :: 0 <= i < j < |s| ==> s[i].id < s[j].id
  }

  // The entries from an identifier on.
  function RangeFrom(s: seq<Message>, start: Option<nat>): seq<Message> {
    if s == [] || start.None? || s[0].id >= start.value then s else RangeFrom(s[1..], start)
  }

  function Without(s: seq<Message>, ids: set<nat>): seq<Message> {
    if s == [] then []
    else Without(s[..|s| - 1], ids) + if s[|s| - 1].id in ids then [] else [s[|s| - 1]]
  }

  ghost predicate Enriched(s: seq<Message>, enriched: string -> bool, i: nat)
    requires i < |s|
  {
    s[i].token.Some? && enriched(s[i].token.value)
  }

  predicate SameBatch(i: nat, j: nat) {
    i / BATCH_SIZE == j / BATCH_SIZE
  }

  // A later entry of the same batch asks for the same listing.
  ghost predicate Superseded(s: seq<Message>, i: nat)
    requires i < |s|
  {
    exists j :: i < j < |s| && SameBatch(i, j) && s[j].token == s[i].token
  }

  // The identifiers a purge deletes among the entries lo to hi.
  ghost function Purgeable(s: seq<Message>, enriched: string -> bool, lo: nat, hi: nat): set<nat>
    requires lo <= hi <= |s|
  {
    set i | lo <= i < hi && Enriched(s, enriched, i) && !Superseded(s, i) :: s[i].id
  }

  ghost function EnrichedTokens(s: seq<Message>, enriched: string -> bool, lo: nat, hi: nat): set<string>
    requires lo <= hi <= |s|
  {
    set i | lo <= i < hi && Enriched(s, enriched, i) :: s[i].token.value
  }

  ghost predicate NoneEnriched(s: seq<Message>, enriched: string -> bool) {
    forall i :: 0 <= i < |s| ==> !Enriched(s, enriched, i)
  }

  ghost predicate NoneSuperseded(s: seq<Message>, enriched: string -> bool) {
    forall i :: 0 <= i < |s| && Enriched(s, enriched, i) ==> !Superseded(s, i)
  }

  ghost predicate DistinctTokens(s: seq<Message>) {
    forall i, j :: 0 <= i < j < |s| && s[i].token.Some? ==> s[i].token != s[j].token
  }

  /* ---- what deleting does to a stream ---- */

  lemma {:induction false} WithoutAppend(a: seq<Message>, b: seq<Message>, ids: set<nat>)
    ensures Without(a + b, ids) == Without(a, ids) + Without(b, ids)
  {
    if b == [] {
      assert a + b == a;
    } else {
      var n := |b| - 1;
      assert (a + b)[..|a| + n] == a + b[..n];
      WithoutAppend(a, b[..n], ids);
    }
  }

  lemma {:induction false} WithoutNone(s: seq<Message>, ids: set<nat>)
    requires forall m :: m in s ==> m.id !in ids
    ensures Without(s, ids) == s
  {
    if s != [] {
      var front, last := s[..|s| - 1], s[|s| - 1];
      assert s == front + [last] && last in s;
      WithoutNone(front, ids);
    }
  }

  // What stays keeps its order.
  lemma {:induction false} WithoutMeaning(s: seq<Message>, ids: set<nat>)
    requires Ordered(s)
    ensures Ordered(Without(s, ids))
    ensures forall m :: m in Without(s, ids) <==> m in s && m.id !in ids
  {
    if s != [] {
      var n := |s| - 1;
      WithoutMeaning(s[..n], ids);
      var front := Without(s[..n], ids);
      assert s == s[..n] + [s[n]];
      forall i | 0 <= i < |front| ensures front[i].id < s[n].id {
        assert front[i] in s[..n];
      }
      if s[n].id in ids {
        assert Without(s, ids) == front;
      }
    }
  }

  /* ---- the cursor ---- */

  lemma {:induction false} RangePast(a: seq<Message>, b: seq<Message>, start: nat)
    requires forall m :: m in a ==> m.id < start
    ensures RangeFrom(a + b, Some(start)) == RangeFrom(b, Some(start))
  {
    if a == [] {
      assert a + b == b;
    } else {
      assert (a + b)[1..] == a[1..] + b;
      RangePast(a[1..], b, start);
    }
  }

  function Cursor(s: seq<Message>, pos: nat): Option<nat>
    requires pos <= |s|
  {
    if pos == 0 then None else Some(s[pos - 1].id)
  }

  // Leaves out the entry at the cursor if it is still there.
  function SkipCursor(msgs: seq<Message>, cursor: Option<nat>): seq<Message> {
    if cursor.Some? && msgs != [] && msgs[0].id == cursor.value then msgs[1..] else msgs
  }

  lemma WithoutLast(front: seq<Message>, m: Message, ids: set<nat>)
    ensures Without(front + [m], ids) == Without(front, ids) + if m.id in ids then [] else [m]
  {
    assert (front + [m])[..|front|] == front;
  }

  lemma Associative(a: seq<Message>, b: seq<Message>, c: seq<Message>)
    ensures a + b + c == a + (b + c)
  {
  }

  // What is left of the entries before an entry, of it, and of the rest.
  lemma SplitsAt(front: seq<Message>, m: Message, rest: seq<Message>, gone: set<nat>)
    requires forall r :: r in rest ==> r.id !in gone
    ensures Without(front + [m] + rest, gone)
            == Without(front, gone) + ((if m.id in gone then [] else [m]) + rest)
  {
    WithoutAppend(front + [m], rest, gone);
    WithoutNone(rest, gone);
    WithoutLast(front, m, gone);
    Associative(Without(front, gone), if m.id in gone then [] else [m], rest);
  }

  lemma CursorSplits(s: seq<Message>, pos: nat, gone: set<nat>)
    requires 0 < pos <= |s|
    requires forall i :: pos <= i < |s| ==> s[i].id !in gone
    ensures Without(s, gone) ==
            Without(s[..pos - 1], gone) + ((if s[pos - 1].id in gone then [] else [s[pos - 1]]) + s[pos..])
  {
    assert s == s[..pos - 1] + [s[pos - 1]] + s[pos..];
    SplitsAt(s[..pos - 1], s[pos - 1], s[pos..], gone);
  }

  lemma BeforeCursor(s: seq<Message>, pos: nat, gone: set<nat>)
    requires Ordered(s) && 0 < pos <= |s|
    ensures forall m :: m in Without(s[..pos - 1], gone) ==> m.id < s[pos - 1].id
  {
    WithoutMeaning(s[..pos - 1], gone);
  }

  /** Reading from the cursor finds exactly the entries not yet visited, whether or not the entry at the
      cursor was itself deleted. */
  lemma CursorFindsRest(s: seq<Message>, pos: nat, gone: set<nat>)
    requires Ordered(s) && pos <= |s|
    requires forall i :: pos <= i < |s| ==> s[i].id !in gone
    ensures SkipCursor(RangeFrom(Without(s, gone), Cursor(s, pos)), Cursor(s, pos)) == s[pos..]
  {
    if pos == 0 {
      WithoutNone(s, gone);
    } else {
      var x := s[pos - 1].id;
      var rest := (if x in gone then [] else [s[pos - 1]]) + s[pos..];
      CursorSplits(s, pos, gone);
      BeforeCursor(s, pos, gone);
      RangePast(Without(s[..pos - 1], gone), rest, x);
      AtCursor(s, pos, gone, rest);
    }
  }

  lemma AtCursor(s: seq<Message>, pos: nat, gone: set<nat>, rest: seq<Message>)
    requires Ordered(s) && 0 < pos <= |s|
    requires rest == (if s[pos - 1].id in gone then [] else [s[pos - 1]]) + s[pos..]
    ensures SkipCursor(RangeFrom(rest, Cursor(s, pos)), Cursor(s, pos)) == s[pos..]
  {
  }

  /* ---- one batch ---- */

  // The identifier of the last entry with each token.
  ghost predicate LastIds(batch: seq<Message>, n: nat, ids: map<string, nat>)
    requires n <= |batch|
  {
    && (forall t :: t in ids ==> exists i :: 0 <= i < n && batch[i].token == Some(t) && batch[i].id == ids[t]
                                   && forall j :: i < j < n ==> batch[j].token != Some(t))
    && forall i :: 0 <= i < n && batch[i].token.Some? ==> batch[i].token.value in ids
  }

  lemma SameBatchExactly(pos: nat, a: nat, b: nat)
    requires BatchStart(pos) && pos <= a < pos + BATCH_SIZE && pos <= b
    ensures SameBatch(a, b) <==> b < pos + BATCH_SIZE
  {
  }

  predicate BatchStart(pos: nat) {
    pos % BATCH_SIZE == 0
  }

  lemma NextStart(pos: nat)
    requires BatchStart(pos)
    ensures BatchStart(pos + BATCH_SIZE)
  {
  }

  ghost predicate AtBatch(s: seq<Message>, pos: nat) {
    BatchStart(pos) || pos == |s|
  }

  // Entries pos to next are one batch.
  ghost predicate IsBatch(s: seq<Message>, pos: nat, next: nat) {
    pos < next <= |s| && BatchStart(pos) && (next == pos + BATCH_SIZE || (next < pos + BATCH_SIZE && next == |s|))
  }

  // The entries from pos on, a full batch or all there are.
  ghost predicate BatchRead(s: seq<Message>, pos: nat, msgs: seq<Message>) {
    && pos + |msgs| <= |s| && msgs == s[pos..pos + |msgs|]
    && (|msgs| == BATCH_SIZE || (|msgs| < BATCH_SIZE && pos + |msgs| == |s|))
  }

  lemma BatchEnds(s: seq<Message>, pos: nat, msgs: seq<Message>)
    requires AtBatch(s, pos) && msgs != [] && BatchRead(s, pos, msgs)
    ensures IsBatch(s, pos, pos + |msgs|) && AtBatch(s, pos + |msgs|)
    ensures Some(msgs[|msgs| - 1].id) == Cursor(s, pos + |msgs|)
  {
    if |msgs| == BATCH_SIZE {
      NextStart(pos);
    }
  }

  lemma LastOfBatch(s: seq<Message>, pos: nat, next: nat, ids: map<string, nat>, i: nat)
    requires Ordered(s) && IsBatch(s, pos, next) && LastIds(s[pos..next], next - pos, ids)
    requires pos <= i < next && s[i].token.Some?
    ensures s[i].token.value in ids
    ensures Superseded(s, i) <==> ids[s[i].token.value] != s[i].id
  {
    var batch := s[pos..next];
    var t := s[i].token.value;
    assert batch[i - pos] == s[i];
    var k :| 0 <= k < next - pos && batch[k].token == Some(t) && batch[k].id == ids[t]
             && forall j :: k < j < next - pos ==> batch[j].token != Some(t);
    assert s[pos + k] == batch[k];
    SameBatchExactly(pos, i, pos + k);
    forall j | i < j < |s| && s[j].token == s[i].token ensures SameBatch(i, j) ==> j <= pos + k {
      SameBatchExactly(pos, i, j);
      assert j < next ==> batch[j - pos] == s[j];
    }
  }

  // The entry of the batch that a token's identifier belongs to.
  lemma EntryOf(s: seq<Message>, pos: nat, next: nat, ids: map<string, nat>, t: string) returns (i: nat)
    requires Ordered(s) && IsBatch(s, pos, next) && LastIds(s[pos..next], next - pos, ids) && t in ids
    ensures pos <= i < next && s[i].token == Some(t) && s[i].id == ids[t] && !Superseded(s, i)
  {
    var batch := s[pos..next];
    var k :| 0 <= k < next - pos && batch[k].token == Some(t) && batch[k].id == ids[t];
    i := pos + k;
    assert s[i] == batch[k];
    LastOfBatch(s, pos, next, ids, i);
  }

  lemma IdsApart(s: seq<Message>, pos: nat, next: nat, ids: map<string, nat>)
    requires Ordered(s) && IsBatch(s, pos, next) && LastIds(s[pos..next], next - pos, ids)
    ensures Injective(ids)
  {
    forall t, u | t in ids && u in ids && t != u ensures ids[t] != ids[u] {
      var i := EntryOf(s, pos, next, ids, t);
      var j := EntryOf(s, pos, next, ids, u);
      assert i < j || j < i;
    }
  }

  lemma BatchMeaning(s: seq<Message>, enriched: string -> bool, pos: nat, next: nat,
                     ids: map<string, nat>, answer: map<string, bool>)
    requires Ordered(s) && IsBatch(s, pos, next) && LastIds(s[pos..next], next - pos, ids)
    requires forall t :: t in ids ==> (enriched(t) <==> t in answer && answer[t])
    ensures Hits(answer, ids) == EnrichedTokens(s, enriched, pos, next)
    ensures IdsOf(ids, Hits(answer, ids)) == Purgeable(s, enriched, pos, next)
  {
    forall t | t in Hits(answer, ids)
      ensures t in EnrichedTokens(s, enriched, pos, next) && ids[t] in Purgeable(s, enriched, pos, next)
    {
      var i := EntryOf(s, pos, next, ids, t);
      assert Enriched(s, enriched, i);
    }
    forall i | pos <= i < next && Enriched(s, enriched, i)
      ensures s[i].token.value in Hits(answer, ids) && (!Superseded(s, i) ==> ids[s[i].token.value] == s[i].id)
    {
      LastOfBatch(s, pos, next, ids, i);
    }
  }

  lemma PurgeableGrows(s: seq<Message>, enriched: string -> bool, pos: nat, next: nat)
    requires Ordered(s) && pos <= next <= |s|
    ensures Purgeable(s, enriched, 0, next) == Purgeable(s, enriched, 0, pos) + Purgeable(s, enriched, pos, next)
    ensures Purgeable(s, enriched, 0, pos) !! Purgeable(s, enriched, pos, next)
    ensures EnrichedTokens(s, enriched, 0, next) == EnrichedTokens(s, enriched, 0, pos) + EnrichedTokens(s, enriched, pos, next)
  {
  }

  // The outcome of purging the entries lo to hi: complete, or stopped by a failed command, when one
  // deleted entry may be missing from the count and some tokens are still pending.
  ghost predicate PurgeResult(s: seq<Message>, enriched: string -> bool, lo: nat, hi: nat, ok: bool,
                              gone: set<nat>, purged: nat, before: set<string>, after: set<string>)
    requires lo <= hi <= |s|
  {
    var all, tokens := Purgeable(s, enriched, lo, hi), EnrichedTokens(s, enriched, lo, hi);
    if ok then gone == all && purged == |gone| && after == before - tokens
    else gone <= all && purged <= |gone| <= purged + 1 && before - tokens <= after <= before
  }

  lemma NotYetGone(s: seq<Message>, enriched: string -> bool, pos: nat,
                   gone: set<nat>, purged: nat, before: set<string>, after: set<string>)
    requires Ordered(s) && pos <= |s| && PurgeResult(s, enriched, 0, pos, true, gone, purged, before, after)
    ensures forall i :: pos <= i < |s| ==> s[i].id !in gone
  {
  }

  lemma NothingYet(s: seq<Message>, enriched: string -> bool, pos: nat, pending: set<string>)
    requires pos <= |s|
    ensures forall ok :: PurgeResult(s, enriched, pos, pos, ok, {}, 0, pending, pending)
  {
    assert Purgeable(s, enriched, pos, pos) == {} && EnrichedTokens(s, enriched, pos, pos) == {};
  }

  lemma StopEarly(s: seq<Message>, enriched: string -> bool, pos: nat,
                  gone: set<nat>, purged: nat, before: set<string>, after: set<string>)
    requires Ordered(s) && pos <= |s| && PurgeResult(s, enriched, 0, pos, false, gone, purged, before, after)
    ensures PurgeResult(s, enriched, 0, |s|, false, gone, purged, before, after)
  {
    PurgeableGrows(s, enriched, pos, |s|);
  }

  lemma JoinResults(s: seq<Message>, enriched: string -> bool, pos: nat, next: nat, ok: bool, gone: set<nat>, purged: nat,
                    batchGone: set<nat>, n: nat, before: set<string>, between: set<string>, after: set<string>)
    requires Ordered(s) && pos <= next <= |s| && PurgeResult(s, enriched, 0, pos, true, gone, purged, before, between)
    requires PurgeResult(s, enriched, pos, next, ok, batchGone, n, between, after)
    ensures PurgeResult(s, enriched, 0, next, ok, gone + batchGone, purged + n, before, after)
  {
    PurgeableGrows(s, enriched, pos, next);
    assert |gone + batchGone| == |gone| + |batchGone|;
  }

  lemma {:induction false} WithoutBoth(s: seq<Message>, a: set<nat>, b: set<nat>)
    ensures Without(Without(s, a), b) == Without(s, a + b)
  {
    if s != [] {
      var n := |s| - 1;
      WithoutBoth(s[..n], a, b);
      WithoutAppend(Without(s[..n], a), if s[n].id in a then [] else [s[n]], b);
    }
  }

  // One turn of the loop took the purge from pos to next.
  ghost predicate TurnDid(s: seq<Message>, enriched: string -> bool, pos: nat, next: nat, before: set<nat>, gone: set<nat>,
                          purged: nat, ok: bool, end: bool, cursor: Option<nat>,
                          stream: seq<Message>, pending0: set<string>, pending: set<string>)
  {
    && pos <= next <= |s| && stream == Without(s, before + gone)
    && PurgeResult(s, enriched, pos, next, ok, gone, purged, pending0, pending)
    && (ok ==> AtBatch(s, next) && cursor == Cursor(s, next) && if end then next == |s| else pos < next)
  }

  lemma EmptyTurn(s: seq<Message>, enriched: string -> bool, pos: nat, before: set<nat>, ok: bool, cursor: Option<nat>,
                  stream: seq<Message>, pending: set<string>)
    requires pos <= |s| && AtBatch(s, pos) && cursor == Cursor(s, pos) && stream == Without(s, before)
    requires ok ==> pos == |s|
    ensures TurnDid(s, enriched, pos, pos, before, {}, 0, ok, true, cursor, stream, pending, pending)
  {
    NothingYet(s, enriched, pos, pending);
    assert before + {} == before;
  }

  class EnrichQueue {
    var stream: seq<Message>
    var pending: set<string>

    // Each command works or fails.
    method XRange(start: Option<nat>) returns (msgs: Option<seq<Message>>)
      ensures msgs.Some? ==> msgs.value == RangeFrom(stream, start)
    {
      var works: bool := *;
      msgs := if works then Some(RangeFrom(stream, start)) else None;
    }

    method XDel(id: nat) returns (ok: bool)
      modifies this`stream
      ensures stream == if ok then Without(old(stream), {id}) else old(stream)
    {
      ok := *;
      if ok {
        stream := Without(stream, {id});
      }
    }

    method SRem(token: string) returns (ok: bool)
      modifies this`pending
      ensures pending == if ok then old(pending) - {token} else old(pending)
    {
      ok := *;
      if ok {
        pending := pending - {token};
      }
    }

    method Decode(batch: seq<Message>) returns (tokens: seq<string>, ids: map<string, nat>)
      ensures LastIds(batch, |batch|, ids)
      ensures forall t :: t in tokens <==> t in ids
    {
      tokens, ids := [], map[];
      for i := 0 to |batch|
        invariant LastIds(batch, i, ids)
        invariant forall t :: t in tokens <==> t in ids
      {
        if batch[i].token.Some? {
          tokens := tokens + [batch[i].token.value];
          ids := ids[batch[i].token.value := batch[i].id];
        }
      }
    }

    // The callback says of each token it is asked about whether it is enriched; it may also fail, and
    // it may say anything of other tokens.
    method Check(tokens: seq<string>, enriched: string -> bool) returns (answer: Option<map<string, bool>>)
      ensures answer.Some? ==> forall t :: t in tokens ==>
                (enriched(t) <==> t in answer.value && answer.value[t])
    {
      var works: bool := *;
      if !works {
        return None;
      }
      var m: map<string, bool> := *;
      for i := 0 to |tokens|
        invariant forall t :: t in tokens[..i] ==> (enriched(t) <==> t in m && m[t])
      {
        m := m[tokens[i] := enriched(tokens[i])];
        assert tokens[..i + 1] == tokens[..i] + [tokens[i]];
      }
      assert tokens[..|tokens|] == tokens;
      answer := Some(m);
    }

    // Deletes an entry and then its token from the pending set.
    method DeleteEntry(token: string, id: nat) returns (n: nat, ok: bool, ghost gone: set<nat>)
      modifies this
      ensures stream == Without(old(stream), gone)
      ensures DeleteResult(map[token := id], {token}, ok, gone, n, old(pending), pending)
    {
      n, ok, gone := 0, false, {};
      WithoutNone(stream, {});
      var deleted := XDel(id);
      if deleted {
        gone := {id};
        ok := SRem(token);
        n := if ok then 1 else 0;
      }
    }

    // DeleteEntry, added to what was deleted so far.
    method DeleteNext(token: string, ids: map<string, nat>, purged: nat, ghost hits: set<string>, ghost left: set<string>,
                      ghost gone: set<nat>, ghost s: seq<Message>, ghost before: set<string>)
      returns (total: nat, ok: bool, ghost all: set<nat>)
      requires Injective(ids) && token in left && left <= hits && token in ids
      requires stream == Without(s, gone) && DeleteResult(ids, hits - left, true, gone, purged, before, pending)
      modifies this
      ensures stream == Without(s, all)
      ensures DeleteResult(ids, hits - if ok then left - {token} else {}, ok, all, total, before, pending)
    {
      ghost var between, more := pending, {};
      var n;
      n, ok, more := DeleteEntry(token, ids[token]);
      OneMore(ids, hits, left, token, ok, gone, purged, more, n, before, between, pending);
      WithoutBoth(s, gone, more);
      all, total := gone + more, purged + n;
    }

    // Deletes the entries of the tokens reported enriched, in any order, up to the first failure.
    method DeleteEnriched(answer: map<string, bool>, ids: map<string, nat>, ghost hits: set<string>)
      returns (purged: nat, ok: bool, ghost gone: set<nat>)
      requires Injective(ids) && forall t :: t in hits <==> t in answer && answer[t] && t in ids
      modifies this
      ensures stream == Without(old(stream), gone)
      ensures DeleteResult(ids, hits, ok, gone, purged, old(pending), pending)
    {
      purged, ok, gone := 0, true, {};
      ghost var left := hits;
      WithoutNone(stream, {});
      NothingDeleted(ids, hits, pending);
      var todo := answer.Keys;
      while todo != {} && ok
        invariant todo <= answer.Keys && (ok ==> left == hits * todo)
        invariant stream == Without(old(stream), gone)
        invariant DeleteResult(ids, hits - if ok then left else {}, ok, gone, purged, old(pending), pending)
        decreases todo
      {
        var token :| token in todo;
        todo := todo - {token};
        if answer[token] && token in ids {
          purged, ok, gone := DeleteNext(token, ids, purged, hits, left, gone, old(stream), old(pending));
          left := left - {token};
        }
      }
      if ok {
        assert hits - left == hits;
      } else {
        assert hits - {} == hits;
      }
    }

    method PurgeBatch(msgs: seq<Message>, enriched: string -> bool, ghost s: seq<Message>, ghost pos: nat)
      returns (purged: nat, ok: bool, ghost gone: set<nat>)
      requires Ordered(s) && IsBatch(s, pos, pos + |msgs|) && msgs == s[pos..pos + |msgs|]
      modifies this
      ensures stream == Without(old(stream), gone)
      ensures PurgeResult(s, enriched, pos, pos + |msgs|, ok, gone, purged, old(pending), pending)
    {
      var tokens, ids := Decode(msgs);
      var answer := Check(tokens, enriched);
      if answer.None? {
        WithoutNone(stream, {});
        return 0, false, {};
      }
      IdsApart(s, pos, pos + |msgs|, ids);
      BatchMeaning(s, enriched, pos, pos + |msgs|, ids, answer.value);
      purged, ok, gone := DeleteEnriched(answer.value, ids, Hits(answer.value, ids));
    }

    // Reads on from the cursor: the next entries not yet visited, at most a batch of them.
    method NextBatch(lastID: Option<nat>, ghost s: seq<Message>, ghost pos: nat, ghost gone: set<nat>)
      returns (msgs: Option<seq<Message>>)
      requires Ordered(s) && pos <= |s| && lastID == Cursor(s, pos) && stream == Without(s, gone)
      requires forall i :: pos <= i < |s| ==> s[i].id !in gone
      ensures msgs.Some? ==> BatchRead(s, pos, msgs.value)
    {
      var range := XRange(lastID);
      if range.None? {
        return None;
      }
      CursorFindsRest(s, pos, gone);
      var rest := SkipCursor(range.value, lastID);
      if |rest| > BATCH_SIZE {
        rest := rest[..BATCH_SIZE];
      }
      msgs := Some(rest);
    }

    // One turn of the loop: reads a batch behind the cursor and purges it.
    method PurgeNext(enriched: string -> bool, lastID: Option<nat>, ghost s: seq<Message>, ghost pos: nat, ghost before: set<nat>)
      returns (purged: nat, ok: bool, end: bool, cursor: Option<nat>, ghost gone: set<nat>, ghost next: nat)
      requires Ordered(s) && pos <= |s| && AtBatch(s, pos) && lastID == Cursor(s, pos) && stream == Without(s, before)
      requires forall i :: pos <= i < |s| ==> s[i].id !in before
      modifies this
      ensures TurnDid(s, enriched, pos, next, before, gone, purged, ok, end, cursor, stream, old(pending), pending)
    {
      var msgs := NextBatch(lastID, s, pos, before);
      purged, ok, end, cursor, gone, next := Turn(msgs, enriched, lastID, s, pos, before);
    }

    // An empty batch ends the loop.
    method Turn(msgs: Option<seq<Message>>, enriched: string -> bool, lastID: Option<nat>,
                ghost s: seq<Message>, ghost pos: nat, ghost before: set<nat>)
      returns (purged: nat, ok: bool, end: bool, cursor: Option<nat>, ghost gone: set<nat>, ghost next: nat)
      requires Ordered(s) && pos <= |s| && AtBatch(s, pos) && lastID == Cursor(s, pos) && stream == Without(s, before)
      requires msgs.Some? ==> BatchRead(s, pos, msgs.value)
      modifies this
      ensures TurnDid(s, enriched, pos, next, before, gone, purged, ok, end, cursor, stream, old(pending), pending)
    {
      if msgs.None? || |msgs.value| == 0 {
        purged, ok, end, cursor, gone, next := 0, msgs.Some?, true, lastID, {}, pos;
        EmptyTurn(s, enriched, pos, before, ok, lastID, stream, pending);
      } else {
        end, next := false, pos + |msgs.value|;
        purged, ok, cursor, gone := PurgeFrom(msgs.value, enriched, s, pos, before);
      }
    }

    // PurgeBatch, after what was deleted before, and the cursor behind the batch.
    method PurgeFrom(msgs: seq<Message>, enriched: string -> bool, ghost s: seq<Message>, ghost pos: nat, ghost before: set<nat>)
      returns (purged: nat, ok: bool, cursor: Option<nat>, ghost gone: set<nat>)
      requires Ordered(s) && AtBatch(s, pos) && msgs != [] && stream == Without(s, before) && BatchRead(s, pos, msgs)
      modifies this
      ensures TurnDid(s, enriched, pos, pos + |msgs|, before, gone, purged, ok, false, cursor, stream, old(pending), pending)
    {
      BatchEnds(s, pos, msgs);
      purged, ok, gone := PurgeBatch(msgs, enriched, s, pos);
      WithoutBoth(s, before, gone);
      cursor := Some(msgs[|msgs| - 1].id);
    }

    /** Without concurrent writers: the purge ends; every entry is visited once; what stays keeps its
        order; nothing is deleted that is not enriched; and if no command fails, exactly the entries to
        purge are gone, the count is theirs, and their tokens are no longer pending. */
    method PurgeEnrichedEntries(enriched: string -> bool) returns (purged: nat, ok: bool, ghost gone: set<nat>)
      requires Ordered(stream)
      modifies this
      ensures stream == Without(old(stream), gone)
      ensures PurgeResult(old(stream), enriched, 0, |old(stream)|, ok, gone, purged, old(pending), pending)
      ensures ok ==> (NoneEnriched(stream, enriched) <==> NoneSuperseded(old(stream), enriched))
    {
      ghost var s := stream;
      ghost var pos := 0;
      var lastID: Option<nat> := None;
      var end := false;
      purged, ok, gone := 0, true, {};
      WithoutNone(s, {});
      NothingYet(s, enriched, 0, pending);
      while !end
        invariant ok && pos <= |s| && AtBatch(s, pos) && lastID == Cursor(s, pos) && (end ==> pos == |s|)
        invariant stream == Without(s, gone)
        invariant PurgeResult(s, enriched, 0, pos, true, gone, purged, old(pending), pending)
        decreases if end then 0 else 1, |s| - pos
      {
        ghost var pending1, batchGone, next := pending, {}, pos;
        var n;
        NotYetGone(s, enriched, pos, gone, purged, old(pending), pending);
        n, ok, end, lastID, batchGone, next := PurgeNext(enriched, lastID, s, pos, gone);
        JoinResults(s, enriched, pos, next, ok, gone, purged, batchGone, n, old(pending), pending1, pending);
        purged, gone, pos := purged + n, gone + batchGone, next;
        if !ok {
          StopEarly(s, enriched, pos, gone, purged, old(pending), pending);
          return;
        }
      }
      PurgeCompleteExactly(s, enriched, stream);
    }
  }

  /** What a purge without failures leaves holds no enriched entry exactly when no enriched listing is
      asked for twice in one batch, which distinct tokens ensure. */
  lemma PurgeCompleteExactly(s: seq<Message>, enriched: string -> bool, left: seq<Message>)
    requires Ordered(s) && left == Without(s, Purgeable(s, enriched, 0, |s|))
    ensures NoneEnriched(left, enriched) <==> NoneSuperseded(s, enriched)
    ensures DistinctTokens(s) ==> NoneSuperseded(s, enriched)
  {
    WithoutMeaning(s, Purgeable(s, enriched, 0, |s|));
    forall i | 0 <= i < |s| && Enriched(s, enriched, i) ensures s[i] in left <==> Superseded(s, i) {
      PurgeableExactly(s, enriched, i);
    }
    if i :| 0 <= i < |s| && Enriched(s, enriched, i) && Superseded(s, i) {
      var k :| 0 <= k < |left| && left[k] == s[i];
      assert Enriched(left, enriched, k);
    } else {
      forall k | 0 <= k < |left| ensures !Enriched(left, enriched, k) {
        assert left[k] in s;
        var i :| 0 <= i < |s| && s[i] == left[k];
        assert !Enriched(s, enriched, i);
      }
    }
  }

  // Such a stream: two requests for one listing, which is enriched.
  lemma TwoRequests() returns (s: seq<Message>, enriched: string -> bool)
    ensures Ordered(s) && |s| == 2 && !NoneEnriched(Without(s, Purgeable(s, enriched, 0, |s|)), enriched)
  {
    s, enriched := [Message(1, Some("t")), Message(2, Some("t"))], t => true;
    assert SameBatch(0, 1) && s[1].token == s[0].token;
    assert Enriched(s, enriched, 0) && Superseded(s, 0);
    PurgeCompleteExactly(s, enriched, Without(s, Purgeable(s, enriched, 0, |s|)));
  }

  lemma PurgeableExactly(s: seq<Message>, enriched: string -> bool, i: nat)
    requires Ordered(s) && i < |s| && Enriched(s, enriched, i)
    ensures s[i].id in Purgeable(s, enriched, 0, |s|) <==> !Superseded(s, i)
  {
    if s[i].id in Purgeable(s, enriched, 0, |s|) {
      var j :| 0 <= j < |s| && s[j].id == s[i].id && !Superseded(s, j);
      assert j == i;
    }
  }

  ghost predicate Injective(ids: map<string, nat>) {
    forall t, u :: t in ids && u in ids && t != u ==> ids[t] != ids[u]
  }

  ghost function Hits(answer: map<string, bool>, ids: map<string, nat>): set<string> {
    set t | t in answer && answer[t] && t in ids
  }

  // The outcome of deleting the entries of these tokens, as for PurgeResult.
  ghost predicate DeleteResult(ids: map<string, nat>, tokens: set<string>, ok: bool,
                               gone: set<nat>, purged: nat, before: set<string>, after: set<string>) {
    if ok then gone == IdsOf(ids, tokens) && purged == |gone| && after == before - tokens
    else gone <= IdsOf(ids, tokens) && purged <= |gone| <= purged + 1 && before - tokens <= after <= before
  }

  lemma NothingDeleted(ids: map<string, nat>, hits: set<string>, pending: set<string>)
    ensures DeleteResult(ids, hits - hits, true, {}, 0, pending, pending)
  {
    assert IdsOf(ids, hits - hits) == {};
  }

  lemma OneMore(ids: map<string, nat>, hits: set<string>, left: set<string>, token: string, ok: bool, gone: set<nat>, purged: nat,
                more: set<nat>, n: nat, before: set<string>, between: set<string>, after: set<string>)
    requires Injective(ids) && token in left && left <= hits && token in ids
    requires DeleteResult(ids, hits - left, true, gone, purged, before, between)
    requires DeleteResult(map[token := ids[token]], {token}, ok, more, n, between, after)
    ensures DeleteResult(ids, hits - if ok then left - {token} else {}, ok, gone + more, purged + n, before, after)
  {
    assert IdsOf(map[token := ids[token]], {token}) == {ids[token]};
    assert ids[token] !in IdsOf(ids, hits - left) && ids[token] in IdsOf(ids, hits);
    assert hits - (left - {token}) == (hits - left) + {token};
    assert |gone + more| == |gone| + |more|;
  }

  ghost function IdsOf(ids: map<string, nat>, tokens: set<string>): set<nat> {
    set t | t in tokens && t in ids :: ids[t]
  }
}
