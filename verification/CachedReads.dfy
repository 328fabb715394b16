/**
 The invalidations that the handlers run after a mutation (internal/api/handlers.go)
 against the read cache of internal/api/read_cache.go.
 */
module CachedReads {
  import opened CacheKeys
  import opened ReadCacheProtocol
  import opened ReadCacheSpec
  import opened ReadScopes
  import opened Texts

  function BrowseInvalidation(upstream: Text): Event {
    InvalidateMatching((key: string) => BrowseCachePrefix(upstream) <= key)
  }

  function DetailInvalidation(upstream: Text, wantedID: Text): Event {
    InvalidateMatching((key: string) => DetailMatch(key, upstream, wantedID))
  }

  function UpstreamInvalidation(upstream: Text): Event {
    InvalidateMatching((key: string) => DetailCachePrefix(upstream) <= key)
  }

  function ClearAll(): Event {
    InvalidateMatching((key: string) => true)
  }

  /** What a mutation by `c` does to the browse cache. */
  function BrowseMutation(c: Caller): Event {
    if HasCanonicalIdentity(c) then BrowseInvalidation(ReadScope(c).upstream) else ClearAll()
  }

  /** And to the detail cache, for one item or for a whole board. */
  function DetailMutation(c: Caller, wantedID: Text): Event {
    if HasCanonicalIdentity(c) then DetailInvalidation(ReadScope(c).upstream, wantedID) else ClearAll()
  }

  function BoardMutation(c: Caller): Event {
    if HasCanonicalIdentity(c) then UpstreamInvalidation(ReadScope(c).upstream) else ClearAll()
  }

  // ---------------------------------------------------------- what is covered

  /** The boards whose cached reads a mutation by `a` must outdate: its own, and every board
      when the mutation cannot be tied to one. */
  predicate Reaches(a: Caller, b: Caller) {
    HasCanonicalIdentity(a) ==> Board(a) == Board(b)
  }

  /** A mutation covers every cached browse of the boards it reaches, by whomever. */
  lemma BrowseMutationCovers(a: Caller, b: Caller, q: Query)
    requires Cacheable(b) && Reaches(a, b)
    ensures Covers(BrowseMutation(a), BrowseCacheKey(ReadScope(b), q))
  {
    if HasCanonicalIdentity(a) {
      ScopeIsBoard(a);
      ScopeIsBoard(b);
      BrowseInvalidationIsExact(ReadScope(b), q, ReadScope(a).upstream);
    }
  }

  lemma DetailMutationCovers(a: Caller, b: Caller, wantedID: Text, id: Text)
    requires Cacheable(b) && Reaches(a, b)
    ensures TrimSpace(id) == TrimSpace(wantedID) ==>
              Covers(DetailMutation(a, wantedID), DetailCacheKey(ReadScope(b), id))
    ensures Covers(BoardMutation(a), DetailCacheKey(ReadScope(b), id))
  {
    if HasCanonicalIdentity(a) {
      ScopeIsBoard(a);
      ScopeIsBoard(b);
      DetailInvalidationIsExact(ReadScope(b), id, ReadScope(a).upstream, wantedID);
    }
  }

  // ---------------------------------------------------------- freshness

  predicate BeginsRead(e: Event, key: string) {
    e.Begin? && e.key == key
  }

  /** A cached browse begun after a mutation that reaches its board never sees data fetched
      before the mutation, whoever mutates, views or impersonates, and whatever the filter.
      A mutation without an identity reaches every board. */
  lemma BrowseAfterMutationIsFresh(
    cfg: Config, states: seq<State>, events: seq<Event>, i: nat, j: nat, m: nat, a: Caller, b: Caller, q: Query)
    requires Run(cfg, states, events) && i < j < m < |states|
    requires events[i] == BrowseMutation(a)
    ensures Cacheable(b) && Reaches(a, b) && BeginsRead(events[j], BrowseCacheKey(ReadScope(b), q)) ==>
              AnsweredSince(events, states[m], events[j].request, events[j].key, i, m)
  {
    if Cacheable(b) && Reaches(a, b) && BeginsRead(events[j], BrowseCacheKey(ReadScope(b), q)) {
      BrowseMutationCovers(a, b, q);
      FreshAfterInvalidation(cfg, states, events, i, j, m);
    }
  }

  /** The same for a detail read of the mutated item, or of any item of a mutated board. */
  lemma DetailAfterMutationIsFresh(
    cfg: Config, states: seq<State>, events: seq<Event>, i: nat, j: nat, m: nat, a: Caller, b: Caller,
    wantedID: Text, id: Text)
    requires Run(cfg, states, events) && i < j < m < |states|
    requires events[i] == DetailMutation(a, wantedID) || events[i] == BoardMutation(a)
    ensures && Cacheable(b) && Reaches(a, b) && BeginsRead(events[j], DetailCacheKey(ReadScope(b), id))
            && (events[i] == BoardMutation(a) || TrimSpace(id) == TrimSpace(wantedID)) ==>
              AnsweredSince(events, states[m], events[j].request, events[j].key, i, m)
  {
    if && Cacheable(b) && Reaches(a, b) && BeginsRead(events[j], DetailCacheKey(ReadScope(b), id))
       && (events[i] == BoardMutation(a) || TrimSpace(id) == TrimSpace(wantedID))
    {
      DetailMutationCovers(a, b, wantedID, id);
      FreshAfterInvalidation(cfg, states, events, i, j, m);
    }
  }

  // ---------------------------------------------------------- and nothing more

  predicate Untouched(s: State, t: State, key: string) {
    && (key in t.cache.entries <==> key in s.cache.entries)
    && (key in s.cache.entries ==> t.cache.entries[key] == s.cache.entries[key])
    && (key in t.cache.inflight <==> key in s.cache.inflight)
    && (key in s.cache.inflight ==> t.cache.inflight[key] == s.cache.inflight[key])
    && Generation(t.cache.generation, key) == Generation(s.cache.generation, key)
  }

  lemma InvalidatingSparesKey(cfg: Config, s: State, e: Event, key: string)
    requires e.InvalidateMatching? && !e.covers(key)
    ensures Untouched(s, Step(cfg, s, e), key)
  {
    assert key !in Seen(s.cache, e.covers);
  }

  /** A mutation by a caller with an identity leaves the cached reads, flights and
      generations of every other board, and details of every other item, alone. */
  lemma MutationSparesOthers(cfg: Config, s: State, a: Caller, b: Caller, q: Query, wantedID: Text, id: Text)
    requires HasCanonicalIdentity(a) && Cacheable(b)
    ensures Board(a) != Board(b) ==> Untouched(s, Step(cfg, s, BrowseMutation(a)), BrowseCacheKey(ReadScope(b), q))
    ensures Board(a) != Board(b) || TrimSpace(id) != TrimSpace(wantedID) ==>
              Untouched(s, Step(cfg, s, DetailMutation(a, wantedID)), DetailCacheKey(ReadScope(b), id))
    ensures Board(a) != Board(b) ==> Untouched(s, Step(cfg, s, BoardMutation(a)), DetailCacheKey(ReadScope(b), id))
  {
    ScopeIsBoard(a);
    ScopeIsBoard(b);
    BoardIsTrimmed(a);
    BoardIsTrimmed(b);
    BrowseInvalidationIsExact(ReadScope(b), q, ReadScope(a).upstream);
    DetailInvalidationIsExact(ReadScope(b), id, ReadScope(a).upstream, wantedID);
    if Board(a) != Board(b) {
      InvalidatingSparesKey(cfg, s, BrowseMutation(a), BrowseCacheKey(ReadScope(b), q));
      InvalidatingSparesKey(cfg, s, BoardMutation(a), DetailCacheKey(ReadScope(b), id));
    }
    if Board(a) != Board(b) || TrimSpace(id) != TrimSpace(wantedID) {
      InvalidatingSparesKey(cfg, s, DetailMutation(a, wantedID), DetailCacheKey(ReadScope(b), id));
    }
  }
}
