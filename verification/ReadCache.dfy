/**
 The keyed read-through cache of internal/api/read_cache.go.

 `ReadCacheSpec` gives each critical section as a function on values.  The class
 in `ReadCacheImpl` holds the maps and call records that the source updates in
 place; its methods are proved equal to those functions.  `ReadCacheProtocol`
 interleaves the same functions with the steps of readers and fetch goroutines.
 */
module ReadCacheSpec {
  import opened Wrappers

  type Key = string
  type Bytes = seq<bv8>

  datatype Entry = Entry(data: Option<Bytes>, storedAt: int)

  /** The state guarded by the mutex.  `C` identifies calls; `flagged` is the set
      of calls whose `invalidated` bit is set. */
  datatype Cache<C> = Cache(
    entries: map<Key, Entry>,
    inflight: map<Key, C>,
    generation: map<Key, nat>,
    flagged: set<C>)

  /** A missing generation reads as Go's zero value. */
  function Generation(generation: map<Key, nat>, key: Key): nat {
    if key in generation then generation[key] else 0
  }

  predicate Fresh(e: Entry, now: int, maxAge: int) {
    now - e.storedAt <= maxAge
  }

  /** Get: the bytes of an unexpired entry, nil otherwise. */
  function GetBytes<C>(s: Cache<C>, key: Key, now: int, maxAge: int): Option<Bytes> {
    if key in s.entries && Fresh(s.entries[key], now, maxAge) then s.entries[key].data else None
  }

  datatype Lookup<C> = Hit(data: Option<Bytes>) | Join(call: C) | Create(generation: nat)

  /** What GetOrFetchContext decides under the lock. */
  function LookUp<C>(s: Cache<C>, key: Key, now: int, maxAge: int): Lookup<C> {
    if key in s.entries && Fresh(s.entries[key], now, maxAge) then Hit(s.entries[key].data)
    else if key in s.inflight then Join(s.inflight[key])
    else Create(Generation(s.generation, key))
  }

  function StartCall<C>(s: Cache<C>, key: Key, call: C): Cache<C> {
    s.(inflight := s.inflight[key := call])
  }

  function Bumped(generation: map<Key, nat>, keys: set<Key>): map<Key, nat> {
    generation + (map k | k in keys :: Generation(generation, k) + 1)
  }

  /** The calls that invalidating a set of keys flags. */
  function Flagging<C>(inflight: map<Key, C>, keys: set<Key>): set<C> {
    set k | k in keys && k in inflight :: inflight[k]
  }

  /** invalidateKeyLocked applied to every key of a set. */
  function InvalidateKeys<C>(s: Cache<C>, keys: set<Key>): Cache<C> {
    Cache(s.entries - keys, s.inflight - keys, Bumped(s.generation, keys), s.flagged + Flagging(s.inflight, keys))
  }

  /** The keys that InvalidateMatching and Invalidate visit. */
  function Seen<C>(s: Cache<C>, covers: Key -> bool): set<Key> {
    set k | k in s.entries.Keys + s.inflight.Keys && covers(k)
  }

  predicate KeepsNewest(entries: map<Key, Entry>, kept: map<Key, Entry>) {
    && (forall k :: k in kept ==> k in entries && kept[k] == entries[k])
    && (forall gone, k :: gone in entries && gone !in kept && k in kept ==>
                            entries[gone].storedAt <= kept[k].storedAt)
  }

  /** evictLocked keeps as many entries as fit, and drops nothing newer than what it keeps. */
  predicate LegalEviction(entries: map<Key, Entry>, maxEntries: nat, kept: map<Key, Entry>) {
    && |kept| == (if |entries| <= maxEntries then |entries| else maxEntries)
    && KeepsNewest(entries, kept)
  }

  /** runFetch's deferred critical section; `kept` is what eviction leaves when it stores. */
  function Complete<C>(s: Cache<C>, key: Key, call: C, generation: nat,
                       failed: bool, kept: map<Key, Entry>): Cache<C> {
    var s1 := if key in s.inflight && s.inflight[key] == call then s.(inflight := s.inflight - {key}) else s;
    if !failed && Generation(s.generation, key) == generation
    then s1.(entries := kept)
    else s1
  }

  lemma CompleteIs<C>(s: Cache<C>, key: Key, call: C, generation: nat, failed: bool, t: Cache<C>)
    requires t.inflight == if key in s.inflight && s.inflight[key] == call then s.inflight - {key} else s.inflight
    requires failed || Generation(s.generation, key) != generation ==> t.entries == s.entries
    requires t.generation == s.generation && t.flagged == s.flagged
    ensures t == Complete(s, key, call, generation, failed, t.entries)
  {
  }

  lemma FlaggingOneMore<C>(inflight: map<Key, C>, done: set<Key>, key: Key)
    requires key !in done
    ensures Flagging(inflight, done) + Flagging(inflight - done, {key}) == Flagging(inflight, done + {key})
  {
    if key in inflight {
      assert key in inflight - done;
    }
  }

  lemma BumpingOneMore(generation: map<Key, nat>, done: set<Key>, key: Key)
    requires key !in done
    ensures Bumped(Bumped(generation, done), {key}) == Bumped(generation, done + {key})
  {
  }

  lemma InvalidateNone<C>(s: Cache<C>)
    ensures InvalidateKeys(s, {}) == s
  {
    assert s.entries - {} == s.entries && s.inflight - {} == s.inflight;
    assert Bumped(s.generation, {}) == s.generation;
  }

  /** Visiting keys one at a time, in any order, is the same as visiting the set. */
  lemma InvalidateOneMore<C>(s: Cache<C>, done: set<Key>, key: Key)
    requires key !in done
    ensures InvalidateKeys(InvalidateKeys(s, done), {key}) == InvalidateKeys(s, done + {key})
  {
    FlaggingOneMore(s.inflight, done, key);
    BumpingOneMore(s.generation, done, key);
    assert s.entries - done - {key} == s.entries - (done + {key});
    assert s.inflight - done - {key} == s.inflight - (done + {key});
  }
}

module ReadCacheImpl {
  import opened Wrappers
  import opened ReadCacheSpec

  datatype Waited = Answered(val: Option<Bytes>, failed: bool) | Invalidated | ContextDone

  /** One in-flight fetch.  `done` stands for the closed channel. */
  class Call {
    const generation: nat
    var val: Option<Bytes>
    var failed: bool
    var invalidated: bool
    var done: bool

    constructor (generation: nat)
      ensures this.generation == generation
      ensures val == None && !failed && !invalidated && !done
    {
      this.generation := generation;
      val, failed, invalidated, done := None, false, false, false;
    }

    /** waitForCall, once it can go on: a finished call wins over a finished context. */
    method Wait(contextDone: bool) returns (w: Waited)
      requires done || contextDone
      ensures w == if !done then ContextDone else if invalidated then Invalidated else Answered(val, failed)
    {
      var contextFirst: bool := *;
      if done && (!contextDone || !contextFirst) {
        return if invalidated then Invalidated else Answered(val, failed);
      }
      if done {
        return if invalidated then Invalidated else Answered(val, failed);
      }
      return ContextDone;
    }

    /** What GetOrFetchContext makes of it: None retries, unless the context is done by then. */
    method Settle(contextDone: bool, doneByThen: bool) returns (w: Option<Waited>)
      requires (done || contextDone) && (contextDone ==> doneByThen)
      ensures w == None <==> done && invalidated && !doneByThen
      ensures w.Some? ==> w.value == if done && !invalidated then Answered(val, failed) else ContextDone
    {
      var waited := Wait(contextDone);
      if waited.Invalidated? {
        return if doneByThen then Some(ContextDone) else None;
      }
      return Some(waited);
    }
  }

  /** The key and age pairs that evictLocked sorts. */
  datatype Aged = Aged(key: Key, storedAt: int)

  predicate OldestFirst(items: seq<Aged>) {
    |items| <= 1 || (items[0].storedAt <= items[1].storedAt && OldestFirst(items[1..]))
  }

  /** `items` lists each key of `ages` exactly once. */
  predicate Lists(items: seq<Aged>, ages: map<Key, int>) {
    if items == [] then ages == map[]
    else && items[0].key in ages && ages[items[0].key] == items[0].storedAt
         && Lists(items[1..], ages - {items[0].key})
  }

  function InsertByAge(x: Aged, items: seq<Aged>): (r: seq<Aged>)
    requires OldestFirst(items)
    ensures OldestFirst(r) && r != [] && (r[0] == x || (items != [] && r[0] == items[0]))
  {
    if items == [] || x.storedAt <= items[0].storedAt then [x] + items
    else [items[0]] + InsertByAge(x, items[1..])
  }

  /** Stands for sort.Slice, which may put entries of equal age in any order. */
  function SortByAge(items: seq<Aged>): (r: seq<Aged>)
    ensures OldestFirst(r)
  {
    if items == [] then [] else InsertByAge(items[0], SortByAge(items[1..]))
  }

  lemma {:induction false} InsertLists(x: Aged, items: seq<Aged>, ages: map<Key, int>)
    requires OldestFirst(items) && Lists(items, ages) && x.key !in ages
    ensures Lists(InsertByAge(x, items), ages[x.key := x.storedAt])
  {
    var more := ages[x.key := x.storedAt];
    if items == [] || x.storedAt <= items[0].storedAt {
      assert more - {x.key} == ages;
      assert ([x] + items)[1..] == items;
    } else {
      InsertLists(x, items[1..], ages - {items[0].key});
      assert more - {items[0].key} == (ages - {items[0].key})[x.key := x.storedAt];
      assert InsertByAge(x, items)[1..] == InsertByAge(x, items[1..]);
    }
  }

  lemma {:induction false} SortLists(items: seq<Aged>, ages: map<Key, int>)
    requires Lists(items, ages)
    ensures Lists(SortByAge(items), ages)
  {
    if items != [] {
      var rest := ages - {items[0].key};
      SortLists(items[1..], rest);
      InsertLists(items[0], SortByAge(items[1..]), rest);
      assert rest[items[0].key := items[0].storedAt] == ages;
    }
  }

  lemma {:induction false} HeadIsOldest(items: seq<Aged>, ages: map<Key, int>, key: Key)
    requires Lists(items, ages) && OldestFirst(items) && key in ages
    ensures items != [] && items[0].storedAt <= ages[key]
  {
    if key != items[0].key {
      HeadIsOldest(items[1..], ages - {items[0].key}, key);
    }
  }

  function Ages(entries: map<Key, Entry>): map<Key, int> {
    map k | k in entries :: entries[k].storedAt
  }

  class ReadCache {
    var entries: map<Key, Entry>
    var inflight: map<Key, Call>
    var generation: map<Key, nat>
    const maxAge: int
    const maxEntries: nat
    ghost var calls: set<Call>

    ghost predicate Valid()
      reads this
    {
      forall k :: k in inflight ==> inflight[k] in calls
    }

    ghost function Flagged(): set<Call>
      reads this`calls, calls`invalidated
    {
      set c | c in calls && c.invalidated
    }

    ghost function Abs(): Cache<Call>
      reads this, calls`invalidated
    {
      Cache(entries, inflight, generation, Flagged())
    }

    constructor (maxAge: int, maxEntries: nat)
      ensures Valid() && Abs() == Cache(map[], map[], map[], {})
      ensures this.maxAge == maxAge && this.maxEntries == maxEntries
    {
      this.maxAge, this.maxEntries := maxAge, maxEntries;
      entries, inflight, generation, calls := map[], map[], map[], {};
    }

    method Get(key: Key, now: int) returns (data: Option<Bytes>)
      requires Valid()
      ensures data == GetBytes(Abs(), key, now, maxAge)
    {
      if key !in entries {
        return None;
      }
      var e := entries[key];
      if now - e.storedAt > maxAge {
        return None;
      }
      return e.data;
    }

    /** The locked part of one GetOrFetchContext iteration. */
    method LookUpOrCreate(key: Key, now: int) returns (data: Option<Bytes>, call: Option<Call>, created: bool)
      requires Valid()
      modifies this
      ensures Valid() && old(calls) <= calls
      ensures match LookUp(old(Abs()), key, now, maxAge)
              case Hit(d) => data == d && call == None && !created && Abs() == old(Abs()) && calls == old(calls)
              case Join(c) => call == Some(c) && !created && Abs() == old(Abs()) && calls == old(calls)
              case Create(g) => && created && call.Some? && fresh(call.value) && call.value.generation == g
                                && calls == old(calls) + {call.value}
                                && Abs() == StartCall(old(Abs()), key, call.value)
    {
      if key in entries && now - entries[key].storedAt <= maxAge {
        return entries[key].data, None, false;
      }
      if key in inflight {
        return None, Some(inflight[key]), false;
      }
      var cl := new Call(Generation(generation, key));
      inflight := inflight[key := cl];
      calls := calls + {cl};
      return None, Some(cl), true;
    }

    method InvalidateKeyLocked(key: Key)
      requires Valid()
      modifies this, calls`invalidated
      ensures Valid() && calls == old(calls)
      ensures Abs() == InvalidateKeys(old(Abs()), {key})
    {
      entries := entries - {key};
      if key in inflight {
        inflight[key].invalidated := true;
      }
      inflight := inflight - {key};
      generation := generation[key := Generation(generation, key) + 1];
      assert generation == Bumped(old(generation), {key});
      assert Flagged() == old(Flagged()) + Flagging(old(inflight), {key});
    }

    method InvalidateMatching(covers: Key -> bool)
      requires Valid()
      modifies this, calls`invalidated
      ensures Valid() && calls == old(calls)
      ensures Abs() == InvalidateKeys(old(Abs()), Seen(old(Abs()), covers))
    {
      var seen := (set k | k in entries && covers(k)) + (set k | k in inflight && covers(k));
      ghost var before := Abs();
      assert seen == Seen(before, covers);
      var todo := seen;
      ghost var done: set<Key> := {};
      InvalidateNone(before);
      while todo != {}
        invariant Valid() && calls == old(calls)
        invariant done !! todo && done + todo == seen
        invariant Abs() == InvalidateKeys(before, done)
      {
        var key :| key in todo;
        todo := todo - {key};
        InvalidateOneMore(before, done, key);
        InvalidateKeyLocked(key);
        done := done + {key};
      }
    }

    /** Clears every entry and every in-flight call. */
    method Invalidate()
      requires Valid()
      modifies this, calls`invalidated
      ensures Valid() && calls == old(calls)
      ensures Abs() == InvalidateKeys(old(Abs()), Seen(old(Abs()), (k: Key) => true))
      ensures entries == map[] && inflight == map[]
    {
      ghost var seen := Seen(Abs(), (k: Key) => true);
      InvalidateMatching((k: Key) => true);
      assert entries == old(entries) - seen == map[];
      assert inflight == old(inflight) - seen == map[];
      entries := map[];
      inflight := map[];
    }

    method EvictLocked()
      requires Valid()
      modifies this`entries
      ensures Valid() && LegalEviction(old(entries), maxEntries, entries)
    {
      if |entries| > maxEntries {
        var items := ListAges();
        SortLists(items, Ages(entries));
        items := SortByAge(items);
        ghost var before := entries;
        var excess := |entries| - maxEntries;
        var i := 0;
        while i < excess
          invariant 0 <= i <= excess && |entries| == |before| - i
          invariant Lists(items, Ages(entries)) && OldestFirst(items)
          invariant KeepsNewest(before, entries)
        {
          PopOldest(items);
          items := items[1..];
          i := i + 1;
        }
      }
    }

    method ListAges() returns (items: seq<Aged>)
      ensures Lists(items, Ages(entries))
    {
      items := [];
      var unread := entries.Keys;
      assert Ages(entries) - unread == map[];
      while unread != {}
        invariant unread <= entries.Keys
        invariant Lists(items, Ages(entries) - unread)
      {
        var k :| k in unread;
        var next := [Aged(k, entries[k].storedAt)] + items;
        assert next[1..] == items;
        assert Ages(entries) - (unread - {k}) - {k} == Ages(entries) - unread;
        items := next;
        unread := unread - {k};
      }
      assert Ages(entries) - {} == Ages(entries);
    }

    method PopOldest(items: seq<Aged>)
      requires Lists(items, Ages(entries)) && OldestFirst(items) && |entries| > 0
      modifies this`entries
      ensures |items| > 0 && |entries| == |old(entries)| - 1
      ensures Lists(items[1..], Ages(entries)) && OldestFirst(items[1..])
      ensures KeepsNewest(old(entries), entries)
    {
      forall k | k in entries ensures items != [] && items[0].storedAt <= entries[k].storedAt {
        HeadIsOldest(items, Ages(entries), k);
      }
      var key := items[0].key;
      assert Ages(entries - {key}) == Ages(entries) - {key};
      assert (entries - {key}).Keys == entries.Keys - {key};
      entries := entries - {key};
    }

    method StoreLocked(key: Key, val: Option<Bytes>, now: int)
      requires Valid()
      modifies this`entries
      ensures LegalEviction(old(entries)[key := Entry(val, now)], maxEntries, entries)
    {
      entries := entries[key := Entry(val, now)];
      EvictLocked();
    }

    /** The deferred critical section of runFetch: it ends only its own flight, and stores
        only a success that no invalidation has overtaken. */
    method CompleteLocked(key: Key, call: Call, now: int)
      requires Valid()
      modifies this`entries, this`inflight
      ensures Valid()
      ensures inflight ==
              if key in old(inflight) && old(inflight)[key] == call then old(inflight) - {key} else old(inflight)
      ensures if !call.failed && Generation(generation, key) == call.generation
              then LegalEviction(old(entries)[key := Entry(call.val, now)], maxEntries, entries)
              else entries == old(entries)
    {
      if key in inflight && inflight[key] == call {
        inflight := inflight - {key};
      }
      if !call.failed && Generation(generation, key) == call.generation {
        StoreLocked(key, call.val, now);
      }
    }

    /** That section, then close(cl.done). */
    method CompleteCall(key: Key, call: Call, now: int)
      requires Valid() && call in calls && !call.done
      modifies this`entries, this`inflight, call`done
      ensures Valid() && call.done
      ensures !call.failed && Generation(generation, key) == call.generation ==>
                LegalEviction(old(entries)[key := Entry(call.val, now)], maxEntries, entries)
      ensures Abs() == Complete(old(Abs()), key, call, call.generation, call.failed, entries)
    {
      ghost var before := Abs();
      CompleteLocked(key, call, now);
      call.done := true;
      CompleteIs(before, key, call, call.generation, call.failed, Abs());
    }
  }
}
