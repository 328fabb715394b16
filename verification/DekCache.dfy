/**
 The data-encryption-key cache of internal/dolthubauth/kms.go and the decryption that
 uses it. Keys live in byte arrays that callers and the cache overwrite with zeros; the
 point is that neither ever overwrites the other's.
 */
module KeyNames {
  import opened Texts

  type Octet = x: int | 0 <= x < 256

  const VERSIONS: Text := "/cryptoKeyVersions/"

  /** strings.LastIndex, as -1 or a position. */
  function LastIndex(s: Text, part: Text): (i: int)
    ensures -1 <= i <= |s|
    decreases |s|
  {
    if |s| < |part| then -1
    else if s[|s| - |part|..] == part then |s| - |part|
    else if s == "" then -1
    else LastIndex(s[..|s| - 1], part)
  }

  /** The key to unwrap with: a version's key, or the configured one. */
  function CryptoKeyName(keyVersion: Text, fallback: Text): Text {
    var v := TrimSpace(keyVersion);
    var i := LastIndex(v, VERSIONS);
    if i > 0 then v[..i] else fallback
  }

  function AssociatedData(keyVersion: Text): Text {
    "wasteland:dolthub-auth:gcp-kms-envelope:" + TrimSpace(keyVersion)
  }

  // ------------------------------------------------------------- cache keys

  /** The sum of a SHA-256 hash. Different inputs may share it. */
  type Digest = d: seq<Octet> | |d| == 32 witness seq(32, i => 0)

  type Hash = seq<Octet> -> Digest

  function Digit(n: nat): (c: Byte)
    requires n < 16
  {
    if n < 10 then (n + 48) as char else (n + 87) as char
  }

  function HexText(d: seq<Octet>): (t: Text)
    ensures |t| == 2 * |d|
  {
    if d == [] then [] else [Digit(d[0] / 16), Digit(d[0] % 16)] + HexText(d[1..])
  }

  lemma {:induction false} HexTextIsInjective(a: seq<Octet>, b: seq<Octet>)
    requires HexText(a) == HexText(b)
    ensures a == b
  {
    if a != [] {
      var s, t := HexText(a), HexText(b);
      assert s[0] == t[0] && s[1] == t[1];
      assert HexText(a[1..]) == s[2..] && HexText(b[1..]) == t[2..];
      HexTextIsInjective(a[1..], b[1..]);
      assert a == [a[0]] + a[1..] && b == [b[0]] + b[1..];
    }
  }

  function CacheKey(hash: Hash, keyVersion: Text, wrapped: seq<Octet>): Text {
    TrimSpace(keyVersion) + ":" + HexText(hash(wrapped))
  }

  /** The digits at the end have a fixed length, so colons in a version cannot confuse. */
  lemma CacheKeyDetermines(hash: Hash, v: Text, a: seq<Octet>, w: Text, b: seq<Octet>)
    ensures CacheKey(hash, v, a) == CacheKey(hash, w, b) <==> TrimSpace(v) == TrimSpace(w) && hash(a) == hash(b)
  {
    var x, y := CacheKey(hash, v, a), CacheKey(hash, w, b);
    if x == y {
      assert x[..|x| - 65] == TrimSpace(v) && x[|x| - 64..] == HexText(hash(a));
      assert y[..|y| - 65] == TrimSpace(w) && y[|y| - 64..] == HexText(hash(b));
      HexTextIsInjective(hash(a), hash(b));
    }
  }
}

module DekCacheImpl {
  import opened Wrappers
  import opened KeyNames

  datatype Entry = Entry(dek: array<Octet>, expiresAt: int, usedAt: int)

  predicate Zero(a: array<Octet>)
    reads a
  {
    forall i :: 0 <= i < a.Length ==> a[i] == 0
  }

  method ClearBytes(a: array<Octet>)
    modifies a
    ensures Zero(a)
  {
    var i := 0;
    while i < a.Length
      invariant 0 <= i <= a.Length
      invariant forall k :: 0 <= k < i ==> a[k] == 0
    {
      a[i] := 0;
      i := i + 1;
    }
  }

  method Copy(a: array<Octet>) returns (b: array<Octet>)
    ensures fresh(b) && b[..] == a[..]
  {
    b := new Octet[a.Length](i requires 0 <= i < a.Length reads a => a[i]);
  }

  predicate Has(m: map<string, Entry>, k: string) { k in m }

  /** Entries own their arrays alone. */
  ghost predicate Apart(m: map<string, Entry>) {
    forall j, k {:trigger Has(m, j), Has(m, k)} :: Has(m, j) && Has(m, k) && j != k ==> m[j].dek != m[k].dek
  }

  lemma ApartWithout(m: map<string, Entry>, key: string)
    requires Apart(m) && key in m
    ensures Apart(m - {key})
    ensures forall k :: k in m && k != key ==> m[k].dek != m[key].dek
  {
    assert Has(m, key);
    forall k | k in m && k != key ensures m[k].dek != m[key].dek { assert Has(m, k); }
    forall j, k | Has(m - {key}, j) && Has(m - {key}, k) && j != k ensures m[j].dek != m[k].dek {
      assert Has(m, j) && Has(m, k);
    }
  }

  lemma ApartWith(m: map<string, Entry>, key: string, e: Entry)
    requires Apart(m) && forall k :: k in m && k != key ==> m[k].dek != e.dek
    ensures Apart(m[key := e])
  {
    var n := m[key := e];
    forall j, k | Has(n, j) && Has(n, k) && j != k ensures n[j].dek != n[k].dek {
      assert j in m ==> Has(m, j);
      assert k in m ==> Has(m, k);
    }
  }

  lemma SizeWithout<K, V>(m: map<K, V>, k: K)
    requires k in m
    ensures |m - {k}| == |m| - 1
  {
    assert (m - {k}).Keys == m.Keys - {k};
  }

  class DekCache {
    const ttl: int
    const maxEntries: int
    var entries: map<string, Entry>

    ghost function Arrays(): set<array<Octet>>
      reads this
    {
      set k | k in entries :: entries[k].dek
    }

    ghost predicate Valid()
      reads this
    {
      ttl > 0 && maxEntries > 0 && Apart(entries) && "" !in entries
    }

    constructor (ttl: int, maxEntries: int)
      requires ttl > 0 && maxEntries > 0
      ensures Valid() && entries == map[] && this.ttl == ttl && this.maxEntries == maxEntries
    {
      this.ttl, this.maxEntries, entries := ttl, maxEntries, map[];
    }

    /** Zeroes one key and forgets it; the other keys keep their bytes. */
    method Drop(key: string)
      requires Valid() && key in entries
      modifies this`entries, entries[key].dek
      ensures Valid() && entries == old(entries) - {key}
      ensures Zero(old(entries[key].dek))
      ensures forall k :: k in entries ==> entries[k].dek[..] == old(entries[k].dek[..])
    {
      ApartWithout(entries, key);
      ClearBytes(entries[key].dek);
      entries := entries - {key};
    }

    /** The caller gets a copy of its own. */
    method Get(key: string, now: int) returns (dek: Option<array<Octet>>)
      requires Valid()
      modifies this`entries, Arrays()
      ensures Valid() && Arrays() <= old(Arrays()) && |entries| <= old(|entries|)
      ensures dek.Some? <==> key in old(entries) && now <= old(entries[key].expiresAt)
      ensures dek.Some? ==> fresh(dek.value) && dek.value[..] == old(entries[key].dek[..])
      ensures dek.Some? ==> entries == old(entries)[key := old(entries[key]).(usedAt := now)]
      ensures dek.None? ==> entries == old(entries) - {key}
      ensures dek.None? && key in old(entries) ==> Zero(old(entries[key].dek))
      ensures forall k :: k in entries ==> entries[k].dek[..] == old(entries[k].dek[..])
    {
      if key !in entries {
        assert entries - {key} == entries;
        return None;
      }
      var entry := entries[key];
      if entry.expiresAt < now {
        SizeWithout(entries, key);
        Drop(key);
        return None;
      }
      ApartWithout(entries, key);
      assert entries[key := entry.(usedAt := now)].Keys == entries.Keys;
      ApartWith(entries, key, entry.(usedAt := now));
      entries := entries[key := entry.(usedAt := now)];
      var copy := Copy(entry.dek);
      return Some(copy);
    }

    /** `k` of `was` has expired and is zeroed. */
    ghost predicate Expired(was: map<string, Entry>, k: string, now: int)
      requires k in was
      reads was[k].dek
    {
      was[k].expiresAt < now && Zero(was[k].dek)
    }

    /** Expired entries go first. */
    method DropExpired(now: int)
      requires Valid()
      modifies this`entries, Arrays()
      ensures Valid() && entries.Keys <= old(entries).Keys
      ensures forall k :: k in entries ==> entries[k] == old(entries)[k] && now <= entries[k].expiresAt
      ensures forall k :: k in entries ==> entries[k].dek[..] == old(entries[k].dek[..])
      ensures forall k :: k in old(entries) && k !in entries ==> Expired(old(entries), k, now)
    {
      ghost var was := entries;
      var todo := entries.Keys;
      while todo != {}
        invariant Valid() && todo <= entries.Keys && entries.Keys <= was.Keys
        invariant forall k :: k in entries ==> entries[k] == was[k]
        invariant forall k :: k in entries && k !in todo ==> now <= was[k].expiresAt
        invariant forall k :: k in entries ==> entries[k].dek[..] == old(entries[k].dek[..])
        invariant forall k :: k in was && k !in entries ==> Expired(was, k, now)
        decreases |todo|
      {
        var key :| key in todo;
        todo := todo - {key};
        if entries[key].expiresAt >= now {
          continue;
        }
        ghost var before := entries;
        ApartWithout(was, key);
        Drop(key);
        forall k | k in was && k !in entries ensures Expired(was, k, now) {
          assert k == key || k !in before;
        }
      }
    }

    /** The least recently used entry; "" stands for none yet. */
    method Oldest() returns (key: string)
      requires Valid() && entries != map[]
      ensures key in entries && forall k :: k in entries ==> entries[key].usedAt <= entries[k].usedAt
    {
      key := "";
      var oldestAt := 0;
      var todo := entries.Keys;
      while todo != {}
        invariant todo <= entries.Keys
        invariant key == "" ==> todo == entries.Keys
        invariant key != "" ==> key in entries && entries[key].usedAt == oldestAt
        invariant key != "" ==> forall k :: k in entries && k !in todo ==> oldestAt <= entries[k].usedAt
        decreases |todo|
      {
        var k :| k in todo;
        if key == "" || entries[k].usedAt < oldestAt {
          key, oldestAt := k, entries[k].usedAt;
        }
        todo := todo - {k};
      }
    }

    ghost predicate NotNewer(usedAt: int)
      reads this
    {
      forall j :: j in entries ==> usedAt <= entries[j].usedAt
    }

    /** `k` of `was` is gone, zeroed, and no more recently used than what is left. */
    ghost predicate RightlyEvicted(was: map<string, Entry>, k: string)
      requires k in was
      reads this, was[k].dek
    {
      Zero(was[k].dek) && |entries| >= maxEntries && NotNewer(was[k].usedAt)
    }

    /** Least recently used first, down to capacity and no further. */
    method DropOldest()
      requires Valid()
      modifies this`entries, Arrays()
      ensures Valid() && |entries| <= maxEntries && entries.Keys <= old(entries).Keys
      ensures forall k :: k in entries ==> entries[k] == old(entries)[k]
      ensures forall k :: k in entries ==> entries[k].dek[..] == old(entries[k].dek[..])
      ensures forall k :: k in old(entries) && k !in entries ==> RightlyEvicted(old(entries), k)
    {
      ghost var was := entries;
      while |entries| > maxEntries
        invariant Valid() && entries.Keys <= was.Keys
        invariant forall k :: k in entries ==> entries[k] == was[k]
        invariant forall k :: k in entries ==> entries[k].dek[..] == old(entries[k].dek[..])
        invariant forall k :: k in was && k !in entries ==> RightlyEvicted(was, k)
        decreases |entries|
      {
        var oldest := Oldest();
        SizeWithout(entries, oldest);
        ghost var before := entries;
        ApartWithout(was, oldest);
        Drop(oldest);
        forall k | k in was && k !in entries ensures RightlyEvicted(was, k) {
          assert k == oldest || k !in before;
        }
      }
    }

    /** An entry last used at `usedAt` may go: it has expired, or every kept one is as recent. */
    ghost predicate MayGo(e: Entry, now: int)
      reads this
    {
      e.expiresAt < now || (|entries| >= maxEntries && NotNewer(e.usedAt))
    }

    method EvictLocked(now: int)
      requires Valid()
      modifies this`entries, Arrays()
      ensures Valid() && |entries| <= maxEntries && entries.Keys <= old(entries).Keys
      ensures forall k :: k in entries ==> entries[k] == old(entries)[k] && now <= entries[k].expiresAt
      ensures forall k :: k in entries ==> entries[k].dek[..] == old(entries[k].dek[..])
      ensures forall k :: k in old(entries) && k !in entries ==>
                Zero(old(entries)[k].dek) && MayGo(old(entries)[k], now)
    {
      ghost var was := entries;
      DropExpired(now);
      ghost var live := entries;
      DropOldest();
      forall k | k in was && k !in entries ensures Zero(was[k].dek) && MayGo(was[k], now) {
        if k in live {
          assert RightlyEvicted(live, k);
        }
      }
    }

    /** A copy of `dek` replaces whatever the key had. */
    method Put(key: string, dek: array<Octet>, now: int)
      requires Valid() && dek !in Arrays() && key != ""
      modifies this`entries, Arrays()
      ensures Valid() && key in entries && fresh(entries[key].dek) && entries[key].dek[..] == dek[..]
      ensures entries == old(entries)[key := Entry(entries[key].dek, now + ttl, now)]
      ensures forall k :: k in entries && k != key ==> entries[k].dek[..] == old(entries[k].dek[..])
      ensures key in old(entries) ==> Zero(old(entries[key].dek)) && old(entries[key].dek) !in Arrays()
    {
      if key in entries {
        ApartWithout(entries, key);
        Drop(key);
      }
      var copy := Copy(dek);
      ApartWith(entries, key, Entry(copy, now + ttl, now));
      entries := entries[key := Entry(copy, now + ttl, now)];
    }

    method Store(key: string, dek: array<Octet>, now: int)
      requires Valid() && dek !in Arrays() && key != ""
      modifies this`entries, Arrays()
      ensures Valid() && |entries| <= maxEntries
      ensures forall a :: a in Arrays() && a !in old(Arrays()) ==> fresh(a)
      ensures forall k :: k in entries && k != key ==>
                k in old(entries) && entries[k].dek[..] == old(entries[k].dek[..])
      ensures key in entries ==> entries[key].dek[..] == dek[..] && entries[key].expiresAt == now + ttl
      ensures key !in entries ==> MayGo(Entry(dek, now + ttl, now), now)
      ensures forall k :: k in old(entries) && (k == key || k !in entries) ==>
                Zero(old(entries)[k].dek) && (k != key ==> MayGo(old(entries)[k], now))
    {
      ghost var was := entries;
      Put(key, dek, now);
      ghost var stored := entries;
      EvictLocked(now);
      forall k | k in was && (k == key || k !in entries)
        ensures Zero(was[k].dek) && (k != key ==> MayGo(was[k], now))
      {
        assert k == key || was[k] == stored[k];
      }
      assert key !in entries ==> MayGo(stored[key], now);
    }

    /** The cache stores a copy, so the caller may overwrite its own array. */
    method Set(key: string, dek: array<Octet>, now: int)
      requires Valid() && dek !in Arrays()
      modifies this`entries, Arrays()
      ensures Valid() && dek[..] == old(dek[..])
      ensures forall a :: a in Arrays() && a !in old(Arrays()) ==> fresh(a)
      ensures forall k :: k in entries ==>
                if k == key && dek.Length > 0 then entries[k].dek[..] == dek[..] && entries[k].expiresAt == now + ttl
                else k in old(entries) && entries[k].dek[..] == old(entries[k].dek[..])
      ensures |entries| <= if key != "" && dek.Length > 0 then maxEntries else old(|entries|)
      ensures key != "" && dek.Length > 0 && key !in entries ==> MayGo(Entry(dek, now + ttl, now), now)
      ensures forall k :: k in old(entries) && k !in entries ==> MayGo(old(entries)[k], now) || k == key
      ensures key != "" && dek.Length > 0 ==>
                forall k :: k in old(entries) && (k == key || k !in entries) ==> Zero(old(entries)[k].dek)
    {
      if key != "" && dek.Length > 0 {
        Store(key, dek, now);
      }
    }
  }
}

/** Decryption through the cache. */
module EnvelopeCipher {
  import opened Wrappers
  import opened KeyNames
  import opened DekCacheImpl
  import opened Texts

  datatype Payload = Payload(version: int, wrapped: seq<Octet>, nonce: seq<Octet>, ciphertext: seq<Octet>)

  datatype Error = UnsupportedBackend | BadPayload | UnsupportedVersion | UnwrapFailed | BadKey | Unauthentic

  const BACKEND: Text := "gcp-kms-envelope"
  const PAYLOAD_VERSION := 1

  /** The hash, the key service and AES-GCM, as deterministic functions. */
  datatype Crypto = Crypto(
    keyName: Text,
    hash: Hash,
    unwrap: (Text, seq<Octet>) -> Option<seq<Octet>>,
    open: (seq<Octet>, seq<Octet>, seq<Octet>, Text) -> Option<seq<Octet>>)

  function VersionOf(c: Crypto, keyVersion: Text): Text {
    var v := TrimSpace(keyVersion);
    if v == "" then c.keyName else v
  }

  predicate IsKeyLength(n: nat) { n == 16 || n == 24 || n == 32 }

  function Open(c: Crypto, dek: seq<Octet>, p: Payload, version: Text): Result<seq<Octet>, Error> {
    if !IsKeyLength(|dek|) then Err(BadKey)
    else
      var plaintext := c.open(dek, p.nonce, p.ciphertext, AssociatedData(version));
      if plaintext.None? then Err(Unauthentic) else Ok(plaintext.value)
  }

  /** What the key service answers for a wrapped key. */
  function Unwrapped(c: Crypto, version: Text, wrapped: seq<Octet>): Option<seq<Octet>> {
    c.unwrap(CryptoKeyName(version, c.keyName), wrapped)
  }

  /** Decryption without a cache; `payload` is the decoded ciphertext, if it decodes. */
  function Decrypted(c: Crypto, payload: Option<Payload>, keyVersion: Text, backend: Text): Result<seq<Octet>, Error> {
    if backend != BACKEND then Err(UnsupportedBackend)
    else if payload.None? then Err(BadPayload)
    else if payload.value.version != PAYLOAD_VERSION then Err(UnsupportedVersion)
    else
      var v := VersionOf(c, keyVersion);
      var dek := Unwrapped(c, v, payload.value.wrapped);
      if dek.None? then Err(UnwrapFailed) else Open(c, dek.value, payload.value, v)
  }

  /** The bytes are what the key service returned for one of the known wrapped keys, under
      a version and a digest that give this cache key. */
  ghost predicate Genuine(c: Crypto, known: set<seq<Octet>>, key: string, dek: seq<Octet>) {
    exists v, w {:trigger CacheKey(c.hash, v, w)} ::
      w in known && CacheKey(c.hash, v, w) == key && Unwrapped(c, v, w) == Some(dek)
  }

  lemma KnowingMore(c: Crypto, known: set<seq<Octet>>, more: set<seq<Octet>>, key: string, dek: seq<Octet>)
    requires Genuine(c, known, key, dek) && known <= more
    ensures Genuine(c, more, key, dek)
  {
    var v, w :| w in known && CacheKey(c.hash, v, w) == key && Unwrapped(c, v, w) == Some(dek);
    assert w in more && CacheKey(c.hash, v, w) == key;
  }

  /** No other known wrapped key has the digest of `wrapped`. */
  ghost predicate CollisionFree(c: Crypto, known: set<seq<Octet>>, wrapped: seq<Octet>) {
    forall w :: w in known && c.hash(w) == c.hash(wrapped) ==> w == wrapped
  }

  /** Hashes that separate all the wrapped keys in use are collision-free at every call. */
  lemma SeparatedKeysNeverCollide(c: Crypto, used: set<seq<Octet>>, known: set<seq<Octet>>, wrapped: seq<Octet>)
    requires known <= used && wrapped in used
    requires forall a, b :: a in used && b in used && c.hash(a) == c.hash(b) ==> a == b
    ensures CollisionFree(c, known, wrapped)
  {
  }

  /** Any two wrapped keys are separated by some hash. */
  lemma SomeHashSeparates(a: seq<Octet>, b: seq<Octet>)
    requires a != b
    ensures exists h: Hash :: h(a) != h(b)
  {
    var h: Hash := w => if w == a then seq(32, i => 0) else seq(32, i => 1);
    assert h(a)[0] != h(b)[0];
  }

  /** The data key of some wrapped key with the digest of the one asked for. */
  ghost predicate SharesDigest(c: Crypto, known: set<seq<Octet>>, version: Text, wrapped: seq<Octet>, dek: seq<Octet>) {
    exists w :: (w == wrapped || w in known) && c.hash(w) == c.hash(wrapped) && Unwrapped(c, version, w) == Some(dek)
  }

  /** A cached key is one for the same digest. */
  lemma GenuineSharesDigest(c: Crypto, known: set<seq<Octet>>, version: Text, wrapped: seq<Octet>, dek: seq<Octet>)
    requires Genuine(c, known, CacheKey(c.hash, version, wrapped), dek)
    ensures SharesDigest(c, known, version, wrapped, dek)
  {
    var v, w :|
      w in known && CacheKey(c.hash, v, w) == CacheKey(c.hash, version, wrapped) && Unwrapped(c, v, w) == Some(dek);
    CacheKeyDetermines(c.hash, v, w, version, wrapped);
  }

  /** Without a collision that is the key service's answer. */
  lemma SharedDigestIsExact(c: Crypto, known: set<seq<Octet>>, version: Text, wrapped: seq<Octet>, dek: seq<Octet>)
    requires SharesDigest(c, known, version, wrapped, dek) && CollisionFree(c, known, wrapped)
    ensures Unwrapped(c, version, wrapped) == Some(dek)
  {
  }

  class Cipher {
    const crypto: Crypto
    const cache: DekCache?
    ghost var known: set<seq<Octet>>  // wrapped keys whose data key was ever cached
    ghost var Repr: set<object>  // this cipher, its cache and the arrays in it

    /** Every cached key is one the key service returned. */
    ghost predicate Valid()
      reads this, Repr
      ensures Valid() ==> this in Repr
    {
      && this in Repr
      && (cache != null ==>
            && cache in Repr && cache.Arrays() <= Repr
            && cache.Valid() && |cache.entries| <= cache.maxEntries
            && forall k :: k in cache.entries ==> Genuine(crypto, known, k, cache.entries[k].dek[..]))
    }

    constructor (crypto: Crypto, ttl: int, maxEntries: int)
      ensures Valid() && this.crypto == crypto && fresh(Repr) && known == {}
      ensures cache == null <==> ttl <= 0 || maxEntries <= 0
    {
      this.crypto := crypto;
      known := {};
      if ttl <= 0 || maxEntries <= 0 {
        cache := null;
        Repr := {this};
      } else {
        var entries := new DekCache(ttl, maxEntries);
        cache := entries;
        Repr := {this, entries};
      }
    }

    method Recall(version: Text, wrapped: seq<Octet>, now: int) returns (dek: Option<array<Octet>>)
      requires Valid()
      modifies Repr
      ensures Valid() && Repr == old(Repr) && known == old(known)
      ensures dek.Some? ==> fresh(dek.value) && SharesDigest(crypto, known, version, wrapped, dek.value[..])
    {
      dek := None;
      if cache != null {
        dek := cache.Get(CacheKey(crypto.hash, version, wrapped), now);
        if dek.Some? {
          GenuineSharesDigest(crypto, known, version, wrapped, dek.value[..]);
        }
      }
    }

    method Remember(version: Text, wrapped: seq<Octet>, dek: array<Octet>, now: int)
      requires Valid() && dek !in Repr && Unwrapped(crypto, version, wrapped) == Some(dek[..])
      modifies Repr
      ensures Valid() && fresh(Repr - old(Repr)) && known == old(known) + {wrapped}
    {
      known := known + {wrapped};
      if cache == null {
        return;
      }
      ghost var was := cache.entries;
      var key := CacheKey(crypto.hash, version, wrapped);
      cache.Set(key, dek, now);
      Repr := Repr + cache.Arrays();
      forall k | k in cache.entries ensures Genuine(crypto, known, k, cache.entries[k].dek[..]) {
        if k == key && dek.Length > 0 {
          assert CacheKey(crypto.hash, version, wrapped) == key;
        } else {
          KnowingMore(crypto, old(known), known, k, old(was[k].dek[..]));
        }
      }
    }

    /** A miss: the key service's answer, remembered in a copy. */
    method Fetch(version: Text, wrapped: seq<Octet>, now: int) returns (dek: Option<array<Octet>>)
      requires Valid()
      modifies Repr
      ensures Valid() && fresh(Repr - old(Repr)) && old(known) <= known <= old(known) + {wrapped}
      ensures dek.Some? ==> fresh(dek.value) && dek.value !in Repr
      ensures Unwrapped(crypto, version, wrapped) == if dek.Some? then Some(dek.value[..]) else None
    {
      var unwrapped := Unwrapped(crypto, version, wrapped);
      if unwrapped.None? {
        return None;
      }
      var copy := new Octet[|unwrapped.value|](i requires 0 <= i < |unwrapped.value| => unwrapped.value[i]);
      assert copy[..] == unwrapped.value;
      Remember(version, wrapped, copy, now);
      return Some(copy);
    }

    /** A working copy of a data key, from the cache or from the key service, in an array
        the cache never holds. */
    method DataKey(version: Text, wrapped: seq<Octet>, asked: int, answered: int) returns (dek: Option<array<Octet>>)
      requires Valid()
      modifies Repr
      ensures Valid() && fresh(Repr - old(Repr)) && old(known) <= known <= old(known) + {wrapped}
      ensures dek.Some? ==> fresh(dek.value) && dek.value !in Repr
      ensures dek.Some? ==> SharesDigest(crypto, old(known), version, wrapped, dek.value[..])
      ensures dek.None? ==> Unwrapped(crypto, version, wrapped) == None
    {
      dek := Recall(version, wrapped, asked);
      if dek.None? {
        dek := Fetch(version, wrapped, answered);
      }
    }

    method DecryptPayload(p: Payload, version: Text, asked: int, answered: int) returns (r: Result<seq<Octet>, Error>)
      requires Valid()
      modifies Repr
      ensures Valid() && fresh(Repr - old(Repr)) && old(known) <= known <= old(known) + {p.wrapped}
      ensures CollisionFree(crypto, old(known), p.wrapped) ==>
                var dek := Unwrapped(crypto, version, p.wrapped);
                r == if dek.None? then Err(UnwrapFailed) else Open(crypto, dek.value, p, version)
    {
      var dek := DataKey(version, p.wrapped, asked, answered);
      if dek.None? {
        return Err(UnwrapFailed);
      }
      r := Open(crypto, dek.value[..], p, version);
      if CollisionFree(crypto, old(known), p.wrapped) {
        SharedDigestIsExact(crypto, old(known), version, p.wrapped, dek.value[..]);
      }
      ClearBytes(dek.value);
    }

    /** The cache, its evictions and the zeroing of every working copy are invisible: a call
        returns what it would return without them, unless another wrapped key whose data
        key was cached before has the same digest. */
    method Decrypt(payload: Option<Payload>, keyVersion: Text, backend: Text, asked: int, answered: int)
      returns (r: Result<seq<Octet>, Error>)
      requires Valid()
      modifies Repr
      ensures Valid() && fresh(Repr - old(Repr))
      ensures old(known) <= known <= old(known) + if payload.Some? then {payload.value.wrapped} else {}
      ensures (payload.Some? ==> CollisionFree(crypto, old(known), payload.value.wrapped)) ==>
                r == Decrypted(crypto, payload, keyVersion, backend)
    {
      if backend != BACKEND {
        return Err(UnsupportedBackend);
      }
      if payload.None? {
        return Err(BadPayload);
      }
      if payload.value.version != PAYLOAD_VERSION {
        return Err(UnsupportedVersion);
      }
      var version := TrimSpace(keyVersion);
      if version == "" {
        version := crypto.keyName;
      }
      r := DecryptPayload(payload.value, version, asked, answered);
    }
  }
}
