/**
 * The module-level friends cache: a dictionary from `userId + "_" + type` to
 * the last full friend list loaded for that user, stamped with the time it was
 * stored. An entry is served for five minutes.
 */
module FriendsCache {
  import opened Wrappers
  import opened Friendship
  import opened BatchLoader

  /** Five minutes, in milliseconds. */
  const CacheDuration: int := 5 * 60 * 1000

  /** The only type the friends hook stores under. */
  const FriendsKind: string := "friends"

  /** `getCacheKey`: the user id, an underscore, then the type. */
  function CacheKey(userId: string, kind: string): (k: string)
    ensures |k| == |userId| + 1 + |kind|
    ensures k[..|userId|] == userId && k[|userId|] == '_' && k[|userId| + 1..] == kind
  {
    userId + "_" + kind
  }

  /** For one type, distinct users get distinct keys. */
  lemma CacheKeyInjective(a: string, b: string, kind: string)
    requires CacheKey(a, kind) == CacheKey(b, kind)
    ensures a == b
  {
    var k := CacheKey(a, kind);
    assert a == k[..|a|];
    assert |a| == |b|;
  }

  /** Across types the key is ambiguous: the underscore may belong to the id or to the type. */
  lemma CacheKeyCollision()
    ensures CacheKey("a_b", "c") == CacheKey("a", "b_c")
  {
  }

  /** `isCacheValid`: an entry is fresh while strictly less than the duration has passed. */
  predicate IsCacheValid(timestamp: int, now: int) {
    now - timestamp < CacheDuration
  }

  /** The bound is strict: one millisecond before five minutes is valid, five minutes is not. */
  lemma ValidityIsStrict(timestamp: int)
    ensures IsCacheValid(timestamp, timestamp)
    ensures IsCacheValid(timestamp, timestamp + 299999)
    ensures !IsCacheValid(timestamp, timestamp + 300000)
  {
  }

  /** A later clock never revives an expired entry. */
  lemma ExpiryIsFinal(timestamp: int, now: int, later: int)
    requires now <= later && !IsCacheValid(timestamp, now)
    ensures !IsCacheValid(timestamp, later)
  {
  }

  /** One stored list: its edges, when it was stored, and the cursor to resume after. */
  datatype CacheEntry = CacheEntry(data: seq<Friendship>, timestamp: int, lastDoc: Option<Cursor>)

  /** `friendsCache[key] && isCacheValid(friendsCache[key].timestamp)`: the entry served, if any. */
  function Lookup(entries: map<string, CacheEntry>, key: string, now: int): (r: Option<CacheEntry>)
    ensures r.Some? <==> key in entries && IsCacheValid(entries[key].timestamp, now)
    ensures r.Some? ==> r.value == entries[key]
  {
    if key in entries && IsCacheValid(entries[key].timestamp, now) then Some(entries[key]) else None
  }

  /** An entry stored at `now` is served until five minutes have passed. */
  lemma StoredEntryServed(entries: map<string, CacheEntry>, key: string, e: CacheEntry, now: int)
    requires e.timestamp <= now < e.timestamp + CacheDuration
    ensures Lookup(entries[key := e], key, now) == Some(e)
  {
  }

  /** A deleted key is never served. */
  lemma DeletedKeyMissed(entries: map<string, CacheEntry>, key: string, now: int)
    ensures Lookup(entries - {key}, key, now) == None
  {
  }

  /** The cache object; every writer holds the same one. */
  class Cache {
    var entries: map<string, CacheEntry>

    constructor ()
      ensures entries == map[]
    {
      entries := map[];
    }

    /** `friendsCache[key] = e`. */
    method Put(key: string, e: CacheEntry)
      modifies this
      ensures entries == old(entries)[key := e]
    {
      entries := entries[key := e];
    }

    /** `delete friendsCache[key]`. */
    method Delete(key: string)
      modifies this
      ensures entries == old(entries) - {key}
    {
      entries := entries - {key};
    }
  }
}
