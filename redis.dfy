/**
 * The key-value store (a Redis server reached through a string template) and the clock.
 *
 * The store maps keys to entries; an entry may carry an absolute expiry instant, after which the
 * store treats the key as absent. Time is an integer number of milliseconds, shared by the store's
 * TTLs and by the application's "now".
 */
module Redis {
  import opened Wrappers
  import opened Json

  const SECOND: nat := 1000
  const MINUTE: nat := 60 * SECOND

  /**
   * The keys the services use. Each constructor is one key family (a fixed prefix followed by an
   * id), so keys of different families, or of one family with different ids, never collide.
   */
  datatype Key =
    | ShopKey(id: int)        // the cache-shop prefix followed by the shop id
    | LockKey(id: int)        // the lock-shop prefix followed by the shop id
    | ShopTypeKey             // the key of the cached shop-type list
    | OtherKey(name: string)  // every other key of the store

  /** A stored value and the instant at which it expires; None: no TTL. */
  datatype Entry = Entry(value: Value, expiresAt: Option<int>)

  type Cache = map<Key, Entry>

  predicate Live(e: Entry, now: int)
  {
    e.expiresAt.None? || now < e.expiresAt.value
  }

  /** GET: the value stored under k and not yet expired at `now`, or null. */
  function Read(c: Cache, k: Key, now: int): Option<Value>
  {
    if k in c && Live(c[k], now) then Some(c[k].value) else None
  }

  function ExpiryAt(now: int, ttl: Option<nat>): Option<int>
  {
    if ttl.Some? then Some(now + ttl.value) else None
  }

  /** A key that is absent at some instant stays absent later unless it is written. */
  lemma AbsentStaysAbsent(c: Cache, k: Key, now: int, later: int)
    requires now <= later
    requires Read(c, k, now).None?
    ensures Read(c, k, later).None?
  {
  }

  /** The store, as the services see it: get, set with or without TTL, set-if-absent, delete. */
  class RedisStore {
    var entries: Cache

    constructor (initial: Cache)
      ensures entries == initial
    {
      entries := initial;
    }

    method Get(k: Key, now: int) returns (v: Option<Value>)
      ensures v == Read(entries, k, now)
    {
      v := Read(entries, k, now);
    }

    /** SET: overwrites the value and replaces any earlier TTL (no TTL when ttl is None). */
    method Set(k: Key, v: Value, ttl: Option<nat>, now: int)
      modifies this
      ensures entries == old(entries)[k := Entry(v, ExpiryAt(now, ttl))]
    {
      entries := entries[k := Entry(v, ExpiryAt(now, ttl))];
    }

    /** SET NX with a TTL: writes, and answers true, exactly when the key is absent or expired. */
    method SetIfAbsent(k: Key, v: Value, ttl: nat, now: int) returns (created: bool)
      modifies this
      ensures created <==> Read(old(entries), k, now).None?
      ensures entries == if created then old(entries)[k := Entry(v, Some(now + ttl))] else old(entries)
    {
      created := Read(entries, k, now).None?;
      if created {
        entries := entries[k := Entry(v, Some(now + ttl))];
      }
    }

    /** DEL: removes the key whatever it holds and whoever wrote it. */
    method Delete(k: Key)
      modifies this
      ensures entries == old(entries) - {k}
    {
      entries := entries - {k};
    }
  }

  /** The clock; a thread that sleeps lets it advance. */
  class Clock {
    var now: int

    constructor (start: int)
      ensures now == start
    {
      now := start;
    }

    method Sleep(ms: nat)
      modifies this
      ensures now == old(now) + ms
    {
      now := now + ms;
    }
  }
}
