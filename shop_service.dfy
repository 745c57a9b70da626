/**
 * The shop service's caching logic: a read that rebuilds a missing entry under a store lock, a read
 * of logically expiring envelopes that schedules its rebuild in the background, the lock itself,
 * the envelope writer, and the update that invalidates the cached entry.
 *
 * Every operation changes the shared store step by step; the service holds the store, the clock and
 * the database, and a queue of rebuild tasks handed to its executor.
 */
module ShopService {
  import opened Wrappers
  import opened Entity
  import opened Dto
  import opened RedisData
  import opened Json
  import opened RedisConstants
  import opened Redis
  import opened Db

  const SHOP_NOT_FOUND := "店铺不存哎"
  const SHOP_ID_EMPTY := "店铺id不能为空"

  /** TTL of the lock, and the logical lifetime a background rebuild gives an envelope. */
  const LOCK_TTL: nat := 10 * SECOND
  const REBUILD_EXPIRE_SECONDS: int := 20

  /** queryById: the cached query's null becomes a failure, a shop becomes a success carrying it. */
  function QueryById(shop: Option<Shop>): (r: Result<Shop>)
    ensures r.Ok? <==> shop.Some?
    ensures r.Ok? ==> r.data == shop.value
    ensures r.Fail? ==> r.errorMsg == SHOP_NOT_FOUND
  {
    if shop.None? then Fail(SHOP_NOT_FOUND) else Ok(shop.value)
  }

  /**
   * What the mutex read stores after loading `shop` at `now`: the empty-string marker for a missing
   * row, the shop otherwise. The marker gets CACHE_SHOP_TTL and the shop CACHE_NULL_TTL.
   */
  function RebuiltEntry(shop: Option<Shop>, now: int): Entry
  {
    if shop.None? then Entry(Text(""), Some(now + CACHE_SHOP_TTL * MINUTE))
    else Entry(ShopJson(shop.value), Some(now + CACHE_NULL_TTL * MINUTE))
  }

  /** Every lock key in the store carries a TTL: the only writer of lock keys sets one. */
  ghost predicate LocksExpire(c: Cache)
  {
    forall k :: k in c && k.LockKey? ==> c[k].expiresAt.Some?
  }

  /** Milliseconds the lock on id still has to live; 0 when it is absent or already expired. */
  function LockTimeLeft(c: Cache, now: int, id: int): nat
  {
    var k := LockKey(id);
    if k in c && c[k].expiresAt.Some? && now < c[k].expiresAt.value then c[k].expiresAt.value - now else 0
  }

  /** How many 50 ms retries a mutex read makes before the lock held by someone else has expired. */
  function Retries(c: Cache, now: int, id: int): nat
  {
    (LockTimeLeft(c, now, id) + 49) / 50
  }

  lemma RetriesStep(c: Cache, now: int, id: int)
    requires LockTimeLeft(c, now, id) > 0
    ensures Retries(c, now + 50, id) == Retries(c, now, id) - 1
    ensures LockTimeLeft(c, now + 50, id) < LockTimeLeft(c, now, id)
  {
  }

  /** Overwriting the shop key after a nested rebuild leaves no trace of what the nested call stored there. */
  lemma OverwriteAfterRebuild(before: Cache, key: Key, lockKey: Key, first: Entry, second: Entry)
    requires key != lockKey
    ensures (before[key := first] - {lockKey})[key := second] - {lockKey} == before[key := second] - {lockKey}
  {
  }

  class ShopServiceImpl {
    const redis: RedisStore
    const clock: Clock
    const db: Database
    /** Ids whose rebuild has been submitted to the executor and has not run yet, oldest first. */
    var rebuilds: seq<int>

    constructor (redis: RedisStore, clock: Clock, db: Database)
      ensures this.redis == redis && this.clock == clock && this.db == db
      ensures rebuilds == []
    {
      this.redis := redis;
      this.clock := clock;
      this.db := db;
      rebuilds := [];
    }

    /** tryLock: creates the key with value "1" and a 10 s TTL exactly when it is absent, and says whether it did. */
    method TryLock(key: Key) returns (ok: bool)
      modifies redis
      ensures ok <==> Read(old(redis.entries), key, clock.now).None?
      ensures ok ==> redis.entries == old(redis.entries)[key := Entry(Text("1"), Some(clock.now + LOCK_TTL))]
      ensures !ok ==> redis.entries == old(redis.entries)
      ensures LocksExpire(old(redis.entries)) ==> LocksExpire(redis.entries)
    {
      ok := redis.SetIfAbsent(key, Text("1"), LOCK_TTL, clock.now);
    }

    /** unlock: deletes the key, whoever set it. */
    method Unlock(key: Key)
      modifies redis
      ensures redis.entries == old(redis.entries) - {key}
      ensures LocksExpire(old(redis.entries)) ==> LocksExpire(redis.entries)
    {
      redis.Delete(key);
    }

    /**
     * queryWithMutex. A non-blank entry is decoded and returned; the blank marker gives null; both
     * leave everything as it was. On a miss the lock is tried; when another holds it the call sleeps
     * 50 ms, runs itself again and drops that result, then loads the shop itself either way. The load
     * is cached (marker or shop) and returned, and the lock key is deleted on every way out of the
     * rebuild, including the throwing ones and the one where this call never held the lock.
     *
     * A lock key stored without TTL would make the source retry until its stack overflows; the
     * precondition excludes it (no operation of the service stores one, see LocksExpire).
     */
    method QueryWithMutex(id: int) returns (out: Outcome<Option<Shop>>)
      requires LockKey(id) in redis.entries ==> redis.entries[LockKey(id)].expiresAt.Some?
      modifies redis, clock, db`loads
      decreases LockTimeLeft(redis.entries, clock.now, id)
      ensures Read(old(redis.entries), ShopKey(id), old(clock.now)).Some? ==>
        && redis.entries == old(redis.entries)
        && clock.now == old(clock.now)
        && db.loads == old(db.loads)
      ensures var cached := Read(old(redis.entries), ShopKey(id), old(clock.now));
        !IsBlank(cached) ==>
          out == if ToBean(cached.value).Some? then Returned(ToBean(cached.value)) else Threw
      ensures var cached := Read(old(redis.entries), ShopKey(id), old(clock.now));
        cached.Some? && IsBlank(cached) ==> out == Returned(None)
      ensures var k := Retries(old(redis.entries), old(clock.now), id);
        Read(old(redis.entries), ShopKey(id), old(clock.now)).None? ==>
          && LockKey(id) !in redis.entries
          && (db.up ==>
                && out == Returned(Find(db.shops, id))
                && db.loads == old(db.loads) + k + 1
                && clock.now == old(clock.now) + 250 * k + 200
                && redis.entries ==
                     old(redis.entries)[ShopKey(id) := RebuiltEntry(Find(db.shops, id), clock.now)] - {LockKey(id)})
          && (!db.up ==>
                && out == Threw
                && db.loads == old(db.loads) + 1
                && clock.now == old(clock.now) + 50 * k
                && redis.entries == old(redis.entries) - {LockKey(id)})
      ensures LocksExpire(old(redis.entries)) ==> LocksExpire(redis.entries)
    {
      var key := ShopKey(id);
      var shopJson := redis.Get(key, clock.now);
      if !IsBlank(shopJson) {
        var bean := ToBean(shopJson.value);
        if bean.None? {
          return Threw;
        }
        return Returned(bean);
      }
      if shopJson.Some? {
        return Returned(None);
      }

      var lockKey := LockKey(id);
      ghost var before, start := redis.entries, clock.now;
      var isLock := TryLock(lockKey);
      if !isLock {
        clock.Sleep(50);
        RetriesStep(before, start, id);
        AbsentStaysAbsent(before, key, start, clock.now);
        var retry := QueryWithMutex(id);
        if retry.Threw? {
          Unlock(lockKey);
          return Threw;
        }
        ghost var first := RebuiltEntry(Find(db.shops, id), clock.now);
        out := LoadAndStore(id);
        Unlock(lockKey);
        OverwriteAfterRebuild(before, key, lockKey, first, RebuiltEntry(Find(db.shops, id), clock.now));
      } else {
        out := LoadAndStore(id);
        Unlock(lockKey);
      }
    }

    /**
     * The body of the rebuild, between taking the lock and releasing it: load the shop, wait 200 ms,
     * store what was loaded (RebuiltEntry) and return it.
     */
    method LoadAndStore(id: int) returns (out: Outcome<Option<Shop>>)
      modifies redis, clock, db`loads
      ensures db.loads == old(db.loads) + 1
      ensures db.up ==>
        && out == Returned(Find(db.shops, id))
        && clock.now == old(clock.now) + 200
        && redis.entries == old(redis.entries)[ShopKey(id) := RebuiltEntry(Find(db.shops, id), clock.now)]
      ensures !db.up ==> out == Threw && clock.now == old(clock.now) && redis.entries == old(redis.entries)
    {
      var key := ShopKey(id);
      var loaded := db.GetById(id);
      if loaded.Threw? {
        return Threw;
      }
      var shop := loaded.value;
      clock.Sleep(200);
      if shop.None? {
        redis.Set(key, Text(""), Some(CACHE_SHOP_TTL * MINUTE), clock.now);
        return Returned(None);
      }
      redis.Set(key, ShopJson(shop.value), Some(CACHE_NULL_TTL * MINUTE), clock.now);
      out := Returned(shop);
    }
    /**
     * queryWithLogicalExp. A missing or blank entry gives null. Otherwise the envelope is decoded and
     * its shop returned, fresh or stale, without loading anything. Only when the envelope has expired
     * is the lock tried, and only when it is won is a rebuild queued; the lock then stays held until
     * that rebuild has run. An envelope without expireTime makes the call throw.
     */
    method QueryWithLogicalExp(id: int) returns (out: Outcome<Option<Shop>>)
      modifies redis, this`rebuilds
      ensures IsBlank(Read(old(redis.entries), ShopKey(id), clock.now)) ==>
        out == Returned(None) && redis.entries == old(redis.entries) && rebuilds == old(rebuilds)
      ensures var cached := Read(old(redis.entries), ShopKey(id), clock.now);
        !IsBlank(cached) && (ToEnvelope(cached.value).None? || ToEnvelope(cached.value).value.expireTime.None?) ==>
          out == Threw && redis.entries == old(redis.entries) && rebuilds == old(rebuilds)
      ensures var cached := Read(old(redis.entries), ShopKey(id), clock.now);
        !IsBlank(cached) && ToEnvelope(cached.value).Some? && ToEnvelope(cached.value).value.expireTime.Some? ==>
          var env := ToEnvelope(cached.value).value;
          && out == Returned(env.data)
          && (clock.now < env.expireTime.value ==>
                redis.entries == old(redis.entries) && rebuilds == old(rebuilds))
          && (env.expireTime.value <= clock.now && Read(old(redis.entries), LockKey(id), clock.now).None? ==>
                && redis.entries == old(redis.entries)[LockKey(id) := Entry(Text("1"), Some(clock.now + LOCK_TTL))]
                && rebuilds == old(rebuilds) + [id])
          && (env.expireTime.value <= clock.now && Read(old(redis.entries), LockKey(id), clock.now).Some? ==>
                redis.entries == old(redis.entries) && rebuilds == old(rebuilds))
      ensures LocksExpire(old(redis.entries)) ==> LocksExpire(redis.entries)
    {
      var shopJson := redis.Get(ShopKey(id), clock.now);
      if IsBlank(shopJson) {
        return Returned(None);
      }
      var redisData := ToEnvelope(shopJson.value);
      if redisData.None? {
        return Threw;
      }
      var shop := GetData(redisData.value);
      var expireTime := GetExpireTime(redisData.value);
      if expireTime.None? {
        return Threw;
      }
      if clock.now < expireTime.value {
        return Returned(shop);
      }
      var lockKey := LockKey(id);
      var isLock := TryLock(lockKey);
      if isLock {
        rebuilds := rebuilds + [id];
      }
      out := Returned(shop);
    }

    /**
     * saveShop2Redis: loads the shop (null included), waits 200 ms, and stores under the shop key an
     * envelope holding it with expireTime now + expireSeconds, without TTL.
     */
    method SaveShop2Redis(id: int, expireSeconds: int) returns (out: Outcome<()>)
      modifies redis, clock, db`loads
      ensures db.loads == old(db.loads) + 1
      ensures db.up ==>
        && out == Returned(())
        && clock.now == old(clock.now) + 200
        && redis.entries == old(redis.entries)[ShopKey(id) :=
             Entry(EnvelopeJson(RedisData(Some(clock.now + expireSeconds * SECOND), Find(db.shops, id))), None)]
      ensures !db.up ==> out == Threw && clock.now == old(clock.now) && redis.entries == old(redis.entries)
      ensures LocksExpire(old(redis.entries)) ==> LocksExpire(redis.entries)
    {
      var loaded := db.GetById(id);
      if loaded.Threw? {
        return Threw;
      }
      clock.Sleep(200);
      var redisData: RedisData<Shop> := NoArgs();
      redisData := SetData(redisData, loaded.value);
      redisData := SetExpireTime(redisData, Some(clock.now + expireSeconds * SECOND));
      redis.Set(ShopKey(id), EnvelopeJson(redisData), None, clock.now);
      out := Returned(());
    }

    /**
     * One worker of the rebuild executor takes the oldest queued task and runs it: saveShop2Redis
     * with a 20 s logical lifetime, then the lock is deleted whether that threw or not. A thrown
     * exception stays inside the submitted rebuild and reaches no caller.
     */
    method RunRebuild() returns (ran: bool)
      modifies this`rebuilds, redis, clock, db`loads
      ensures ran <==> old(rebuilds) != []
      ensures !ran ==>
        && rebuilds == old(rebuilds) && redis.entries == old(redis.entries)
        && clock.now == old(clock.now) && db.loads == old(db.loads)
      ensures ran ==>
        var id := old(rebuilds)[0];
        && rebuilds == old(rebuilds)[1..]
        && db.loads == old(db.loads) + 1
        && (db.up ==>
              && clock.now == old(clock.now) + 200
              && redis.entries == old(redis.entries)[ShopKey(id) :=
                   Entry(EnvelopeJson(RedisData(Some(clock.now + REBUILD_EXPIRE_SECONDS * SECOND), Find(db.shops, id))), None)]
                   - {LockKey(id)})
        && (!db.up ==> clock.now == old(clock.now) && redis.entries == old(redis.entries) - {LockKey(id)})
      ensures LocksExpire(old(redis.entries)) ==> LocksExpire(redis.entries)
    {
      if rebuilds == [] {
        return false;
      }
      var id := rebuilds[0];
      rebuilds := rebuilds[1..];
      var saved := SaveShop2Redis(id, REBUILD_EXPIRE_SECONDS);
      Unlock(LockKey(id));
      ran := true;
    }

    /**
     * update: a shop without id is refused and nothing changes. Otherwise the database row is updated
     * first and the cached entry deleted afterwards, so that the next read misses; no other key changes.
     */
    method Update(shop: Shop) returns (out: Outcome<Result<()>>)
      modifies redis, db`shops
      ensures shop.id.None? ==>
        out == Returned(Fail(SHOP_ID_EMPTY)) && redis.entries == old(redis.entries) && db.shops == old(db.shops)
      ensures shop.id.Some? && !db.up ==>
        out == Threw && redis.entries == old(redis.entries) && db.shops == old(db.shops)
      ensures shop.id.Some? && db.up ==>
        var id := shop.id.value;
        && out == Returned(Ok(()))
        && db.shops == (if id in old(db.shops) then old(db.shops)[id := shop] else old(db.shops))
        && redis.entries == old(redis.entries) - {ShopKey(id)}
      ensures LocksExpire(old(redis.entries)) ==> LocksExpire(redis.entries)
    {
      var id := shop.id;
      if id.None? {
        return Returned(Fail(SHOP_ID_EMPTY));
      }
      var updated := db.UpdateById(shop);
      if updated.Threw? {
        return Threw;
      }
      redis.Delete(ShopKey(id.value));
      out := Returned(Ok(()));
    }
  }

  /**
   * A missing shop is loaded once: the first mutex read finds no row, caches the marker and returns
   * null; the second read, right after, is answered by the marker and loads nothing.
   */
  method RepeatedMissServedByMarker(svc: ShopServiceImpl, id: int)
    returns (first: Outcome<Option<Shop>>, second: Outcome<Option<Shop>>)
    requires Read(svc.redis.entries, ShopKey(id), svc.clock.now).None?
    requires LockKey(id) in svc.redis.entries ==> svc.redis.entries[LockKey(id)].expiresAt.Some?
    requires svc.db.up && id !in svc.db.shops
    modifies svc.redis, svc.clock, svc.db`loads
    ensures first == Returned(None) && second == Returned(None)
    ensures svc.db.loads == old(svc.db.loads) + Retries(old(svc.redis.entries), old(svc.clock.now), id) + 1
    ensures Read(svc.redis.entries, ShopKey(id), svc.clock.now) == Some(Text(""))
  {
    first := svc.QueryWithMutex(id);
    second := svc.QueryWithMutex(id);
  }

  /**
   * Cache-aside invalidation: after an update of an existing shop, the logical-expiry read finds
   * nothing (it never loads), and the mutex read misses, loads, and returns the shop just written.
   */
  method UpdateThenRead(svc: ShopServiceImpl, shop: Shop)
    returns (updated: Outcome<Result<()>>, logical: Outcome<Option<Shop>>, mutex: Outcome<Option<Shop>>)
    requires shop.id.Some? && shop.id.value in svc.db.shops && svc.db.up
    requires LocksExpire(svc.redis.entries)
    modifies svc, svc.redis, svc.clock, svc.db`loads, svc.db`shops
    ensures updated == Returned(Ok(()))
    ensures logical == Returned(None)
    ensures mutex == Returned(Some(shop))
  {
    updated := svc.Update(shop);
    logical := svc.QueryWithLogicalExp(shop.id.value);
    mutex := svc.QueryWithMutex(shop.id.value);
  }

  /**
   * Logical expiry end to end: two reads of an expired envelope both return the stale shop at once
   * and only the first queues a rebuild (the second finds the lock taken). Once the rebuild has run,
   * the lock is gone and a read returns the freshly loaded shop without queueing anything.
   */
  method ExpiredReadsRebuildOnce(svc: ShopServiceImpl, id: int)
    returns (first: Outcome<Option<Shop>>, second: Outcome<Option<Shop>>, third: Outcome<Option<Shop>>)
    requires var cached := Read(svc.redis.entries, ShopKey(id), svc.clock.now);
      && cached.Some? && cached.value.EnvelopeJson?
      && cached.value.envelope.expireTime.Some? && cached.value.envelope.expireTime.value <= svc.clock.now
    requires Read(svc.redis.entries, LockKey(id), svc.clock.now).None?
    requires svc.rebuilds == [] && svc.db.up
    modifies svc, svc.redis, svc.clock, svc.db`loads
    ensures var stale := Read(old(svc.redis.entries), ShopKey(id), old(svc.clock.now)).value.envelope.data;
      first == Returned(stale) && second == Returned(stale)
    ensures third == Returned(Find(svc.db.shops, id))
    ensures svc.rebuilds == [] && LockKey(id) !in svc.redis.entries
    ensures svc.db.loads == old(svc.db.loads) + 1
  {
    first := svc.QueryWithLogicalExp(id);
    second := svc.QueryWithLogicalExp(id);
    assert svc.rebuilds == [id];
    var ran := svc.RunRebuild();
    third := svc.QueryWithLogicalExp(id);
  }

  /**
   * The rebuild task unlocks a lock it does not own: two expired reads one lock lifetime apart both
   * win the lock and queue a rebuild each; when the first rebuild finishes, its unconditional unlock
   * deletes the lock the second read took, although the second rebuild is still queued.
   */
  method RebuildReleasesLaterLock(svc: ShopServiceImpl, id: int)
    returns (first: Outcome<Option<Shop>>, second: Outcome<Option<Shop>>, lockBefore: Option<Value>)
    requires ShopKey(id) in svc.redis.entries && svc.redis.entries[ShopKey(id)].expiresAt.None?
    requires var cached := svc.redis.entries[ShopKey(id)].value;
      && cached.EnvelopeJson?
      && cached.envelope.expireTime.Some? && cached.envelope.expireTime.value <= svc.clock.now
    requires Read(svc.redis.entries, LockKey(id), svc.clock.now).None?
    requires svc.rebuilds == [] && svc.db.up
    modifies svc, svc.redis, svc.clock, svc.db`loads
    ensures var stale := old(svc.redis.entries)[ShopKey(id)].value.envelope.data;
      first == Returned(stale) && second == Returned(stale)
    ensures lockBefore == Some(Text("1"))
    ensures svc.rebuilds == [id]
    ensures Read(svc.redis.entries, LockKey(id), svc.clock.now).None?
  {
    first := svc.QueryWithLogicalExp(id);
    svc.clock.Sleep(LOCK_TTL);
    second := svc.QueryWithLogicalExp(id);
    assert svc.rebuilds == [id, id];
    lockBefore := svc.redis.Get(LockKey(id), svc.clock.now);
    var ran := svc.RunRebuild();
  }

  /** An envelope written by saveShop2Redis reads as fresh until its lifetime has passed. */
  method SaveThenFreshRead(svc: ShopServiceImpl, id: int, expireSeconds: int, wait: nat)
    returns (read: Outcome<Option<Shop>>)
    requires svc.db.up && wait < expireSeconds * SECOND
    modifies svc, svc.redis, svc.clock, svc.db`loads
    ensures read == Returned(Find(svc.db.shops, id))
    ensures svc.rebuilds == old(svc.rebuilds)
    ensures Read(svc.redis.entries, LockKey(id), svc.clock.now) == Read(old(svc.redis.entries), LockKey(id), svc.clock.now)
  {
    var saved := svc.SaveShop2Redis(id, expireSeconds);
    svc.clock.Sleep(wait);
    read := svc.QueryWithLogicalExp(id);
  }
}
