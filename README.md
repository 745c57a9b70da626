# Shop cache of hm-dianping, modelled in Dafny

This project models the caching layer of the hm-dianping shop service. A Redis store sits in front
of the shop database, and the service reads and writes it in several ways:

- **Mutex read** (`queryWithMutex`). A non-blank cached entry is a hit. A blank entry is the marker
  for "no such shop". On a miss, the shop is rebuilt under a store lock.
- **Logical-expiry read** (`queryWithLogicalExp`). The cached envelope (`RedisData`) carries its
  own expiry instant. A stale shop is returned at once. A background rebuild is queued only when
  the lock is won.
- **Lock**. `tryLock` is set-if-absent with a 10 s TTL. `unlock` is an unconditional delete.
- **Writes**. `saveShop2Redis` writes an envelope with no TTL. `update` writes the database and then
  deletes the cached entry (cache-aside invalidation).
- **Shop-type list** (`queryTypeList`). A read-through cache of one list-valued key.

## How the system is represented

- **Store.** The Redis store is the class `Redis.RedisStore`. It holds a map from `Key` to `Entry`.
  An entry is a value plus an optional expiry instant. A key is absent once its expiry instant is
  reached.
- **Keys.** Keys are a datatype with one constructor per key family: `ShopKey(id)`, `LockKey(id)`,
  `ShopTypeKey`, `OtherKey(name)`. So the cache prefix, the lock prefix and the type-list key never
  collide.
- **Clock.** Time is an integer number of milliseconds, held by `Redis.Clock`. The store's TTLs and
  `LocalDateTime.now()` both read it.
- **Sleeps.** Each `Thread.sleep` advances the clock by its duration. This is what makes the mutex
  read's retry end in a single-threaded model: a failed `tryLock` sleeps 50 ms and retries until the
  other holder's 10 s lock has expired. `ShopService.Retries` counts those retries.
- **Database.** The database is the class `Db.Database`. It holds the shop rows by id, the rows of
  the shop-type query, and a flag saying whether it is reachable. When it is unreachable, every
  database call throws, which gives the exception paths. Ghost counters record how often a shop
  was loaded and how often the type list was queried. This makes "the loader is not called"
  something a contract can state.
- **Calls that throw.** A Java call that returns or throws is a `Wrappers.Outcome`. Java's null is
  `Option.None`.
- **JSON.** JSON serialisation is the identity. The store holds a `Json.Value`: a plain `Text` (the
  `""` marker, the lock's `"1"`) or a serialised shop, envelope or type list. Decoding a value as the
  wrong kind of document stands for the JSON library throwing. `IsBlank` follows the string
  utility: null, empty, or blank characters only.
- **Rebuild executor.** The executor is a queue, `ShopServiceImpl.rebuilds`. `RunRebuild` is one
  worker running the oldest task.
- **TTL constants.** The two TTL constants, `CACHE_SHOP_TTL` and `CACHE_NULL_TTL` (minutes), are
  arbitrary positive numbers. Their values are not part of this model.

Behaviour kept as the code has it:

- When `tryLock` fails, the result of the recursive retry is dropped. The call then loads the shop
  itself. A miss therefore loads `Retries + 1` times.
- The `finally` block deletes the lock key even when this call never acquired it. The rebuild task
  likewise deletes the lock key unconditionally, so it can release a lock taken by a later read
  (`ShopService.RebuildReleasesLaterLock`).
- The marker `""` is stored with `CACHE_SHOP_TTL` and real shop data with `CACHE_NULL_TTL`.

## Model

| member | source | states |
|---|---|---|
| `RedisData.NoArgs` | src/main/java/com/hmdp/utils/RedisData.java:8-13 | a new envelope has neither expireTime nor data |
| `RedisData.SetExpireTime` | src/main/java/com/hmdp/utils/RedisData.java:8-11 | reading expireTime back gives the value set; data is unchanged |
| `RedisData.SetData` | src/main/java/com/hmdp/utils/RedisData.java:8-12 | reading data back gives the value set; expireTime is unchanged |
| `RedisData.FilledEnvelope` | src/main/java/com/hmdp/service/impl/ShopServiceImpl.java:246-248 | filling a new envelope with both setters, in either order, gives exactly the envelope of those two values |
| `Json.MarkerBlankDocumentsNot` | src/main/java/com/hmdp/service/impl/ShopServiceImpl.java:133-142 | the `""` marker is blank, while a serialised shop, envelope or list and the lock value are not; so a cached document is never taken for the marker |
| `Json.RoundTrip` | src/main/java/com/hmdp/service/impl/ShopServiceImpl.java:136 | what is serialised decodes back to the same shop, envelope or list |
| `Db.OrderByAsc` | src/main/java/com/hmdp/service/impl/ShopTypeServiceImpl.java:48-49 | the type list ordered by `sort` is sorted ascending and is a permutation of the rows |
| `Db.OrderByAscKeepsSorted` | src/main/java/com/hmdp/service/impl/ShopTypeServiceImpl.java:48-49 | rows already in `sort` order come back unchanged |
| `Db.Database.GetById` | src/main/java/com/hmdp/service/impl/ShopServiceImpl.java:158 | returns the row with the id or null, throws when the database is down, and counts one load |
| `Db.Database.UpdateById` | src/main/java/com/hmdp/service/impl/ShopServiceImpl.java:265 | replaces the row with the shop's id if it exists, changes nothing else, throws when the database is down |
| `Db.Database.ListTypesOrderBySort` | src/main/java/com/hmdp/service/impl/ShopTypeServiceImpl.java:48-49 | returns the type rows ordered by `sort`, or null, or throws when the database is down |
| `ShopService.QueryById` | src/main/java/com/hmdp/service/impl/ShopServiceImpl.java:68-71 | a null shop becomes a failure with the not-found message; a shop becomes a success carrying that shop |
| `ShopService.ShopServiceImpl.TryLock` | src/main/java/com/hmdp/service/impl/ShopServiceImpl.java:223-226 | true iff the key was absent or expired; then the key holds "1" with a 10 s TTL; on false the store is unchanged |
| `ShopService.ShopServiceImpl.Unlock` | src/main/java/com/hmdp/service/impl/ShopServiceImpl.java:231-233 | the key is removed whoever set it; nothing else changes |
| `ShopService.ShopServiceImpl.QueryWithMutex` | src/main/java/com/hmdp/service/impl/ShopServiceImpl.java:126-178 | hit: the decoded shop, with no load, no lock and no write. Marker: null, nothing changes. Miss: after `Retries` dropped retries, the call returns its own load. It stores the marker (CACHE_SHOP_TTL) or the shop (CACHE_NULL_TTL) and loads `Retries + 1` times. The lock key is absent afterwards on every path, including the throwing ones |
| `ShopService.ShopServiceImpl.LoadAndStore` | src/main/java/com/hmdp/service/impl/ShopServiceImpl.java:156-169 | the rebuild under the lock loads once, waits 200 ms, stores the marker or the shop and returns what it loaded; it throws with the store unchanged when the database is down |
| `ShopService.RetriesStep` | src/main/java/com/hmdp/service/impl/ShopServiceImpl.java:151-155 | a 50 ms sleep shortens the other holder's remaining lock time, so the retry terminates |
| `ShopService.OverwriteAfterRebuild` | src/main/java/com/hmdp/service/impl/ShopServiceImpl.java:154-175 | after a dropped retry, this call's own write and unlock leave no trace of what the retry stored |
| `ShopService.ShopServiceImpl.QueryWithLogicalExp` | src/main/java/com/hmdp/service/impl/ShopServiceImpl.java:75-119 | missing or blank: null, and nothing changes. Fresh envelope: its shop, with no lock taken. Expired: the stale shop is returned, and a rebuild is queued and the lock taken only if the lock was free. No load is ever made (the database is outside the frame). An undecodable envelope or a missing expireTime throws |
| `ShopService.ShopServiceImpl.SaveShop2Redis` | src/main/java/com/hmdp/service/impl/ShopServiceImpl.java:241-251 | stores, without TTL, an envelope of the loaded shop (null included) that expires expireSeconds after the write; throws with the store unchanged when the database is down |
| `ShopService.ShopServiceImpl.RunRebuild` | src/main/java/com/hmdp/service/impl/ShopServiceImpl.java:105-115 | runs the oldest queued rebuild: a 20 s envelope is written if the load succeeds, and the lock key is deleted either way; an empty queue changes nothing |
| `ShopService.ShopServiceImpl.Update` | src/main/java/com/hmdp/service/impl/ShopServiceImpl.java:259-269 | a null id fails and changes nothing. Otherwise the database row is updated, then exactly the cached shop key is deleted. A database failure leaves the store untouched |
| `ShopService.RepeatedMissServedByMarker` | src/main/java/com/hmdp/service/impl/ShopServiceImpl.java:138-166 | for a shop that does not exist, the second read is answered by the marker and loads nothing |
| `ShopService.UpdateThenRead` | src/main/java/com/hmdp/service/impl/ShopServiceImpl.java:259-268 | after an update, the logical read finds nothing, and the mutex read misses and returns the shop just written |
| `ShopService.ExpiredReadsRebuildOnce` | src/main/java/com/hmdp/service/impl/ShopServiceImpl.java:97-118 | two expired reads both return the stale shop, and only the first queues a rebuild; after the rebuild runs, a read returns the freshly loaded shop and the lock is gone |
| `ShopService.RebuildReleasesLaterLock` | src/main/java/com/hmdp/service/impl/ShopServiceImpl.java:100-114 | two expired reads one lock lifetime apart both take the lock and queue a rebuild; the first rebuild's unconditional unlock deletes the lock the second read holds, while the second rebuild is still queued |
| `ShopService.SaveThenFreshRead` | src/main/java/com/hmdp/service/impl/ShopServiceImpl.java:241-251 | an envelope written by saveShop2Redis reads as fresh, with no lock and no rebuild, until its lifetime has passed |
| `ShopTypeService.ShopTypeServiceImpl.QueryTypeList` | src/main/java/com/hmdp/service/impl/ShopTypeServiceImpl.java:36-60 | hit: the decoded list, with no query and no write. Miss: the list ordered by `sort`. A null list fails without writing. Otherwise the list is cached for CACHE_SHOP_TTL minutes and returned. No key other than the type-list key changes |
| `ShopTypeService.QueryTypeListTwice` | src/main/java/com/hmdp/service/impl/ShopTypeServiceImpl.java:39-59 | after a miss, a second query is served from the cache and returns an equal, sorted list; the database was queried once |

## Left out

- The Redis client, the network and store failures. The store is a map that never fails. A
  set-if-absent answering null is not modelled.
- JSON text. Serialisation is the identity. The JSON library's leniency is not modelled: binding an
  object with missing or unknown properties would still succeed in the library, but here it throws.
  The cast of the envelope's data to a JSON object cannot fail in the model.
- The exact blank-character set of the string utility is that of the common library version. It
  matters only for cached text made of unusual blank characters.
- `queryById`'s call into the generic cache client is not part of this model. Only its mapping from
  null to failure and from a shop to success is modelled.
- The commented-out `queryWithPassThrough` is dead code and is not modelled.
- Concurrency. The rebuild executor is a queue run step by step by `RunRebuild`. Threads are not
  interleaved, so the race between a stale read and the rebuild's write is not modelled.
- `QueryWithMutex`: because calls do not interleave, two of its quirks have no visible effect
  besides the load count. Its `finally` unlock never deletes another caller's live lock: the
  dropped retry has already removed the lock before the outer unlock runs. The dropped retry's
  result always equals this call's own load, because the database cannot change in between. So
  only `Retries + 1` loads show them. The foreign-unlock hazard itself is shown through
  `RunRebuild` (`RebuildReleasesLaterLock`).
- `QueryWithMutex`, `QueryWithLogicalExp`, `SaveShop2Redis`: modelled for non-null ids only. In the
  source a null id is not rejected: it yields the keys ending in "null" and a load by a null id.
- `OrderByAsc`: SQL leaves the order of rows with equal `sort` open, while the model keeps them in
  storage order (the sort is stable). By `OrderByAscKeepsSorted`, every list already in `sort` order
  is the result for some stored rows, so no sorted answer of the database is lost.
- `QueryWithMutex` requires that a stored lock key carries a TTL. Without one, the source retries
  until its stack overflows. No operation of the service stores such a key (each keeps
  `LocksExpire`).
- Thread interruption (`InterruptedException`) and the wrapping of exceptions in `RuntimeException`.
  An exception's class is not modelled, only that the call throws.
- The transaction around `update`. The database is unchanged when `updateById` throws. Column-wise
  merging of non-null fields by `updateById` is not modelled: the whole row is replaced.
- The shop-type query never yielding null in practice. The model lets the query yield null so that
  the failure branch is reachable.
- Business columns of shops and shop types are one opaque string each.
