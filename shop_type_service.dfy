/**
 * The shop-type service: a read-through cache of the whole shop-type list under a single key.
 */
module ShopTypeService {
  import opened Wrappers
  import opened Entity
  import opened Dto
  import opened Json
  import opened RedisConstants
  import opened Redis
  import opened Db

  const SHOP_TYPES_MISSING := "店铺倒闭了"

  class ShopTypeServiceImpl {
    const redis: RedisStore
    const clock: Clock
    const db: Database

    constructor (redis: RedisStore, clock: Clock, db: Database)
      ensures this.redis == redis && this.clock == clock && this.db == db
    {
      this.redis := redis;
      this.clock := clock;
      this.db := db;
    }

    /**
     * queryTypeList. A non-blank cached list is decoded and returned without asking the database.
     * Otherwise the list comes from the database ordered by `sort`; a null list is a failure and
     * nothing is cached, any other list is cached for CACHE_SHOP_TTL minutes and returned. No key
     * but the shop-type key is ever written.
     */
    method QueryTypeList() returns (out: Outcome<Result<seq<ShopType>>>)
      modifies redis, db`listQueries
      ensures redis.entries - {ShopTypeKey} == old(redis.entries) - {ShopTypeKey}
      ensures var cached := Read(old(redis.entries), ShopTypeKey, clock.now);
        !IsBlank(cached) ==>
          && redis.entries == old(redis.entries)
          && db.listQueries == old(db.listQueries)
          && out == if ToList(cached.value).Some? then Returned(Ok(ToList(cached.value).value)) else Threw
      ensures IsBlank(Read(old(redis.entries), ShopTypeKey, clock.now)) ==> db.listQueries == old(db.listQueries) + 1
      ensures IsBlank(Read(old(redis.entries), ShopTypeKey, clock.now)) && !db.up ==>
        out == Threw && redis.entries == old(redis.entries)
      ensures IsBlank(Read(old(redis.entries), ShopTypeKey, clock.now)) && db.up && db.typeRows.None? ==>
        out == Returned(Fail(SHOP_TYPES_MISSING)) && redis.entries == old(redis.entries)
      ensures IsBlank(Read(old(redis.entries), ShopTypeKey, clock.now)) && db.up && db.typeRows.Some? ==>
        var typeList := OrderByAsc(db.typeRows.value);
        && out == Returned(Ok(typeList))
        && redis.entries == old(redis.entries)[ShopTypeKey := Entry(TypeListJson(typeList), Some(clock.now + CACHE_SHOP_TTL * MINUTE))]
    {
      var typeJson := redis.Get(ShopTypeKey, clock.now);
      ghost var now, cachedBefore := clock.now, redis.entries;
      if !IsBlank(typeJson) {
        var cachedList := ToList(typeJson.value);
        if cachedList.None? {
          return Threw;
        }
        return Returned(Ok(cachedList.value));
      }
      var typeList := db.ListTypesOrderBySort();
      assert clock.now == now && redis.entries == cachedBefore;
      if typeList.Threw? {
        return Threw;
      }
      if typeList.value.None? {
        return Returned(Fail(SHOP_TYPES_MISSING));
      }
      redis.Set(ShopTypeKey, TypeListJson(typeList.value.value), Some(CACHE_SHOP_TTL * MINUTE), clock.now);
      out := Returned(Ok(typeList.value.value));
    }
  }

  /**
   * Two queries in a row, starting from a missing or blank entry, against a database that answers:
   * the first returns the type rows ordered by `sort`; the second is served from the cache and
   * returns the same list.
   */
  method QueryTypeListTwice(svc: ShopTypeServiceImpl) returns (first: Outcome<Result<seq<ShopType>>>, second: Outcome<Result<seq<ShopType>>>)
    requires IsBlank(Read(svc.redis.entries, ShopTypeKey, svc.clock.now))
    requires svc.db.up && svc.db.typeRows.Some?
    modifies svc.redis, svc.db`listQueries
    ensures svc.db.listQueries == old(svc.db.listQueries) + 1
    ensures first.Returned? && first.value.Ok? && SortedBySort(first.value.data)
    ensures multiset(first.value.data) == multiset(svc.db.typeRows.value)
    ensures second == first
  {
    first := svc.QueryTypeList();
    ghost var cached := svc.redis.entries;
    second := svc.QueryTypeList();
    assert svc.redis.entries == cached;
  }
}
