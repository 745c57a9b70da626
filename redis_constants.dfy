/**
 * The time-to-live constants of the cache, in minutes. Their values are not part of this model:
 * each is an arbitrary positive number, so every property proved holds whatever they are.
 */
module RedisConstants {

  type Minutes = m: int | m > 0 witness 1

  /** TTL named for shop data (the mutex query uses it for the empty-string marker). */
  const CACHE_SHOP_TTL: Minutes

  /** TTL named for the empty-string marker (the mutex query uses it for shop data). */
  const CACHE_NULL_TTL: Minutes
}
