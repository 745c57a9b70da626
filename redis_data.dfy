/**
 * The logical-expiry envelope: a payload together with the instant after which it counts as stale.
 * In Java it is a bean built empty and filled by setters; here the setters return the updated value.
 */
module RedisData {
  import opened Wrappers

  /** expireTime is an instant in milliseconds; both fields may be null. */
  datatype RedisData<T> = RedisData(expireTime: Option<int>, data: Option<T>)

  /** The no-argument constructor: both fields unset. */
  function NoArgs<T>(): (r: RedisData<T>)
    ensures GetExpireTime(r) == None && GetData(r) == None
  {
    RedisData(None, None)
  }

  function GetExpireTime<T>(d: RedisData<T>): Option<int>
  {
    d.expireTime
  }

  function GetData<T>(d: RedisData<T>): Option<T>
  {
    d.data
  }

  /** Reading expireTime back gives what was set; data is left as it was. */
  function SetExpireTime<T>(d: RedisData<T>, t: Option<int>): (r: RedisData<T>)
    ensures GetExpireTime(r) == t
    ensures GetData(r) == GetData(d)
  {
    d.(expireTime := t)
  }

  /** Reading data back gives what was set; expireTime is left as it was. */
  function SetData<T>(d: RedisData<T>, x: Option<T>): (r: RedisData<T>)
    ensures GetData(r) == x
    ensures GetExpireTime(r) == GetExpireTime(d)
  {
    d.(data := x)
  }

  /** Filling a fresh envelope field by field yields the envelope holding exactly those two values. */
  lemma FilledEnvelope<T>(t: Option<int>, x: Option<T>)
    ensures SetExpireTime(SetData(NoArgs(), x), t) == RedisData(t, x)
    ensures SetData(SetExpireTime(NoArgs(), t), x) == RedisData(t, x)
  {
  }
}
