/**
 * The shared Redis store as the executors see it through `RedisTemplate<String, String>`:
 * string values (`opsForValue`, `boundValueOps`) and hashes of string fields
 * (`opsForHash`, `boundHashOps`). Expiry times are not part of the state.
 */
module Redis {
  import opened Wrappers

  datatype Store = Store(values: map<string, string>, hashes: map<string, map<string, string>>)

  /** HGETALL: the fields of the hash at `key` (a missing key reads as an empty hash). */
  function Entries(r: Store, key: string): map<string, string>
  {
    if key in r.hashes then r.hashes[key] else map[]
  }

  /** HEXISTS */
  predicate HasField(r: Store, key: string, field: string)
  {
    field in Entries(r, key)
  }

  /** HGET: `None` when the hash or the field is missing. */
  function HGet(r: Store, key: string, field: string): (v: Option<string>)
    ensures v.Some? <==> HasField(r, key, field)
  {
    if field in Entries(r, key) then Some(Entries(r, key)[field]) else None
  }

  /** HMSET (`putAll`): every field of `m` is written, the other fields are kept. */
  function HPutAll(r: Store, key: string, m: map<string, string>): (r': Store)
    ensures forall f :: f in m ==> HGet(r', key, f) == Some(m[f])
    ensures forall f :: f !in m ==> HGet(r', key, f) == HGet(r, key, f)
    ensures forall k :: k != key ==> Entries(r', k) == Entries(r, k)
    ensures r'.values == r.values
  {
    r.(hashes := r.hashes[key := Entries(r, key) + m])
  }

  /** HSET of one field. */
  function HPut(r: Store, key: string, field: string, v: string): (r': Store)
    ensures HGet(r', key, field) == Some(v)
    ensures forall f :: f != field ==> HGet(r', key, f) == HGet(r, key, f)
    ensures forall k :: k != key ==> Entries(r', k) == Entries(r, k)
    ensures r'.values == r.values
  {
    HPutAll(r, key, map[field := v])
  }

  /** HDEL of one field; deleting a missing field changes nothing observable. */
  function HDel(r: Store, key: string, field: string): (r': Store)
    ensures !HasField(r', key, field)
    ensures forall f :: f != field ==> HGet(r', key, f) == HGet(r, key, f)
    ensures forall k :: k != key ==> Entries(r', k) == Entries(r, k)
    ensures r'.values == r.values
  {
    r.(hashes := r.hashes[key := Entries(r, key) - {field}])
  }

  /** GET: `None` when the key holds no string value. */
  function Get(r: Store, key: string): (v: Option<string>)
    ensures v.Some? <==> key in r.values
  {
    if key in r.values then Some(r.values[key]) else None
  }

  /** SET (the one-day expiry the executors pass along is not modelled). */
  function Set(r: Store, key: string, v: string): (r': Store)
    ensures Get(r', key) == Some(v)
    ensures forall k :: k != key ==> Get(r', k) == Get(r, k)
    ensures r'.hashes == r.hashes
  {
    r.(values := r.values[key := v])
  }

  /** DEL of several keys, whatever they hold. */
  function Del(r: Store, keys: set<string>): (r': Store)
    ensures forall k :: k in keys ==> Get(r', k) == None && Entries(r', k) == map[]
    ensures forall k :: k !in keys ==> Get(r', k) == Get(r, k) && Entries(r', k) == Entries(r, k)
  {
    Store(r.values - keys, r.hashes - keys)
  }
}
