/**
 * The expiring key/value store behind `lm_monitor_get_transient`, `_set_transient`
 * and `_delete_transient` (WordPress transients under the `lm_monitor_` prefix).
 * An entry is readable until its expiry time has passed.
 */
module Transients {
  import opened Wrappers
  import opened Helpers

  datatype Value = Flag | Stamp(time: int)

  /** A stored value used as a condition: `true` is truthy, a timestamp unless it is 0. */
  predicate Truthy(v: Value) {
    match v
    case Flag => true
    case Stamp(t) => t != 0
  }

  datatype Entry = Entry(value: Value, expires: int)

  type Store = map<string, Entry>

  /** `lm_monitor_get_transient($key)`: the value, or None (PHP false) when absent or expired. */
  function Get(store: Store, key: string, now: int): (r: Option<Value>)
    ensures r.Some? <==> TransientKey(key) in store && now <= store[TransientKey(key)].expires
    ensures r.Some? ==> r.value == store[TransientKey(key)].value
  {
    var k := TransientKey(key);
    if k in store && now <= store[k].expires then Some(store[k].value) else None
  }

  /** `lm_monitor_set_transient($key, $value, $ttl)` at time `now`. */
  function Set(store: Store, key: string, value: Value, ttl: nat, now: int): Store {
    store[TransientKey(key) := Entry(value, now + ttl)]
  }

  /** `lm_monitor_delete_transient($key)`. */
  function Delete(store: Store, key: string): Store {
    store - {TransientKey(key)}
  }

  /** A value set is read back until its time to live has run out, and not after. */
  lemma GetAfterSet(store: Store, key: string, value: Value, ttl: nat, now: int, later: int)
    requires now <= later
    ensures later <= now + ttl ==> Get(Set(store, key, value, ttl, now), key, later) == Some(value)
    ensures later > now + ttl ==> Get(Set(store, key, value, ttl, now), key, later) == None
  {
  }

  /** Setting or deleting one key leaves every other key's reading unchanged. */
  lemma OtherKeysUntouched(store: Store, key: string, other: string, value: Value, ttl: nat, now: int, t: int)
    requires key != other
    ensures Get(Set(store, key, value, ttl, now), other, t) == Get(store, other, t)
    ensures Get(Delete(store, key), other, t) == Get(store, other, t)
  {
    TransientKeyInjective(key, other);
  }

  /** A deleted key reads as absent. */
  lemma GetAfterDelete(store: Store, key: string, t: int)
    ensures Get(Delete(store, key), key, t) == None
  {
  }
}
