/** The Redis commands the code relies on, on a key space whose values carry an expiry time. */
module Redis {

  datatype Slot<V> = Slot(value: V, expiry: int)

  predicate Live<K, V>(store: map<K, Slot<V>>, now: int, key: K) {
    key in store && now < store[key].expiry
  }

  /** SET key value PX ttl NX: the new store, and whether the key was free. */
  function SetNx<K, V>(store: map<K, Slot<V>>, now: int, key: K, value: V, ttlMs: nat): (map<K, Slot<V>>, bool) {
    if Live(store, now, key) then (store, false) else (store[key := Slot(value, now + ttlMs)], true)
  }

  /** The compare-and-delete script. */
  function DeleteIfEqual<K, V(==)>(store: map<K, Slot<V>>, now: int, key: K, value: V): map<K, Slot<V>> {
    if Live(store, now, key) && store[key].value == value then store - {key} else store
  }

  /** The compare-and-extend script: the new store, and whether it extended. */
  function ExtendIfEqual<K, V(==)>(store: map<K, Slot<V>>, now: int, key: K, value: V, ttlMs: nat)
    : (map<K, Slot<V>>, bool)
  {
    if Live(store, now, key) && store[key].value == value
    then (store[key := Slot(value, now + ttlMs)], true) else (store, false)
  }
}
