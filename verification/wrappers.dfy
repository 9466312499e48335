/** An optional value: what a JavaScript property that may be `undefined` holds. */
module Wrappers {

  datatype Option<+T> = None | Some(value: T)

  /** The value a map holds for a key, or None when the key is absent. */
  function Lookup<K, V>(m: map<K, V>, k: K): (r: Option<V>)
    ensures r.Some? <==> k in m
    ensures r.Some? ==> r.value == m[k]
  {
    if k in m then Some(m[k]) else None
  }
}
