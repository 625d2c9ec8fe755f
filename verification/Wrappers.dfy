/** Small shared helpers: optional values and total map lookup. */
module Wrappers {

  datatype Option<+T> = None | Some(value: T)

  /** `find` on a hash map: the bound value, or nothing. */
  function Get<K, V>(m: map<K, V>, k: K): Option<V> {
    if k in m then Some(m[k]) else None
  }
}
