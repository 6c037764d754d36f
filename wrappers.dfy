/** The optional value and the defaulting dictionary lookup the other
    modules share. */
module Wrappers {

  datatype Option<T> = None | Some(value: T)

  /** dict.get(k, d). */
  function Get<K, V>(m: map<K, V>, k: K, d: V): V {
    if k in m then m[k] else d
  }
}
