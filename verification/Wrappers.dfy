/** The option type and the map update that several modules share. */
module Wrappers {

  datatype Option<+T> = None | Some(value: T)

  /** A map without one of its keys. */
  function Without<K, V>(m: map<K, V>, k: K): map<K, V> { m - {k} }
}
