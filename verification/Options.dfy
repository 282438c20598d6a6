/** A value that may be absent: Python's `None`, a missing dictionary entry, or
    the result of a transition that raised. */
module Options {
  datatype Option<+T> = None | Some(value: T)

  /** `dict.get`: the entry under a key, or nothing. */
  function Lookup<K, V>(m: map<K, V>, k: K): Option<V> {
    if k in m then Some(m[k]) else None
  }
}
