/** What several modules share. */
module Common {
  datatype Option<+T> = None | Some(value: T)

  function Get<V>(m: map<string, V>, p: string): Option<V> { if p in m then Some(m[p]) else None }

  /** Why an index on disk could not be loaded, if it could not. */
  datatype LoadFailure = Fine | Missing | Corrupt | Transient | NewerFormat
}
