/** Small datatypes shared by the protocol models. */
module Common {
  datatype Option<+T> = None | Some(value: T) {
    /** The held value, or `default` when there is none (the source's `??`). */
    function GetOr(default: T): T {
      match this
      case None => default
      case Some(v) => v
    }
  }

  /** `Map.get`: a missing key reads as None. */
  function Get<K, V>(m: map<K, V>, k: K): Option<V> {
    if k in m then Some(m[k]) else None
  }
}
