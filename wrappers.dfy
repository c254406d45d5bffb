/** The optional value used wherever the Python source has `None`, and `dict.get`. */
module Wrappers {

  datatype Option<+T> = None | Some(value: T) {

    /** The held value, or `default` when there is none. */
    function GetOr(default: T): T {
      match this
      case Some(v) => v
      case None => default
    }
  }

  /** Outcome of an operation that may fail with an error value (a raised exception). */
  datatype Outcome<+E> = Pass | Fail(error: E)

  /** Python's `m.get(k)`: the entry for `k`, if there is one. */
  function Get<K, V>(m: map<K, V>, k: K): (r: Option<V>)
    ensures r.Some? <==> k in m
    ensures r.Some? ==> r.value == m[k]
  {
    if k in m then Some(m[k]) else None
  }
}
