/** Optional values and success-or-error results, used for the source's
    `null`/`undefined` fields and for the mock services that throw. */
module Wrappers {

  datatype Option<+T> = None | Some(value: T) {
    function GetOr(default: T): T {
      match this
      case Some(v) => v
      case None => default
    }
  }

  datatype Result<+R, +E> = Success(value: R) | Failure(error: E)

  /** Records the message `e` under `key` when there is one, as the forms'
      `newErrors.key = ...` assignments do. */
  function Put<K, V>(m: map<K, V>, key: K, e: Option<V>): (r: map<K, V>)
    ensures key in r <==> key in m || e.Some?
    ensures e.Some? ==> r[key] == e.value
    ensures forall k :: k in m && k != key ==> k in r && r[k] == m[k]
    ensures r.Keys <= m.Keys + {key}
  {
    if e.Some? then m[key := e.value] else m
  }
}
