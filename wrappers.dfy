/** Optional values and results, standing for Java's nullable references and thrown exceptions. */
module Wrappers {

  /** A reference that may be null (None). */
  datatype Option<+T> = None | Some(value: T)

  /** A value, or the exception that replaced it. Usable with `:-`. */
  datatype Result<+R, +E> = Success(value: R) | Failure(error: E) {

    predicate IsFailure() {
      Failure?
    }

    function PropagateFailure<U>(): Result<U, E>
      requires Failure?
    {
      Failure(error)
    }

    function Extract(): R
      requires Success?
    {
      value
    }
  }

  /** The value `m` maps `k` to, or None: the result of Java's `Map.get`. */
  function Lookup<K, V>(m: map<K, V>, k: K): (r: Option<V>)
    ensures r.Some? <==> k in m
    ensures r.Some? ==> r.value == m[k]
  {
    if k in m then Some(m[k]) else None
  }
}
