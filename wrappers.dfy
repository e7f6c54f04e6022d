/** Small value wrappers shared by every module of the model. */
module Wrappers {

  /** A possibly absent value: SQL NULL, a missing row, JavaScript null/undefined. */
  datatype Option<+T> = None | Some(value: T) {
    function GetOr(default: T): T {
      match this
      case Some(v) => v
      case None => default
    }
  }

  /** The outcome of an operation that can fail with an error value. */
  datatype Result<+R, +E> = Ok(value: R) | Err(error: E)

  /**
   * Whether a key of an input object was supplied at all.  In the source a
   * key holding `undefined` is skipped by inserts and updates, which is not
   * the same as supplying `null`; `Field<Option<T>>` keeps the two apart.
   */
  datatype Field<+T> = Omitted | Given(value: T) {
    function Or(current: T): T {
      match this
      case Given(v) => v
      case Omitted => current
    }
  }

  /** The entry of `m` at `k`, or None. */
  function Get<K, V>(m: map<K, V>, k: K): (r: Option<V>)
    ensures r.Some? <==> k in m
    ensures r.Some? ==> r.value == m[k]
  {
    if k in m then Some(m[k]) else None
  }
}
