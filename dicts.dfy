/** Python dictionary access as used by the climate entity: `d[k]`, which
    raises KeyError on a missing key, and `d.get(k)`, which yields None. */
module Dicts {

  datatype Option<+T> = None | Some(value: T)

  /** The outcome of `d[k]`: the value, or the KeyError naming the missing key.
      Failure-compatible, so `:-` propagates the KeyError as Python does. */
  datatype Result<+T, +K> = Ok(value: T) | KeyError(key: K) {

    predicate IsFailure() {
      KeyError?
    }

    function PropagateFailure<U>(): Result<U, K>
      requires KeyError?
    {
      KeyError(key)
    }

    function Extract(): T
      requires Ok?
    {
      value
    }
  }

  /** `d[k]`: never substitutes a default for a missing key. */
  function Subscript<K, V>(d: map<K, V>, k: K): (r: Result<V, K>)
    ensures r.Ok? <==> k in d
    ensures r.Ok? ==> r.value == d[k]
    ensures r.KeyError? ==> r.key == k
  {
    if k in d then Ok(d[k]) else KeyError(k)
  }

  /** `d.get(k)`: None for a missing key. */
  function Get<K, V>(d: map<K, V>, k: K): (r: Option<V>)
    ensures r.Some? <==> k in d
    ensures r.Some? ==> r.value == d[k]
  {
    if k in d then Some(d[k]) else None
  }
}
