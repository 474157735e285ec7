/** Option and Result: the model's stand-ins for Python's `None` and for a raised exception. */
module Outcomes {

  datatype Option<+T> = None | Some(value: T)

  /** `Err` is an exception the modelled Python code raises (and does not catch). */
  datatype Result<+T, +E> = Ok(value: T) | Err(error: E) {

    predicate IsFailure() {
      Err?
    }

    function PropagateFailure<U>(): Result<U, E>
      requires Err?
    {
      Err(error)
    }

    function Extract(): T
      requires Ok?
    {
      value
    }
  }

  /** `m.get(key, default)`: the value under `key`, or `default` when `m` lacks the key. */
  function GetOr<K, V>(m: map<K, V>, key: K, default: V): V {
    if key in m then m[key] else default
  }
}
