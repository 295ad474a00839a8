/** Option and Result: the model's stand-ins for Python's `None` and for an
    operation that either yields a value or ends the process with an error. */
module Wrappers {

  datatype Option<+T> = None | Some(value: T)

  datatype Result<+T, +E> = Ok(value: T) | Err(error: E)

  /** `getattr(args, key, None)`: a missing attribute and a `None` attribute read alike. */
  function Get<K, V>(m: map<K, Option<V>>, k: K): Option<V>
  {
    if k in m then m[k] else None
  }
}
