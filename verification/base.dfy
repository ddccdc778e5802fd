/** Optional values and results with an error, shared by the other modules. */
module Base {

  /** 2^64: the modulus of every 64-bit unsigned type (`size_t`, `unsigned long`). */
  const TWO_TO_THE_64: nat := 0x1_0000_0000_0000_0000

  /** A 64-bit unsigned integer. */
  type UInt64 = n: nat | n < TWO_TO_THE_64

  /** A value that may be missing. */
  datatype Option<+T> = None | Some(value: T)

  /** The outcome of an operation that can fail with an error of type `E`. */
  datatype Result<+T, +E> = Ok(value: T) | Err(error: E)

  /** Map lookup as an `Option`: `None` exactly when the key is absent. */
  function Lookup<K, V>(m: map<K, V>, k: K): (r: Option<V>)
    ensures r.None? <==> k !in m
    ensures r.Some? ==> r.value == m[k]
  {
    if k in m then Some(m[k]) else None
  }
}
