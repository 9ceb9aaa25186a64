/** Small shared vocabulary: optional values, results, and raw bytes (Foundation's `Data`). */
module Common {

  datatype Option<+T> = None | Some(value: T)

  datatype Result<+R, +E> = Success(value: R) | Failure(error: E)

  /** Foundation `Data`: an opaque byte string. */
  type Bytes = seq<bv8>
}
