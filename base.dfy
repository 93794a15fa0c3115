/** Go-level building blocks shared by every module: nil-able values and the
    fixed-width integer type the wire messages use. */
module Base {

  /** A Go pointer or interface that may be nil. */
  datatype Option<+T> = None | Some(value: T)

  /** A value produced by a foreign decoder (JSON, query strings): either the
      decoded value or the decoder's error text. */
  datatype Result<+T, +E> = Success(value: T) | Failure(error: E)

  /** Go's `uint64`: the type of every user id. */
  type uint64 = x: int | 0 <= x < 0x1_0000_0000_0000_0000
}
