/** Bytes, and what a read of them comes to. */
module Bytes {
  type Byte = b: int | 0 <= b < 256

  /** A read gives a result, throws std::out_of_range, or dereferences a null cursor. */
  datatype Outcome<+T> = Got(value: T) | OutOfRange | NullCursor
}
