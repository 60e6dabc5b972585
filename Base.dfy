/** Value types shared by every component: optional values, results, and the
    fixed-width unsigned integers the Go source uses. */
module Base {

  /** A value that may be absent; stands for Go's nil pointers and (value, bool) pairs. */
  datatype Option<+T> = None | Some(value: T)

  /** A value or an error; stands for Go's (value, error) pairs. */
  datatype Result<+T, +E> = Success(value: T) | Failure(error: E)

  const TWO_TO_THE_32: int := 0x1_0000_0000
  const TWO_TO_THE_64: int := 0x1_0000_0000_0000_0000

  type uint32 = x: int | 0 <= x < TWO_TO_THE_32
  type uint64 = x: int | 0 <= x < TWO_TO_THE_64
  type byte = x: int | 0 <= x < 256
}
