/** The two value types every part of the model shares: an optional value, for
    Python's `None`, and a byte, for the data on sockets and pipes. */
module Base {
  datatype Option<+T> = None | Some(value: T)

  newtype byte = x: int | 0 <= x < 256
}
