/** What several modules share: an optional value, an octet, and the arithmetic the timers use. */
module Prelude {

  /** A value that may be absent: JavaScript's `null` or `undefined`. */
  datatype Option<+T> = None | Some(value: T)

  type byte = x: int | 0 <= x < 256

  function Min(a: int, b: int): int {
    if a <= b then a else b
  }

  function Max(a: int, b: int): int {
    if a <= b then b else a
  }
}
