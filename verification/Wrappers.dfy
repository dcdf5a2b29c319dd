/** Optional and failing values shared by every module. */
module Wrappers {
  datatype Option<+T> = None | Some(value: T)

  datatype Result<+T, +E> = Success(value: T) | Failure(error: E)

  function Min(a: int, b: int): int {
    if a <= b then a else b
  }

  function Max(a: int, b: int): int {
    if a <= b then b else a
  }
}

/** The signals sent to worker processes. */
module Signals {
  datatype Signal = SIGTERM | SIGINT | SIGKILL
}
