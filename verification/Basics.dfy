/** What several of the models share. */
module Basics {

  datatype Option<+T> = None | Some(value: T)

  // Times and durations are in nanoseconds.
  const MILLISECOND: int := 1_000_000
  const SECOND: int := 1_000_000_000
}
