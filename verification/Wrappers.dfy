/** Shared option type, used for nullable values and for optional columns. */
module Wrappers {

  datatype Option<+T> = None | Some(value: T)

  /** SQL COALESCE of two columns. */
  function Coalesce<T>(first: Option<T>, second: Option<T>): Option<T> {
    if first.Some? then first else second
  }
}
