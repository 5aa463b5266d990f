/** Small shared vocabulary of the model. */
module Basics {

  /** A value that may be missing; `None` stands for JavaScript's `undefined`. */
  datatype Option<+T> = None | Some(value: T)

  /** A movement timestamp. The source stores ISO-8601 strings; the model only
      ever copies them around, so their contents are never interpreted. */
  type Stamp = string

  /** What an event handler did. `TypeError` is the exception the handler
      throws when it dereferences an `undefined` current account: the handler
      stops there, so no state of the model changes. */
  datatype Outcome = Applied | Declined | TypeError
}
