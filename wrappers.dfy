/** Option and Result values used for the source's `undefined`/`null` and its thrown errors. */
module Wrappers {

  datatype Option<+T> = None | Some(value: T)

  /** The outcome of a form schema: the parsed value, or every check that failed. */
  datatype Validation<+T, +I> = Valid(value: T) | Invalid(issues: seq<I>)

  /** A completed call: `Ok` with its value, or `Err` with the message of the thrown `Error`. */
  datatype Result<+R> = Ok(value: R) | Err(message: string)
}
