/** The router's view of its external providers (retriever, scorer, search,
    synthesizer): each call either returns a value or raises. */
module Providers {

  /** The outcome of a call into an external provider: a value, or the
      message of the exception it raised. */
  datatype Outcome<+T> = Ok(value: T) | Err(msg: string)
}
