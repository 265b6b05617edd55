/** Optional values and fatal outcomes shared by every part of the interpreter model. */
module Wrappers {

  /** Rust's `Option<T>`. */
  datatype Option<+T> = None | Some(value: T)

  /**
   * The reasons for which the host program aborts (a Rust panic) instead of
   * producing a value. A panic is never turned into an interpreter `Error` object.
   */
  datatype Fatal =
    | IntOverflow        // i64 arithmetic or an integer literal out of range
    | DivisionByZero     // i64 division by zero
    | Unimplemented      // a `todo!()` arm
    | UnwrapNone         // `unwrap()` on a `None`
    | MissingArgument    // `args[i]` with too few arguments
    | FuelExhausted      // the evaluation bound of the model ran out (stands in for divergence)

  /** A computation that either yields a value or aborts the host program. */
  datatype Outcome<+T> = Done(value: T) | Panic(reason: Fatal)
  {
    predicate IsFailure() { Panic? }

    function PropagateFailure<U>(): Outcome<U>
      requires Panic?
    {
      Panic(reason)
    }

    function Extract(): T
      requires Done?
    {
      value
    }
  }
}
