// Small datatypes shared by every module.
module Prelude {

  datatype Option<+T> = None | Some(value: T)

  /** The result of a call that either returns or raises. */
  datatype Result<+T> = Ok(value: T) | Raised {
    predicate IsFailure() {
      Raised?
    }

    function PropagateFailure<U>(): Result<U>
      requires Raised?
    {
      Raised
    }

    function Extract(): T
      requires Ok?
    {
      value
    }
  }

  /** `COALESCE(newer, older)`. */
  function Coalesce<T>(newer: Option<T>, older: Option<T>): Option<T> {
    if newer.Some? then newer else older
  }
}
