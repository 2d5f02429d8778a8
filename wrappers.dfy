/** Option and Result types shared by every module, plus the exceptions the
    source programs raise, named after the language that raises them. */
module Wrappers {

  datatype Option<+T> = None | Some(value: T)

  /** The exceptions of the modelled programs. */
  datatype Error =
    | ValueError             // Python
    | KeyError               // Python, set.remove of an absent element
    | TypeError              // Python / JavaScript, use of an undefined value
    | IllegalArgument        // Java IllegalArgumentException
    | IllegalState           // Java IllegalStateException
    | NullPointer            // Java NullPointerException
    | UnknownPizza           // TypeScript `throw new Error(...)`

  datatype Result<+T> = Ok(value: T) | Err(error: Error)

  /** A call that either completes or raises, without a value. */
  datatype Outcome = Pass | Raise(error: Error)
}
