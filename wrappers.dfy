/** Option and Result, and the errors the modelled Python code raises. */
module Wrappers {

  datatype Option<+T> = None | Some(value: T)

  /** A Python exception, as far as the modelled code raises or propagates one. */
  datatype Error =
    | NoDerivation(entity: string)  // the AttributeError raised by find_items when no rule matches
    | KeyError(key: string)         // a missing key in a directory dict
    | ValueError                    // CategorySet.__call__ with an identity outside the set
    | IndexError                    // CategorySet.__getitem__ out of range
    | TypeError                     // a keyword argument given twice in a call
    | AttributeError(name: string)  // looking up an attribute a class does not have
    | StopIteration                 // CategorySet.__next__ after the last item
    | AccessorError(reason: string) // whatever a user-supplied accessor raises

  /** A value, or the exception that the Python code raises instead. */
  datatype Result<+T> = Ok(value: T) | Err(error: Error)
}
