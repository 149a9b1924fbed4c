/** Failure-compatible wrappers used throughout the model: `Option` for
    lookups that may miss and `Result` for operations that raise in the
    original program. Both work with Dafny's `:-` operator. */
module Wrappers {

  datatype Option<+T> = None | Some(value: T)

  datatype Result<+T, +E> = Ok(value: T) | Err(error: E) {

    predicate IsFailure() {
      Err?
    }

    function PropagateFailure<U>(): Result<U, E>
      requires Err?
    {
      Err(error)
    }

    function Extract(): T
      requires Ok?
    {
      value
    }
  }
}

/** The exceptions the modelled code raises, one constructor per raise site. */
module Errors {

  datatype Error =
    | UnknownModelFamily(family: string)   // obtain_paramgrid: ValueError for an unregistered classifier
    | UnknownParameter(name: string)       // exclusion of, or value lookup for, a name not in the grid
    | NotImplemented(numParams: int)       // parameter combinations for anything but pairs
    | NoExcludedParameter                  // list(excluded_params)[0] on an empty set
    | MissingParameter(name: string)       // the held-out parameter is absent from the setup
    | SetupUnavailable(setupId: int)       // the fallback setup fetch failed
    | MalformedGrid                        // param_distributions cannot be subtracted from a key set
    | UnhashableValue                      // the held-out value is an array or object (not a dict key)
    | MalformedResult                      // the ablation payload is not an object
}
