/** Optional values, the exceptions the modelled code raises, and results that carry them. */
module Wrappers {

  /** A pandas/Python attribute that is `None` (or, for `Preprocessing`, not yet assigned) is `None` here. */
  datatype Option<T> = None | Some(value: T) {
    function GetOr(default: T): T {
      if Some? then value else default
    }
  }

  /** The exceptions of the core that the model keeps as values. */
  datatype Error =
    | ValueError(message: string)   // raised with a message by the repository's own code
    | EmptyMin                      // the ValueError Python's `min()` raises on an empty argument
    | NotFittedError                // what the estimator raises when asked to predict before `fit`

  datatype Result<T> = Success(value: T) | Failure(error: Error)
}
