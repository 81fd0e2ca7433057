/** The two wrappers the model uses: `Option` for a JavaScript value that may be
    `undefined` or `null`, and `Result` for an operation that may throw. */
module Wrappers {

  datatype Option<+T> = None | Some(value: T)

  datatype Result<+T, +E> = Success(value: T) | Failure(error: E)
}
