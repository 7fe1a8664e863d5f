/** Small value types shared by every screen of the application. */
module Common {

  /** A value that may be absent: a nullable column, or the `user` of the auth context. */
  datatype Option<+T> = None | Some(value: T)

  /** The remote store's answer to one request. Whether a request succeeds (network,
      authorization, foreign keys) is decided outside this model, so every handler
      receives the answers to the requests it issues as parameters. */
  datatype Outcome = Ok | Err

  /** The rows a query returned, or the failure the client reported instead. */
  datatype Result<+T> = Success(value: T) | Failure
}
